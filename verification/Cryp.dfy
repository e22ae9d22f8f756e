/** The CRYP processor as the driver sees it: registers, two FIFOs of eight words, and jobs that take any
    number of status reads to finish. */
module CrypHardware {
  import opened Bits
  import opened Words
  import opened BlockModes
  import opened MemoryRun
  import opened CrypRegisters

  const FIFO_DEPTH: nat := 8

  /** What the core is busy with. The result is latched when the job starts and becomes visible when it ends. */
  datatype Job = NoJob | Preparing(keys: KeyRegisters) | Processing(out: seq<Word>, iv: IvRegisters)

  /** One piece of silicon: its ciphers, how long each job takes, and two things that the driver must not depend
      on: whether the core clears CRYPEN by itself after a key preparation, and whether it ignores writes to the
      key and IV registers while a job is in hand. */
  datatype Chip = Chip(si: Silicon, schedule: Schedule, dropsEnable: bool, locksWhileBusy: bool)

  datatype Registers = Registers(
    cr: bv32, dmacr: bv32, keys: KeyRegisters, iv: IvRegisters,
    inFifo: seq<Word>, outFifo: seq<Word>,
    job: Job,
    remaining: nat,          // status reads that will still see the job busy
    jobs: nat,               // jobs started so far
    polls: nat,              // reads of SR so far
    flushedWhileBusy: bool)  // FFLUSH was once written while a job was in hand

  ghost predicate ValidFor(hw: Chip, r: Registers) {
    && Sound(hw.si)
    && FlushClear(r.cr)
    && |r.inFifo| <= FIFO_DEPTH
    && |r.outFifo| + (if r.job.Processing? then |r.job.out| else 0) <= FIFO_DEPTH
  }

  function PrepareJob(si: Silicon, cr: bv32, k: KeyRegisters): (j: Job)
    requires Sound(si)
    ensures j.Preparing?
  {
    var n := KeyBytesOf(cr);
    Preparing(WithAesKey(n, k, si.aesPrep(AesKey(n, k))))
  }

  function BlockJob(si: Silicon, cr: bv32, k: KeyRegisters, iv: IvRegisters, ws: seq<Word>): (j: Job)
    requires Sound(si) && |ws| == Width(FamilyOf(cr))
    ensures j.Processing? && |j.out| == |ws|
  {
    var f := FamilyOf(cr);
    var s := Step(ContextOf(si, cr, k), ChainOf(f, iv), BlockOf(cr, ws));
    Processing(WordsOf(cr, s.out), WithChain(f, iv, s.chain))
  }

  // A block of data is taken in as soon as it is complete and the output FIFO has room for the result
  predicate CanStart(r: Registers) {
    && r.job.NoJob? && Enabled(r.cr) && !KeyPreparation(r.cr)
    && |r.inFifo| >= Width(FamilyOf(r.cr))
    && |r.outFifo| + Width(FamilyOf(r.cr)) <= FIFO_DEPTH
  }

  function Started(hw: Chip, r: Registers): (q: Registers)
    requires ValidFor(hw, r)
    ensures ValidFor(hw, q)
  {
    hide Sound, Any, Set, Clear, ModeOf, BlockJob, PrepareJob;
    if CanStart(r) then
      var n := Width(FamilyOf(r.cr));
      r.(job := BlockJob(hw.si, r.cr, r.keys, r.iv, r.inFifo[..n]), inFifo := r.inFifo[n..],
         remaining := hw.schedule(r.jobs), jobs := r.jobs + 1)
    else r
  }

  /** A write to the control register. FFLUSH empties the FIFOs and reads back as 0; raising CRYPEN in key
      preparation mode starts the preparation. */
  function CrWritten(hw: Chip, r: Registers, v: bv32): (q: Registers)
    requires ValidFor(hw, r)
    ensures ValidFor(hw, q)
  {
    hide Sound, Any, Set, Clear, ModeOf, BlockJob, PrepareJob;
    ClearClears(v, 0x4000);
    ClearOther(v, 0x4000, 0x8000);
    ModeUnchanged(v, 0x4000);
    var flushed :=
      if !FlushClear(v) then
        r.(inFifo := [], outFifo := [], flushedWhileBusy := r.flushedWhileBusy || !r.job.NoJob?)
      else r;
    var w := flushed.(cr := Clear(v, 0x4000));
    if Enabled(v) && !Enabled(r.cr) && KeyPreparation(v) && w.job.NoJob? then
      w.(job := PrepareJob(hw.si, v, w.keys), remaining := hw.schedule(w.jobs), jobs := w.jobs + 1)
    else
      Started(hw, w)
  }

  predicate LocksKeys(hw: Chip, r: Registers) {
    hw.locksWhileBusy && !r.job.NoJob?
  }

  // The key registers after a write that would leave k there
  function KeysWritten(hw: Chip, r: Registers, k: KeyRegisters): KeyRegisters {
    if LocksKeys(hw, r) then r.keys else k
  }

  // The same for the IV registers
  function IvWritten(hw: Chip, r: Registers, iv: IvRegisters): IvRegisters {
    if LocksKeys(hw, r) then r.iv else iv
  }

  // The end of the job in hand
  function Finished(hw: Chip, r: Registers): (q: Registers)
    requires ValidFor(hw, r) && !r.job.NoJob?
    ensures ValidFor(hw, q)
  {
    hide Sound, Any, Set, Clear, ModeOf, BlockJob, PrepareJob;
    match r.job
    case Preparing(k) =>
      ClearOther(r.cr, 0x8000, 0x4000);
      Started(hw, r.(keys := k, job := NoJob, cr := if hw.dropsEnable then Clear(r.cr, 0x8000) else r.cr))
    case Processing(out, iv) =>
      Started(hw, r.(outFifo := r.outFifo + out, iv := iv, job := NoJob))
  }

  /** A read of the status register: meanwhile the job in hand may end. */
  function SrRead(hw: Chip, r: Registers): (q: Registers)
    requires ValidFor(hw, r)
    ensures ValidFor(hw, q)
  {
    hide Sound, Any, Set, Clear, ModeOf, BlockJob, PrepareJob;
    var c := r.(polls := r.polls + 1);
    if r.job.NoJob? then c
    else if r.remaining > 0 then c.(remaining := r.remaining - 1)
    else Finished(hw, c)
  }

  function DrWritten(hw: Chip, r: Registers, w: Word): (q: Registers)
    requires ValidFor(hw, r) && |r.inFifo| < FIFO_DEPTH
    ensures ValidFor(hw, q)
  {
    hide Sound, Any, Set, Clear, ModeOf, BlockJob, PrepareJob;
    Started(hw, r.(inFifo := r.inFifo + [w]))
  }

  function DoutRead(hw: Chip, r: Registers): (q: Registers)
    requires ValidFor(hw, r) && r.outFifo != []
    ensures ValidFor(hw, q)
  {
    hide Sound, Any, Set, Clear, ModeOf, BlockJob, PrepareJob;
    Started(hw, r.(outFifo := r.outFifo[1..]))
  }

  // SR: IFEM 0x01, IFNF 0x02, OFNE 0x04, OFFU 0x08, BUSY 0x10
  function Status(r: Registers): bv32 {
    (if |r.inFifo| == 0 then 0x01 else 0) | (if |r.inFifo| < FIFO_DEPTH then 0x02 else 0) |
    (if |r.outFifo| > 0 then 0x04 else 0) | (if |r.outFifo| == FIFO_DEPTH then 0x08 else 0) |
    (if !r.job.NoJob? then 0x10 else 0)
  }

  lemma StatusBits(r: Registers)
    ensures Status(r) & 0x10 != 0 <==> !r.job.NoJob?
    ensures Status(r) & 0x01 != 0 <==> r.inFifo == []
    ensures Status(r) & 0x04 != 0 <==> r.outFifo != []
  {
  }

  // Without a complete block in the input FIFO nothing starts
  lemma NothingStarts(hw: Chip, r: Registers)
    requires ValidFor(hw, r) && (r.inFifo == [] || !Enabled(r.cr) || !r.job.NoJob?)
    ensures Started(hw, r) == r
  {
    hide Sound, Any, Set, Clear, ModeOf, BlockJob, PrepareJob;
  }

  /** The processor. Data may only be written into a FIFO that is not full and read from one that is not
      empty: these are the preconditions of WriteDR and ReadDOUT. */
  class Cryp {
    const hw: Chip
    var r: Registers

    ghost predicate Valid()
      reads this
    {
      ValidFor(hw, r)
    }

    // Disabled, and with no job in hand
    ghost predicate Idle()
      reads this
    {
      Valid() && r.job.NoJob? && !Enabled(r.cr)
    }

    method WriteCR(v: bv32)
      requires Valid()
      modifies this
      ensures Valid() && r == CrWritten(hw, old(r), v)
    {
      r := CrWritten(hw, r, v);
    }

    method ReadSR() returns (sr: bv32)
      requires Valid()
      modifies this
      ensures Valid() && r == SrRead(hw, old(r)) && sr == Status(r)
    {
      r := SrRead(hw, r);
      sr := Status(r);
    }

    method WriteDR(w: Word)
      requires Valid() && |r.inFifo| < FIFO_DEPTH
      modifies this
      ensures Valid() && r == DrWritten(hw, old(r), w)
    {
      r := DrWritten(hw, r, w);
    }

    method ReadDOUT() returns (w: Word)
      requires Valid() && r.outFifo != []
      modifies this
      ensures Valid() && w == old(r.outFifo)[0] && r == DoutRead(hw, old(r))
    {
      w := r.outFifo[0];
      r := DoutRead(hw, r);
    }
  }
}
