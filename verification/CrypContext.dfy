/** CRYP_SaveContext and CRYP_RestoreContext. */
module CrypContext {
  import opened Bits
  import opened Words
  import opened BlockModes
  import opened MemoryRun
  import opened CrypRegisters
  import opened CrypHardware
  import opened CrypDriver
  import opened CrypBlocks
  import opened CrypRun
  import opened CrypLaws

  const MAX_TIMEOUT: nat := 0xFFFF

  // The structure that CRYP_SaveContext fills in place
  class SavedContext {
    var CR_bits9to2: bv32
    var iv: IvRegisters
    var keys: KeyRegisters

    constructor (bits: bv32, iv: IvRegisters, keys: KeyRegisters)
    {
      CR_bits9to2, this.iv, this.keys := bits, iv, keys;
    }
  }

  // ----- waiting until the processor is drained

  // The flags that the save looks at. The test meant to single out TDES looks at bit 3 of CR only.
  function CheckMask(cr: bv32): bv32 {
    if Any(cr, 0x0000 | 0x0008) then 0x11 else 0x15
  }

  // IFEM is set and the other flags of the mask are clear
  predicate Drained(mask: bv32, r: Registers) {
    Status(r) & mask == 0x01
  }

  lemma DrainedMeans(mask: bv32, r: Registers)
    requires mask == 0x11 || mask == 0x15
    ensures Drained(mask, r) <==> r.inFifo == [] && r.job.NoJob? && (mask == 0x15 ==> r.outFifo == [])
  {
    StatusParts(Status(r));
    StatusBits(r);
  }

  lemma StatusParts(sr: bv32)
    ensures sr & 0x11 == 0x01 <==> sr & 0x01 != 0 && sr & 0x10 == 0
    ensures sr & 0x15 == 0x01 <==> sr & 0x01 != 0 && sr & 0x10 == 0 && sr & 0x04 == 0
  {
  }

  /** The modes for which the save makes sure that the output FIFO is empty. */
  predicate ChecksOutput(m: AlgoMode) {
    m.TdesEcb? || m.DesEcb? || m.AesEcb? || m.AesCtr?
  }

  lemma CheckMaskOfMode(cr: bv32)
    ensures CheckMask(cr) == if ChecksOutput(ModeOf(cr)) then 0x15 else 0x11
  {
    assert cr & 0x0008 == (cr & 0x0038) & 0x0008;
  }

  /** A drained processor has an empty output FIFO for every content of the FIFOs, except in the CBC modes
      and in key preparation: there the save can succeed and leave results behind. */
  lemma OutputDrainedIff(cr: bv32)
    ensures (forall r: Registers {:trigger Drained(CheckMask(cr), r)} ::
               r.cr == cr && Drained(CheckMask(cr), r) ==> r.outFifo == [])
            <==> ChecksOutput(ModeOf(cr))
  {
    hide ModeOf, Any, Drained, CheckMask;
    CheckMaskOfMode(cr);
    forall r: Registers
      ensures Drained(CheckMask(cr), r) <==>
              r.inFifo == [] && r.job.NoJob? && (CheckMask(cr) == 0x15 ==> r.outFifo == [])
    {
      DrainedMeans(CheckMask(cr), r);
    }
    if !ChecksOutput(ModeOf(cr)) {
      var z := ZERO;
      var left := Registers(cr, 0, KeyRegisters(z, z, z, z, z, z, z, z), IvRegisters(z, z, z, z), [], [z], NoJob, 0, 0,
                            0, false);
      assert Drained(CheckMask(cr), left);
    }
  }

  // The registers after n reads of the status register
  function Polled(hw: Chip, r: Registers, n: nat): (q: Registers)
    requires ValidFor(hw, r)
    ensures ValidFor(hw, q)
  {
    if n == 0 then r else SrRead(hw, Polled(hw, r, n - 1))
  }

  // Reading the status register does not touch the DMA requests
  lemma {:induction false} PolledDma(hw: Chip, r: Registers, n: nat)
    requires ValidFor(hw, r)
    ensures Polled(hw, r, n).dmacr == r.dmacr
  {
    hide Sound, Any, BlockJob, PrepareJob, ModeOf;
    if n > 0 {
      PolledDma(hw, r, n - 1);
    }
  }

  // DIEN and then DOEN
  lemma DmaSwitchesOff(dmacr: bv32)
    ensures Clear(Clear(dmacr, 0x01), 0x02) == Clear(dmacr, 0x03)
  {
  }

  // Once there is no job and no input, reading the status register changes nothing any more
  lemma {:induction false} PolledStays(hw: Chip, r: Registers, k: nat, n: nat)
    requires ValidFor(hw, r) && k <= n && Polled(hw, r, k).job.NoJob?
    ensures Polled(hw, r, n) == Polled(hw, r, k).(polls := Polled(hw, r, k).polls + n - k)
  {
    hide Sound, Any, Finished;
    if k < n {
      PolledStays(hw, r, k, n - 1);
    }
  }

  // DIEN is bit 0 of DMACR, DOEN bit 1
  function WithoutDien(r: Registers): Registers {
    r.(dmacr := Clear(r.dmacr, 0x01))
  }

  // What another task may leave behind: any configuration, keys and IV, but no work in progress
  ghost predicate LeftIdle(hw: Chip, r: Registers) {
    ValidFor(hw, r) && r.job.NoJob? && r.inFifo == [] && r.outFifo == []
  }

  // Reads before the end of a job only count
  lemma {:induction false} PolledBusy(hw: Chip, r: Registers, n: nat)
    requires ValidFor(hw, r) && !r.job.NoJob? && n <= r.remaining
    ensures Polled(hw, r, n) == r.(remaining := r.remaining - n, polls := r.polls + n)
  {
    hide Sound, Any, Finished;
    if n > 0 {
      PolledBusy(hw, r, n - 1);
    }
  }

  // The words go into the IN FIFO one after the other
  function Fed(hw: Chip, r: Registers, ws: seq<Word>): (q: Registers)
    requires ValidFor(hw, r) && |r.inFifo| + |ws| <= FIFO_DEPTH
    ensures ValidFor(hw, q)
    decreases |ws|
  {
    hide Sound, Any, ModeOf, BlockJob;
    if ws == [] then r else Fed(hw, DrWritten(hw, r, ws[0]), ws[1..])
  }

  // The processor after a complete block, with its job in hand
  function BlockTaken(hw: Chip, r: Registers, ws: seq<Word>): Registers
    requires Sound(hw.si) && |ws| == Width(FamilyOf(r.cr))
  {
    r.(inFifo := [], job := BlockJob(hw.si, r.cr, r.keys, r.iv, ws), remaining := hw.schedule(r.jobs),
       jobs := r.jobs + 1)
  }

  lemma {:induction false} FedBlock(hw: Chip, r: Registers, ws: seq<Word>)
    requires ValidFor(hw, r) && Enabled(r.cr) && !KeyPreparation(r.cr) && r.job.NoJob? && r.outFifo == []
    requires ws != [] && |r.inFifo| + |ws| == Width(FamilyOf(r.cr))
    ensures Fed(hw, r, ws) == BlockTaken(hw, r, r.inFifo + ws)
    decreases |ws|
  {
    hide Sound, Any, ModeOf, BlockJob, DrWritten, Enabled, KeyPreparation, FamilyOf;
    Filling(hw, r, ws[0]);
    if |ws| == 1 {
      assert ws == [ws[0]];
    } else {
      FedBlock(hw, DrWritten(hw, r, ws[0]), ws[1..]);
      assert r.inFifo + [ws[0]] + ws[1..] == r.inFifo + ws;
    }
  }

  // When the job in hand has ended, its result is in the OUT FIFO, and nothing else starts
  lemma BlockEnds(hw: Chip, r: Registers, n: nat)
    requires ValidFor(hw, r) && r.job.Processing? && r.inFifo == [] && n > r.remaining
    ensures Polled(hw, r, n) ==
            r.(job := NoJob, remaining := 0, iv := r.job.iv, outFifo := r.outFifo + r.job.out, polls := r.polls + n)
  {
    hide Sound, Any, ModeOf, BlockJob, PrepareJob;
    PolledBusy(hw, r, r.remaining);
    var q := Polled(hw, r, r.remaining + 1);
    NothingStarts(hw, q);
    PolledStays(hw, r, r.remaining + 1, n);
  }

  /** From any idle processor that is enabled: after one block was written, and nothing read, a save succeeds
      exactly in the CBC modes, if the block is processed in time; then it leaves the result behind. */
  lemma SavedBeforeReadIff(hw: Chip, r: Registers, ws: seq<Word>)
    requires LeftIdle(hw, r) && Enabled(r.cr) && !KeyPreparation(r.cr) && |ws| == Width(FamilyOf(r.cr))
    ensures var r0 := WithoutDien(Fed(hw, r, ws));
            && ValidFor(hw, r0) && r0.cr == r.cr
            && var q := Polled(hw, r0, 65536);
               && (Drained(CheckMask(r.cr), q) <==>
                     hw.schedule(r.jobs) <= 65535 && ChainingOfMode(ModeOf(r.cr)) == CbcMode)
               && (Drained(CheckMask(r.cr), q) ==>
                     q.outFifo == BlockJob(hw.si, r.cr, r.keys, r.iv, ws).out && q.outFifo != [])
  {
    hide Sound, Any, ModeOf, BlockJob, Drained, CheckMask, Fed, Polled, Enabled, Width, FamilyOf, Clear;
    FedBlock(hw, r, ws);
    assert r.inFifo + ws == ws;
    PolledBlock(hw, WithoutDien(Fed(hw, r, ws)), MAX_TIMEOUT + 1);
    CheckMaskOfMode(r.cr);
    DrainedMeans(CheckMask(r.cr), Polled(hw, WithoutDien(Fed(hw, r, ws)), MAX_TIMEOUT + 1));
  }

  // Whether a block is ready after n reads
  lemma PolledBlock(hw: Chip, r: Registers, n: nat)
    requires ValidFor(hw, r) && r.job.Processing? && r.inFifo == [] && r.outFifo == []
    ensures var q := Polled(hw, r, n);
            q.inFifo == [] && (q.job.NoJob? <==> r.remaining < n) && q.outFifo == if q.job.NoJob? then r.job.out else []
  {
    hide Sound, Any, Polled;
    if n <= r.remaining {
      PolledBusy(hw, r, n);
    } else {
      BlockEnds(hw, r, n);
      assert [] + r.job.out == r.job.out;
    }
  }

  // ----- the two functions

  // KEYSIZE, DATATYPE, ALGOMODE and ALGODIR
  function Configuration(cr: bv32): bv32 {
    cr & 0x03FC
  }

  predicate ConfigurationOnly(bits: bv32) {
    bits & !0x03FC == 0
  }

  /** CRYP_SaveContext. `key` is the caller's copy of the key. It succeeds exactly when 65536 reads of the
      status register are enough for the processor to drain. */
  method SaveContext(p: Cryp, context: SavedContext, key: KeyRegisters) returns (status: ErrorStatus, ghost waits: nat)
    requires p.Valid()
    modifies p, context
    ensures p.Valid() && FlushClear(p.r.cr)
    ensures p.r.dmacr == Clear(old(p.r.dmacr), if status == SUCCESS then 0x03 else 0x01)
    ensures var r0 := WithoutDien(old(p.r));
            && ValidFor(p.hw, r0)
            && (status == SUCCESS <==> Drained(CheckMask(r0.cr), Polled(p.hw, r0, 65536)))
            && waits <= 65536
            && var q := Polled(p.hw, r0, waits);
               && (status == ERROR ==>
                     p.r == q && context.CR_bits9to2 == old(context.CR_bits9to2) &&
                     context.iv == old(context.iv) && context.keys == old(context.keys))
               && (status == SUCCESS ==>
                     && q.inFifo == [] && q.job.NoJob? && (ChecksOutput(ModeOf(r0.cr)) ==> q.outFifo == [])
                     && p.r == q.(dmacr := Clear(q.dmacr, 0x02), cr := Clear(q.cr, 0x8000))
                     && context.CR_bits9to2 == Configuration(p.r.cr) && context.iv == q.iv && context.keys == key)
  {
    hide Sound, Any, Set, Clear, ModeOf, Drained, CheckMask, SrRead, Finished, Configuration;
    ghost var dmacr := p.r.dmacr;
    p.r := WithoutDien(p.r);
    ghost var r0 := p.r;
    DmaSwitchesOff(dmacr);
    var mask := CheckMask(p.r.cr);
    CheckMaskOfMode(p.r.cr);
    var timeout := 0;
    var bitstatus: bv32 := 0;
    while timeout != MAX_TIMEOUT && bitstatus != 0x01
      invariant timeout <= MAX_TIMEOUT && p.Valid() && p.r == Polled(p.hw, r0, timeout)
      invariant bitstatus == 0x01 ==> Drained(mask, p.r)
      modifies p
    {
      bitstatus := MaskedStatus(p, mask);
      timeout := timeout + 1;
    }
    bitstatus := MaskedStatus(p, mask);
    waits := timeout + 1;
    ghost var q := p.r;
    assert q == Polled(p.hw, r0, waits);
    PolledDma(p.hw, r0, waits);
    DrainedMeans(mask, q);
    DrainedMeans(mask, Polled(p.hw, r0, timeout));
    DrainedMeans(mask, Polled(p.hw, r0, MAX_TIMEOUT + 1));
    if Drained(mask, Polled(p.hw, r0, timeout)) {
      PolledStays(p.hw, r0, timeout, MAX_TIMEOUT + 1);
      PolledStays(p.hw, r0, timeout, waits);
    }
    if bitstatus != 0x01 {
      status := ERROR;
    } else {
      p.r := p.r.(dmacr := Clear(p.r.dmacr, 0x02));
      Disable(p);
      context.CR_bits9to2 := Configuration(p.r.cr);
      context.iv := p.r.iv;
      context.keys := key;
      status := SUCCESS;
    }
  }

  // CRYP->SR & mask
  method MaskedStatus(p: Cryp, mask: bv32) returns (bits: bv32)
    requires p.Valid()
    modifies p
    ensures p.Valid() && p.r == SrRead(p.hw, old(p.r)) && (bits == 0x01 <==> Drained(mask, p.r))
  {
    hide Sound, Any, SrRead, Status;
    var sr := p.ReadSR();
    bits := sr & mask;
  }

  // What the restore puts into the registers before it enables the processor
  function Reloaded(hw: Chip, r: Registers, bits: bv32, keys: KeyRegisters, iv: IvRegisters): Registers {
    r.(cr := bits, keys := KeysWritten(hw, r, keys), iv := IvWritten(hw, r, iv))
  }

  /** CRYP_RestoreContext. It does not wait: if a job is in hand, the core may ignore the keys and the IV. Words
      that were left in the input FIFO are taken in as soon as the processor is enabled. */
  method RestoreContext(p: Cryp, context: SavedContext)
    requires p.Valid() && ConfigurationOnly(context.CR_bits9to2)
    modifies p
    ensures p.Valid()
    ensures var q := Reloaded(p.hw, old(p.r), context.CR_bits9to2, context.keys, context.iv);
            ValidFor(p.hw, q) && p.r == CrWritten(p.hw, q, Set(context.CR_bits9to2, 0x8000))
  {
    hide Sound, Any, Set, Clear, ModeOf, PrepareJob, ConfigurationOnly, CrWritten;
    ConfigurationSwitches(context.CR_bits9to2);
    DisabledWrite(p.hw, p.r, context.CR_bits9to2);
    p.WriteCR(context.CR_bits9to2);
    KeyInit(p, context.keys);
    IVInit(p, context.iv);
    p.WriteCR(Set(p.r.cr, 0x8000));
  }

  lemma DisabledWrite(hw: Chip, r: Registers, bits: bv32)
    requires ValidFor(hw, r) && !Any(bits, 0x4000) && !Any(bits, 0x8000)
    ensures CrWritten(hw, r, bits) == r.(cr := bits)
  {
    hide Sound, Any, Set, Clear, ModeOf, PrepareJob, BlockJob;
    ClearAgain(bits, 0x4000);
    NothingStarts(hw, r.(cr := bits));
  }

  // With an empty input FIFO, enabling starts nothing but a key preparation
  lemma RestoredEmpty(hw: Chip, r: Registers, bits: bv32)
    requires ValidFor(hw, r) && r.job.NoJob? && r.inFifo == [] && ConfigurationOnly(bits) && r.cr == bits
    ensures var v := Set(bits, 0x8000);
            var q := r.(cr := v);
            CrWritten(hw, r, v) ==
              if KeyPreparation(bits) then
                q.(job := PrepareJob(hw.si, v, q.keys), remaining := hw.schedule(q.jobs), jobs := q.jobs + 1)
              else q
  {
    hide Sound, Any, Set, Clear, ModeOf, PrepareJob, BlockJob, ConfigurationOnly;
    ConfigurationSwitches(bits);
    SetOther(bits, 0x8000, 0x4000);
    SetSets(bits, 0x8000);
    ClearAgain(Set(bits, 0x8000), 0x4000);
    ModeUnchanged(bits, 0x8000);
    NothingStarts(hw, r.(cr := Set(bits, 0x8000)));
  }

  lemma ConfigurationSwitches(bits: bv32)
    requires ConfigurationOnly(bits)
    ensures !Any(bits, 0x4000) && !Any(bits, 0x8000)
  {
    assert bits & 0x4000 == 0;
    assert bits & 0x8000 == 0;
  }

  // ----- an interrupted run

  // The configuration survives the way through the context structure
  lemma RestoredCr(cr: bv32)
    requires FlushClear(cr)
    ensures var bits := Configuration(Clear(cr, 0x8000));
            var v := Set(bits, 0x8000);
            && ConfigurationOnly(bits) && ModeOf(bits) == ModeOf(cr)
            && Enabled(v) && FlushClear(v)
            && ModeOf(v) == ModeOf(cr) && v & 0x00C0 == cr & 0x00C0 && v & 0x0300 == cr & 0x0300
            && Decrypting(v) == Decrypting(cr)
  {
    hide ModeOf, Decrypting, Any, ConfigurationOnly, Configuration, Set, Clear;
    var bits := Configuration(Clear(cr, 0x8000));
    var v := Set(bits, 0x8000);
    KeptFields(cr);
    SetSets(bits, 0x8000);
    SetOther(bits, 0x8000, 0x4000);
    ConfigurationSwitches(bits);
    SameModes(cr, bits, v);
  }

  lemma KeptFields(cr: bv32)
    ensures Set(Configuration(Clear(cr, 0x8000)), 0x8000) & 0x0038 == cr & 0x0038
    ensures Configuration(Clear(cr, 0x8000)) & 0x0038 == cr & 0x0038
    ensures Set(Configuration(Clear(cr, 0x8000)), 0x8000) & 0x00C0 == cr & 0x00C0
    ensures Set(Configuration(Clear(cr, 0x8000)), 0x8000) & 0x0300 == cr & 0x0300
    ensures Set(Configuration(Clear(cr, 0x8000)), 0x8000) & 0x0004 == cr & 0x0004
    ensures ConfigurationOnly(Configuration(Clear(cr, 0x8000)))
  {
  }

  lemma SameModes(cr: bv32, bits: bv32, v: bv32)
    requires bits & 0x0038 == cr & 0x0038 && v & 0x0038 == cr & 0x0038 && v & 0x0004 == cr & 0x0004
    ensures ModeOf(bits) == ModeOf(cr) && ModeOf(v) == ModeOf(cr) && Decrypting(v) == Decrypting(cr)
  {
  }

  // The context depends on the four fields of the control register only
  lemma SameSelection(si: Silicon, cr: bv32, v: bv32, k: KeyRegisters)
    requires ModeOf(v) == ModeOf(cr) && Decrypting(v) == Decrypting(cr)
    requires v & 0x0300 == cr & 0x0300 && v & 0x00C0 == cr & 0x00C0
    ensures ContextOf(si, v, k) == ContextOf(si, cr, k)
    ensures ByteSwapping(v) == ByteSwapping(cr)
  {
    hide ModeOf, Decrypting, AesKey, Bytes;
  }

  /** Between two blocks the processor is drained, so that the save succeeds. */
  lemma ReadyIsDrained(hw: Chip, r: Registers, c: Context)
    requires Ready(hw, r, c)
    ensures ValidFor(hw, WithoutDien(r))
    ensures Drained(CheckMask(r.cr), Polled(hw, WithoutDien(r), 65536))
  {
    hide Sound, Any, ModeOf, Polled, Drained, CheckMask;
    ReadyIsValid(hw, r, c);
    ReadyIsEmpty(hw, r, c);
    IdlePolled(hw, r, MAX_TIMEOUT + 1);
    CheckMaskOfMode(r.cr);
    DrainedMeans(CheckMask(r.cr), Polled(hw, WithoutDien(r), MAX_TIMEOUT + 1));
  }

  /** Saving between two blocks succeeds, and after any other use of the processor restoring sets it up as
      before, if the caller hands over the content of the key registers. */
  method SwitchAndBack(p: Cryp, context: SavedContext, key: KeyRegisters, other: Registers, ghost c: Context)
    returns (status: ErrorStatus)
    requires Ready(p.hw, p.r, c) && key == p.r.keys && LeftIdle(p.hw, other)
    modifies p, context
    ensures p.Valid() && status == SUCCESS && Ready(p.hw, p.r, c)
    ensures p.r.iv == old(p.r.iv) && p.r.keys == key && p.r.jobs == other.jobs
  {
    hide Sound, Any, Set, Clear, ModeOf, Polled, KeyOf, Drained, CheckMask, Ready, LeftIdle, ContextOf;
    hide Configuration, ConfigurationOnly, PrepareJob, CrWritten;
    ghost var before := p.r;
    ReadyIsValid(p.hw, before, c);
    ReadyIsDrained(p.hw, before, c);
    ghost var waits;
    status, waits := SaveContext(p, context, key);
    IdlePolled(p.hw, before, waits);
    RestoredBits(before.cr);
    LeftIdleMeans(p.hw, other);
    p.r := other;
    ReadyMode(p.hw, before, c);
    RestoreContext(p, context);
    RestoredEmpty(p.hw, Reloaded(p.hw, other, context.CR_bits9to2, context.keys, context.iv), context.CR_bits9to2);
    RestoredIsReady(p.hw, before, other, c, p.r);
  }

  lemma ReadyIsValid(hw: Chip, r: Registers, c: Context)
    requires Ready(hw, r, c)
    ensures r.job.NoJob? && ValidFor(hw, r) && ValidFor(hw, WithoutDien(r))
  {
    hide Sound, Any;
  }

  lemma ReadyMode(hw: Chip, r: Registers, c: Context)
    requires Ready(hw, r, c)
    ensures !KeyPreparation(Configuration(Clear(r.cr, 0x8000))) && FlushClear(r.cr)
  {
    hide ModeOf, Any, Clear;
    RestoredBits(r.cr);
  }

  lemma LeftIdleMeans(hw: Chip, r: Registers)
    requires LeftIdle(hw, r)
    ensures ValidFor(hw, r) && r.job.NoJob? && r.inFifo == []
  {
  }

  // What is saved is a configuration
  lemma RestoredBits(cr: bv32)
    ensures ConfigurationOnly(Configuration(Clear(cr, 0x8000)))
    ensures ModeOf(Configuration(Clear(cr, 0x8000))) == ModeOf(cr)
  {
    hide ModeOf;
    KeptFields(cr);
    var bits := Configuration(Clear(cr, 0x8000));
    SameModes(cr, bits, Set(bits, 0x8000));
  }

  lemma RestoredIsReady(hw: Chip, before: Registers, other: Registers, c: Context, r: Registers)
    requires Ready(hw, before, c) && LeftIdle(hw, other) && ValidFor(hw, r)
    requires r ==
             other.(cr := Set(Configuration(Clear(before.cr, 0x8000)), 0x8000), keys := before.keys, iv := before.iv)
    ensures Ready(hw, r, c)
  {
    hide Sound, Any, Set, Clear, ModeOf, KeyOf, ByteSwapping, Decrypting, Configuration, ConfigurationOnly;
    RestoredCr(before.cr);
    SameSelection(hw.si, before.cr, r.cr, before.keys);
  }

  /** An interruption: what the other task leaves behind, and the bytes that come after it. */
  datatype Pause = Pause(other: Registers, length: nat)

  function Total(first: nat, pauses: seq<Pause>): nat
    decreases |pauses|
  {
    if pauses == [] then first else first + Total(pauses[0].length, pauses[1..])
  }

  ghost predicate Pausing(hw: Chip, family: Family, first: nat, pauses: seq<Pause>) {
    && WholeBlocks(family, first)
    && forall i :: 0 <= i < |pauses| ==> LeftIdle(hw, pauses[i].other) && WholeBlocks(family, pauses[i].length)
  }

  /** The blocks that are processed in time, over all parts of the run. The jobs of each part are numbered from
      where the other task left the processor. */
  ghost function InTime(schedule: Schedule, job: nat, family: Family, first: nat, pauses: seq<Pause>): (k: nat)
    decreases |pauses|
  {
    var a := Blocks(family, first);
    var k := Completed(schedule, job, a);
    if k < a || pauses == [] then k
    else a + InTime(schedule, pauses[0].other.jobs, family, pauses[0].length, pauses[1..])
  }

  // The block loop in terms of Advance
  method RunPart(p: Cryp, ram: array<bv8>, input: nat, ilength: nat, output: nat, family: Family, ghost c: Context)
    returns (status: ErrorStatus)
    requires family == c.family && Ready(p.hw, p.r, c)
    requires WholeBlocks(family, ilength) && input + ilength <= ram.Length && output + ilength <= ram.Length
    modifies p, ram
    ensures p.Valid() && SameSetup(old(p.r), p.r)
    ensures var start := old(Here(c, p.r, ram[..], input, output));
            var k := Completed(p.hw.schedule, old(p.r.jobs), Blocks(family, ilength));
            && (status == SUCCESS <==> k == Blocks(family, ilength))
            && Fits(c, start, k) && ram[..] == Advance(c, start, k).mem
            && (status == SUCCESS ==>
                  && Ready(p.hw, p.r, c)
                  && Here(c, p.r, ram[..], input + ilength, output + ilength) == Advance(c, start, k))
  {
    hide Ready, Next, ValidFor, Loop, Proper, Advance;
    ghost var start := Here(c, p.r, ram[..], input, output);
    ReadyFits(p.hw, p.r, c, ram[..], input, output, Blocks(family, ilength));
    LoopAdvances(c, p.hw.schedule, start, Blocks(family, ilength));
    LoopSucceedsIff(c, p.hw.schedule, start, Blocks(family, ilength));
    status := BlockLoop(p, ram, input, ilength, output, family, c);
  }

  /** What an interrupted run comes to: success exactly if every block of every part is processed in time, and
      the memory of a run over the same blocks that is never interrupted. */
  ghost predicate RanThrough(hw: Chip, c: Context, start: Place, first: nat, pauses: seq<Pause>, mem: seq<bv8>,
                             status: ErrorStatus) {
    var k := InTime(hw.schedule, start.job, c.family, first, pauses);
    && (status == SUCCESS <==> k == Blocks(c.family, Total(first, pauses)))
    && Fits(c, start, k) && mem == Advance(c, start, k).mem
  }

  /** A run that is interrupted between blocks, any number of times and whatever the other tasks do. */
  method InterruptedRun(p: Cryp, ram: array<bv8>, context: SavedContext, key: KeyRegisters,
                        input: nat, output: nat, family: Family, first: nat, pauses: seq<Pause>, ghost c: Context)
    returns (status: ErrorStatus)
    requires family == c.family && Ready(p.hw, p.r, c) && key == p.r.keys && Pausing(p.hw, family, first, pauses)
    requires input + Total(first, pauses) <= ram.Length && output + Total(first, pauses) <= ram.Length
    modifies p, ram, context
    ensures p.Valid()
    ensures RanThrough(p.hw, c, old(Here(c, p.r, ram[..], input, output)), first, pauses, ram[..], status)
    decreases |pauses|
  {
    hide Ready, ValidFor, Proper, Advance, LeftIdle, Blocks, InTime, RanThrough, WholeBlocks;
    ghost var start := Here(c, p.r, ram[..], input, output);
    assert start.job == p.r.jobs;
    TotalBlocks(p.hw, family, first, pauses);
    BlocksInTime(p.hw, family, first, pauses, start.job);
    ReadyFits(p.hw, p.r, c, ram[..], input, output, Blocks(family, Total(first, pauses)));
    status := RunPart(p, ram, input, first, output, family, c);
    if status == ERROR || pauses == [] {
      StoppedEarly(p.hw, c, start, first, pauses, ram[..], status);
    } else {
      ghost var there := Here(c, p.r, ram[..], input + first, output + first);
      var other := pauses[0].other;
      status := SwitchAndBack(p, context, key, other, c);
      ghost var here := Here(c, p.r, ram[..], input + first, output + first);
      assert here == there.(job := other.jobs);
      status := InterruptedRun(p, ram, context, key, input + first, output + first, family, pauses[0].length,
                               pauses[1..], c);
      WentOn(p.hw, c, start, here, first, pauses, ram[..], status);
    }
  }

  lemma StoppedEarly(hw: Chip, c: Context, start: Place, first: nat, pauses: seq<Pause>, mem: seq<bv8>,
                     status: ErrorStatus)
    requires Pausing(hw, c.family, first, pauses)
    requires var a := Blocks(c.family, first);
             var k := Completed(hw.schedule, start.job, a);
             && Fits(c, start, k) && mem == Advance(c, start, k).mem && (status == SUCCESS <==> k == a)
             && (status == ERROR || pauses == [])
    ensures RanThrough(hw, c, start, first, pauses, mem, status)
  {
    hide Advance, Proper, LeftIdle;
    TotalBlocks(hw, c.family, first, pauses);
  }

  lemma WentOn(hw: Chip, c: Context, start: Place, here: Place, first: nat, pauses: seq<Pause>, mem: seq<bv8>,
               status: ErrorStatus)
    requires pauses != [] && Pausing(hw, c.family, first, pauses)
    requires Fits(c, start, Blocks(c.family, Total(first, pauses)))
    requires var a := Blocks(c.family, first);
             && Completed(hw.schedule, start.job, a) == a && Fits(c, start, a)
             && here == Advance(c, start, a).(job := pauses[0].other.jobs)
    requires RanThrough(hw, c, here, pauses[0].length, pauses[1..], mem, status)
    ensures RanThrough(hw, c, start, first, pauses, mem, status)
  {
    hide Advance, Proper, LeftIdle, Blocks, WholeBlocks;
    var a := Blocks(c.family, first);
    var k := InTime(hw.schedule, here.job, c.family, pauses[0].length, pauses[1..]);
    TotalBlocks(hw, c.family, first, pauses);
    BlocksInTime(hw, c.family, pauses[0].length, pauses[1..], here.job);
    GoingOn(c, start, a, here, k);
  }

  lemma BlocksInTime(hw: Chip, family: Family, first: nat, pauses: seq<Pause>, job: nat)
    requires Pausing(hw, family, first, pauses)
    ensures InTime(hw.schedule, job, family, first, pauses) <= Blocks(family, Total(first, pauses))
    decreases |pauses|
  {
    hide LeftIdle, Blocks, WholeBlocks;
    TotalBlocks(hw, family, first, pauses);
    if pauses != [] {
      BlocksInTime(hw, family, pauses[0].length, pauses[1..], pauses[0].other.jobs);
    }
  }

  // The parts of a run add up
  lemma TotalBlocks(hw: Chip, family: Family, first: nat, pauses: seq<Pause>)
    requires Pausing(hw, family, first, pauses)
    ensures WholeBlocks(family, Total(first, pauses))
    ensures Span(family, Blocks(family, Total(first, pauses))) == Total(first, pauses)
    ensures pauses != [] ==>
              && Pausing(hw, family, pauses[0].length, pauses[1..])
              && Blocks(family, Total(first, pauses)) ==
                 Blocks(family, first) + Blocks(family, Total(pauses[0].length, pauses[1..]))
    decreases |pauses|
  {
    hide LeftIdle, Blocks, WholeBlocks, Span;
    if pauses != [] {
      TotalBlocks(hw, family, pauses[0].length, pauses[1..]);
      BlocksAdd(family, first, Total(pauses[0].length, pauses[1..]));
    }
    SpanOfBlocks(family, Total(first, pauses));
  }

  lemma BlocksAdd(family: Family, a: nat, b: nat)
    requires WholeBlocks(family, a) && WholeBlocks(family, b)
    ensures WholeBlocks(family, a + b) && Blocks(family, a + b) == Blocks(family, a) + Blocks(family, b)
  {
    if family == Aes {
      Multiples(a, b, 16);
    } else {
      Multiples(a, b, 8);
    }
  }

  lemma Multiples(a: nat, b: nat, n: nat)
    requires (n == 8 || n == 16) && a % n == 0 && b % n == 0
    ensures (a + b) % n == 0 && (a + b) / n == a / n + b / n
  {
  }

  // Going on from the place where a run stopped, under another job number, is the same run
  lemma GoingOn(c: Context, start: Place, a: nat, here: Place, k: nat)
    requires Fits(c, start, a + k) && here == Advance(c, start, a).(job := here.job) && Fits(c, here, k)
    ensures Advance(c, start, a + k).mem == Advance(c, here, k).mem
  {
    hide Advance, Proper;
    AdvanceSplit(c, start, a, k);
    AdvanceFromJob(c, Advance(c, start, a), here.job, k);
  }

  // With nothing to do, status reads change only the number of reads
  lemma IdlePolled(hw: Chip, r: Registers, n: nat)
    requires ValidFor(hw, r) && ValidFor(hw, WithoutDien(r)) && r.job.NoJob?
    ensures Polled(hw, WithoutDien(r), n) == WithoutDien(r).(polls := r.polls + n)
  {
    hide Sound, Any;
    PolledStays(hw, WithoutDien(r), 0, n);
  }

  // ----- which key to hand over

  /** The key registers cannot be read, so what a caller has to hand over is the key it once loaded. That is
      enough if the processor computes the same with that key as with the key it held. */
  ghost predicate UserKeySuffices(family: Family, chaining: Chaining, decrypt: bool)
    requires chaining == CtrMode ==> family == Aes
  {
    forall si: Silicon, key: seq<bv8>, chain: Block, b: Block
      {:trigger Context(si, family, chaining, decrypt, key), Stepped(chain, b)} ::
      Sound(si) && KeyFits(family, key) && |chain| == |b| == BlockSize(family) ==>
        Proper(ContextFor(si, family, chaining, decrypt, key)) &&
        Step(Context(si, family, chaining, decrypt, key), chain, b) ==
        Step(ContextFor(si, family, chaining, decrypt, key), chain, b)
  }

  /** It is enough exactly when no key was prepared: restoring does not repeat the preparation. */
  lemma UserKeySufficesIff(family: Family, chaining: Chaining, decrypt: bool)
    requires chaining == CtrMode ==> family == Aes
    ensures UserKeySuffices(family, chaining, decrypt) <==> !(family == Aes && chaining != CtrMode && decrypt)
  {
    if family == Aes && chaining != CtrMode && decrypt {
      var si, key, zero := MaskingSilicon(), Zeros(16), Zeros(16);
      assert Context(si, family, chaining, decrypt, key) == Context(si, family, chaining, decrypt, key);
      assert Stepped(zero, zero) == Stepped(zero, zero);
      UserKeyFails(chaining);
    } else {
      forall si: Silicon, key: seq<bv8> | Sound(si) && KeyFits(family, key)
        ensures Proper(ContextFor(si, family, chaining, decrypt, key))
        ensures Context(si, family, chaining, decrypt, key) == ContextFor(si, family, chaining, decrypt, key)
      {
        ContextIsProper(si, family, chaining, decrypt, key);
      }
    }
  }

  function Complement(k: seq<bv8>): (r: seq<bv8>)
    ensures |r| == |k|
  {
    seq(|k|, i requires 0 <= i < |k| => !k[i])
  }

  function Masked(k: seq<bv8>, b: Block): (r: Block)
    ensures |r| == |b|
  {
    if |k| >= 16 && |b| == 16 then Xor(b, k[..16]) else b
  }

  lemma ComplementTwice(k: seq<bv8>)
    ensures Complement(Complement(k)) == k
  {
    forall i | 0 <= i < |k| ensures Complement(Complement(k))[i] == k[i] {
      ComplementByte(k[i]);
    }
  }

  lemma ComplementByte(x: bv8)
    ensures !(!x) == x
  {
  }

  // A silicon whose prepared key is the complement of the key
  function MaskingSilicon(): Silicon {
    Silicon((k, b) => Masked(k, b), (k, b) => Masked(Complement(k), b), k => Complement(k),
            (k, b) => b, (k, b) => b, b => b)
  }

  lemma MaskingIsSound()
    ensures Sound(MaskingSilicon())
  {
    hide Complement;
    var si := MaskingSilicon();
    forall k, b {:trigger si.aesEnc(k, b)} | AesKeyBytes(|k|) && |b| == 16
      ensures |si.aesEnc(k, b)| == 16 && si.aesDec(si.aesPrep(k), si.aesEnc(k, b)) == b
    {
      ComplementTwice(k);
      XorTwice(b, k[..16]);
    }
  }

  // With the zero key, a zero block is decrypted to zeros with the prepared key, to ones with the other
  lemma UserKeyFails(chaining: Chaining)
    requires chaining != CtrMode
    ensures var si, key, zero := MaskingSilicon(), Zeros(16), Zeros(16);
            && Sound(si) && Proper(ContextFor(si, Aes, chaining, true, key))
            && Proper(Context(si, Aes, chaining, true, key))
            && Step(Context(si, Aes, chaining, true, key), zero, zero) !=
               Step(ContextFor(si, Aes, chaining, true, key), zero, zero)
  {
    hide Sound;
    MaskingIsSound();
    var si, key, zero := MaskingSilicon(), Zeros(16), Zeros(16);
    ContextIsProper(si, Aes, chaining, true, key);
    var a := Step(Context(si, Aes, chaining, true, key), zero, zero).out;
    var b := Step(ContextFor(si, Aes, chaining, true, key), zero, zero).out;
    ComplementTwice(key);
    assert si.aesDec(key, zero) == Xor(zero, Complement(key)[..16]);
    assert si.aesDec(si.aesPrep(key), zero) == Xor(zero, key[..16]);
    assert si.aesDec(key, zero)[0] == 0xFF;
    assert si.aesDec(si.aesPrep(key), zero)[0] == 0;
    assert a[0] == 0xFF && b[0] == 0;
  }
}
