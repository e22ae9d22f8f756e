/** The loop that all high-level functions of the CRYP driver end with: for each block write the IN FIFO,
    wait, read the OUT FIFO. It refines MemoryRun.Loop. */
module CrypBlocks {
  import opened Bits
  import opened Words
  import opened BlockModes
  import opened MemoryRun
  import opened CrypRegisters
  import opened CrypHardware
  import opened CrypDriver

  predicate ByteSwapping(cr: bv32) {
    cr & 0x00C0 == DataTypeBits(Data8b)
  }

  /** The processor is set up for context c, enabled, and empty. */
  ghost predicate Ready(hw: Chip, r: Registers, c: Context) {
    && ValidFor(hw, r)
    && Enabled(r.cr) && !KeyPreparation(r.cr) && ByteSwapping(r.cr)
    && ContextOf(hw.si, r.cr, r.keys) == c
    && r.job.NoJob? && r.inFifo == [] && r.outFifo == []
  }

  ghost function Here(c: Context, r: Registers, mem: seq<bv8>, inp: nat, outp: nat): Place {
    Place(r.jobs, ChainOf(c.family, r.iv), mem, inp, outp)
  }

  // The words of the block at address a, as the core loads them
  function Loaded(family: Family, m: seq<bv8>, a: nat): (ws: seq<Word>)
    requires a + BlockSize(family) <= |m|
    ensures |ws| == Width(family)
  {
    var first := [Load(m, a), Load(m, a + 4)];
    if family == Aes then first + [Load(m, a + 8), Load(m, a + 12)] else first
  }

  // The bytes that storing these words one after the other leaves in memory
  function Stored(family: Family, ws: seq<Word>): (b: Block)
    requires |ws| == Width(family)
    ensures |b| == BlockSize(family)
  {
    var first := Bytes(Rev(ws[0])) + Bytes(Rev(ws[1]));
    if family == Aes then first + Bytes(Rev(ws[2])) + Bytes(Rev(ws[3])) else first
  }

  /** With 8-bit data the processor sees the bytes of a block in memory order. */
  lemma LoadedBlock(cr: bv32, m: seq<bv8>, a: nat)
    requires ByteSwapping(cr) && a + BlockSize(FamilyOf(cr)) <= |m|
    ensures BlockOf(cr, Loaded(FamilyOf(cr), m, a)) == m[a..a + BlockSize(FamilyOf(cr))]
  {
    var f := FamilyOf(cr);
    hide FamilyOf;
    RevLoadIsBigEndian(m, a);
    RevLoadIsBigEndian(m, a + 4);
    if f == Aes {
      RevLoadIsBigEndian(m, a + 8);
      RevLoadIsBigEndian(m, a + 12);
      assert m[a..a + 16] == m[a..a + 4] + m[a + 4..a + 8] + m[a + 8..a + 12] + m[a + 12..a + 16];
    } else {
      assert m[a..a + 8] == m[a..a + 4] + m[a + 4..a + 8];
    }
  }

  lemma StoredBlock(cr: bv32, b: Block)
    requires ByteSwapping(cr) && |b| == BlockSize(FamilyOf(cr))
    ensures Stored(FamilyOf(cr), WordsOf(cr, b)) == b
  {
    var f := FamilyOf(cr);
    hide FamilyOf;
    if f == Aes {
      Words4(b);
    } else {
      Words2(b);
    }
  }

  /** What a block from memory becomes: the output words, stored, are the output block of Step, and the IV
      registers hold its chaining value. */
  lemma BlockJobIsStep(hw: Chip, r: Registers, c: Context, m: seq<bv8>, a: nat)
    requires Ready(hw, r, c) && a + BlockSize(c.family) <= |m|
    ensures var j := BlockJob(hw.si, r.cr, r.keys, r.iv, Loaded(c.family, m, a));
            var s := Step(c, ChainOf(c.family, r.iv), m[a..a + BlockSize(c.family)]);
            Stored(c.family, j.out) == s.out && ChainOf(c.family, j.iv) == s.chain
  {
    hide Step, Sound, Any, ModeOf, ByteSwapping, Loaded, Stored, BlockOf, WordsOf, ChainOf, WithChain;
    var s := Step(c, ChainOf(c.family, r.iv), m[a..a + BlockSize(c.family)]);
    LoadedBlock(r.cr, m, a);
    StoredBlock(r.cr, s.out);
    WithChainHolds(c.family, r.iv, s.chain);
  }

  /** CRYP_DataIn. Calling it before the FIFO has a complete block starts nothing. */
  method DataIn(p: Cryp, w: Word)
    requires p.Valid() && |p.r.inFifo| < FIFO_DEPTH
    modifies p
    ensures p.Valid() && p.r == DrWritten(p.hw, old(p.r), w)
  {
    hide Sound, Any, DrWritten;
    p.WriteDR(w);
  }

  /** CRYP_DataOut */
  method DataOut(p: Cryp) returns (w: Word)
    requires p.Valid() && p.r.outFifo != [] && p.r.inFifo == []
    modifies p
    ensures p.Valid() && w == old(p.r.outFifo)[0] && p.r == old(p.r).(outFifo := old(p.r.outFifo)[1..])
  {
    hide Sound, Any, ModeOf, Started;
    ghost var r := p.r;
    w := p.ReadDOUT();
    NothingStarts(p.hw, r.(outFifo := r.outFifo[1..]));
  }

  // The first words of a block only fill the FIFO, the last one starts the job
  lemma Filling(hw: Chip, r: Registers, w: Word)
    requires ValidFor(hw, r) && Enabled(r.cr) && !KeyPreparation(r.cr) && r.job.NoJob? && r.outFifo == []
    requires |r.inFifo| < Width(FamilyOf(r.cr))
    ensures var fifo := r.inFifo + [w];
            DrWritten(hw, r, w) ==
              if |fifo| < Width(FamilyOf(r.cr)) then r.(inFifo := fifo)
              else r.(inFifo := [], job := BlockJob(hw.si, r.cr, r.keys, r.iv, fifo),
                      remaining := hw.schedule(r.jobs), jobs := r.jobs + 1)
  {
    hide Sound, Any, ModeOf, BlockJob;
    var fifo := r.inFifo + [w];
    if |fifo| == Width(FamilyOf(r.cr)) {
      assert fifo[..|fifo|] == fifo && fifo[|fifo|..] == [];
    }
  }

  // CRYP_DataIn(*(uint32_t*)a)
  method PushWord(p: Cryp, ram: array<bv8>, a: nat)
    requires p.Valid() && Enabled(p.r.cr) && !KeyPreparation(p.r.cr) && p.r.job.NoJob? && p.r.outFifo == []
    requires |p.r.inFifo| < Width(FamilyOf(p.r.cr)) && a + 4 <= ram.Length
    modifies p
    ensures p.Valid()
    ensures var r := old(p.r);
            var fifo := r.inFifo + [Load(ram[..], a)];
            p.r ==
              if |fifo| < Width(FamilyOf(r.cr)) then r.(inFifo := fifo)
              else r.(inFifo := [], job := BlockJob(p.hw.si, r.cr, r.keys, r.iv, fifo),
                      remaining := p.hw.schedule(r.jobs), jobs := r.jobs + 1)
  {
    hide Sound, Any, ModeOf, BlockJob, DrWritten;
    Filling(p.hw, p.r, Load(ram[..], a));
    var w := LoadWord(ram, a);
    DataIn(p, w);
  }

  /** Writes the block at address a into the IN FIFO. */
  method PushBlock(p: Cryp, ram: array<bv8>, a: nat, family: Family)
    requires p.Valid() && Enabled(p.r.cr) && !KeyPreparation(p.r.cr) && p.r.job.NoJob?
    requires p.r.inFifo == [] && p.r.outFifo == []
    requires FamilyOf(p.r.cr) == family && a + BlockSize(family) <= ram.Length
    modifies p
    ensures p.Valid()
    ensures p.r ==
            old(p.r).(job := BlockJob(p.hw.si, old(p.r.cr), old(p.r.keys), old(p.r.iv), Loaded(family, ram[..], a)),
                             remaining := p.hw.schedule(old(p.r.jobs)), jobs := old(p.r.jobs) + 1)
  {
    hide Sound, Any, ModeOf, BlockJob, Enabled, KeyPreparation, FamilyOf, Load;
    ghost var m := ram[..];
    var inputaddr := a;
    PushWord(p, ram, inputaddr);
    inputaddr := inputaddr + 4;
    PushWord(p, ram, inputaddr);
    inputaddr := inputaddr + 4;
    assert [] + [Load(m, a)] + [Load(m, a + 4)] == Loaded(Des, m, a);
    if family == Aes {
      PushWord(p, ram, inputaddr);
      inputaddr := inputaddr + 4;
      PushWord(p, ram, inputaddr);
      inputaddr := inputaddr + 4;
      assert [] + [Load(m, a)] + [Load(m, a + 4)] + [Load(m, a + 8)] + [Load(m, a + 12)] == Loaded(Aes, m, a);
    }
  }

  // *(uint32_t*)a
  method LoadWord(ram: array<bv8>, a: nat) returns (w: Word)
    requires a + 4 <= ram.Length
    ensures w == Load(ram[..], a)
  {
    w := Word(ram[a + 3], ram[a + 2], ram[a + 1], ram[a]);
  }

  // Storing one piece after the other is storing them at once
  lemma PatchJoin(m: seq<bv8>, a: nat, x: seq<bv8>, y: seq<bv8>)
    requires a + |x| + |y| <= |m|
    ensures Patch(Patch(m, a, x), a + |x|, y) == Patch(m, a, x + y)
  {
  }

  /** Reads a block from the OUT FIFO and stores it at address a. */
  method PopBlock(p: Cryp, ram: array<bv8>, a: nat, family: Family)
    requires p.Valid() && p.r.inFifo == [] && |p.r.outFifo| == Width(family) && a + BlockSize(family) <= ram.Length
    modifies p, ram
    ensures p.Valid() && p.r == old(p.r).(outFifo := [])
    ensures ram[..] == Patch(old(ram[..]), a, Stored(family, old(p.r.outFifo)))
  {
    hide Sound, Any, Patch, Bytes, Rev;
    ghost var m := ram[..];
    ghost var ws := p.r.outFifo;
    var outputaddr := a;
    var w := DataOut(p);
    Store(ram, outputaddr, w);
    outputaddr := outputaddr + 4;
    w := DataOut(p);
    Store(ram, outputaddr, w);
    outputaddr := outputaddr + 4;
    PatchJoin(m, a, Bytes(Rev(ws[0])), Bytes(Rev(ws[1])));
    if family == Aes {
      ghost var first := Bytes(Rev(ws[0])) + Bytes(Rev(ws[1]));
      w := DataOut(p);
      Store(ram, outputaddr, w);
      outputaddr := outputaddr + 4;
      PatchJoin(m, a, first, Bytes(Rev(ws[2])));
      w := DataOut(p);
      Store(ram, outputaddr, w);
      outputaddr := outputaddr + 4;
      PatchJoin(m, a, first + Bytes(Rev(ws[2])), Bytes(Rev(ws[3])));
    }
  }

  /** One turn of the loop. */
  method ProcessBlock(p: Cryp, ram: array<bv8>, inputaddr: nat, outputaddr: nat, family: Family, ghost c: Context)
    returns (status: ErrorStatus)
    requires family == c.family && Ready(p.hw, p.r, c)
    requires inputaddr + BlockSize(family) <= ram.Length && outputaddr + BlockSize(family) <= ram.Length
    modifies p, ram
    ensures p.Valid() && SameSetup(old(p.r), p.r)
    ensures status == SUCCESS <==> p.hw.schedule(old(p.r.jobs)) < MAX_READS
    ensures status == SUCCESS ==>
              && Ready(p.hw, p.r, c)
              && p.r.polls == old(p.r.polls) + p.hw.schedule(old(p.r.jobs)) + 1
              && Here(c, p.r, ram[..], inputaddr + BlockSize(family), outputaddr + BlockSize(family)) ==
                 Next(c, old(Here(c, p.r, ram[..], inputaddr, outputaddr)))
    ensures status == ERROR ==> ram[..] == old(ram[..]) && p.r.polls == old(p.r.polls) + MAX_READS
  {
    hide Sound, Any, ModeOf, BlockJob, ByteSwapping, Step, Loaded, Stored, ChainOf, Waited, KeyOf;
    BlockJobIsStep(p.hw, p.r, c, ram[..], inputaddr);
    PushBlock(p, ram, inputaddr, family);
    ghost var job := p.r.job;
    WaitedIsQuiet(p.hw, p.r);
    var busy := WaitWhileBusy(p);
    if busy {
      status := ERROR;
    } else {
      assert p.r.outFifo == job.out;
      PopBlock(p, ram, outputaddr, family);
      status := SUCCESS;
    }
  }

  // Everything that a run of blocks leaves alone
  ghost predicate SameSetup(r: Registers, q: Registers) {
    q.cr == r.cr && q.dmacr == r.dmacr && q.keys == r.keys && q.flushedWhileBusy == r.flushedWhileBusy
  }

  // Blocks in that many bytes
  function Blocks(family: Family, length: nat): nat {
    if family == Aes then length / 16 else length / 8
  }

  predicate WholeBlocks(family: Family, length: nat) {
    if family == Aes then length % 16 == 0 else length % 8 == 0
  }

  lemma SpanOfBlocks(family: Family, length: nat)
    requires WholeBlocks(family, length)
    ensures Span(family, Blocks(family, length)) == length
  {
  }

  lemma NoBlocks(family: Family)
    ensures Blocks(family, 0) == 0
  {
  }

  lemma OneBlockLess(family: Family, length: nat)
    requires WholeBlocks(family, length) && length > 0
    ensures BlockSize(family) <= length && WholeBlocks(family, length - BlockSize(family))
    ensures Blocks(family, length) > 0 && Blocks(family, length - BlockSize(family)) == Blocks(family, length) - 1
    ensures BlockSize(family) > 0
  {
  }

  lemma ReadyFits(hw: Chip, r: Registers, c: Context, mem: seq<bv8>, inp: nat, outp: nat, count: nat)
    requires Ready(hw, r, c) && inp + Span(c.family, count) <= |mem| && outp + Span(c.family, count) <= |mem|
    ensures ValidFor(hw, r) && Fits(c, Here(c, r, mem, inp, outp), count)
    ensures Here(c, r, mem, inp, outp).job == r.jobs
    ensures Here(c, r, mem, inp, outp).mem == mem
  {
    hide Sound, Any, ModeOf, KeyOf;
  }

  lemma ReadyIsEmpty(hw: Chip, r: Registers, c: Context)
    requires Ready(hw, r, c)
    ensures r.job.NoJob? && r.inFifo == [] && r.outFifo == []
  {
  }

  // The rest of the run is still to be done from where the loop is
  ghost predicate GoesOn(hw: Chip, c: Context, run: Run, polls: nat, r: Registers, here: Place, rest: nat) {
    && Ready(hw, r, c) && here.job == r.jobs && polls <= r.polls && Fits(c, here, rest)
    && run == Later(r.polls - polls, Loop(c, hw.schedule, here, rest))
  }

  // A wait gave up
  ghost predicate Stopped(run: Run, polls: nat, r: Registers, mem: seq<bv8>) {
    !run.ok && mem == run.place.mem && r.polls == polls + run.polls
  }

  // One turn of the loop, in time or not
  lemma TurnTaken(hw: Chip, c: Context, run: Run, polls: nat, r: Registers, here: Place, rest: nat, r': Registers)
    requires GoesOn(hw, c, run, polls, r, here, rest) && rest > 0 && hw.schedule(r.jobs) < MAX_READS
    requires Ready(hw, r', c) && r'.jobs == Next(c, here).job && r'.polls == r.polls + hw.schedule(r.jobs) + 1
    ensures GoesOn(hw, c, run, polls, r', Next(c, here), rest - 1)
  {
    hide Ready, Next, Proper;
  }

  lemma TurnFailed(hw: Chip, c: Context, run: Run, polls: nat, r: Registers, here: Place, rest: nat, r': Registers)
    requires GoesOn(hw, c, run, polls, r, here, rest) && rest > 0 && hw.schedule(r.jobs) >= MAX_READS
    requires r'.polls == r.polls + MAX_READS
    ensures Stopped(run, polls, r', here.mem)
  {
    hide Ready, Next, Proper;
  }

  lemma TurnsOver(hw: Chip, c: Context, run: Run, polls: nat, r: Registers, here: Place)
    requires GoesOn(hw, c, run, polls, r, here, 0)
    ensures run.ok && here == run.place && r.polls == polls + run.polls
  {
    hide Ready, Next, Proper;
  }

  lemma GoesOnMeans(hw: Chip, c: Context, run: Run, polls: nat, r: Registers, here: Place, rest: nat)
    requires GoesOn(hw, c, run, polls, r, here, rest)
    ensures Ready(hw, r, c) && Fits(c, here, rest) && (rest > 0 ==> Fits(c, here, 1))
  {
    hide Ready, Proper, Loop;
  }

  /** The block loop, for inputs and outputs that overlap in any way. */
  method BlockLoop(p: Cryp, ram: array<bv8>, input: nat, ilength: nat, output: nat, family: Family, ghost c: Context)
    returns (status: ErrorStatus)
    requires family == c.family && Ready(p.hw, p.r, c)
    requires WholeBlocks(family, ilength) && input + ilength <= ram.Length && output + ilength <= ram.Length
    modifies p, ram
    ensures p.Valid() && SameSetup(old(p.r), p.r)
    ensures var run := Loop(c, p.hw.schedule, old(Here(c, p.r, ram[..], input, output)), Blocks(family, ilength));
            && (status == SUCCESS <==> run.ok)
            && ram[..] == run.place.mem
            && p.r.polls == old(p.r.polls) + run.polls
            && (run.ok ==> Ready(p.hw, p.r, c) && Here(c, p.r, ram[..], input + ilength, output + ilength) == run.place)
  {
    hide Ready, Next, ChainOf, ValidFor, GoesOn, Loop, Fits, Blocks, WholeBlocks, BlockSize, Span;
    status := SUCCESS;
    var inputaddr, outputaddr := input, output;
    var i := 0;
    ghost var polls := p.r.polls;
    SpanOfBlocks(family, ilength);
    ReadyFits(p.hw, p.r, c, ram[..], input, output, Blocks(family, ilength));
    ghost var here := Here(c, p.r, ram[..], input, output);
    ghost var run := Loop(c, p.hw.schedule, here, Blocks(family, ilength));
    GoesOnAtFirst(p.hw, c, p.r, here, Blocks(family, ilength));
    NoBlocks(family);
    while i < ilength && status != ERROR
      invariant i <= ilength && WholeBlocks(family, ilength - i) && p.Valid() && SameSetup(old(p.r), p.r)
      invariant inputaddr == input + i && outputaddr == output + i
      invariant status == SUCCESS ==>
                  && here == Here(c, p.r, ram[..], inputaddr, outputaddr)
                  && GoesOn(p.hw, c, run, polls, p.r, here, Blocks(family, ilength - i))
      invariant status == ERROR ==> Stopped(run, polls, p.r, ram[..])
    {
      ghost var r, rest := p.r, Blocks(family, ilength - i);
      OneBlockLess(family, ilength - i);
      GoesOnMeans(p.hw, c, run, polls, r, here, rest);
      status := ProcessBlock(p, ram, inputaddr, outputaddr, family, c);
      inputaddr := inputaddr + BlockSize(family);
      outputaddr := outputaddr + BlockSize(family);
      i := i + BlockSize(family);
      if status == SUCCESS {
        TurnTaken(p.hw, c, run, polls, r, here, rest, p.r);
        here := Next(c, here);
      } else {
        TurnFailed(p.hw, c, run, polls, r, here, rest, p.r);
      }
    }
    if status == SUCCESS {
      GoesOnMeans(p.hw, c, run, polls, p.r, here, 0);
      TurnsOver(p.hw, c, run, polls, p.r, here);
    }
  }

  lemma GoesOnAtFirst(hw: Chip, c: Context, r: Registers, here: Place, count: nat)
    requires Ready(hw, r, c) && here.job == r.jobs && Fits(c, here, count)
    ensures GoesOn(hw, c, Loop(c, hw.schedule, here, count), r.polls, r, here, count)
  {
    hide Ready, Proper, Loop;
  }
}
