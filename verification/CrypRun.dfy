/** What a high-level CRYP function does from entry to return, in terms of memory and schedule, and what
    that means in terms of the standard. */
module CrypRun {
  import opened Bits
  import opened Words
  import opened BlockModes
  import opened MemoryRun
  import opened CrypRegisters
  import opened CrypHardware
  import opened CrypDriver
  import opened CrypBlocks

  /** A call: the job that the user asks for. `prepares` tells that AES decryption in ECB or CBC has to
      prepare the key first. */
  datatype Call = Call(family: Family, chaining: Chaining, decrypt: bool, key: seq<bv8>, iv: Block,
                       input: nat, output: nat, count: nat)
  {
    predicate Prepares() {
      family == Aes && chaining != CtrMode && decrypt
    }

    ghost predicate Sensible(memory: nat) {
      && KeyFits(family, key) && |iv| == BlockSize(family) && (chaining == CtrMode ==> family == Aes)
      && input + Span(family, count) <= memory && output + Span(family, count) <= memory
    }

    // The preparation, if there is one, gives up
    predicate PreparationFails(schedule: Schedule, job: nat) {
      Prepares() && schedule(job) >= MAX_READS
    }

    // The job number of the first block
    function FirstBlock(job: nat): nat {
      if Prepares() then job + 1 else job
    }

    // Blocks that are processed and stored
    function Done(schedule: Schedule, job: nat): (k: nat)
      ensures k <= count
    {
      if PreparationFails(schedule, job) then 0 else Completed(schedule, FirstBlock(job), count)
    }
  }

  /** What a call leaves in the control register, which is switched off, and in the DMA requests: the
      configuration that it worked with, and everything else as it was. */
  ghost predicate Leaves(call: Call, r0: Registers, r1: Registers) {
    && r1.dmacr == r0.dmacr && Rest(r1.cr) == Rest(r0.cr) && !Enabled(r1.cr) && FlushClear(r1.cr)
    && FamilyOf(r1.cr) == call.family && ChainingOfMode(ModeOf(r1.cr)) == call.chaining && !KeyPreparation(r1.cr)
    && Decrypting(r1.cr) == call.decrypt && ByteSwapping(r1.cr)
    && if call.family == Aes then KeyBytesOf(r1.cr) == |call.key| else Keep(r1.cr, 0x0300) == Keep(r0.cr, 0x0300)
  }

  /** The key registers that a key of n bytes does not reach are zero. */
  predicate OthersZero(family: Family, n: nat, k: KeyRegisters) {
    match family
    case Aes => (n <= 24 ==> k.k0l == k.k0r == ZERO) && (n <= 16 ==> k.k1l == k.k1r == ZERO)
    case Des => k.k0l == k.k0r == k.k2l == k.k2r == k.k3l == k.k3r == ZERO
    case Tdes => k.k0l == k.k0r == ZERO
  }

  ghost predicate Performed(hw: Chip, call: Call, r0: Registers, mem0: seq<bv8>, r1: Registers, mem1: seq<bv8>,
                            status: ErrorStatus)
    requires Sound(hw.si) && call.Sensible(|mem0|)
  {
    && Leaves(call, r0, r1)
    && if call.PreparationFails(hw.schedule, r0.jobs) then
      status == ERROR && mem1 == mem0 && r1.polls == r0.polls + MAX_READS && r1.flushedWhileBusy
    else
      var c := ContextFor(hw.si, call.family, call.chaining, call.decrypt, call.key);
      var run := Loop(c, hw.schedule, Place(call.FirstBlock(r0.jobs), call.iv, mem0, call.input, call.output),
                      call.count);
      && (status == SUCCESS <==> run.ok)
      && mem1 == run.place.mem
      && r1.polls == r0.polls + (if call.Prepares() then hw.schedule(r0.jobs) + 1 else 0) + run.polls
      && r1.flushedWhileBusy == r0.flushedWhileBusy
      && KeyOf(r1.cr, r1.keys) == c.key && OthersZero(call.family, |call.key|, r1.keys)
      && (status == SUCCESS ==> ChainOf(call.family, r1.iv) == run.place.chain && r1.jobs == run.place.job)
  }

  /** The promise of the high-level functions: the blocks processed in time come out as the standard says,
      the rest of memory is untouched, and SUCCESS means that all of them were processed. */
  ghost predicate Promised(hw: Chip, call: Call, job: nat, mem0: seq<bv8>, mem1: seq<bv8>, status: ErrorStatus)
    requires Sound(hw.si) && call.Sensible(|mem0|)
  {
    var k := call.Done(hw.schedule, job);
    && (status == SUCCESS <==> !call.PreparationFails(hw.schedule, job) && k == call.count)
    && |mem1| == |mem0|
    && var out := BlocksAt(mem1, call.output, call.family, k);
       && Wrote(mem0, mem1, call.output, call.family, out)
       && Standard(hw.si, call.family, call.chaining, call.decrypt, call.key, call.iv,
                   BlocksAt(mem0, call.input, call.family, k), out)
  }

  lemma PerformedAsPromised(hw: Chip, call: Call, r0: Registers, mem0: seq<bv8>, r1: Registers, mem1: seq<bv8>,
                            status: ErrorStatus)
    requires Sound(hw.si) && call.Sensible(|mem0|)
    requires Performed(hw, call, r0, mem0, r1, mem1, status)
    requires Apart(call.family, call.input, call.output, call.count)
    ensures Promised(hw, call, r0.jobs, mem0, mem1, status)
  {
    hide Step, Stream, Sound, Standard, Next, Loop, Forward, Backward, DecryptionKey;
    var c := ContextFor(hw.si, call.family, call.chaining, call.decrypt, call.key);
    assert Proper(c) by { ContextIsProper(hw.si, call.family, call.chaining, call.decrypt, call.key); }
    var k := call.Done(hw.schedule, r0.jobs);
    var message := BlocksAt(mem0, call.input, call.family, k);
    StreamIsStandard(hw.si, call.family, call.chaining, call.decrypt, call.key, call.iv, message);
    var p := Place(call.FirstBlock(r0.jobs), call.iv, mem0, call.input, call.output);
    if call.PreparationFails(hw.schedule, r0.jobs) {
      NothingDelivered(c, p);
    } else {
      LoopDelivers(c, hw.schedule, p, call.count);
    }
  }

  lemma ContextIsProper(si: Silicon, family: Family, chaining: Chaining, decrypt: bool, key: seq<bv8>)
    requires Sound(si) && KeyFits(family, key) && (chaining == CtrMode ==> family == Aes)
    ensures Proper(ContextFor(si, family, chaining, decrypt, key))
  {
  }

  /** The status register is read at most 65536 times for each block and for the preparation. */
  lemma PerformedPolls(hw: Chip, call: Call, r0: Registers, mem0: seq<bv8>, r1: Registers, mem1: seq<bv8>,
                       status: ErrorStatus)
    requires Sound(hw.si) && call.Sensible(|mem0|)
    requires Performed(hw, call, r0, mem0, r1, mem1, status)
    ensures r1.polls - r0.polls <= MAX_READS * (call.count + if call.Prepares() then 1 else 0)
  {
    hide Sound, Loop;
    if !call.PreparationFails(hw.schedule, r0.jobs) {
      var c := ContextFor(hw.si, call.family, call.chaining, call.decrypt, call.key);
      ContextIsProper(hw.si, call.family, call.chaining, call.decrypt, call.key);
      LoopPolls(c, hw.schedule, Place(call.FirstBlock(r0.jobs), call.iv, mem0, call.input, call.output), call.count);
    }
  }

  /** The FIFOs are flushed while the processor is busy exactly by the calls whose key preparation gives up:
      the note of CRYP_FIFOFlush is kept in every other case. */
  lemma FlushedWhileBusyIff(hw: Chip, call: Call, r0: Registers, mem0: seq<bv8>, r1: Registers, mem1: seq<bv8>,
                            status: ErrorStatus)
    requires Sound(hw.si) && call.Sensible(|mem0|) && !r0.flushedWhileBusy
    requires Performed(hw, call, r0, mem0, r1, mem1, status)
    ensures r1.flushedWhileBusy <==> call.Prepares() && hw.schedule(r0.jobs) >= MAX_READS
  {
    hide Sound, Loop;
  }

  // ----- set-up

  // The control register that the drivers end up with
  function DriverCr(cr: bv32, s: InitStruct): bv32 {
    Set(Configured(cr, s), 0x8000)
  }

  lemma DriverCrReads(cr: bv32, s: InitStruct)
    requires FlushClear(cr) && s.dataType == Data8b && !s.mode.AesKeyPreparation?
    ensures Enabled(DriverCr(cr, s)) && FlushClear(DriverCr(cr, s)) && ByteSwapping(DriverCr(cr, s))
    ensures ModeOf(DriverCr(cr, s)) == s.mode
    ensures Decrypting(DriverCr(cr, s)) == s.decrypt
    ensures IsAes(s.mode) ==> KeyBytesOf(DriverCr(cr, s)) == KeySizeBytes(s.keySize)
  {
    hide Set, Clear, ModeOf, Any, Configured, Decrypting;
    var v := Configured(cr, s);
    ConfiguredFields(cr, s);
    ConfiguredSwitches(cr, s);
    SetSets(v, 0x8000);
    SetOther(v, 0x8000, 0x4000);
    ModeUnchanged(v, 0x8000);
    SetFields(v);
  }

  lemma ConfiguredSwitches(cr: bv32, s: InitStruct)
    requires FlushClear(cr)
    ensures FlushClear(Configured(cr, s)) && Enabled(Configured(cr, s)) == Enabled(cr)
  {
    ConfiguredFields(cr, s);
    OutsideFields(cr, Configured(cr, s));
  }

  lemma OutsideFields(cr: bv32, v: bv32)
    requires Keep(v, 0xFFFFFC03) == Keep(cr, 0xFFFFFC03)
    ensures Any(v, 0x4000) == Any(cr, 0x4000)
    ensures Any(v, 0x8000) == Any(cr, 0x8000)
  {
    hide Any, Keep;
    MaskMoves(v, 0xFFFFFC03, 0x4000);
    MaskMoves(cr, 0xFFFFFC03, 0x4000);
    MaskMoves(v, 0xFFFFFC03, 0x8000);
    MaskMoves(cr, 0xFFFFFC03, 0x8000);
    SwitchesOutside();
  }

  lemma SwitchesOutside()
    ensures Keep(0x4000, 0xFFFFFC03) == 0x4000 && Keep(0x8000, 0xFFFFFC03) == 0x8000
  {
  }

  lemma SetFields(v: bv32)
    ensures Set(v, 0x8000) & 0x00C0 == v & 0x00C0
    ensures Set(v, 0x8000) & 0x0300 == v & 0x0300
    ensures Decrypting(Set(v, 0x8000)) == Decrypting(v)
  {
  }

  function KeySizeBytes(size: KeySize): nat {
    match size
    case Key128b => 16
    case Key192b => 24
    case Key256b => 32
  }

  // The set-up after CRYP_Cmd(DISABLE)
  lemma SetUpLeaves(cr: bv32, s: InitStruct)
    requires FlushClear(cr) && s.dataType == Data8b && !s.mode.AesKeyPreparation?
    ensures var v := Clear(DriverCr(cr, s), 0x8000);
            && Rest(v) == Rest(cr) && !Enabled(v) && FlushClear(v) && ModeOf(v) == s.mode
            && Decrypting(v) == s.decrypt && ByteSwapping(v)
            && (IsAes(s.mode) ==> KeyBytesOf(v) == KeySizeBytes(s.keySize))
            && (!IsAes(s.mode) ==> Keep(v, 0x0300) == Keep(cr, 0x0300))
            && forall k :: KeyOf(v, k) == KeyOf(DriverCr(cr, s), k)
  {
    hide Set, Clear, ModeOf, Any, Configured, Decrypting, ByteSwapping, AesKey, Keep;
    var v := Configured(cr, s);
    var w := Set(v, 0x8000);
    DriverCrReads(cr, s);
    ConfiguredRest(cr, s);
    SwitchedRest(v);
    SwitchedRest(w);
    ClearClears(w, 0x8000);
    ClearOther(w, 0x8000, 0x4000);
    ModeUnchanged(w, 0x8000);
    ClearFields(w);
    ConfiguredFields(cr, s);
    SetKeeps(v, 0x8000, 0x0300);
    ClearKeeps(w, 0x8000, 0x0300);
  }

  lemma ClearFields(v: bv32)
    ensures ByteSwapping(Clear(v, 0x8000)) == ByteSwapping(v)
    ensures Clear(v, 0x8000) & 0x0300 == v & 0x0300
    ensures Decrypting(Clear(v, 0x8000)) == Decrypting(v)
  {
    assert (v & !0x8000) & 0x00C0 == v & 0x00C0;
    assert (v & !0x8000) & 0x0300 == v & 0x0300;
    assert (v & !0x8000) & 0x0004 == v & 0x0004;
  }

  /** Once flushed and enabled, the processor is ready for the context that CRYP_Init and the key registers
      describe. */
  lemma SetUpIsReady(hw: Chip, r: Registers, cr: bv32, s: InitStruct)
    requires ValidFor(hw, r) && FlushClear(cr) && s.dataType == Data8b && !s.mode.AesKeyPreparation?
    requires r.cr == DriverCr(cr, s) && r.job.NoJob? && r.inFifo == [] && r.outFifo == []
    ensures Ready(hw, r, Context(hw.si, FamilyOfMode(s.mode), ChainingOfMode(s.mode), s.decrypt, KeyOf(r.cr, r.keys)))
  {
    hide Sound, Any, Set, Clear, ModeOf, ByteSwapping, Decrypting, KeyOf, DriverCr;
    DriverCrReads(cr, s);
  }
}
