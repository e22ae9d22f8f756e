/** Laws about whole calls of the high-level CRYP functions. */
module CrypLaws {
  import opened Words
  import opened BlockModes
  import opened MemoryRun
  import opened CrypRegisters
  import opened CrypHardware
  import opened CrypDriver
  import opened CrypRun

  // ----- what the standard prescribes is unique

  lemma StandardDetermines(si: Silicon, family: Family, chaining: Chaining, decrypt: bool, key: seq<bv8>, iv: Block,
                           message: seq<Block>, out: seq<Block>)
    requires Sound(si) && KeyFits(family, key) && |iv| == BlockSize(family)
    requires chaining == CtrMode ==> family == Aes
    requires Whole(|iv|, message) && Whole(|iv|, out)
    requires Standard(si, family, chaining, decrypt, key, iv, message, out)
    ensures out == Stream(ContextFor(si, family, chaining, decrypt, key), iv, message)
  {
    hide Sound, Forward, Backward, Stream;
    ContextIsProper(si, family, chaining, decrypt, key);
    var other := Stream(ContextFor(si, family, chaining, decrypt, key), iv, message);
    StreamIsStandard(si, family, chaining, decrypt, key, iv, message);
    forall j | 0 <= j < |message|
      ensures out[j] == other[j]
    {
      StandardUnique(si, family, chaining, decrypt, key, iv, message, out, other, j);
    }
  }

  lemma {:induction false} StandardUnique(si: Silicon, family: Family, chaining: Chaining, decrypt: bool, key: seq<bv8>,
                                          iv: Block, message: seq<Block>, a: seq<Block>, b: seq<Block>, j: nat)
    requires Sound(si) && KeyFits(family, key) && |iv| == BlockSize(family)
    requires chaining == CtrMode ==> family == Aes
    requires Whole(|iv|, message) && Whole(|iv|, a) && Whole(|iv|, b)
    requires Standard(si, family, chaining, decrypt, key, iv, message, a)
    requires Standard(si, family, chaining, decrypt, key, iv, message, b)
    requires j < |message|
    ensures a[j] == b[j]
    decreases j
  {
    hide Sound, Forward, Backward;
    assert message[j] == message[j];
    if chaining == CbcMode && !decrypt && j > 0 {
      StandardUnique(si, family, chaining, decrypt, key, iv, message, a, b, j - 1);
    }
  }

  // ----- pairs of calls

  // A call that ended with SUCCESS
  ghost predicate Succeeded(hw: Chip, call: Call, mem0: seq<bv8>, mem1: seq<bv8>) {
    && Sound(hw.si) && call.Sensible(|mem0|)
    && exists job :: Promised(hw, call, job, mem0, mem1, SUCCESS)
  }

  lemma SucceededStream(hw: Chip, call: Call, mem0: seq<bv8>, mem1: seq<bv8>)
    requires Succeeded(hw, call, mem0, mem1)
    ensures |mem1| == |mem0|
    ensures BlocksAt(mem1, call.output, call.family, call.count) ==
            Stream(ContextFor(hw.si, call.family, call.chaining, call.decrypt, call.key), call.iv,
                   BlocksAt(mem0, call.input, call.family, call.count))
    ensures Wrote(mem0, mem1, call.output, call.family, BlocksAt(mem1, call.output, call.family, call.count))
  {
    hide Sound, Stream, Standard, Wrote;
    var job :| Promised(hw, call, job, mem0, mem1, SUCCESS);
    StandardDetermines(hw.si, call.family, call.chaining, call.decrypt, call.key, call.iv,
                       BlocksAt(mem0, call.input, call.family, call.count),
                       BlocksAt(mem1, call.output, call.family, call.count));
  }

  /** Encrypting a buffer and decrypting the result, with any two processors of the same silicon and whatever
      they did before, gives the buffer back. */
  lemma DecryptAfterEncrypt(hw: Chip, hw': Chip, enc: Call, dec: Call, mem0: seq<bv8>, mem1: seq<bv8>, mem2: seq<bv8>)
    requires hw'.si == hw.si && !enc.decrypt && dec == enc.(decrypt := true, input := enc.output, output := dec.output)
    requires Succeeded(hw, enc, mem0, mem1) && Succeeded(hw', dec, mem1, mem2)
    ensures BlocksAt(mem2, dec.output, enc.family, enc.count) == BlocksAt(mem0, enc.input, enc.family, enc.count)
  {
    hide Sound, Stream, Standard, Wrote, Promised;
    SucceededStream(hw, enc, mem0, mem1);
    SucceededStream(hw', dec, mem1, mem2);
    RoundTrip(hw.si, enc.family, enc.chaining, enc.key, enc.iv, BlocksAt(mem0, enc.input, enc.family, enc.count));
  }

  // The first a blocks of a call, and the others with another IV
  function FirstPart(call: Call, a: nat): Call {
    call.(count := a)
  }

  function SecondPart(call: Call, a: nat, iv: Block): Call
    requires a <= call.count
  {
    call.(input := call.input + Span(call.family, a), output := call.output + Span(call.family, a),
          count := call.count - a, iv := iv)
  }

  /** CBC encryption in two calls, the second one with the last ciphertext block of the first as its IV,
      gives the same bytes as one call, each of the three on any processor of the same silicon. */
  lemma CbcInTwoCalls(hw: Chip, hw1: Chip, hw2: Chip, call: Call, a: nat,
                      mem0: seq<bv8>, mem1: seq<bv8>, mem2: seq<bv8>, once: seq<bv8>)
    requires hw1.si == hw.si && hw2.si == hw.si
    requires call.chaining == CbcMode && !call.decrypt && 0 < a <= call.count
    requires Apart(call.family, call.input, call.output, call.count)
    requires Succeeded(hw, call, mem0, once)
    requires Succeeded(hw1, FirstPart(call, a), mem0, mem1)
    requires var last := BlocksAt(mem1, call.output, call.family, a)[a - 1];
             |last| == BlockSize(call.family) && Succeeded(hw2, SecondPart(call, a, last), mem1, mem2)
    ensures BlocksAt(mem2, call.output, call.family, call.count) == BlocksAt(once, call.output, call.family, call.count)
  {
    hide Sound, Stream, Standard, Promised;
    var f := call.family;
    var b := call.count - a;
    var first := FirstPart(call, a);
    var last := BlocksAt(mem1, call.output, f, a)[a - 1];
    var second := SecondPart(call, a, last);
    SucceededStream(hw, call, mem0, once);
    SucceededStream(hw1, first, mem0, mem1);
    SucceededStream(hw2, second, mem1, mem2);
    PartsInMemory(f, call.input, call.output, a, b, mem0, mem1, mem2);
    CbcSplit(hw.si, f, call.key, call.iv, BlocksAt(mem0, call.input, f, a), BlocksAt(mem0, second.input, f, b));
  }

  // What the two calls read and write, as parts of what one call would
  lemma PartsInMemory(f: Family, inp: nat, outp: nat, a: nat, b: nat, mem0: seq<bv8>, mem1: seq<bv8>, mem2: seq<bv8>)
    requires inp + Span(f, a + b) <= |mem0| && outp + Span(f, a + b) <= |mem0| && Apart(f, inp, outp, a + b)
    requires |mem1| == |mem0| == |mem2|
    requires Wrote(mem0, mem1, outp, f, BlocksAt(mem1, outp, f, a))
    requires Wrote(mem1, mem2, outp + Span(f, a), f, BlocksAt(mem2, outp + Span(f, a), f, b))
    ensures BlocksAt(mem0, inp, f, a + b) == BlocksAt(mem0, inp, f, a) + BlocksAt(mem0, inp + Span(f, a), f, b)
    ensures BlocksAt(mem1, inp + Span(f, a), f, b) == BlocksAt(mem0, inp + Span(f, a), f, b)
    ensures BlocksAt(mem2, outp, f, a + b) == BlocksAt(mem1, outp, f, a) + BlocksAt(mem2, outp + Span(f, a), f, b)
  {
    hide BlocksAt;
    BlocksJoin(mem0, inp, f, a, b);
    BlocksJoin(mem2, outp, f, a, b);
    BlocksFrame(mem1, mem2, outp, f, a);
    BlocksFrame(mem0, mem1, inp + Span(f, a), f, b);
  }

  lemma {:induction false} BlocksJoin(m: seq<bv8>, p: nat, family: Family, a: nat, b: nat)
    requires p + Span(family, a + b) <= |m|
    ensures BlocksAt(m, p, family, a + b) == BlocksAt(m, p, family, a) + BlocksAt(m, p + Span(family, a), family, b)
    decreases a
  {
    if a > 0 {
      BlocksJoin(m, p + BlockSize(family), family, a - 1, b);
      assert p + BlockSize(family) + Span(family, a - 1) == p + Span(family, a);
      assert a - 1 + b == a + b - 1;
    }
  }

  // ----- a call depends on its arguments only

  // Same place, except for the job number and, in ECB, the IV registers
  predicate SamePlace(c: Context, p: Place, q: Place) {
    p.mem == q.mem && p.inp == q.inp && p.outp == q.outp && (c.chaining == EcbMode || p.chain == q.chain)
  }

  lemma {:induction false} LoopTiming(c: Context, s1: Schedule, p: Place, s2: Schedule, q: Place, count: nat)
    requires Fits(c, p, count) && Fits(c, q, count) && SamePlace(c, p, q)
    requires Loop(c, s1, p, count).ok && Loop(c, s2, q, count).ok
    ensures Loop(c, s1, p, count).place.mem == Loop(c, s2, q, count).place.mem
    decreases count
  {
    hide Sound, Forward, Backward, Patch;
    if count > 0 {
      LoopTiming(c, s1, Next(c, p), s2, Next(c, q), count - 1);
    }
  }

  /** Two successful calls with the same arguments leave the same memory, however long each job took and
      whatever either processor had in its keys, IV registers, FIFOs and control register before. */
  lemma CallIsAFunction(hw: Chip, hw': Chip, call: Call, call': Call, r0: Registers, r0': Registers, mem0: seq<bv8>,
                        r1: Registers, r1': Registers, mem1: seq<bv8>, mem1': seq<bv8>)
    requires Sound(hw.si) && hw'.si == hw.si && call.Sensible(|mem0|) && call'.Sensible(|mem0|)
    requires call' == call.(iv := call'.iv) && (call.chaining == EcbMode || call'.iv == call.iv)
    requires Performed(hw, call, r0, mem0, r1, mem1, SUCCESS) && Performed(hw', call', r0', mem0, r1', mem1', SUCCESS)
    ensures mem1 == mem1'
  {
    hide Sound, Loop;
    var c := ContextFor(hw.si, call.family, call.chaining, call.decrypt, call.key);
    ContextIsProper(hw.si, call.family, call.chaining, call.decrypt, call.key);
    LoopTiming(c, hw.schedule, Place(call.FirstBlock(r0.jobs), call.iv, mem0, call.input, call.output),
               hw'.schedule, Place(call'.FirstBlock(r0'.jobs), call'.iv, mem0, call'.input, call'.output), call.count);
  }

  // ----- TDES and DES

  /** The two loops run in lock step, also when input and output overlap or a wait gives up. */
  lemma {:induction false} TdesLoopIsDesLoop(si: Silicon, chaining: Chaining, decrypt: bool, key: seq<bv8>,
                                             schedule: Schedule, p: Place, count: nat)
    requires Sound(si) && |key| == 8 && chaining != CtrMode
    requires var d := ContextFor(si, Des, chaining, decrypt, key); Fits(d, p, count)
    ensures var t := ContextFor(si, Tdes, chaining, decrypt, key + key + key);
            var d := ContextFor(si, Des, chaining, decrypt, key);
            Fits(t, p, count) && Loop(t, schedule, p, count) == Loop(d, schedule, p, count)
    decreases count
  {
    hide Sound, Patch, Forward, Backward;
    var t := ContextFor(si, Tdes, chaining, decrypt, key + key + key);
    var d := ContextFor(si, Des, chaining, decrypt, key);
    ContextIsProper(si, Tdes, chaining, decrypt, key + key + key);
    if count > 0 && schedule(p.job) < MAX_READS {
      var b := p.mem[p.inp..p.inp + 8];
      BundleOfOneKey(si, key, b);
      BundleOfOneKey(si, key, Xor(b, p.chain));
      assert Next(t, p) == Next(d, p);
      TdesLoopIsDesLoop(si, chaining, decrypt, key, schedule, Next(d, p), count - 1);
    }
  }

  /** CRYP_TDES_x with one key three times does to memory and status what CRYP_DES_x does with that key. */
  lemma TdesCallIsDesCall(hw: Chip, des: Call, r0: Registers, mem0: seq<bv8>, r1: Registers, mem1: seq<bv8>,
                          status: ErrorStatus, q0: Registers, q1: Registers, mem1': seq<bv8>, status': ErrorStatus)
    requires Sound(hw.si) && des.family == Des && des.Sensible(|mem0|) && q0.jobs == r0.jobs
    requires Performed(hw, des, r0, mem0, r1, mem1, status)
    requires Performed(hw, des.(family := Tdes, key := des.key + des.key + des.key), q0, mem0, q1, mem1', status')
    ensures mem1' == mem1 && status' == status
  {
    hide Sound, Loop;
    ContextIsProper(hw.si, Des, des.chaining, des.decrypt, des.key);
    TdesLoopIsDesLoop(hw.si, des.chaining, des.decrypt, des.key, hw.schedule,
                      Place(r0.jobs, des.iv, mem0, des.input, des.output), des.count);
  }

  /** The two calls may also run on different processors, or in ECB with different IV registers: when both
      succeed they leave the same memory. */
  lemma TdesCallAtAnyPace(hw: Chip, hw': Chip, des: Call, tdes: Call, r0: Registers, r0': Registers, mem0: seq<bv8>,
                          r1: Registers, r1': Registers, mem1: seq<bv8>, mem1': seq<bv8>)
    requires Sound(hw.si) && hw'.si == hw.si && des.family == Des && des.Sensible(|mem0|) && tdes.Sensible(|mem0|)
    requires tdes == des.(family := Tdes, key := des.key + des.key + des.key, iv := tdes.iv)
    requires des.chaining == EcbMode || tdes.iv == des.iv
    requires Performed(hw, des, r0, mem0, r1, mem1, SUCCESS) && Performed(hw', tdes, r0', mem0, r1', mem1', SUCCESS)
    ensures mem1' == mem1
  {
    hide Sound, Loop;
    var t := ContextFor(hw.si, Tdes, des.chaining, des.decrypt, tdes.key);
    ContextIsProper(hw.si, Des, des.chaining, des.decrypt, des.key);
    ContextIsProper(hw.si, Tdes, des.chaining, des.decrypt, tdes.key);
    var p := Place(r0.jobs, des.iv, mem0, des.input, des.output);
    TdesLoopIsDesLoop(hw.si, des.chaining, des.decrypt, des.key, hw.schedule, p, des.count);
    LoopTiming(t, hw.schedule, p, hw'.schedule, Place(r0'.jobs, tdes.iv, mem0, des.input, des.output), des.count);
  }

  // ----- overlapping buffers

  /** For this layout every run that succeeds stores what the processor makes of the original input. */
  ghost predicate OverlapIsHarmless(family: Family, inp: nat, outp: nat, count: nat) {
    forall c: Context, schedule: Schedule, p: Place {:trigger Loop(c, schedule, p, count)} ::
      c.family == family && p.inp == inp && p.outp == outp && Fits(c, p, count) && Loop(c, schedule, p, count).ok ==>
        Delivered(c, p, count, Loop(c, schedule, p, count).place)
  }

  /** Exactly the layouts of Apart are harmless. */
  lemma OverlapHarmlessIff(family: Family, inp: nat, outp: nat, count: nat)
    ensures OverlapIsHarmless(family, inp, outp, count) <==> Apart(family, inp, outp, count)
  {
    hide Loop, Fits, Delivered;
    if Apart(family, inp, outp, count) {
      forall c: Context, schedule: Schedule, p: Place |
        c.family == family && p.inp == inp && p.outp == outp && Fits(c, p, count) && Loop(c, schedule, p, count).ok
        ensures Delivered(c, p, count, Loop(c, schedule, p, count).place)
      {
        LoopDelivers(c, schedule, p, count);
      }
    } else {
      var c, schedule, p := ClobberedInput(family, inp, outp, count);
    }
  }

  function PlainSilicon(): (si: Silicon)
    ensures Sound(si)
  {
    Silicon((k, b) => b, (k, b) => b, k => k, (k, b) => b, (k, b) => b, b => b)
  }

  function Zeros(n: nat): (r: seq<bv8>)
    ensures |r| == n
  {
    seq(n, i => 0)
  }

  /** For example: CRYP_AES_ECB, decrypting, on a processor that takes too long to prepare a key of zeros. */
  lemma FlushedWhileBusy() returns (hw: Chip, call: Call, r0: Registers, mem: seq<bv8>, r1: Registers)
    ensures Sound(hw.si) && call.Sensible(|mem|) && !r0.flushedWhileBusy
    ensures Performed(hw, call, r0, mem, r1, mem, ERROR) && r1.flushedWhileBusy
  {
    var z := ZERO;
    hw := Chip(PlainSilicon(), j => MAX_READS, false, false);
    call := Call(Aes, EcbMode, true, Zeros(16), Zeros(16), 0, 0, 1);
    mem := Zeros(16);
    r0 := Registers(0xA4, 0, KeyRegisters(z, z, z, z, z, z, z, z), IvRegisters(z, z, z, z), [], [], NoJob, 0, 0, 0,
                    false);
    r1 := r0.(polls := MAX_READS, flushedWhileBusy := true);
  }

  // With ciphers that change nothing the loop copies blocks
  function CopyContext(family: Family): (c: Context)
    ensures Proper(c)
  {
    Context(PlainSilicon(), family, EcbMode, false,
            Zeros(if family == Des then 8 else if family == Tdes then 24 else 16))
  }

  lemma CopyStep(family: Family, chain: Block, b: Block)
    requires |chain| == |b| == BlockSize(family)
    ensures Step(CopyContext(family), chain, b) == Stepped(b, chain)
  {
  }

  lemma {:induction false} CopyOfZeros(family: Family, schedule: Schedule, p: Place, count: nat)
    requires Fits(CopyContext(family), p, count) && p.mem == Zeros(|p.mem|)
    ensures Loop(CopyContext(family), schedule, p, count).place.mem == p.mem
    decreases count
  {
    hide Next, Proper, CopyContext;
    if count > 0 && schedule(p.job) < MAX_READS {
      CopiedZeros(family, p);
      CopyOfZeros(family, schedule, Next(CopyContext(family), p), count - 1);
    }
  }

  lemma CopiedZeros(family: Family, p: Place)
    requires Fits(CopyContext(family), p, 1) && p.mem == Zeros(|p.mem|)
    ensures Next(CopyContext(family), p).mem == p.mem
  {
    hide Step, Sound;
    var n := BlockSize(family);
    CopyStep(family, p.chain, p.mem[p.inp..p.inp + n]);
    assert Patch(p.mem, p.outp, p.mem[p.inp..p.inp + n]) == p.mem;
  }

  lemma {:induction false} CopyStream(family: Family, chain: Block, message: seq<Block>)
    requires |chain| == BlockSize(family) && Whole(BlockSize(family), message)
    ensures Stream(CopyContext(family), chain, message) == message
    decreases |message|
  {
    hide Step;
    if message != [] {
      CopyStep(family, chain, message[0]);
      CopyStream(family, chain, message[1..]);
    }
  }

  lemma AlwaysFast(schedule: Schedule, c: Context, p: Place, count: nat)
    requires Fits(c, p, count) && forall j :: schedule(j) == 0
    ensures Loop(c, schedule, p, count).ok
    decreases count
  {
    hide Step;
    if count > 0 {
      AlwaysFast(schedule, c, Next(c, p), count - 1);
    }
  }

  // The byte at address a of memory, as part of the blocks read from p on
  lemma {:induction false} BlocksDiffer(m: seq<bv8>, p: nat, m': seq<bv8>, p': nat, family: Family, count: nat, i: nat)
    requires p + Span(family, count) <= |m| && p' + Span(family, count) <= |m'| && i < Span(family, count)
    requires BlocksAt(m, p, family, count) == BlocksAt(m', p', family, count)
    ensures m[p + i] == m'[p' + i]
    decreases count
  {
    var n := BlockSize(family);
    var a, b := BlocksAt(m, p, family, count), BlocksAt(m', p', family, count);
    if i < n {
      assert a[0][i] == m[p + i] && b[0][i] == m'[p' + i];
    } else {
      assert a[1..] == b[1..];
      BlocksDiffer(m, p + n, m', p' + n, family, count - 1, i - n);
    }
  }

  // Memory that is 0 but for one byte of the input that the first block overwrites before it is read
  function OneByte(size: nat, a: nat): (r: seq<bv8>)
    requires a < size
    ensures |r| == size
  {
    Zeros(size)[a := 1]
  }

  lemma FirstBlockClears(family: Family, p: Place, a: nat)
    requires Fits(CopyContext(family), p, 1) && a < |p.mem| && p.mem == OneByte(|p.mem|, a)
    requires p.inp + BlockSize(family) <= a && p.outp <= a < p.outp + BlockSize(family)
    ensures Next(CopyContext(family), p).mem == Zeros(|p.mem|)
  {
    hide Step, Sound;
    var n := BlockSize(family);
    CopyStep(family, p.chain, p.mem[p.inp..p.inp + n]);
    assert p.mem[p.inp..p.inp + n] == Zeros(n);
  }

  /** A run that goes wrong for any other layout. */
  lemma ClobberedInput(family: Family, inp: nat, outp: nat, count: nat)
    returns (c: Context, schedule: Schedule, p: Place)
    requires !Apart(family, inp, outp, count)
    ensures c.family == family && p.inp == inp && p.outp == outp && Fits(c, p, count) && Loop(c, schedule, p, count).ok
    ensures !Delivered(c, p, count, Loop(c, schedule, p, count).place)
  {
    hide Step, Sound, Loop, Next, Delivered, OneByte;
    var n := BlockSize(family);
    var a := if outp < inp + n then inp + n else outp;
    c := CopyContext(family);
    schedule := j => 0;
    var size := outp + Span(family, count);
    p := Place(0, Zeros(n), OneByte(size, a), inp, outp);
    AlwaysFast(schedule, c, p, count);
    FirstBlockClears(family, p, a);
    LoopUnfold(c, schedule, p, count);
    CopyOfZeros(family, schedule, Next(c, p), count - 1);
    ZerosAreWrong(family, p, a, count, Loop(c, schedule, p, count).place);
  }

  lemma ZerosAreWrong(family: Family, p: Place, a: nat, count: nat, after: Place)
    requires Fits(CopyContext(family), p, count) && a < |p.mem| && p.mem == OneByte(|p.mem|, a)
    requires p.inp <= a < p.inp + Span(family, count)
    requires after.mem == Zeros(|p.mem|)
    ensures !Delivered(CopyContext(family), p, count, after)
  {
    hide Step, Sound, Stream;
    CopyStream(family, p.chain, BlocksAt(p.mem, p.inp, family, count));
    if Delivered(CopyContext(family), p, count, after) {
      BlocksDiffer(after.mem, p.outp, p.mem, p.inp, family, count, a - p.inp);
    }
  }

  lemma LoopUnfold(c: Context, schedule: Schedule, p: Place, count: nat)
    requires Fits(c, p, count) && count > 0 && schedule(p.job) < MAX_READS
    ensures Loop(c, schedule, p, count).place == Loop(c, schedule, Next(c, p), count - 1).place
  {
    hide Step;
  }
}
