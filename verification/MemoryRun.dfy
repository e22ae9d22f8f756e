/** The block loop of the high-level functions as a function of memory: read a block, wait, store a block.
    Input and output may overlap in any way; the lemmas say when that does no harm. */
module MemoryRun {
  import opened Words
  import opened BlockModes

  // Status reads that a wait may take
  const MAX_READS: nat := 65536

  /** How the hardware takes its time: the number of status reads that still see job number j busy. */
  type Schedule = nat -> nat

  function Span(family: Family, count: nat): nat {
    if family == Aes then 16 * count else 8 * count
  }

  /** Where a run is: number of the next job, IV registers, memory, and the two addresses. */
  datatype Place = Place(job: nat, chain: Block, mem: seq<bv8>, inp: nat, outp: nat)

  ghost predicate Fits(c: Context, p: Place, count: nat) {
    && Proper(c)
    && |p.chain| == BlockSize(c.family)
    && p.inp + Span(c.family, count) <= |p.mem|
    && p.outp + Span(c.family, count) <= |p.mem|
  }

  // One block: read, processed, stored
  function Next(c: Context, p: Place): (q: Place)
    requires Fits(c, p, 1)
    ensures |q.mem| == |p.mem| && |q.chain| == |p.chain|
    ensures q.job == p.job + 1 && q.inp == p.inp + BlockSize(c.family) && q.outp == p.outp + BlockSize(c.family)
  {
    var n := BlockSize(c.family);
    var s := Step(c, p.chain, p.mem[p.inp..p.inp + n]);
    Place(p.job + 1, s.chain, Patch(p.mem, p.outp, s.out), p.inp + n, p.outp + n)
  }

  datatype Run = Run(place: Place, ok: bool, polls: nat)

  function Loop(c: Context, schedule: Schedule, p: Place, count: nat): (r: Run)
    requires Fits(c, p, count)
    ensures |r.place.mem| == |p.mem| && |r.place.chain| == |p.chain|
    decreases count
  {
    if count == 0 then Run(p, true, 0)
    else if schedule(p.job) >= MAX_READS then Run(p, false, MAX_READS)
    else Later(schedule(p.job) + 1, Loop(c, schedule, Next(c, p), count - 1))
  }

  function Later(polls: nat, r: Run): Run {
    r.(polls := polls + r.polls)
  }

  /** The jobs from `job` on that finish before their wait gives up, at most count. */
  function Completed(schedule: Schedule, job: nat, count: nat): (k: nat)
    ensures k <= count
    ensures forall j :: job <= j < job + k ==> schedule(j) < MAX_READS
    ensures k < count ==> schedule(job + k) >= MAX_READS
    decreases count
  {
    if count == 0 || schedule(job) >= MAX_READS then 0 else 1 + Completed(schedule, job + 1, count - 1)
  }

  function BlocksAt(mem: seq<bv8>, a: nat, family: Family, count: nat): (r: seq<Block>)
    requires a + Span(family, count) <= |mem|
    ensures |r| == count && Whole(BlockSize(family), r)
    decreases count
  {
    if count == 0 then [] else [mem[a..a + BlockSize(family)]] + BlocksAt(mem, a + BlockSize(family), family, count - 1)
  }

  /** No block is overwritten before it was read: the output starts at or before the input, or behind it, or
      there is nothing left to read when the first block is stored. */
  predicate Apart(family: Family, inp: nat, outp: nat, count: nat) {
    outp <= inp || inp + Span(family, count) <= outp || count <= 1
  }

  /** Memory `after` has the blocks `out` at address a and is otherwise like `before`. */
  ghost predicate Wrote(before: seq<bv8>, after: seq<bv8>, a: nat, family: Family, out: seq<Block>) {
    && |after| == |before|
    && a + Span(family, |out|) <= |after|
    && BlocksAt(after, a, family, |out|) == out
    && forall x :: 0 <= x < |before| && !(a <= x < a + Span(family, |out|)) ==> after[x] == before[x]
  }

  lemma {:induction false} BlocksFrame(m: seq<bv8>, m': seq<bv8>, a: nat, family: Family, count: nat)
    requires a + Span(family, count) <= |m| == |m'|
    requires forall x :: a <= x < a + Span(family, count) ==> m'[x] == m[x]
    ensures BlocksAt(m', a, family, count) == BlocksAt(m, a, family, count)
    decreases count
  {
    if count > 0 {
      var n := BlockSize(family);
      assert m'[a..a + n] == m[a..a + n];
      BlocksFrame(m, m', a + n, family, count - 1);
    }
  }

  /** `after` is where a run from p has processed and stored k blocks, and changed nothing else. */
  ghost predicate Delivered(c: Context, p: Place, k: nat, after: Place)
    requires Fits(c, p, k)
  {
    var blocks := BlocksAt(p.mem, p.inp, c.family, k);
    && Wrote(p.mem, after.mem, p.outp, c.family, Stream(c, p.chain, blocks))
    && after.chain == LastChain(c, p.chain, blocks)
  }

  // The loop succeeds if no wait gives up
  lemma {:induction false} LoopSucceedsIff(c: Context, schedule: Schedule, p: Place, count: nat)
    requires Fits(c, p, count)
    ensures Loop(c, schedule, p, count).ok <==> Completed(schedule, p.job, count) == count
    decreases count
  {
    hide Step, Next, Proper;
    if count > 0 && schedule(p.job) < MAX_READS {
      LoopSucceedsIff(c, schedule, Next(c, p), count - 1);
    }
  }

  /** The loop stores, for the blocks whose wait succeeds and for no other, what the processor makes of
      them; it does not touch the rest of memory. */
  lemma {:induction false} LoopDelivers(c: Context, schedule: Schedule, p: Place, count: nat)
    requires Fits(c, p, count) && Apart(c.family, p.inp, p.outp, count)
    ensures Loop(c, schedule, p, count).ok <==> Completed(schedule, p.job, count) == count
    ensures Delivered(c, p, Completed(schedule, p.job, count), Loop(c, schedule, p, count).place)
    decreases count
  {
    hide Step, Next, Delivered, Proper, Completed, Loop;
    LoopSucceedsIff(c, schedule, p, count);
    if count == 0 || schedule(p.job) >= MAX_READS {
      NoneDelivered(c, schedule, p, count);
    } else {
      LoopDelivers(c, schedule, Next(c, p), count - 1);
      OneMoreDelivered(c, schedule, p, count);
    }
  }

  lemma NoneDelivered(c: Context, schedule: Schedule, p: Place, count: nat)
    requires Fits(c, p, count) && (count == 0 || schedule(p.job) >= MAX_READS)
    ensures Delivered(c, p, Completed(schedule, p.job, count), Loop(c, schedule, p, count).place)
  {
    hide Delivered, Proper;
    NothingDelivered(c, p);
  }

  lemma OneMoreDelivered(c: Context, schedule: Schedule, p: Place, count: nat)
    requires Fits(c, p, count) && Apart(c.family, p.inp, p.outp, count) && count > 0 && schedule(p.job) < MAX_READS
    requires var q := Next(c, p);
             Delivered(c, q, Completed(schedule, q.job, count - 1), Loop(c, schedule, q, count - 1).place)
    ensures Delivered(c, p, Completed(schedule, p.job, count), Loop(c, schedule, p, count).place)
  {
    hide Next, Delivered, Proper, Completed, Loop, Apart;
    var q := Next(c, p);
    LoopTurn(c, schedule, p, count);
    ApartLess(c.family, p.inp, p.outp, count, Completed(schedule, p.job, count));
    OneMore(c, p, Completed(schedule, q.job, count - 1), Loop(c, schedule, q, count - 1).place);
  }

  lemma ApartLess(family: Family, inp: nat, outp: nat, count: nat, k: nat)
    requires Apart(family, inp, outp, count) && k <= count
    ensures Apart(family, inp, outp, k)
  {
  }

  // One turn of a loop whose wait succeeds
  lemma LoopTurn(c: Context, schedule: Schedule, p: Place, count: nat)
    requires Fits(c, p, count) && count > 0 && schedule(p.job) < MAX_READS
    ensures Fits(c, Next(c, p), count - 1)
    ensures Loop(c, schedule, p, count).place == Loop(c, schedule, Next(c, p), count - 1).place
    ensures Completed(schedule, p.job, count) == Completed(schedule, Next(c, p).job, count - 1) + 1
  {
    hide Next, Proper;
  }

  lemma NothingDelivered(c: Context, p: Place)
    requires Fits(c, p, 0)
    ensures Delivered(c, p, 0, p)
  {
  }

  lemma NextStores(c: Context, p: Place)
    requires Fits(c, p, 1)
    ensures var n := BlockSize(c.family);
            var s := Step(c, p.chain, p.mem[p.inp..p.inp + n]);
            Next(c, p).mem[p.outp..p.outp + n] == s.out && Next(c, p).chain == s.chain
    ensures forall x :: 0 <= x < |p.mem| && !(p.outp <= x < p.outp + BlockSize(c.family)) ==>
            Next(c, p).mem[x] == p.mem[x]
  {
    hide Step;
  }

  // The first block of a run, put before the others
  lemma OneMore(c: Context, p: Place, k: nat, after: Place)
    requires Fits(c, p, k + 1) && Apart(c.family, p.inp, p.outp, k + 1)
    requires Delivered(c, Next(c, p), k, after)
    ensures Delivered(c, p, k + 1, after)
  {
    hide Step, Sound, BlocksAt, Next;
    var n := BlockSize(c.family);
    var s := Step(c, p.chain, p.mem[p.inp..p.inp + n]);
    var q := Next(c, p);
    NextStores(c, p);
    FirstAndOthers(p.mem, p.inp, c.family, k);
    BlocksFrame(p.mem, q.mem, q.inp, c.family, k);
    FirstAndOthers(after.mem, p.outp, c.family, k);
    var blocks := BlocksAt(p.mem, p.inp, c.family, k + 1);
    assert Stream(c, p.chain, blocks) == [s.out] + Stream(c, q.chain, blocks[1..]);
    assert after.mem[p.outp..p.outp + n] == q.mem[p.outp..p.outp + n];
  }

  lemma FirstAndOthers(m: seq<bv8>, a: nat, family: Family, k: nat)
    requires a + Span(family, k + 1) <= |m|
    ensures BlocksAt(m, a, family, k + 1) ==
            [m[a..a + BlockSize(family)]] + BlocksAt(m, a + BlockSize(family), family, k)
  {
  }

  /** Each wait reads the status at most 65536 times. */
  lemma {:induction false} LoopPolls(c: Context, schedule: Schedule, p: Place, count: nat)
    requires Fits(c, p, count)
    ensures Loop(c, schedule, p, count).polls <= MAX_READS * count
    decreases count
  {
    hide Step, Next;
    if count > 0 && schedule(p.job) < MAX_READS {
      LoopPolls(c, schedule, Next(c, p), count - 1);
    }
  }

  /** Where a run from p is after count blocks, if nobody looks at the time. */
  function Advance(c: Context, p: Place, count: nat): (q: Place)
    requires Fits(c, p, count)
    ensures |q.mem| == |p.mem| && |q.chain| == |p.chain|
    decreases count
  {
    if count == 0 then p else Advance(c, Next(c, p), count - 1)
  }

  lemma OneMoreAdvance(c: Context, p: Place, k: nat)
    requires Fits(c, p, 1) && Fits(c, Next(c, p), k)
    ensures Fits(c, p, k + 1) && Advance(c, p, k + 1) == Advance(c, Next(c, p), k)
  {
    hide Step, Proper;
  }

  /** Every loop gets as far as its waits let it, and to the same place at any pace. */
  lemma {:induction false} LoopAdvances(c: Context, schedule: Schedule, p: Place, count: nat)
    requires Fits(c, p, count)
    ensures var k := Completed(schedule, p.job, count);
            Fits(c, p, k) && Loop(c, schedule, p, count).place == Advance(c, p, k)
    decreases count
  {
    hide Next, Proper, Loop, Completed, Advance;
    if count > 0 && schedule(p.job) < MAX_READS {
      LoopTurn(c, schedule, p, count);
      LoopAdvances(c, schedule, Next(c, p), count - 1);
      OneMoreAdvance(c, p, Completed(schedule, Next(c, p).job, count - 1));
    } else {
      LoopStays(c, schedule, p, count);
    }
  }

  lemma LoopStays(c: Context, schedule: Schedule, p: Place, count: nat)
    requires Fits(c, p, count) && (count == 0 || schedule(p.job) >= MAX_READS)
    ensures Completed(schedule, p.job, count) == 0 && Fits(c, p, 0)
    ensures Loop(c, schedule, p, count).place == p == Advance(c, p, 0)
  {
    hide Next, Proper;
  }

  /** At any pace, what has been stored is what the processor makes of the original input. */
  lemma AdvanceDelivers(c: Context, p: Place, count: nat)
    requires Fits(c, p, count) && Apart(c.family, p.inp, p.outp, count)
    ensures Delivered(c, p, count, Advance(c, p, count))
  {
    hide Next, Proper, Delivered, Loop, Advance;
    var atOnce: Schedule := j => 0;
    assert Completed(atOnce, p.job, count) == count;
    LoopAdvances(c, atOnce, p, count);
    LoopDelivers(c, atOnce, p, count);
  }

  lemma {:induction false} AdvanceSplit(c: Context, p: Place, a: nat, b: nat)
    requires Fits(c, p, a + b)
    ensures var q := Advance(c, p, a);
            && q.job == p.job + a && q.inp == p.inp + Span(c.family, a) && q.outp == p.outp + Span(c.family, a)
            && Fits(c, q, b) && Advance(c, p, a + b) == Advance(c, q, b)
    decreases a
  {
    hide Step, Proper;
    if a > 0 {
      assert a - 1 + b == a + b - 1;
      AdvanceSplit(c, Next(c, p), a - 1, b);
    }
  }

  // Job numbers are only counted
  lemma {:induction false} AdvanceFromJob(c: Context, p: Place, job: nat, count: nat)
    requires Fits(c, p, count)
    ensures Advance(c, p.(job := job), count) == Advance(c, p, count).(job := job + count)
    decreases count
  {
    hide Step, Patch;
    if count > 0 {
      AdvanceFromJob(c, Next(c, p), job + 1, count - 1);
    }
  }

  /** A run may be cut at any block boundary: the second part goes on from where the first one is. */
  lemma {:induction false} LoopSplit(c: Context, schedule: Schedule, p: Place, a: nat, b: nat)
    requires Fits(c, p, a + b)
    requires Loop(c, schedule, p, a).ok
    ensures var first := Loop(c, schedule, p, a);
            && Fits(c, first.place, b)
            && first.place.job == p.job + a
            && first.place.inp == p.inp + Span(c.family, a) && first.place.outp == p.outp + Span(c.family, a)
            && Loop(c, schedule, p, a + b) == Later(first.polls, Loop(c, schedule, first.place, b))
    decreases a
  {
    hide Step, Next;
    if a > 0 {
      assert Loop(c, schedule, p, a) == Later(schedule(p.job) + 1, Loop(c, schedule, Next(c, p), a - 1));
      LoopSplit(c, schedule, Next(c, p), a - 1, b);
      assert a - 1 + b == a + b - 1;
    }
  }
}
