/** What sequences of erase and program calls do to memory. */
module FlashLaws {
  import opened Bits
  import opened FlashHardware
  import opened FlashDriver

  // ----- single calls

  /** A program call that reports COMPLETE found the device unlocked, stored once and by the rules, and the
      memory is the old one with the bits of the data cleared. */
  lemma CompleteProgram(hw: Chip, f: State, a: nat, data: seq<bv8>, g: State)
    requires ValidFor(hw, f) && a + |data| <= |f.mem|
    requires ProgramEffect(hw, f, a, data, g, COMPLETE)
    ensures !Locked(f.cr) && g.mem == Programmed(f.mem, a, data)
    ensures exists e :: g.stores == f.stores + [e] && Proper(e) && e.address == a && e.width == |data|
  {
    hide Any, Set, Proper, ProgramCr, Outcome;
    if Locked(f.cr) && Outcome(f.sr) == COMPLETE {
      ErrorShows(f.sr, 0x80);
    }
    ErrorShows(f.sr, hw.flags(f.jobs));
    assert !Failed(hw, f.jobs);
    assert g.stores == f.stores + [StoreEvent(a, |data|, ProgramCr(f.cr, |data|), false)];
  }

  // An error flag that is raised is seen by FLASH_GetStatus
  lemma ErrorShows(sr: bv32, flags: bv32)
    requires Outcome(Set(sr, flags)) == COMPLETE
    ensures !Any(flags, 0xF2)
    ensures flags & 0x80 == 0
  {
    OutcomeMeans(Set(sr, flags));
    ErrorBits(sr, flags);
  }

  lemma ErrorBits(sr: bv32, flags: bv32)
    requires (sr | flags) & 0xFF == 0
    ensures flags & 0xF2 == 0
    ensures flags & 0x80 == 0
  {
  }

  /** While the control register is locked no program call changes memory, and none reports COMPLETE. */
  lemma LockedProgram(hw: Chip, f: State, a: nat, data: seq<bv8>, g: State, status: FlashStatus)
    requires a + |data| <= |f.mem| && Locked(f.cr)
    requires ProgramEffect(hw, f, a, data, g, status)
    ensures g.mem == f.mem && status != COMPLETE
  {
    if Outcome(f.sr) == COMPLETE && Outcome(Set(f.sr, 0x80)) == COMPLETE {
      ErrorShows(f.sr, 0x80);
    }
  }

  /** An erase call, in contrast, reports COMPLETE on a locked device and erases nothing: COMPLETE means that
      the range is erased exactly when the device was unlocked, or the range was blank already. */
  lemma CompleteEraseIff(hw: Chip, f: State, lo: nat, hi: nat, e: Erase, g: State)
    requires ValidFor(hw, f) && lo <= hi <= |f.mem|
    requires EraseEffect(hw, f, lo, hi, e, g, COMPLETE)
    ensures g.mem == Erased(f.mem, lo, hi) <==> !Locked(f.cr) || f.mem == Erased(f.mem, lo, hi)
  {
    hide Any, Set, Erased;
    if !Locked(f.cr) {
      if Outcome(f.sr) == COMPLETE {
        ErrorShows(f.sr, hw.flags(f.jobs));
        assert !Failed(hw, f.jobs);
      }
    }
  }

  /** For example: erasing a locked device that holds zeros. */
  lemma NothingErased() returns (hw: Chip, f: State)
    ensures ValidFor(hw, f) && Resting(hw, f) && Locked(f.cr)
    ensures EraseEffect(hw, f, 0, |f.mem|, MassErase(0), f, COMPLETE) && f.mem != Erased(f.mem, 0, |f.mem|)
  {
    hw := Chip(seq(SECTORS + 1, i => i), j => 0, j => 0, j => (x => 0xFF));
    f := State(0x80000000, 0, FirstKey, seq(SECTORS, i => 0x00), NoJob, 0, 0, [], []);
    assert f.mem[0] != Erased(f.mem, 0, |f.mem|)[0];
  }

  // ----- sequences of programs

  datatype Op = Op(address: nat, data: seq<bv8>)

  predicate Inside(ops: seq<Op>, lo: nat, hi: nat) {
    forall i :: 0 <= i < |ops| ==> lo <= ops[i].address && ops[i].address + |ops[i].data| <= hi
  }

  function AllProgrammed(mem: seq<bv8>, ops: seq<Op>): (r: seq<bv8>)
    requires Inside(ops, 0, |mem|)
    ensures |r| == |mem|
    decreases |ops|
  {
    if ops == [] then mem
    else
      var last := ops[|ops| - 1];
      Programmed(AllProgrammed(mem, ops[..|ops| - 1]), last.address, last.data)
  }

  // The byte that an operation stores at address x, or a byte that clears nothing
  function ByteAt(op: Op, x: nat): bv8 {
    if op.address <= x < op.address + |op.data| then op.data[x - op.address] else 0xFF
  }

  // All bits that some operation clears at address x
  function Kept(ops: seq<Op>, x: nat): bv8
    decreases |ops|
  {
    if ops == [] then 0xFF else And(Kept(ops[..|ops| - 1], x), ByteAt(ops[|ops| - 1], x))
  }

  function And(a: bv8, b: bv8): bv8 {
    a & b
  }

  /** Also when ranges overlap: a byte ends up with the bits that it had and that no operation cleared. */
  lemma {:induction false} AllProgrammedByte(mem: seq<bv8>, ops: seq<Op>, x: nat)
    requires Inside(ops, 0, |mem|) && x < |mem|
    ensures AllProgrammed(mem, ops)[x] == And(mem[x], Kept(ops, x))
    decreases |ops|
  {
    hide And, Programmed;
    if ops == [] {
      AndOnes(mem[x]);
    } else {
      var rest, last := ops[..|ops| - 1], ops[|ops| - 1];
      assert Inside(rest, 0, |mem|);
      AllProgrammedByte(mem, rest, x);
      ProgrammedByte(AllProgrammed(mem, rest), last, x);
      AndAssociates(mem[x], Kept(rest, x), ByteAt(last, x));
    }
  }

  lemma ProgrammedByte(mem: seq<bv8>, op: Op, x: nat)
    requires op.address + |op.data| <= |mem| && x < |mem|
    ensures Programmed(mem, op.address, op.data)[x] == And(mem[x], ByteAt(op, x))
  {
    hide Programmed;
    AndOnes(mem[x]);
  }

  lemma AndOnes(b: bv8)
    ensures And(b, 0xFF) == b && And(0xFF, b) == b
  {
  }

  lemma AndAssociates(a: bv8, b: bv8, c: bv8)
    ensures And(And(a, b), c) == And(a, And(b, c))
  {
  }

  predicate Disjoint(ops: seq<Op>) {
    forall i, j :: 0 <= i < j < |ops| ==>
      ops[i].address + |ops[i].data| <= ops[j].address || ops[j].address + |ops[j].data| <= ops[i].address
  }

  predicate Covers(op: Op, x: nat) {
    op.address <= x < op.address + |op.data|
  }

  lemma {:induction false} KeptOfDisjoint(ops: seq<Op>, x: nat, i: nat)
    requires Disjoint(ops) && i < |ops| && Covers(ops[i], x)
    ensures Kept(ops, x) == ByteAt(ops[i], x)
    decreases |ops|
  {
    var rest, last := ops[..|ops| - 1], ops[|ops| - 1];
    if i == |ops| - 1 {
      KeptOfNone(rest, x);
      AndOnes(ByteAt(last, x));
    } else {
      assert rest[i] == ops[i];
      KeptOfDisjoint(rest, x, i);
      AndOnes(ByteAt(ops[i], x));
    }
  }

  lemma {:induction false} KeptOfNone(ops: seq<Op>, x: nat)
    requires forall i :: 0 <= i < |ops| ==> !Covers(ops[i], x)
    ensures Kept(ops, x) == 0xFF
    decreases |ops|
  {
    if ops != [] {
      KeptOfNone(ops[..|ops| - 1], x);
      assert !Covers(ops[|ops| - 1], x);
      AndOnes(0xFF);
    }
  }

  /** In an erased range, programs of pairwise disjoint parts all read back; the rest of the range stays
      blank and the rest of memory stays as it was. */
  lemma ErasedThenProgrammed(mem: seq<bv8>, lo: nat, hi: nat, ops: seq<Op>)
    requires lo <= hi <= |mem| && Inside(ops, lo, hi) && Disjoint(ops)
    ensures Inside(ops, 0, |mem|)
    ensures var r := AllProgrammed(Erased(mem, lo, hi), ops);
            && (forall i :: 0 <= i < |ops| ==> r[ops[i].address..ops[i].address + |ops[i].data|] == ops[i].data)
            && (forall x :: lo <= x < hi && (forall i :: 0 <= i < |ops| ==> !Covers(ops[i], x)) ==> r[x] == 0xFF)
            && (forall x :: 0 <= x < |mem| && !(lo <= x < hi) ==> r[x] == mem[x])
  {
    hide AllProgrammed, Kept, Erased, And;
    var blank := Erased(mem, lo, hi);
    var r := AllProgrammed(blank, ops);
    forall i: nat, x: nat | i < |ops| && Covers(ops[i], x)
      ensures r[x] == ops[i].data[x - ops[i].address]
    {
      AllProgrammedByte(blank, ops, x);
      KeptOfDisjoint(ops, x, i);
      AndOnes(ByteAt(ops[i], x));
    }
    forall i | 0 <= i < |ops|
      ensures r[ops[i].address..ops[i].address + |ops[i].data|] == ops[i].data
    {
      forall k | 0 <= k < |ops[i].data|
        ensures r[ops[i].address + k] == ops[i].data[k]
      {
        assert Covers(ops[i], ops[i].address + k);
      }
    }
    forall x | 0 <= x < |mem| && forall i :: 0 <= i < |ops| ==> !Covers(ops[i], x)
      ensures r[x] == blank[x]
    {
      AllProgrammedByte(blank, ops, x);
      KeptOfNone(ops, x);
      AndOnes(blank[x]);
    }
    forall x | 0 <= x < |mem| && !(lo <= x < hi)
      ensures r[x] == mem[x]
    {
      assert forall i :: 0 <= i < |ops| ==> !Covers(ops[i], x);
    }
  }

  // ----- a session

  predicate Widths(ops: seq<Op>) {
    forall i :: 0 <= i < |ops| ==> |ops[i].data| in {1, 2, 4, 8}
  }

  /** Operations number from .. from + n - 1 of the device raise no flag that FLASH_GetStatus takes for an error. */
  predicate Quiet(hw: Chip, from: nat, n: nat) {
    forall j :: from <= j < from + n ==> hw.flags(j) & 0xFF == 0
  }

  /** Erasing the range [lo, hi) and programming it, from state f with memory before: how it stands after done
      programs with status COMPLETE. */
  ghost predicate Completed(hw: Chip, f: State, lo: nat, hi: nat, ops: seq<Op>, done: nat, g: State)
    requires lo <= hi <= |f.mem| && done <= |ops| && Inside(ops, 0, |f.mem|)
  {
    && Outcome(f.sr) == COMPLETE && Quiet(hw, f.jobs, done + 1) && g.jobs == f.jobs + done + 1
    && g.mem == AllProgrammed(Erased(f.mem, lo, hi), ops[..done])
  }

  /** How it stands when the call after done programs did not report COMPLETE: an error flag from before keeps
      everything as it was; otherwise the operation of that call raised a flag, and only its own range is open. */
  ghost predicate Stopped(hw: Chip, f: State, lo: nat, hi: nat, ops: seq<Op>, done: nat, g: State)
    requires lo <= hi <= |f.mem| && done <= |ops| && Inside(ops, 0, |f.mem|)
  {
    && |g.mem| == |f.mem|
    && if Outcome(f.sr) != COMPLETE then done == 0 && g.mem == f.mem
       else if hw.flags(f.jobs) & 0xFF != 0 then
         && done == 0 && forall x :: 0 <= x < |f.mem| && !(lo <= x < hi) ==> g.mem[x] == f.mem[x]
       else
         && done < |ops| && Quiet(hw, f.jobs, done + 1) && hw.flags(f.jobs + done + 1) & 0xFF != 0
         && var m := AllProgrammed(Erased(f.mem, lo, hi), ops[..done]);
            forall x :: 0 <= x < |m| && !Covers(ops[done], x) ==> g.mem[x] == m[x]
  }

  /** Erasing a sector and programming it, until all is done or a call does not report COMPLETE. It reports
      COMPLETE if and only if no error flag was there before and none of the operations raises one. The programs
      that were completed read back, also if a later one fails, and other sectors stay as they were. */
  method EraseAndProgram(d: Flash, sector: nat, voltageRange: nat, ops: seq<Op>)
    returns (status: FlashStatus, done: nat)
    requires d.Valid() && Resting(d.hw, d.f) && sector < SECTORS && !Locked(d.f.cr)
    requires Inside(ops, d.hw.bounds[sector], d.hw.bounds[sector + 1]) && Disjoint(ops) && Widths(ops)
    modifies d
    ensures d.Valid() && Resting(d.hw, d.f) && |d.f.mem| == |old(d.f.mem)|
    ensures Inside(ops, 0, |old(d.f.mem)|) && done <= |ops| && status == Outcome(d.f.sr)
    ensures status == COMPLETE <==> Outcome(old(d.f.sr)) == COMPLETE && Quiet(d.hw, old(d.f.jobs), |ops| + 1)
    ensures var lo, hi := d.hw.bounds[sector], d.hw.bounds[sector + 1];
            if status == COMPLETE then done == |ops| && Completed(d.hw, old(d.f), lo, hi, ops, done, d.f)
            else Stopped(d.hw, old(d.f), lo, hi, ops, done, d.f)
    ensures forall i :: 0 <= i < done ==>
              d.f.mem[ops[i].address..ops[i].address + |ops[i].data|] == ops[i].data
    ensures forall x :: 0 <= x < |d.f.mem| && !(d.hw.bounds[sector] <= x < d.hw.bounds[sector + 1]) ==>
              d.f.mem[x] == old(d.f.mem)[x]
  {
    hide Any, Set, Clear, Outcome, Proper, ProgramCr, Layout, Failed, Erased, Programmed, AllProgrammed, Locked;
    hide EraseEffect, ProgramEffect, Quiet, Disjoint, Widths;
    SectorRange(d.hw, d.f, sector);
    ghost var lo, hi := d.hw.bounds[sector], d.hw.bounds[sector + 1];
    ghost var f0 := d.f;
    status := EraseSector(d, sector, voltageRange);
    EraseMeans(d.hw, f0, lo, hi, SectorErase(sector, voltageRange), ops, d.f, status);
    done := 0;
    while done < |ops| && status == COMPLETE
      invariant done <= |ops| && d.Valid() && Resting(d.hw, d.f) && !Locked(d.f.cr) && status == Outcome(d.f.sr)
      invariant if status == COMPLETE then Completed(d.hw, f0, lo, hi, ops, done, d.f)
                else Stopped(d.hw, f0, lo, hi, ops, done, d.f)
      decreases |ops| - done, if status == COMPLETE then 1 else 0
    {
      ghost var f := d.f;
      WidthOf(ops, done);
      status := Program(d, ops[done].address, ops[done].data);
      ProgramMeans(d.hw, f0, f, lo, hi, ops, done, d.f, status);
      if status == COMPLETE {
        done := done + 1;
      }
    }
    SessionEnds(d.hw, f0, lo, hi, ops, done, d.f, status);
  }

  lemma WidthOf(ops: seq<Op>, i: nat)
    requires i < |ops| && Widths(ops)
    ensures |ops[i].data| in {1, 2, 4, 8}
  {
  }

  // What the end of a session means for the status and the memory
  lemma SessionEnds(hw: Chip, f: State, lo: nat, hi: nat, ops: seq<Op>, done: nat, g: State, status: FlashStatus)
    requires lo <= hi <= |f.mem| && done <= |ops| && Inside(ops, lo, hi) && Inside(ops, 0, |f.mem|) && Disjoint(ops)
    requires if status == COMPLETE then done == |ops| && Completed(hw, f, lo, hi, ops, done, g)
             else Stopped(hw, f, lo, hi, ops, done, g)
    ensures |g.mem| == |f.mem|
    ensures status == COMPLETE <==> Outcome(f.sr) == COMPLETE && Quiet(hw, f.jobs, |ops| + 1)
    ensures forall i :: 0 <= i < done ==>
              g.mem[ops[i].address..ops[i].address + |ops[i].data|] == ops[i].data
    ensures forall x :: 0 <= x < |f.mem| && !(lo <= x < hi) ==> g.mem[x] == f.mem[x]
  {
    hide Outcome, Erased, AllProgrammed;
    ErasedThenProgrammed(f.mem, lo, hi, ops[..done]);
    var m := AllProgrammed(Erased(f.mem, lo, hi), ops[..done]);
    forall i | 0 <= i < done
      ensures g.mem[ops[i].address..ops[i].address + |ops[i].data|] == ops[i].data
    {
      assert ops[..done][i] == ops[i];
      assert m[ops[i].address..ops[i].address + |ops[i].data|] == ops[i].data;
      forall x: nat | Covers(ops[i], x)
        ensures g.mem[x] == m[x]
      {
        if done < |ops| {
          assert !Covers(ops[done], x);
        }
      }
    }
  }

  lemma Nothing(mem: seq<bv8>)
    ensures AllProgrammed(mem, []) == mem
  {
  }

  lemma OneMoreOp(mem: seq<bv8>, ops: seq<Op>, i: nat)
    requires i < |ops| && Inside(ops, 0, |mem|)
    ensures Inside(ops[..i], 0, |mem|) && Inside(ops[..i + 1], 0, |mem|)
    ensures AllProgrammed(mem, ops[..i + 1]) == Programmed(AllProgrammed(mem, ops[..i]), ops[i].address, ops[i].data)
  {
    hide Programmed;
    var more := ops[..i + 1];
    assert more[..|more| - 1] == ops[..i];
    assert more[|more| - 1] == ops[i];
  }

  // After the erase, and before the first program
  lemma EraseMeans(hw: Chip, f: State, lo: nat, hi: nat, e: Erase, ops: seq<Op>, g: State,
                   status: FlashStatus)
    requires ValidFor(hw, f) && lo <= hi <= |f.mem| && !Locked(f.cr) && Inside(ops, 0, |f.mem|)
    requires EraseEffect(hw, f, lo, hi, e, g, status)
    ensures !Locked(g.cr) && status == Outcome(g.sr)
    ensures if status == COMPLETE then Completed(hw, f, lo, hi, ops, 0, g) else Stopped(hw, f, lo, hi, ops, 0, g)
  {
    hide Any, Set, Locked, Outcome, Layout, Erased, Failed;
    if Outcome(f.sr) == COMPLETE {
      FlagsShow(hw, f.sr, f.jobs);
    }
  }

  // Without earlier errors the status tells whether operation j raises a flag, and if not, that it did not fail
  lemma FlagsShow(hw: Chip, sr: bv32, j: nat)
    requires Outcome(sr) == COMPLETE
    ensures Outcome(Set(sr, hw.flags(j))) == COMPLETE <==> hw.flags(j) & 0xFF == 0
    ensures hw.flags(j) & 0xFF == 0 ==> !Failed(hw, j)
  {
    OutcomeMeans(sr);
    OutcomeMeans(Set(sr, hw.flags(j)));
    MaskOfSet(sr, hw.flags(j));
  }

  lemma MaskOfSet(sr: bv32, flags: bv32)
    requires sr & 0xFF == 0
    ensures (sr | flags) & 0xFF == flags & 0xFF
    ensures flags & 0xFF == 0 ==> flags & 0xF2 == 0
  {
  }

  // One more program, after done completed ones
  lemma ProgramMeans(hw: Chip, f: State, s: State, lo: nat, hi: nat, ops: seq<Op>, done: nat, g: State,
                     status: FlashStatus)
    requires ValidFor(hw, f) && lo <= hi <= |f.mem| && done < |ops| && Inside(ops, 0, |f.mem|)
    requires !Locked(s.cr) && Outcome(s.sr) == COMPLETE
    requires Completed(hw, f, lo, hi, ops, done, s)
    requires ProgramEffect(hw, s, ops[done].address, ops[done].data, g, status)
    ensures !Locked(g.cr) && status == Outcome(g.sr)
    ensures if status == COMPLETE then Completed(hw, f, lo, hi, ops, done + 1, g)
            else Stopped(hw, f, lo, hi, ops, done, g)
  {
    hide Any, Set, Locked, Outcome, Layout, Erased, Programmed, AllProgrammed, Proper, ProgramCr, Failed;
    FlagsShow(hw, s.sr, s.jobs);
    OneMoreOp(Erased(f.mem, lo, hi), ops, done);
  }
}
