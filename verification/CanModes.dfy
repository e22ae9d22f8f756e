/** Initialization, normal and sleep mode of a CAN controller: CAN_Init, CAN_OperatingModeRequest, CAN_Sleep and
    CAN_WakeUp. The bits of MCR, MSR and BTR are in stm32f2xx.h, which is not part of this model, and are declared
    here:

        MCR   INRQ 0x1, SLEEP 0x2, TXFP 0x4, RFLM 0x8, NART 0x10, AWUM 0x20, ABOM 0x40, TTCM 0x80
        MSR   INAK 0x1, SLAK 0x2
        BTR   SILM/LBKM 31..30, SJW 25..24, TS2 22..20, TS1 19..16, BRP 9..0 */
module CanModes {
  import opened Bits

  // INAK_TIMEOUT and SLAK_TIMEOUT
  const TIMEOUT: nat := 0xFFFF

  /** What the controller shows in MSR at each access of the core, and when traffic on the bus wakes it up:
      with AWUM set it then clears SLEEP by itself. */
  datatype Bus = Bus(msr: nat -> bv32, wakes: nat -> bool)

  // The registers, the number of accesses so far, and the value of MSR that the core saw last
  datatype Registers = Registers(mcr: bv32, btr: bv32, now: nat, seen: bv32)

  predicate SleepRequested(mcr: bv32) {
    Any(mcr, 0x2)
  }

  predicate InitRequested(mcr: bv32) {
    Any(mcr, 0x1)
  }

  // Sleep and initialization are not both requested
  predicate Consistent(mcr: bv32) {
    !(SleepRequested(mcr) && InitRequested(mcr))
  }

  function Ticked(hw: Bus, r: Registers): Registers {
    r.(now := r.now + 1, mcr := if hw.wakes(r.now) && Any(r.mcr, 0x20) then Clear(r.mcr, 0x2) else r.mcr)
  }

  class Can {
    const hw: Bus
    var r: Registers

    ghost predicate Valid()
      reads this
    {
      Consistent(r.mcr)
    }

    method ReadMCR() returns (v: bv32)
      modifies this
      ensures r == Ticked(hw, old(r)) && v == r.mcr
    {
      r := Ticked(hw, r);
      v := r.mcr;
    }

    /** Sleep and initialization may not be requested together: the precondition. */
    method WriteMCR(v: bv32)
      requires Consistent(v)
      modifies this
      ensures r == Ticked(hw, old(r)).(mcr := v)
    {
      r := Ticked(hw, r).(mcr := v);
    }

    method ReadMSR() returns (v: bv32)
      modifies this
      ensures v == hw.msr(old(r.now)) && r == Ticked(hw, old(r)).(seen := v)
    {
      v := hw.msr(r.now);
      r := Ticked(hw, r).(seen := v);
    }

    /** The bit timing may be written only in initialization mode: requested, and seen to be acknowledged. */
    method WriteBTR(v: bv32)
      requires InitRequested(r.mcr) && Any(r.seen, 0x1)
      modifies this
      ensures r == Ticked(hw, old(r)).(btr := v)
    {
      r := Ticked(hw, r).(btr := v);
    }
  }

  // ----- waiting for an acknowledge

  // (MSR & mask) == value, or its negation
  datatype Condition = Equal(mask: bv32, value: bv32) | Differ(mask: bv32, value: bv32)

  predicate Holds(c: Condition, msr: bv32) {
    match c
    case Equal(mask, value) => Keep(msr, mask) == value
    case Differ(mask, value) => Keep(msr, mask) != value
  }

  // Reads of MSR by a wait loop that starts at access t and may still count to n
  function Polls(hw: Bus, c: Condition, t: nat, n: nat): nat
    decreases n
  {
    if Holds(c, hw.msr(t)) || n == 0 then 1 else 1 + Polls(hw, c, t + 1, n - 1)
  }

  // The access at which a wait that starts at t checks the result
  function CheckAt(hw: Bus, c: Condition, t: nat): nat {
    t + Polls(hw, c, t, TIMEOUT)
  }

  predicate Reached(hw: Bus, c: Condition, t: nat) {
    Holds(c, hw.msr(CheckAt(hw, c, t)))
  }

  /** A loop reads at most 65535 times past its first read, and gives up early only when the condition was met:
      no read before the last one met it. */
  lemma {:induction false} PollsMeans(hw: Bus, c: Condition, t: nat, n: nat)
    ensures var p := Polls(hw, c, t, n);
            && 1 <= p <= n + 1
            && (forall i :: t <= i < t + p - 1 ==> !Holds(c, hw.msr(i)))
            && (Holds(c, hw.msr(t + p - 1)) || p == n + 1)
    decreases n
  {
    hide Holds;
    if !Holds(c, hw.msr(t)) && n > 0 {
      PollsMeans(hw, c, t + 1, n - 1);
    }
  }

  // The controller meets the condition within the reads of a wait
  ghost predicate Acknowledges(hw: Bus, c: Condition, t: nat) {
    exists i: nat :: t <= i <= t + 65536 && Holds(c, hw.msr(i))
  }

  // Access i is the first one from t on that meets the condition
  ghost predicate FirstMet(hw: Bus, c: Condition, t: nat, i: nat) {
    t <= i && Holds(c, hw.msr(i)) && forall j :: t <= j < i ==> !Holds(c, hw.msr(j))
  }

  /** A wait tells whether the controller acknowledges within 65537 reads if and only if the first acknowledge,
      when it comes in the loop, is still there at the next read, which is the check. */
  lemma TellsAcknowledgeIff(hw: Bus, c: Condition, t: nat)
    ensures (Reached(hw, c, t) <==> Acknowledges(hw, c, t)) <==>
            forall i: nat :: FirstMet(hw, c, t, i) && i <= t + 65535 ==> Holds(c, hw.msr(i + 1))
  {
    hide Holds, Polls;
    PollsMeans(hw, c, t, TIMEOUT);
    var check := CheckAt(hw, c, t);
    if Holds(c, hw.msr(check - 1)) {
      assert FirstMet(hw, c, t, check - 1);
      assert forall i: nat :: FirstMet(hw, c, t, i) ==> i == check - 1;
    } else {
      assert check == t + 65536;
      assert forall i: nat :: FirstMet(hw, c, t, i) ==> i > t + 65535;
    }
  }

  // Once met, the condition stays met
  ghost predicate Stable(hw: Bus, c: Condition, t: nat) {
    forall i, j :: t <= i <= j && Holds(c, hw.msr(i)) ==> Holds(c, hw.msr(j))
  }

  /** In particular it does if an acknowledge stays once it is given. */
  lemma ReachedIff(hw: Bus, c: Condition, t: nat)
    requires Stable(hw, c, t)
    ensures Reached(hw, c, t) <==> Acknowledges(hw, c, t)
  {
    hide Holds;
    TellsAcknowledgeIff(hw, c, t);
  }

  /** An acknowledge that the loop saw may be gone at the check. */
  lemma AcknowledgedAndFailed() returns (hw: Bus)
    ensures Acknowledges(hw, Equal(0x1, 0x1), 0) && !Reached(hw, Equal(0x1, 0x1), 0)
  {
    hw := Bus(t => if t == 0 then 0x1 else 0x0, t => false);
    assert Holds(Equal(0x1, 0x1), hw.msr(0));
    assert Polls(hw, Equal(0x1, 0x1), 0, TIMEOUT) == 1;
  }

  // One read of MSR
  method Look(c: Can) returns (msr: bv32)
    requires c.Valid()
    modifies c
    ensures c.Valid() && Drifted(c.hw, old(c.r), c.r) && c.r.now == old(c.r.now) + 1
    ensures msr == c.hw.msr(old(c.r.now)) && c.r.seen == msr
  {
    hide Any, Clear, Ticked;
    TickedDrifts(c.hw, c.r);
    msr := c.ReadMSR();
  }

  /** The wait loop and the check behind it. */
  method Await(c: Can, cond: Condition) returns (ok: bool)
    requires c.Valid()
    modifies c
    ensures c.Valid() && Drifted(c.hw, old(c.r), c.r)
    ensures c.r.now == CheckAt(c.hw, cond, old(c.r.now)) + 1 && c.r.seen == c.hw.msr(c.r.now - 1)
    ensures ok <==> Reached(c.hw, cond, old(c.r.now))
  {
    hide Any, Clear, Holds, Ticked, Drifted, Consistent;
    ghost var r0 := c.r;
    ghost var end := CheckAt(c.hw, cond, c.r.now);
    var counter := 0;
    var msr := Look(c);
    while !Holds(cond, msr) && counter != TIMEOUT
      invariant c.Valid() && Drifted(c.hw, r0, c.r) && counter <= TIMEOUT
      invariant c.r.now > 0 && msr == c.hw.msr(c.r.now - 1)
      invariant end == c.r.now - 1 + Polls(c.hw, cond, c.r.now - 1, TIMEOUT - counter)
    {
      counter := counter + 1;
      ghost var r := c.r;
      msr := Look(c);
      DriftedTwice(c.hw, r0, r, c.r);
    }
    ghost var r := c.r;
    msr := Look(c);
    DriftedTwice(c.hw, r0, r, c.r);
    ok := Holds(cond, msr);
  }

  /** The controller wakes up by itself at one of the accesses from .. to - 1. */
  predicate Woken(hw: Bus, mcr: bv32, from: nat, to: nat) {
    Any(mcr, 0x20) && exists i: nat :: from <= i < to && hw.wakes(i)
  }

  // What waiting from access r.now to access q.now does: nothing but to clear SLEEP at a wake-up
  predicate Drifted(hw: Bus, r: Registers, q: Registers) {
    && q.btr == r.btr && q.now >= r.now
    && q.mcr == if Woken(hw, r.mcr, r.now, q.now) then Clear(r.mcr, 0x2) else r.mcr
  }

  lemma TickedDrifts(hw: Bus, r: Registers)
    requires Consistent(r.mcr)
    ensures Ticked(hw, r).now == r.now + 1
    ensures Drifted(hw, r, Ticked(hw, r)) && Consistent(Ticked(hw, r).mcr)
    ensures !SleepRequested(r.mcr) ==> Ticked(hw, r).mcr == r.mcr
  {
    hide Any, Clear;
    ClearClears(r.mcr, 0x2);
    ClearOther(r.mcr, 0x2, 0x1);
    if !SleepRequested(r.mcr) {
      ClearAgain(r.mcr, 0x2);
    }
    if hw.wakes(r.now) {
      assert exists i: nat :: r.now <= i < r.now + 1 && hw.wakes(i);
    }
  }

  lemma DriftedTwice(hw: Bus, r: Registers, q: Registers, s: Registers)
    requires Drifted(hw, r, q) && Drifted(hw, q, s)
    ensures Drifted(hw, r, s)
  {
    hide Any, Clear, Woken;
    ClearClears(r.mcr, 0x2);
    ClearAgain(Clear(r.mcr, 0x2), 0x2);
    ClearOther(r.mcr, 0x2, 0x20);
    WokenTwice(hw, r.mcr, q.mcr, r.now, q.now, s.now);
  }

  lemma WokenTwice(hw: Bus, mcr: bv32, mcr': bv32, a: nat, b: nat, c: nat)
    requires a <= b <= c && Any(mcr', 0x20) == Any(mcr, 0x20)
    ensures Woken(hw, mcr, a, c) <==> Woken(hw, mcr, a, b) || Woken(hw, mcr', b, c)
  {
    hide Any;
    if i: nat :| a <= i < c && hw.wakes(i) {
      assert i < b || b <= i;
    }
  }
}
