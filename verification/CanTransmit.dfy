/** The transmit side of a CAN controller: three mailboxes, their flags in TSR, and CAN_Transmit,
    CAN_TransmitStatus and CAN_CancelTransmit on top. The bits of TSR are in stm32f2xx.h, which is not part
    of this model; those of RQCP also appear in the flags of stm32f2xx_can.h. */
module CanMailboxes {
  import opened Bits
  import opened CanFrames

  const MAILBOXES: nat := 3

  // Request completed; cleared by writing 1, together with TXOK
  function Rqcp(m: nat): bv32 {
    if m == 0 then 0x1 else if m == 1 then 0x100 else 0x10000
  }

  // Transmitted without error
  function Txok(m: nat): bv32 {
    if m == 0 then 0x2 else if m == 1 then 0x200 else 0x20000
  }

  // Abort request
  function Abrq(m: nat): bv32 {
    if m == 0 then 0x80 else if m == 1 then 0x8000 else 0x800000
  }

  // Mailbox empty, read-only
  function Tme(m: nat): bv32 {
    if m == 0 then 0x04000000 else if m == 1 then 0x08000000 else 0x10000000
  }

  // What may happen to a pending mailbox: its frame goes out, or is given up (lost arbitration, error, abort)
  datatype Event = Nothing | Success | Failure

  /** What happens between two accesses of the core, mailbox by mailbox. */
  type Bus = nat -> (nat -> Event)

  /** The registers, and a ledger: the frames accepted so far, in order, and for each of them, by its place
      in that order, whether it is pending in a mailbox, sent, or failed. */
  datatype State = State(tsr: bv32, boxes: seq<Mailbox>, now: nat,
                         accepted: seq<Frame>, pending: map<nat, nat>, last: map<nat, nat>,
                         sent: set<nat>, failed: set<nat>)

  // Mailboxes hold accepted frames
  ghost predicate Placed(s: State) {
    forall m :: m in s.pending ==> m < MAILBOXES && s.pending[m] < |s.accepted|
  }

  // Every accepted frame is somewhere
  ghost predicate Covered(s: State) {
    forall t: nat :: t < |s.accepted| ==> t in s.sent || t in s.failed || t in s.pending.Values
  }

  /** Every accepted frame is in exactly one of the three places, and no two mailboxes hold the same one. */
  ghost predicate Ledger(s: State) {
    && Placed(s)
    && (forall m, n :: m in s.pending && n in s.pending && s.pending[m] == s.pending[n] ==> m == n)
    && (forall t :: t in s.sent || t in s.failed ==> t < |s.accepted|)
    && Covered(s)
    && s.sent !! s.failed
    && (forall m :: m in s.pending ==> s.pending[m] !in s.sent && s.pending[m] !in s.failed)
  }

  /** The flags say what the ledger says: TME is set exactly for the mailboxes without a pending frame, a
      completed request has its flags, and TXOK belongs to a sent frame. */
  ghost predicate Flags(s: State, m: nat)
    requires m < MAILBOXES && |s.boxes| == MAILBOXES
  {
    && (Any(s.tsr, Tme(m)) <==> m !in s.pending)
    && (m in s.pending ==> !Any(s.tsr, Rqcp(m)) && !Any(s.tsr, Txok(m)) && m in s.last && s.last[m] == s.pending[m])
    && (m !in s.pending ==> !Any(s.boxes[m].ir, 0x1))
    && (Any(s.tsr, Txok(m)) ==> Any(s.tsr, Rqcp(m)))
    && (Any(s.tsr, Rqcp(m)) ==> m in s.last && (Any(s.tsr, Txok(m)) <==> s.last[m] in s.sent))
  }

  /** A pending mailbox still holds the frame that was accepted. */
  ghost predicate Carried(s: State)
    requires |s.boxes| == MAILBOXES && Placed(s)
  {
    forall m :: m in s.pending ==> FrameIn(s.boxes[m]) == s.accepted[s.pending[m]]
  }

  // The frames last given to the mailboxes differ
  ghost predicate Lasts(s: State) {
    && (forall m :: m in s.last ==> s.last[m] < |s.accepted|)
    && (forall m, n :: m in s.last && n in s.last && s.last[m] == s.last[n] ==> m == n)
  }

  ghost predicate Inv(s: State) {
    && |s.boxes| == MAILBOXES && Ledger(s) && Carried(s)
    && Flags(s, 0) && Flags(s, 1) && Flags(s, 2) && Lasts(s)
  }

  // ----- hardware

  // The request in mailbox m ends
  function Ended(s: State, m: nat, ok: bool): State
    requires |s.boxes| == MAILBOXES && m < MAILBOXES && m in s.pending
  {
    var t := s.pending[m];
    s.(tsr := EndedFlags(s.tsr, m, ok), boxes := s.boxes[m := s.boxes[m].(ir := Clear(s.boxes[m].ir, 0x1))],
       pending := s.pending - {m},
       sent := if ok then s.sent + {t} else s.sent,
       failed := if ok then s.failed else s.failed + {t})
  }

  function EndedFlags(tsr: bv32, m: nat, ok: bool): bv32 {
    var v := Set(Set(Clear(Clear(tsr, Abrq(m)), Txok(m)), Tme(m)), Rqcp(m));
    if ok then Set(v, Txok(m)) else v
  }

  function Happened(hw: Bus, s: State, m: nat): (q: State)
    requires |s.boxes| == MAILBOXES && m < MAILBOXES
    ensures |q.boxes| == MAILBOXES
  {
    if m !in s.pending then s
    else
      match hw(s.now)(m)
      case Nothing => s
      case Success => Ended(s, m, true)
      case Failure => Ended(s, m, false)
  }

  /** Time passes before an access of the core. */
  function Ticked(hw: Bus, s: State): (q: State)
    requires |s.boxes| == MAILBOXES
    ensures |q.boxes| == MAILBOXES
  {
    var q := Happened(hw, Happened(hw, Happened(hw, s, 0), 1), 2);
    q.(now := s.now + 1)
  }

  // TXRQ written to 1: the frame that the mailbox holds at that moment is accepted
  function Requested(s: State, m: nat): State
    requires |s.boxes| == MAILBOXES && m < MAILBOXES
  {
    s.(tsr := Clear(Clear(Clear(s.tsr, Tme(m)), Rqcp(m)), Txok(m)),
       accepted := s.accepted + [FrameIn(s.boxes[m])],
       pending := s.pending[m := |s.accepted|], last := s.last[m := |s.accepted|])
  }

  // The flags of mailbox n, acknowledged if v has a 1 at RQCP
  function Acknowledged(tsr: bv32, v: bv32, n: nat): bv32 {
    if Any(v, Rqcp(n)) then Clear(Clear(tsr, Rqcp(n)), Txok(n)) else tsr
  }

  /** A write to TSR: RQCP is rc_w1, ABRQ is set, TME and TXOK ignore the write. */
  function TsrWritten(tsr: bv32, v: bv32): bv32 {
    var acknowledged := Acknowledged(Acknowledged(Acknowledged(tsr, v, 0), v, 1), v, 2);
    Set(acknowledged, v & 0x00808080)
  }

  class Can {
    const hw: Bus
    var s: State

    ghost predicate Valid()
      reads this
    {
      Inv(s)
    }

    method ReadTSR() returns (tsr: bv32)
      requires |s.boxes| == MAILBOXES
      modifies this
      ensures s == Ticked(hw, old(s)) && tsr == s.tsr
    {
      s := Ticked(hw, s);
      tsr := s.tsr;
    }

    method WriteTSR(v: bv32)
      requires |s.boxes| == MAILBOXES
      modifies this
      ensures var q := Ticked(hw, old(s)); s == q.(tsr := TsrWritten(q.tsr, v))
    {
      s := Ticked(hw, s);
      s := s.(tsr := TsrWritten(s.tsr, v));
    }

    method ReadRegister(m: nat, reg: Register) returns (v: bv32)
      requires |s.boxes| == MAILBOXES && m < MAILBOXES
      modifies this
      ensures s == Ticked(hw, old(s)) && v == Content(s.boxes[m], reg)
    {
      s := Ticked(hw, s);
      v := Content(s.boxes[m], reg);
    }

    /** Mailbox registers may only be written while the mailbox is empty: the precondition. */
    method WriteRegister(m: nat, reg: Register, v: bv32)
      requires |s.boxes| == MAILBOXES && m < MAILBOXES && m !in s.pending
      modifies this
      ensures var q := Ticked(hw, old(s)); s == BoxWritten(q, m, Changed(q.boxes[m], reg, v))
    {
      s := Ticked(hw, s);
      s := BoxWritten(s, m, Changed(s.boxes[m], reg, v));
    }
  }

  // The four registers of a mailbox
  datatype Register = TIR | TDTR | TDLR | TDHR

  function Content(box: Mailbox, reg: Register): bv32 {
    match reg
    case TIR => box.ir
    case TDTR => box.dtr
    case TDLR => box.dlr
    case TDHR => box.dhr
  }

  function Changed(box: Mailbox, reg: Register, v: bv32): Mailbox {
    match reg
    case TIR => box.(ir := v)
    case TDTR => box.(dtr := v)
    case TDLR => box.(dlr := v)
    case TDHR => box.(dhr := v)
  }

  function BoxWritten(s: State, m: nat, box: Mailbox): State
    requires |s.boxes| == MAILBOXES && m < MAILBOXES
  {
    var q := s.(boxes := s.boxes[m := box]);
    if Any(box.ir, 0x1) && !Any(s.boxes[m].ir, 0x1) then Requested(q, m) else q
  }

  // ----- every step keeps the invariant

  // Bits of different mailboxes and different bits of one mailbox do not meet
  predicate Disjoint(a: bv32, b: bv32) {
    a & b == 0
  }

  predicate OutsideFlags(bits: bv32, n: nat) {
    Disjoint(bits, Tme(n)) && Disjoint(bits, Rqcp(n)) && Disjoint(bits, Txok(n))
  }

  lemma OtherMailbox(m: nat, n: nat)
    requires m < MAILBOXES && n < MAILBOXES && m != n
    ensures OutsideFlags(Tme(m), n) && OutsideFlags(Rqcp(m), n) && OutsideFlags(Txok(m), n)
  {
  }

  lemma OwnMailbox(m: nat, n: nat)
    requires m < MAILBOXES && n < MAILBOXES
    ensures OutsideFlags(Abrq(m), n)
    ensures Disjoint(Tme(n), Rqcp(n)) && Disjoint(Tme(n), Txok(n)) && Disjoint(Rqcp(n), Tme(n))
    ensures Disjoint(Rqcp(n), Txok(n)) && Disjoint(Txok(n), Tme(n)) && Disjoint(Txok(n), Rqcp(n))
  {
  }

  lemma Untouched(v: bv32, bits: bv32, other: bv32)
    requires Disjoint(bits, other)
    ensures Any(Set(v, bits), other) == Any(v, other) && Any(Clear(v, bits), other) == Any(v, other)
  {
    SetOther(v, bits, other);
    ClearOther(v, bits, other);
  }

  lemma NotZero(m: nat)
    ensures Rqcp(m) != 0 && Txok(m) != 0 && Tme(m) != 0
  {
  }

  // The three flags of mailbox n
  predicate SameFlags(a: bv32, b: bv32, n: nat) {
    Any(a, Tme(n)) == Any(b, Tme(n)) && Any(a, Rqcp(n)) == Any(b, Rqcp(n)) && Any(a, Txok(n)) == Any(b, Txok(n))
  }

  lemma OtherFlags(v: bv32, bits: bv32, n: nat)
    requires OutsideFlags(bits, n)
    ensures SameFlags(Set(v, bits), v, n) && SameFlags(Clear(v, bits), v, n)
  {
    hide Any, Set, Clear, Rqcp, Txok, Tme, Disjoint;
    Untouched(v, bits, Tme(n));
    Untouched(v, bits, Rqcp(n));
    Untouched(v, bits, Txok(n));
  }

  lemma EndedOther(tsr: bv32, m: nat, ok: bool, n: nat)
    requires m < MAILBOXES && n < MAILBOXES && n != m
    ensures SameFlags(EndedFlags(tsr, m, ok), tsr, n)
  {
    hide Any, Set, Clear, Rqcp, Txok, Abrq, Tme, OutsideFlags;
    OtherMailbox(m, n);
    OwnMailbox(m, n);
    var v1 := Clear(tsr, Abrq(m));
    var v2 := Clear(v1, Txok(m));
    var v3 := Set(v2, Tme(m));
    OtherFlags(tsr, Abrq(m), n);
    OtherFlags(v1, Txok(m), n);
    OtherFlags(v2, Tme(m), n);
    OtherFlags(v3, Rqcp(m), n);
    OtherFlags(Set(v3, Rqcp(m)), Txok(m), n);
  }

  lemma EndedOwn(tsr: bv32, m: nat, ok: bool)
    requires m < MAILBOXES
    ensures var v := EndedFlags(tsr, m, ok); Any(v, Tme(m)) && Any(v, Rqcp(m)) && (Any(v, Txok(m)) <==> ok)
  {
    hide Any, Set, Clear, Rqcp, Txok, Abrq, Tme, Disjoint;
    OwnMailbox(m, m);
    NotZero(m);
    var v2 := Clear(Clear(tsr, Abrq(m)), Txok(m));
    var v3 := Set(v2, Tme(m));
    var v4 := Set(v3, Rqcp(m));
    ClearClears(Clear(tsr, Abrq(m)), Txok(m));
    SetSets(v2, Tme(m));
    Untouched(v2, Tme(m), Txok(m));
    SetSets(v3, Rqcp(m));
    Untouched(v3, Rqcp(m), Tme(m));
    Untouched(v3, Rqcp(m), Txok(m));
    SetSets(v4, Txok(m));
    Untouched(v4, Txok(m), Tme(m));
    Untouched(v4, Txok(m), Rqcp(m));
  }

  lemma EndedLedger(s: State, m: nat, ok: bool)
    requires |s.boxes| == MAILBOXES && Ledger(s) && m < MAILBOXES && m in s.pending
    ensures Ledger(Ended(s, m, ok))
  {
    hide Any, Set, Clear, EndedFlags;
    hide Covered;
    EndedCovered(s, m, ok);
    var q := Ended(s, m, ok);
    assert forall n :: n in q.pending ==> n in s.pending && q.pending[n] == s.pending[n] && n != m;
  }

  lemma EndedCovered(s: State, m: nat, ok: bool)
    requires |s.boxes| == MAILBOXES && Covered(s) && m < MAILBOXES && m in s.pending
    ensures Covered(Ended(s, m, ok))
  {
    hide Any, Set, Clear, EndedFlags;
    var q := Ended(s, m, ok);
    var t := s.pending[m];
    forall x: nat | x < |q.accepted|
      ensures x in q.sent || x in q.failed || x in q.pending.Values
    {
      if x != t && x in s.pending.Values {
        var n :| n in s.pending && s.pending[n] == x;
        assert n in q.pending && q.pending[n] == x;
      }
    }
  }

  lemma EndedFlagsInv(s: State, m: nat, ok: bool, n: nat)
    requires |s.boxes| == MAILBOXES && m < MAILBOXES && n < MAILBOXES && m in s.pending && s.pending[m] !in s.sent
    requires Lasts(s) && Flags(s, m) && Flags(s, n)
    ensures Flags(Ended(s, m, ok), n)
  {
    hide Any, Set, Clear, Rqcp, Txok, Abrq, Tme, EndedFlags;
    ClearClears(s.boxes[m].ir, 0x1);
    if n == m {
      EndedOwn(s.tsr, m, ok);
    } else {
      EndedOther(s.tsr, m, ok, n);
    }
  }

  lemma EndedCarried(s: State, m: nat, ok: bool)
    requires |s.boxes| == MAILBOXES && Placed(s) && Carried(s) && m < MAILBOXES && m in s.pending
    ensures Placed(Ended(s, m, ok)) && Carried(Ended(s, m, ok))
  {
    hide Any, Set, Clear, EndedFlags, FrameIn;
    var q := Ended(s, m, ok);
    forall n | n in q.pending
      ensures n in s.pending && n != m && q.pending[n] == s.pending[n] && q.boxes[n] == s.boxes[n]
    {
      assert n in s.pending;
    }
  }

  lemma HappenedInv(hw: Bus, s: State, m: nat)
    requires Inv(s) && m < MAILBOXES
    ensures Inv(Happened(hw, s, m)) && Later(s, Happened(hw, s, m))
  {
    hide Any, Set, Clear, Rqcp, Txok, Abrq, Tme, EndedFlags, Flags, Ledger, Carried;
    if m in s.pending {
      var ok := hw(s.now)(m) == Success;
      LedgerMeans(s, m);
      EndedLedger(s, m, ok);
      EndedCarried(s, m, ok);
      EndedFlagsInv(s, m, ok, 0);
      EndedFlagsInv(s, m, ok, 1);
      EndedFlagsInv(s, m, ok, 2);
    }
  }

  lemma LedgerMeans(s: State, m: nat)
    requires Ledger(s)
    ensures Placed(s) && (m in s.pending ==> s.pending[m] !in s.sent)
    ensures forall t :: t in s.sent ==> t < |s.accepted|
  {
  }

  // What time may change: pending frames end
  ghost predicate Later(s: State, q: State) {
    && q.accepted == s.accepted && q.last == s.last && s.sent <= q.sent && s.failed <= q.failed
    && (forall m :: m in q.pending ==> m in s.pending && q.pending[m] == s.pending[m])
    && |q.boxes| == |s.boxes| == MAILBOXES
    && (forall m :: 0 <= m < MAILBOXES && m !in s.pending ==> q.boxes[m] == s.boxes[m])
    && (forall m :: 0 <= m < MAILBOXES ==> q.boxes[m].dtr == s.boxes[m].dtr)
  }

  // The flags of a mailbox without a pending frame do not change by themselves
  lemma HappenedFlags(hw: Bus, s: State, m: nat, n: nat)
    requires |s.boxes| == MAILBOXES && m < MAILBOXES && n < MAILBOXES && n !in s.pending
    ensures n !in Happened(hw, s, m).pending && SameFlags(Happened(hw, s, m).tsr, s.tsr, n)
  {
    hide Any, Set, Clear, Rqcp, Txok, Abrq, Tme, EndedFlags;
    if m in s.pending {
      EndedOther(s.tsr, m, true, n);
      EndedOther(s.tsr, m, false, n);
    }
  }

  lemma TickedFlags(hw: Bus, s: State, n: nat)
    requires |s.boxes| == MAILBOXES && n < MAILBOXES && n !in s.pending
    ensures n !in Ticked(hw, s).pending && SameFlags(Ticked(hw, s).tsr, s.tsr, n)
  {
    hide Any, Happened, Rqcp, Txok, Tme;
    var a := Happened(hw, s, 0);
    var b := Happened(hw, a, 1);
    HappenedFlags(hw, s, 0, n);
    HappenedFlags(hw, a, 1, n);
    HappenedFlags(hw, b, 2, n);
  }

  /** Completions keep the invariant, and a mailbox that is empty stays empty and untouched. */
  lemma TickedInv(hw: Bus, s: State)
    requires Inv(s)
    ensures Inv(Ticked(hw, s)) && Later(s, Ticked(hw, s))
  {
    hide Any, Happened, Ledger, Flags;
    var a := Happened(hw, s, 0);
    var b := Happened(hw, a, 1);
    HappenedInv(hw, s, 0);
    HappenedInv(hw, a, 1);
    HappenedInv(hw, b, 2);
    ClockIsNotInvariant(Happened(hw, b, 2), s.now + 1);
  }

  // The ledger does not depend on TSR and the clock
  lemma LedgerIsApart(s: State, q: State)
    requires |s.boxes| == MAILBOXES && Ledger(s) && Carried(s) && Lasts(s) && q == s.(tsr := q.tsr, now := q.now)
    ensures Ledger(q) && Carried(q) && Lasts(q)
  {
    hide FrameIn;
  }

  lemma ClockIsNotInvariant(s: State, now: nat)
    requires Inv(s)
    ensures Inv(s.(now := now))
  {
    hide Ledger, Carried, Lasts, Flags;
    var q := s.(now := now);
    LedgerIsApart(s, q);
    assert Flags(q, 0) && Flags(q, 1) && Flags(q, 2) by {
      SameFlagsLater(s, now, 0);
      SameFlagsLater(s, now, 1);
      SameFlagsLater(s, now, 2);
    }
  }

  lemma SameFlagsLater(s: State, now: nat, n: nat)
    requires |s.boxes| == MAILBOXES && n < MAILBOXES && Flags(s, n)
    ensures Flags(s.(now := now), n)
  {
    hide Any, Rqcp, Txok, Tme;
  }

  lemma LaterTwice(s: State, q: State, u: State)
    requires Later(s, q) && Later(q, u)
    ensures Later(s, u)
  {
  }

  lemma RequestedOther(tsr: bv32, m: nat, n: nat)
    requires m < MAILBOXES && n < MAILBOXES && n != m
    ensures SameFlags(Clear(Clear(Clear(tsr, Tme(m)), Rqcp(m)), Txok(m)), tsr, n)
  {
    hide Any, Set, Clear, Rqcp, Txok, Abrq, Tme, OutsideFlags;
    OtherMailbox(m, n);
    OtherFlags(tsr, Tme(m), n);
    OtherFlags(Clear(tsr, Tme(m)), Rqcp(m), n);
    OtherFlags(Clear(Clear(tsr, Tme(m)), Rqcp(m)), Txok(m), n);
  }

  lemma RequestedOwn(tsr: bv32, m: nat)
    requires m < MAILBOXES
    ensures var v := Clear(Clear(Clear(tsr, Tme(m)), Rqcp(m)), Txok(m));
            !Any(v, Tme(m)) && !Any(v, Rqcp(m)) && !Any(v, Txok(m))
  {
    hide Any, Set, Clear, Rqcp, Txok, Abrq, Tme, Disjoint;
    OwnMailbox(m, m);
    var v1 := Clear(tsr, Tme(m));
    var v2 := Clear(v1, Rqcp(m));
    ClearClears(tsr, Tme(m));
    Untouched(v1, Rqcp(m), Tme(m));
    ClearClears(v1, Rqcp(m));
    Untouched(v2, Txok(m), Tme(m));
    Untouched(v2, Txok(m), Rqcp(m));
    ClearClears(v2, Txok(m));
  }

  /** Writing an empty mailbox keeps the invariant; with TXRQ it adds one frame to the ledger, the one that
      the mailbox then holds, and makes it pending. */
  lemma BoxWrittenInv(s: State, m: nat, box: Mailbox)
    requires Inv(s) && m < MAILBOXES && m !in s.pending
    ensures var q := BoxWritten(s, m, box);
            && Inv(q) && q.boxes[m] == box
            && (forall n :: 0 <= n < MAILBOXES && n != m ==> q.boxes[n] == s.boxes[n])
            && q.sent == s.sent && q.failed == s.failed
            && if Any(box.ir, 0x1) then
                 q.accepted == s.accepted + [FrameIn(box)] && q.pending == s.pending[m := |s.accepted|]
               else
                 q.accepted == s.accepted && q.pending == s.pending
  {
    hide Ledger, Carried, Lasts, Flags, Placed, BoxWritten, FrameIn;
    LedgerMeans(s, m);
    FlagsOf(s, m);
    BoxWrittenEffect(s, m, box);
    BoxWrittenLedger(s, m, box);
    BoxWrittenCarried(s, m, box);
    BoxWrittenLasts(s, m, box);
    BoxWrittenFlags(s, m, box, 0);
    BoxWrittenFlags(s, m, box, 1);
    BoxWrittenFlags(s, m, box, 2);
  }

  lemma FlagsOf(s: State, m: nat)
    requires Inv(s) && m < MAILBOXES
    ensures Flags(s, m)
  {
    hide Flags;
  }

  lemma BoxWrittenEffect(s: State, m: nat, box: Mailbox)
    requires |s.boxes| == MAILBOXES && m < MAILBOXES && m !in s.pending && Flags(s, m)
    ensures var q := BoxWritten(s, m, box);
            && |q.boxes| == MAILBOXES && q.boxes[m] == box
            && (forall n :: 0 <= n < MAILBOXES && n != m ==> q.boxes[n] == s.boxes[n])
            && q.sent == s.sent && q.failed == s.failed
            && if Any(box.ir, 0x1) then
                 q.accepted == s.accepted + [FrameIn(box)] && q.pending == s.pending[m := |s.accepted|]
               else
                 q.accepted == s.accepted && q.pending == s.pending
  {
    hide Any, Set, Clear, Rqcp, Txok, Tme, FrameIn;
  }

  lemma BoxWrittenLasts(s: State, m: nat, box: Mailbox)
    requires |s.boxes| == MAILBOXES && m < MAILBOXES && Lasts(s)
    ensures Lasts(BoxWritten(s, m, box))
  {
    hide Any, Set, Clear, Rqcp, Txok, Tme, FrameIn;
  }

  lemma BoxWrittenFlags(s: State, m: nat, box: Mailbox, n: nat)
    requires |s.boxes| == MAILBOXES && m < MAILBOXES && m !in s.pending && n < MAILBOXES
    requires Lasts(s) && Flags(s, m) && Flags(s, n) && |s.accepted| !in s.sent
    ensures Flags(BoxWritten(s, m, box), n)
  {
    hide Any, Set, Clear, Rqcp, Txok, Abrq, Tme, FrameIn;
    if Any(box.ir, 0x1) {
      RequestedFlags(s, m, box, n);
    }
  }

  lemma RequestedFlags(s: State, m: nat, box: Mailbox, n: nat)
    requires |s.boxes| == MAILBOXES && m < MAILBOXES && m !in s.pending && n < MAILBOXES
    requires Flags(s, n) && |s.accepted| !in s.sent
    ensures Flags(Requested(s.(boxes := s.boxes[m := box]), m), n)
  {
    hide Any, Set, Clear, Rqcp, Txok, Abrq, Tme, FrameIn;
    if n == m {
      RequestedOwn(s.tsr, m);
    } else {
      RequestedOther(s.tsr, m, n);
    }
  }

  lemma BoxWrittenCarried(s: State, m: nat, box: Mailbox)
    requires |s.boxes| == MAILBOXES && Placed(s) && Carried(s) && m < MAILBOXES && m !in s.pending
    ensures Placed(BoxWritten(s, m, box)) && Carried(BoxWritten(s, m, box))
  {
    hide Any, Set, Clear, Rqcp, Txok, Tme, FrameIn;
  }

  lemma BoxWrittenLedger(s: State, m: nat, box: Mailbox)
    requires |s.boxes| == MAILBOXES && Ledger(s) && m < MAILBOXES && m !in s.pending
    ensures Ledger(BoxWritten(s, m, box))
  {
    hide Any, Set, Clear, Rqcp, Txok, Abrq, Tme, FrameIn, Covered;
    BoxWrittenCovered(s, m, box);
  }

  lemma BoxWrittenCovered(s: State, m: nat, box: Mailbox)
    requires |s.boxes| == MAILBOXES && Covered(s) && m < MAILBOXES && m !in s.pending
    ensures Covered(BoxWritten(s, m, box))
  {
    hide Any, Set, Clear, Rqcp, Txok, Abrq, Tme, FrameIn;
    var q := BoxWritten(s, m, box);
    if q.pending != s.pending {
      forall t: nat | t < |q.accepted|
        ensures t in q.sent || t in q.failed || t in q.pending.Values
      {
        if t == |s.accepted| {
          assert m in q.pending && q.pending[m] == t;
        } else if t in s.pending.Values {
          var n :| n in s.pending && s.pending[n] == t;
          assert n in q.pending && q.pending[n] == t;
        }
      }
    }
  }

  // ----- what a call does to the mailboxes that it does not use

  /** Mailbox n from state s to state q, with nobody but the bus at work on it: its frame may end, which sets
      RQCP and takes the request back. The flags of an earlier completion and the registers stay. */
  ghost predicate LeftAlone(s: State, q: State, n: nat)
    requires |s.boxes| == |q.boxes| == MAILBOXES && n < MAILBOXES
  {
    && (n in q.last <==> n in s.last) && (n in s.last ==> q.last[n] == s.last[n])
    && (n in q.pending ==> n in s.pending && q.pending[n] == s.pending[n] && q.boxes[n] == s.boxes[n])
    && (n in s.pending && n !in q.pending ==>
          Any(q.tsr, Rqcp(n)) && q.boxes[n] == s.boxes[n].(ir := Clear(s.boxes[n].ir, 0x1)))
    && (n !in s.pending ==> SameFlags(q.tsr, s.tsr, n) && q.boxes[n] == s.boxes[n])
  }

  // No abort is asked for that was not asked for before
  predicate NoNewAbort(tsr: bv32, v: bv32) {
    forall n: nat :: n < MAILBOXES && Any(v, Abrq(n)) ==> Any(tsr, Abrq(n))
  }

  lemma AbortApart(m: nat, n: nat)
    requires m < MAILBOXES && n < MAILBOXES
    ensures Disjoint(Tme(m), Abrq(n)) && Disjoint(Rqcp(m), Abrq(n)) && Disjoint(Txok(m), Abrq(n))
  {
  }

  lemma NothingAdded(v: bv32, bits: bv32, other: bv32)
    ensures Any(Clear(v, bits), other) ==> Any(v, other)
  {
  }

  // Neither the end of a request nor a request raises ABRQ
  lemma NoAbort(tsr: bv32, m: nat, ok: bool, n: nat)
    requires m < MAILBOXES && n < MAILBOXES
    ensures Any(EndedFlags(tsr, m, ok), Abrq(n)) ==> Any(tsr, Abrq(n))
    ensures Any(Clear(Clear(Clear(tsr, Tme(m)), Rqcp(m)), Txok(m)), Abrq(n)) ==> Any(tsr, Abrq(n))
  {
    hide Any, Set, Clear, Rqcp, Txok, Abrq, Tme, Disjoint;
    AbortApart(m, n);
    var v1 := Clear(tsr, Abrq(m));
    var v2 := Clear(v1, Txok(m));
    var v3 := Set(v2, Tme(m));
    NothingAdded(tsr, Abrq(m), Abrq(n));
    Untouched(v1, Txok(m), Abrq(n));
    Untouched(v2, Tme(m), Abrq(n));
    Untouched(v3, Rqcp(m), Abrq(n));
    Untouched(Set(v3, Rqcp(m)), Txok(m), Abrq(n));
    Untouched(tsr, Tme(m), Abrq(n));
    Untouched(Clear(tsr, Tme(m)), Rqcp(m), Abrq(n));
    Untouched(Clear(Clear(tsr, Tme(m)), Rqcp(m)), Txok(m), Abrq(n));
  }

  /** All mailboxes other than m are left alone, and none is aborted, not even m. */
  ghost predicate OthersAlone(s: State, q: State, m: nat) {
    && |s.boxes| == |q.boxes| == MAILBOXES && NoNewAbort(s.tsr, q.tsr)
    && forall n: nat :: n < MAILBOXES && n != m ==> LeftAlone(s, q, n)
  }

  lemma AloneTwice(s: State, q: State, u: State, n: nat)
    requires |s.boxes| == |q.boxes| == |u.boxes| == MAILBOXES && n < MAILBOXES
    requires LeftAlone(s, q, n) && LeftAlone(q, u, n)
    ensures LeftAlone(s, u, n)
  {
    hide Any, Clear, Rqcp, Txok, Tme, Abrq;
  }

  lemma HappenedAlone(hw: Bus, s: State, m: nat, n: nat)
    requires |s.boxes| == MAILBOXES && m < MAILBOXES && n < MAILBOXES
    ensures LeftAlone(s, Happened(hw, s, m), n)
  {
    hide Any, Set, Clear, Rqcp, Txok, Abrq, Tme, EndedFlags;
    if m in s.pending {
      var ok := hw(s.now)(m) == Success;
      if n == m {
        EndedOwn(s.tsr, m, ok);
      } else {
        EndedOther(s.tsr, m, ok, n);
      }
    }
  }

  lemma TickedAlone(hw: Bus, s: State, n: nat)
    requires |s.boxes| == MAILBOXES && n < MAILBOXES
    ensures LeftAlone(s, Ticked(hw, s), n)
  {
    hide Any, Clear, Happened, Rqcp, Txok, Tme, Abrq;
    var a := Happened(hw, s, 0);
    var b := Happened(hw, a, 1);
    var c := Happened(hw, b, 2);
    HappenedAlone(hw, s, 0, n);
    HappenedAlone(hw, a, 1, n);
    HappenedAlone(hw, b, 2, n);
    AloneTwice(s, a, b, n);
    AloneTwice(s, b, c, n);
  }

  lemma BoxWrittenAlone(s: State, m: nat, box: Mailbox, n: nat)
    requires |s.boxes| == MAILBOXES && m < MAILBOXES && n < MAILBOXES && n != m
    ensures |BoxWritten(s, m, box).boxes| == MAILBOXES && LeftAlone(s, BoxWritten(s, m, box), n)
  {
    hide Any, Clear, Rqcp, Txok, Tme, Abrq, FrameIn;
    RequestedOther(s.tsr, m, n);
  }

  lemma OthersTwice(s: State, q: State, u: State, m: nat)
    requires OthersAlone(s, q, m) && OthersAlone(q, u, m)
    ensures OthersAlone(s, u, m)
  {
    hide LeftAlone, Any;
    forall n: nat | n < MAILBOXES && n != m
      ensures LeftAlone(s, u, n)
    {
      AloneTwice(s, q, u, n);
    }
  }

  lemma HappenedAborts(hw: Bus, s: State, m: nat)
    requires |s.boxes| == MAILBOXES && m < MAILBOXES
    ensures NoNewAbort(s.tsr, Happened(hw, s, m).tsr)
  {
    hide Any, Set, Clear, Rqcp, Txok, Abrq, Tme, EndedFlags;
    forall n: nat | n < MAILBOXES && Any(Happened(hw, s, m).tsr, Abrq(n))
      ensures Any(s.tsr, Abrq(n))
    {
      NoAbort(s.tsr, m, true, n);
      NoAbort(s.tsr, m, false, n);
    }
  }

  lemma TickedAborts(hw: Bus, s: State)
    requires |s.boxes| == MAILBOXES
    ensures NoNewAbort(s.tsr, Ticked(hw, s).tsr)
  {
    hide Any, Happened, Abrq;
    var a := Happened(hw, s, 0);
    var b := Happened(hw, a, 1);
    HappenedAborts(hw, s, 0);
    HappenedAborts(hw, a, 1);
    HappenedAborts(hw, b, 2);
  }

  lemma BoxWrittenAborts(s: State, m: nat, box: Mailbox)
    requires |s.boxes| == MAILBOXES && m < MAILBOXES
    ensures NoNewAbort(s.tsr, BoxWritten(s, m, box).tsr)
  {
    hide Any, Clear, Rqcp, Txok, Abrq, Tme, FrameIn;
    forall n: nat | n < MAILBOXES && Any(BoxWritten(s, m, box).tsr, Abrq(n))
      ensures Any(s.tsr, Abrq(n))
    {
      NoAbort(s.tsr, m, true, n);
    }
  }

  lemma TickedOthers(hw: Bus, s: State, m: nat)
    requires |s.boxes| == MAILBOXES
    ensures OthersAlone(s, Ticked(hw, s), m)
  {
    hide LeftAlone, Ticked, NoNewAbort;
    TickedAborts(hw, s);
    forall n: nat | n < MAILBOXES
      ensures LeftAlone(s, Ticked(hw, s), n)
    {
      TickedAlone(hw, s, n);
    }
  }

  lemma BoxWrittenOthers(s: State, m: nat, box: Mailbox)
    requires |s.boxes| == MAILBOXES && m < MAILBOXES
    ensures OthersAlone(s, BoxWritten(s, m, box), m)
  {
    hide LeftAlone, Any, FrameIn, Clear, NoNewAbort;
    BoxWrittenAborts(s, m, box);
    forall n: nat | n < MAILBOXES && n != m
      ensures LeftAlone(s, BoxWritten(s, m, box), n)
    {
      BoxWrittenAlone(s, m, box, n);
    }
  }

  // ----- writes to TSR

  lemma AcknowledgedFlags(tsr: bv32, v: bv32, k: nat, n: nat)
    requires k < MAILBOXES && n < MAILBOXES
    ensures var w := Acknowledged(tsr, v, k);
            && Any(w, Tme(n)) == Any(tsr, Tme(n))
            && Any(w, Rqcp(n)) == (Any(tsr, Rqcp(n)) && !(k == n && Any(v, Rqcp(n))))
            && Any(w, Txok(n)) == (Any(tsr, Txok(n)) && !(k == n && Any(v, Rqcp(n))))
  {
    hide Any, Set, Clear, Rqcp, Txok, Abrq, Tme, Disjoint;
    var w := Clear(tsr, Rqcp(k));
    if k == n {
      OwnMailbox(n, n);
      Untouched(tsr, Rqcp(n), Tme(n));
      Untouched(w, Txok(n), Tme(n));
      ClearClears(tsr, Rqcp(n));
      Untouched(w, Txok(n), Rqcp(n));
      ClearClears(w, Txok(n));
    } else {
      OtherMailbox(k, n);
      OtherFlags(tsr, Rqcp(k), n);
      OtherFlags(w, Txok(k), n);
    }
  }

  lemma AbortBits(v: bv32, n: nat)
    requires n < MAILBOXES
    ensures OutsideFlags(v & 0x00808080, n)
  {
    AbortBitsOf(v, Tme(n));
    AbortBitsOf(v, Rqcp(n));
    AbortBitsOf(v, Txok(n));
  }

  lemma AbortBitsOf(v: bv32, flag: bv32)
    requires 0x00808080 & flag == 0
    ensures (v & 0x00808080) & flag == 0
  {
  }

  /** After a write of v, TXOK and RQCP are gone for the mailboxes whose RQCP is 1 in v, and no other flag
      changed. */
  lemma TsrWrittenFlags(tsr: bv32, v: bv32, n: nat)
    requires n < MAILBOXES
    ensures var w := TsrWritten(tsr, v);
            && Any(w, Tme(n)) == Any(tsr, Tme(n))
            && Any(w, Rqcp(n)) == (Any(tsr, Rqcp(n)) && !Any(v, Rqcp(n)))
            && Any(w, Txok(n)) == (Any(tsr, Txok(n)) && !Any(v, Rqcp(n)))
  {
    hide Any, Set, Clear, Rqcp, Txok, Abrq, Tme, OutsideFlags, Acknowledged;
    var w0 := Acknowledged(tsr, v, 0);
    var w1 := Acknowledged(w0, v, 1);
    var w2 := Acknowledged(w1, v, 2);
    AcknowledgedFlags(tsr, v, 0, n);
    AcknowledgedFlags(w0, v, 1, n);
    AcknowledgedFlags(w1, v, 2, n);
    AbortBits(v, n);
    OtherFlags(w2, v & 0x00808080, n);
  }

  /** Whatever is written to TSR, the ledger does not change and the flags stay true. */
  lemma TsrWrittenInv(s: State, v: bv32)
    requires Inv(s)
    ensures Inv(s.(tsr := TsrWritten(s.tsr, v)))
  {
    hide Ledger, Carried, Lasts, Flags, TsrWritten;
    var q := s.(tsr := TsrWritten(s.tsr, v));
    FlagsAreLocal(s, v, 0);
    FlagsAreLocal(s, v, 1);
    FlagsAreLocal(s, v, 2);
    LedgerIsApart(s, q);
  }

  lemma FlagsAreLocal(s: State, v: bv32, n: nat)
    requires |s.boxes| == MAILBOXES && n < MAILBOXES && Flags(s, n)
    ensures Flags(s.(tsr := TsrWritten(s.tsr, v)), n)
  {
    hide Any, Rqcp, Txok, Abrq, Tme, TsrWritten;
    TsrWrittenFlags(s.tsr, v, n);
  }
}
