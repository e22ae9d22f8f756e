/** The receive side of a CAN controller: a FIFO of three mailboxes, its flags in RFR, and CAN_Receive. The bits
    of RFR are in stm32f2xx.h, which is not part of this model, and are declared here:

        RFR   FMP 0x3 (read-only), FULL 0x8 and FOVR 0x10 (cleared by writing 1), RFOM 0x20 (releases a mailbox) */
module CanReceive {
  import opened Bits
  import opened CanFrames

  const DEPTH: nat := 3

  datatype Arrival = Quiet | Arrives(frame: Mailbox)

  /** What comes in before each access of the core, and whether a full FIFO is locked (RFLM) or has its last
      mailbox overwritten. */
  datatype Bus = Bus(traffic: nat -> Arrival, locked: bool)

  /** The mailboxes in use, what an empty FIFO shows, the flags of RFR without FMP, all frames that were stored
      and not overwritten so far, in order, and those that were released. */
  datatype State = State(queue: seq<Mailbox>, stale: Mailbox, flags: bv32, now: nat,
                         stored: seq<Mailbox>, released: seq<Mailbox>)

  /** No frame is lost or repeated between the two ends of the FIFO. */
  predicate Inv(s: State) {
    |s.queue| <= DEPTH && s.stored == s.released + s.queue
  }

  function Stored(locked: bool, s: State, m: Mailbox): State {
    if |s.queue| < DEPTH then
      var q := s.(queue := s.queue + [m], stored := s.stored + [m]);
      if |q.queue| == DEPTH then q.(flags := Set(q.flags, 0x8)) else q
    else if locked || s.stored == [] then s.(flags := Set(s.flags, 0x10))
    else
      s.(flags := Set(s.flags, 0x10), queue := s.queue[..|s.queue| - 1] + [m],
         stored := s.stored[..|s.stored| - 1] + [m])
  }

  function Ticked(hw: Bus, s: State): State {
    var q := match hw.traffic(s.now)
             case Quiet => s
             case Arrives(m) => Stored(hw.locked, s, m);
    q.(now := s.now + 1)
  }

  // n accesses that change nothing themselves
  function Watched(hw: Bus, s: State, n: nat): State {
    if n == 0 then s else Ticked(hw, Watched(hw, s, n - 1))
  }

  // What the receive mailbox registers show
  function Shown(s: State): Mailbox {
    if s.queue == [] then s.stale else s.queue[0]
  }

  // The first mailbox in use becomes free
  function Freed(s: State): State {
    if s.queue == [] then s
    else s.(queue := s.queue[1..], stale := s.queue[0], released := s.released + [s.queue[0]])
  }

  /** A write to RFR: FULL and FOVR are rc_w1, RFOM releases the first mailbox. */
  function RfrWritten(s: State, v: bv32): State {
    var q := s.(flags := Clear(s.flags, Keep(v, 0x18)));
    if Any(v, 0x20) then Freed(q) else q
  }

  class CanFifo {
    const hw: Bus
    var s: State

    // One read of a receive mailbox register
    method ReadMailbox(ghost s0: State, ghost n: nat) returns (m: Mailbox)
      requires s == Watched(hw, s0, n)
      modifies this
      ensures s == Watched(hw, s0, n + 1) && m == Shown(s)
    {
      s := Ticked(hw, s);
      m := Shown(s);
    }

    method ReadRFR() returns (v: bv32)
      modifies this
      ensures s == Ticked(hw, old(s)) && Keep(v, 0x3) == Fmp(|s.queue|)
      ensures Keep(v, 0x18) == Keep(s.flags, 0x18) && !Any(v, 0x20)
    {
      hide Set, Keep, Any, Fmp;
      s := Ticked(hw, s);
      FmpIsSmall(|s.queue|);
      RfrReads(s.flags, Fmp(|s.queue|));
      v := Set(Keep(s.flags, 0x18), Fmp(|s.queue|));
    }

    method WriteRFR(v: bv32)
      modifies this
      ensures s == RfrWritten(Ticked(hw, old(s)), v)
    {
      s := RfrWritten(Ticked(hw, s), v);
    }
  }

  // The number of pending messages
  function Fmp(n: nat): bv32 {
    if n == 0 then 0x0 else if n == 1 then 0x1 else if n == 2 then 0x2 else 0x3
  }

  lemma FmpIsSmall(n: nat)
    ensures Fmp(n) <= 3 && (Fmp(n) == 0 <==> n == 0)
  {
  }

  lemma RfrReads(flags: bv32, fmp: bv32)
    requires fmp <= 3
    ensures Keep(Set(Keep(flags, 0x18), fmp), 0x3) == fmp
    ensures Keep(Set(Keep(flags, 0x18), fmp), 0x18) == Keep(flags, 0x18)
    ensures !Any(Set(Keep(flags, 0x18), fmp), 0x20)
  {
  }

  // ----- what time does to the FIFO

  lemma TickedInv(hw: Bus, s: State)
    requires Inv(s)
    ensures var q := Ticked(hw, s);
            && Inv(q) && q.released == s.released
            && (s.queue != [] ==> q.queue != [] && q.queue[0] == s.queue[0])
  {
    hide Set;
    match hw.traffic(s.now)
    case Quiet =>
    case Arrives(m) =>
      if |s.queue| < DEPTH {
        assert s.stored + [m] == s.released + (s.queue + [m]);
      } else if !hw.locked {
        assert s.stored[..|s.stored| - 1] == s.released + s.queue[..|s.queue| - 1];
      }
  }

  lemma {:induction false} WatchedInv(hw: Bus, s: State, n: nat)
    requires Inv(s)
    ensures var q := Watched(hw, s, n);
            && Inv(q) && q.released == s.released
            && (s.queue != [] ==> q.queue != [] && q.queue[0] == s.queue[0])
  {
    hide Ticked;
    if n > 0 {
      WatchedInv(hw, s, n - 1);
      TickedInv(hw, Watched(hw, s, n - 1));
    }
  }

  lemma FreedInv(s: State)
    requires Inv(s)
    ensures Inv(Freed(s))
    ensures Freed(s).released == if s.queue == [] then s.released else s.released + [s.queue[0]]
  {
  }

  /** How many of the stored frames are there to stay: all, except that the last one of a full FIFO may still be
      overwritten if the FIFO is not locked. */
  function Settled(hw: Bus, s: State): (n: nat)
    ensures n <= |s.stored|
  {
    if |s.queue| < DEPTH || hw.locked || s.stored == [] then |s.stored| else |s.stored| - 1
  }

  /** From s to q no frame that was there to stay is lost, changed or moved, and releases are not undone. */
  ghost predicate Kept(hw: Bus, s: State, q: State) {
    s.released <= q.released && |s.stored| <= |q.stored| && s.stored[..Settled(hw, s)] <= q.stored
  }

  lemma KeptTransitive(hw: Bus, s: State, q: State, r: State)
    requires Inv(s) && Inv(q) && Kept(hw, s, q) && Kept(hw, q, r)
    ensures Kept(hw, s, r)
  {
    var n, m := Settled(hw, s), Settled(hw, q);
    assert n <= m;
    assert forall i :: 0 <= i < n ==> s.stored[i] == q.stored[i] == q.stored[..m][i] == r.stored[i];
  }

  lemma TickedKeeps(hw: Bus, s: State)
    requires Inv(s)
    ensures Kept(hw, s, Ticked(hw, s))
  {
    hide Set;
  }

  lemma NothingLost(hw: Bus, s: State)
    ensures Kept(hw, s, s)
  {
  }

  lemma {:induction false} WatchedKeeps(hw: Bus, s: State, n: nat)
    requires Inv(s)
    ensures Kept(hw, s, Watched(hw, s, n))
  {
    hide Ticked, Kept, Inv;
    if n == 0 {
      assert Watched(hw, s, 0) == s;
      NothingLost(hw, s);
    } else {
      var q := Watched(hw, s, n - 1);
      WatchedKeeps(hw, s, n - 1);
      WatchedInv(hw, s, n - 1);
      TickedKeeps(hw, q);
      KeptTransitive(hw, s, q, Ticked(hw, q));
    }
  }

  // ----- CAN_Receive

  // The mailbox registers at access n of the call
  function ShownAt(hw: Bus, s: State, n: nat): Mailbox {
    Shown(Watched(hw, s, n + 1))
  }

  // What the fourteen reads of CAN_Receive make of the message structure
  function Assembled(hw: Bus, s: State, r0: RxMessage): RxMessage {
    var ide := Keep(ShownAt(hw, s, 0).ir, 0x04);
    var id := ShownAt(hw, s, 1).ir;
    r0.(IDE := ide,
        StdId := if ide == 0 then StandardId(id) else r0.StdId,
        ExtId := if ide == 0 then r0.ExtId else ExtendedId(id),
        RTR := Keep(ShownAt(hw, s, 2).ir, 0x02), DLC := LengthOf(ShownAt(hw, s, 3).dtr),
        FMI := IndexOf(ShownAt(hw, s, 4).dtr),
        Data := [ByteOf(ShownAt(hw, s, 5).dlr, 0), ByteOf(ShownAt(hw, s, 6).dlr, 1),
                 ByteOf(ShownAt(hw, s, 7).dlr, 2), ByteOf(ShownAt(hw, s, 8).dlr, 3),
                 ByteOf(ShownAt(hw, s, 9).dhr, 0), ByteOf(ShownAt(hw, s, 10).dhr, 1),
                 ByteOf(ShownAt(hw, s, 11).dhr, 2), ByteOf(ShownAt(hw, s, 12).dhr, 3)])
  }

  // Identifier, flags, length and match index
  method ReadHeader(c: CanFifo, r0: RxMessage) returns (r: RxMessage)
    modifies c
    ensures c.s == Watched(c.hw, old(c.s), 5)
    ensures r == Assembled(c.hw, old(c.s), r0).(Data := r0.Data)
  {
    hide Watched, Shown, Keep, StandardId, ExtendedId, LengthOf, IndexOf, ByteOf;
    ghost var s0 := c.s;
    r := r0;
    AtFirst(c.hw, s0);
    var m := c.ReadMailbox(s0, 0);
    r := r.(IDE := Keep(m.ir, 0x04));
    if r.IDE == 0 {
      m := c.ReadMailbox(s0, 1);
      r := r.(StdId := StandardId(m.ir));
    } else {
      m := c.ReadMailbox(s0, 1);
      r := r.(ExtId := ExtendedId(m.ir));
    }
    m := c.ReadMailbox(s0, 2);
    r := r.(RTR := Keep(m.ir, 0x02));
    m := c.ReadMailbox(s0, 3);
    r := r.(DLC := LengthOf(m.dtr));
    m := c.ReadMailbox(s0, 4);
    r := r.(FMI := IndexOf(m.dtr));
  }

  lemma AtFirst(hw: Bus, s: State)
    ensures Watched(hw, s, 0) == s
  {
  }

  // The eight data bytes, each with a read of its own
  method ReadData(c: CanFifo, ghost s0: State) returns (data: seq<bv8>)
    requires c.s == Watched(c.hw, s0, 5)
    modifies c
    ensures c.s == Watched(c.hw, s0, 13) && |data| == 8
    ensures forall k :: 0 <= k < 4 ==> data[k] == ByteOf(ShownAt(c.hw, s0, 5 + k).dlr, k)
    ensures forall k :: 4 <= k < 8 ==> data[k] == ByteOf(ShownAt(c.hw, s0, 5 + k).dhr, k - 4)
  {
    hide Watched, Shown, ByteOf;
    data := [];
    var k := 0;
    while k < 8
      invariant k <= 8 && |data| == k && c.s == Watched(c.hw, s0, 5 + k)
      invariant forall j :: 0 <= j < k && j < 4 ==> data[j] == ByteOf(ShownAt(c.hw, s0, 5 + j).dlr, j)
      invariant forall j :: 4 <= j < k ==> data[j] == ByteOf(ShownAt(c.hw, s0, 5 + j).dhr, j - 4)
    {
      var m := c.ReadMailbox(s0, 5 + k);
      data := data + [if k < 4 then ByteOf(m.dlr, k) else ByteOf(m.dhr, k - 4)];
      k := k + 1;
    }
  }

  // All fourteen reads of a FIFO that was not empty see the same mailbox
  lemma OneMailbox(hw: Bus, s: State, r0: RxMessage)
    requires Inv(s) && s.queue != []
    ensures Assembled(hw, s, r0) == Received(s.queue[0], r0)
  {
    hide Watched, Keep, StandardId, ExtendedId, LengthOf, IndexOf, ByteOf;
    forall n: nat ensures ShownAt(hw, s, n) == s.queue[0] {
      WatchedInv(hw, s, n + 1);
    }
  }

  // What a call that begins in state s leaves: the flags read at the fourteenth access are acknowledged at the
  // fifteenth, which releases the first mailbox in use at that time
  function AfterReceive(hw: Bus, s: State): State {
    var a := Watched(hw, s, 14);
    Freed(Ticked(hw, a).(flags := FlagsAfter(hw, s)))
  }

  /** CAN_Receive. A FIFO that was not empty at the call delivers its first frame, complete and unpacked, and
      releases that one, whatever arrives during the call; the others stay. The release writes back FULL and
      FOVR as read, which clears them. */
  method Receive(c: CanFifo, r0: RxMessage) returns (r: RxMessage)
    requires Inv(c.s)
    modifies c
    ensures Inv(c.s) && Kept(c.hw, old(c.s), c.s)
    ensures c.s == AfterReceive(c.hw, old(c.s))
    ensures r == Assembled(c.hw, old(c.s), r0)
    ensures old(c.s.queue) != [] ==>
              && r == Received(old(c.s.queue)[0], r0) && FrameReceived(r) == FrameIn(old(c.s.queue)[0])
              && (if r.IDE == 0 then r.ExtId == r0.ExtId else r.StdId == r0.StdId)
              && c.s.released == old(c.s.released) + [old(c.s.queue)[0]]
    ensures old(c.s.queue) == [] ==> |c.s.released| <= |old(c.s.released)| + 1
    ensures var a := Watched(c.hw, old(c.s), 14); var b := Ticked(c.hw, a);
            && (Any(c.s.flags, 0x8) <==> Any(b.flags, 0x8) && !Any(a.flags, 0x8))
            && (Any(c.s.flags, 0x10) <==> Any(b.flags, 0x10) && !Any(a.flags, 0x10))
  {
    hide Ticked, Watched, Any, Set, Keep, Clear, Received, Assembled, ByteOf, Shown, Inv, Kept, FlagsAfter, FrameIn,
         FrameReceived;
    FlagKeptIff(c.hw, c.s, 0x8);
    FlagKeptIff(c.hw, c.s, 0x10);
    ghost var s0 := c.s;
    r := ReadHeader(c, r0);
    var data := ReadData(c, s0);
    r := r.(Data := data);
    assert r == Assembled(c.hw, s0, r0) by {
      AssembledData(c.hw, s0, r0, data);
    }
    if s0.queue != [] {
      OneMailbox(c.hw, s0, r0);
      ReceivedFrame(s0.queue[0], r0);
    }
    Release(c, s0);
    AfterReceiveMeans(c.hw, s0);
  }

  lemma AfterReceiveMeans(hw: Bus, s: State)
    requires Inv(s)
    ensures var q := AfterReceive(hw, s);
            && Inv(q) && Kept(hw, s, q) && q.flags == FlagsAfter(hw, s)
            && |q.released| <= |s.released| + 1
            && (s.queue != [] ==> q.released == s.released + [s.queue[0]])
  {
    hide Ticked, Watched, Any, Set, Keep, Clear, FlagsAfter;
    var a := Watched(hw, s, 14);
    WatchedInv(hw, s, 14);
    WatchedKeeps(hw, s, 14);
    TickedInv(hw, a);
    TickedKeeps(hw, a);
    KeptTransitive(hw, s, a, Ticked(hw, a));
    FreedInv(Ticked(hw, a).(flags := FlagsAfter(hw, s)));
  }

  lemma AssembledData(hw: Bus, s: State, r0: RxMessage, data: seq<bv8>)
    requires |data| == 8
    requires forall k :: 0 <= k < 4 ==> data[k] == ByteOf(ShownAt(hw, s, 5 + k).dlr, k)
    requires forall k :: 4 <= k < 8 ==> data[k] == ByteOf(ShownAt(hw, s, 5 + k).dhr, k - 4)
    ensures Assembled(hw, s, r0).Data == data
  {
    hide Watched, Shown, Keep, StandardId, ExtendedId, LengthOf, IndexOf, ByteOf, ShownAt;
    var all := Assembled(hw, s, r0).Data;
    assert all[0] == data[0] && all[1] == data[1] && all[2] == data[2] && all[3] == data[3];
    assert all[4] == data[4] && all[5] == data[5] && all[6] == data[6] && all[7] == data[7];
  }

  // RF0R |= RFOM0, after thirteen reads
  method Release(c: CanFifo, ghost s0: State)
    requires c.s == Watched(c.hw, s0, 13)
    modifies c
    ensures c.s == AfterReceive(c.hw, s0)
  {
    hide Ticked, Any, Set, Keep, Clear;
    var v := c.ReadRFR();
    assert c.s == Watched(c.hw, s0, 14);
    WithRelease(v);
    c.WriteRFR(Set(v, 0x20));
  }

  lemma WithRelease(v: bv32)
    ensures Any(Set(v, 0x20), 0x20) && Keep(Set(v, 0x20), 0x18) == Keep(v, 0x18)
  {
  }

  // What a call that begins in state s leaves of the flags
  function FlagsAfter(hw: Bus, s: State): bv32 {
    var a := Watched(hw, s, 14);
    Clear(Ticked(hw, a).flags, Keep(a.flags, 0x18))
  }

  /** After a call FULL or FOVR is set if and only if it came up between the read and the write of RFR, the
      fourteenth and the fifteenth access of the call. */
  lemma FlagKeptIff(hw: Bus, s: State, flag: bv32)
    requires flag == 0x8 || flag == 0x10
    ensures var a := Watched(hw, s, 14);
            Any(FlagsAfter(hw, s), flag) <==> Any(Ticked(hw, a).flags, flag) && !Any(a.flags, flag)
  {
    hide Any, Keep, Clear, Watched, Ticked;
    var a := Watched(hw, s, 14);
    OverrunBits(flag);
    ClearSingle(Ticked(hw, a).flags, Keep(a.flags, 0x18), flag);
    MaskMoves(a.flags, 0x18, flag);
  }

  /** For example: an overrun that happened before the call is forgotten, on a bus where nothing else comes in. */
  lemma OverrunForgotten() returns (hw: Bus, s: State)
    ensures Inv(s) && s.queue != [] && Any(s.flags, 0x10) && !Any(FlagsAfter(hw, s), 0x10)
  {
    var m := Mailbox(0, 0, 0, 0);
    hw := Bus(t => Quiet, true);
    s := State([m], m, 0x10, 0, [m], []);
    NothingComes(hw, s, 14);
    FlagKeptIff(hw, s, 0x10);
  }

  lemma {:induction false} NothingComes(hw: Bus, s: State, n: nat)
    requires forall t :: hw.traffic(t) == Quiet
    ensures Watched(hw, s, n) == s.(now := s.now + n)
  {
    if n > 0 {
      NothingComes(hw, s, n - 1);
    }
  }

  lemma OverrunBits(flag: bv32)
    requires flag == 0x8 || flag == 0x10
    ensures SingleBit(flag) && Keep(flag, 0x18) == flag
  {
  }

  // ----- runs

  /** A run of CAN_MessagePending and CAN_Receive in turn: the state that message i of a run from state s is
      received from. */
  function StateAt(hw: Bus, s: State, i: nat): State {
    Ticked(hw, if i == 0 then s else AfterReceive(hw, StateAt(hw, s, i - 1)))
  }

  /** Message i is the first frame that the FIFO holds at its turn. */
  ghost predicate InTurn(hw: Bus, s: State, messages: seq<RxMessage>, r0: RxMessage) {
    forall i :: 0 <= i < |messages| ==>
      var q := StateAt(hw, s, i).queue;
      q != [] && messages[i] == Received(q[0], r0)
  }

  /** The frames of the messages are those that a FIFO in state q released after it had been in state s, and the
      first of them those that it held then. */
  ghost predicate FromStored(hw: Bus, s: State, messages: seq<RxMessage>, q: State) {
    var n := |s.released|;
    && |q.released| == n + |messages| && q.released <= q.stored
    && (forall i :: 0 <= i < |messages| ==> FrameReceived(messages[i]) == FrameIn(q.stored[n + i]))
    && forall i :: 0 <= i < |messages| && n + i < Settled(hw, s) ==>
         i < |s.queue| && FrameReceived(messages[i]) == FrameIn(s.queue[i])
  }

  /** Receiving frame after frame while more arrive: as long as no call meets an empty FIFO, the messages are
      the frames in the order in which they were stored, each one once, beginning with those that the FIFO held
      at the start. */
  method ReceiveAll(c: CanFifo, count: nat, r0: RxMessage) returns (messages: seq<RxMessage>)
    requires Inv(c.s)
    modifies c
    ensures Inv(c.s) && Kept(c.hw, old(c.s), c.s) && |messages| <= count
    ensures c.s == StateAt(c.hw, old(c.s), |messages|) && InTurn(c.hw, old(c.s), messages, r0)
    ensures FromStored(c.hw, old(c.s), messages, c.s)
    ensures |messages| < count ==> c.s.queue == []
  {
    hide Received, FrameReceived, FrameIn, Clear, Keep, Ticked, Watched, Any, Fmp, AfterReceive, Kept, Assembled, Inv;
    messages := [];
    ghost var s0 := c.s;
    TickedKeeps(c.hw, s0);
    var pending := MessagePending(c);
    while |messages| < count && pending != 0
      invariant Inv(c.s) && Kept(c.hw, s0, c.s) && |messages| <= count && (pending == 0 <==> c.s.queue == [])
      invariant c.s == StateAt(c.hw, s0, |messages|) && InTurn(c.hw, s0, messages, r0)
      invariant Delivered(s0, messages, c.s)
      decreases count - |messages|
    {
      ghost var s := c.s;
      var r := Receive(c, r0);
      ReceivedFrame(s.queue[0], r0);
      KeptTransitive(c.hw, s0, s, c.s);
      TickedKeeps(c.hw, c.s);
      KeptTransitive(c.hw, s0, c.s, Ticked(c.hw, c.s));
      messages := messages + [r];
      pending := MessagePending(c);
    }
    DeliveredFromStored(c.hw, s0, messages, c.s);
  }

  ghost predicate Delivered(s: State, messages: seq<RxMessage>, q: State) {
    && |q.released| == |s.released| + |messages|
    && forall i :: 0 <= i < |messages| ==> FrameReceived(messages[i]) == FrameIn(q.released[|s.released| + i])
  }

  lemma DeliveredFromStored(hw: Bus, s: State, messages: seq<RxMessage>, q: State)
    requires Inv(s) && Inv(q) && Kept(hw, s, q) && Delivered(s, messages, q)
    ensures FromStored(hw, s, messages, q)
  {
    hide FrameReceived, FrameIn;
    var n, m := |s.released|, Settled(hw, s);
    forall i | 0 <= i < |messages| && n + i < m
      ensures i < |s.queue| && q.stored[n + i] == s.queue[i]
    {
      assert s.stored[n + i] == s.stored[..m][n + i] == q.stored[n + i];
    }
  }

  /** CAN_MessagePending */
  method MessagePending(c: CanFifo) returns (pending: bv32)
    requires Inv(c.s)
    modifies c
    ensures Inv(c.s) && c.s == Ticked(c.hw, old(c.s)) && c.s.released == old(c.s.released)
    ensures pending == Fmp(|c.s.queue|) && (pending == 0 <==> c.s.queue == [])
  {
    hide Ticked, Keep, Fmp;
    TickedInv(c.hw, c.s);
    var v := c.ReadRFR();
    FmpIsSmall(|c.s.queue|);
    pending := Keep(v, 0x3);
  }
}
