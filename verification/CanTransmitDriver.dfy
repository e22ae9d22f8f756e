/** CAN_Transmit, CAN_TransmitStatus, CAN_CancelTransmit, and runs of them. */
module CanTransmitDriver {
  import opened Bits
  import opened CanFrames
  import opened CanMailboxes

  const NO_MAILBOX: nat := 4 // CAN_TxStatus_NoMailBox

  datatype TxStatus = Failed | Ok | Pending

  // For a single bit, all is any
  lemma OneBit(v: bv32, m: nat)
    requires m < MAILBOXES
    ensures All(v, Tme(m)) <==> Any(v, Tme(m))
  {
  }

  // One of the tests of CAN_Transmit
  method IsEmpty(c: Can, m: nat) returns (empty: bool)
    requires c.Valid() && m < MAILBOXES
    modifies c
    ensures c.Valid() && c.s == Ticked(c.hw, old(c.s)) && Later(old(c.s), c.s)
    ensures OthersAlone(old(c.s), c.s, NO_MAILBOX)
    ensures empty <==> m !in c.s.pending
  {
    hide Any, All, Tme, Ticked, Ledger, Later, Rqcp, Txok, Carried, Lasts, OthersAlone;
    TickedInv(c.hw, c.s);
    TickedOthers(c.hw, c.s, NO_MAILBOX);
    var tsr := c.ReadTSR();
    OneBit(tsr, m);
    assert Flags(c.s, m);
    empty := All(tsr, Tme(m));
  }

  /** The three tests of CAN_Transmit; each one is a read of its own, and frames may complete in between. */
  method SelectMailbox(c: Can) returns (m: nat)
    requires c.Valid()
    modifies c
    ensures c.Valid() && Later(old(c.s), c.s)
    ensures (m < MAILBOXES && m !in c.s.pending) || m == NO_MAILBOX
    ensures Found(c.hw, old(c.s), m)
    ensures OthersAlone(old(c.s), c.s, NO_MAILBOX)
  {
    hide Ticked, Later, Inv, OthersAlone;
    ghost var s0 := c.s;
    var empty := IsEmpty(c, 0);
    if empty {
      return 0;
    }
    ghost var s1 := c.s;
    empty := IsEmpty(c, 1);
    LaterTwice(s0, s1, c.s);
    OthersTwice(s0, s1, c.s, NO_MAILBOX);
    if empty {
      return 1;
    }
    ghost var s2 := c.s;
    empty := IsEmpty(c, 2);
    LaterTwice(s0, s2, c.s);
    OthersTwice(s0, s2, c.s, NO_MAILBOX);
    m := if empty then 2 else NO_MAILBOX;
  }

  // The mailbox that a call finds: the first one that is empty when it is looked at, at a read of its own
  predicate Found(hw: Bus, s: State, m: nat)
    requires |s.boxes| == MAILBOXES
  {
    var s1 := Ticked(hw, s);
    var s2 := Ticked(hw, s1);
    var s3 := Ticked(hw, s2);
    && (m == 0 <==> 0 !in s1.pending)
    && (m == 1 <==> 0 in s1.pending && 1 !in s2.pending)
    && (m == 2 <==> 0 in s1.pending && 1 in s2.pending && 2 !in s3.pending)
    && (m == 4 <==> 0 in s1.pending && 1 in s2.pending && 2 in s3.pending)
  }

  // A read of a register of an empty mailbox
  method Get(c: Can, m: nat, reg: Register) returns (v: bv32)
    requires c.Valid() && m < MAILBOXES && m !in c.s.pending
    modifies c
    ensures c.Valid() && Later(old(c.s), c.s) && OthersAlone(old(c.s), c.s, m)
    ensures m !in c.s.pending && c.s.boxes[m] == old(c.s.boxes)[m] && v == Content(c.s.boxes[m], reg)
  {
    hide Ticked, Inv, OthersAlone;
    TickedInv(c.hw, c.s);
    TickedOthers(c.hw, c.s, m);
    InvHasBoxes(c.s);
    v := c.ReadRegister(m, reg);
  }

  // A write to a register of an empty mailbox, before the request
  method Put(c: Can, m: nat, reg: Register, v: bv32)
    requires c.Valid() && m < MAILBOXES && m !in c.s.pending && !Any(Changed(c.s.boxes[m], reg, v).ir, 0x1)
    modifies c
    ensures c.Valid() && m !in c.s.pending && c.s.boxes[m] == Changed(old(c.s.boxes)[m], reg, v)
    ensures c.s.accepted == old(c.s.accepted) && old(c.s.sent) <= c.s.sent && old(c.s.failed) <= c.s.failed
    ensures OthersAlone(old(c.s), c.s, m)
  {
    hide Any, Ticked, Inv, Changed, OthersAlone, BoxWritten;
    TickedInv(c.hw, c.s);
    InvHasBoxes(c.s);
    ghost var q := Ticked(c.hw, c.s);
    InvHasBoxes(q);
    BoxWrittenInv(q, m, Changed(q.boxes[m], reg, v));
    TickedOthers(c.hw, c.s, m);
    BoxWrittenOthers(q, m, Changed(q.boxes[m], reg, v));
    OthersTwice(c.s, q, BoxWritten(q, m, Changed(q.boxes[m], reg, v)), m);
    c.WriteRegister(m, reg, v);
  }

  lemma InvHasBoxes(s: State)
    requires Inv(s)
    ensures |s.boxes| == MAILBOXES
  {
  }

  // Identifier, without the request
  method FillId(c: Can, m: nat, t: TxMessage)
    requires c.Valid() && m < MAILBOXES && m !in c.s.pending && IsMessage(t)
    modifies c
    ensures c.Valid() && m !in c.s.pending && c.s.boxes[m] == old(c.s.boxes)[m].(ir := PackedId(t))
    ensures !Any(PackedId(t), 0x1)
    ensures c.s.accepted == old(c.s.accepted) && old(c.s.sent) <= c.s.sent && old(c.s.failed) <= c.s.failed
    ensures OthersAlone(old(c.s), c.s, m)
  {
    hide Any, Set, Keep, Inv, PackedId, Later, OthersAlone;
    NoRequest(c.s, m);
    PackedFields(t);
    NoBits(0x1);
    OrZero(PackedId(t));
    ghost var s0 := c.s;
    var v := Get(c, m, TIR);
    LaterMeans(s0, c.s);
    KeepRequest(v);
    ghost var s1 := c.s;
    Put(c, m, TIR, Keep(v, 0x1));
    OthersTwice(s0, s1, c.s, m);
    ghost var s2 := c.s;
    v := Get(c, m, TIR);
    LaterMeans(s2, c.s);
    OthersTwice(s0, s2, c.s, m);
    ghost var s3 := c.s;
    Put(c, m, TIR, Set(v, PackedId(t)));
    OthersTwice(s0, s3, c.s, m);
  }

  lemma NoRequest(s: State, m: nat)
    requires Inv(s) && m < MAILBOXES && m !in s.pending
    ensures |s.boxes| == MAILBOXES && !Any(s.boxes[m].ir, 0x1)
  {
    hide Any, Rqcp, Txok, Tme;
    FlagsOf(s, m);
  }

  lemma LaterMeans(s: State, q: State)
    requires Later(s, q)
    ensures q.accepted == s.accepted && s.sent <= q.sent && s.failed <= q.failed
  {
  }

  // Length: TDTR = (TDTR & 0xFFFFFFF0) | DLC
  method FillLength(c: Can, m: nat, t: TxMessage)
    requires c.Valid() && m < MAILBOXES && m !in c.s.pending && !Any(c.s.boxes[m].ir, 0x1)
    modifies c
    ensures c.Valid() && m !in c.s.pending
    ensures c.s.boxes[m] ==
            old(c.s.boxes)[m].(dtr := Set(Keep(old(c.s.boxes)[m].dtr, 0xFFFFFFF0), Keep(t.DLC, 0xF)))
    ensures c.s.accepted == old(c.s.accepted) && old(c.s.sent) <= c.s.sent && old(c.s.failed) <= c.s.failed
    ensures OthersAlone(old(c.s), c.s, m)
  {
    hide Any, Set, Keep, Inv, Later, OthersAlone;
    ghost var s0 := c.s;
    var v := Get(c, m, TDTR);
    LaterMeans(s0, c.s);
    ghost var s1 := c.s;
    Put(c, m, TDTR, Keep(v, 0xFFFFFFF0));
    OthersTwice(s0, s1, c.s, m);
    ghost var s2 := c.s;
    v := Get(c, m, TDTR);
    LaterMeans(s2, c.s);
    OthersTwice(s0, s2, c.s, m);
    ghost var s3 := c.s;
    Put(c, m, TDTR, Set(v, Keep(t.DLC, 0xF)));
    OthersTwice(s0, s3, c.s, m);
  }

  // Length and data
  method FillData(c: Can, m: nat, t: TxMessage)
    requires c.Valid() && m < MAILBOXES && m !in c.s.pending && IsMessage(t) && !Any(c.s.boxes[m].ir, 0x1)
    modifies c
    ensures c.Valid() && m !in c.s.pending
    ensures c.s.boxes[m] == Packed(t, old(c.s.boxes)[m].dtr).(ir := old(c.s.boxes)[m].ir)
    ensures c.s.accepted == old(c.s.accepted) && old(c.s.sent) <= c.s.sent && old(c.s.failed) <= c.s.failed
    ensures OthersAlone(old(c.s), c.s, m)
  {
    hide Any, Set, Keep, Inv, PackedId, PackedData, Later, OthersAlone;
    ghost var s0 := c.s;
    FillLength(c, m, t);
    ghost var s1 := c.s;
    Put(c, m, TDLR, PackedData(t.Data[0], t.Data[1], t.Data[2], t.Data[3]));
    OthersTwice(s0, s1, c.s, m);
    ghost var s2 := c.s;
    Put(c, m, TDHR, PackedData(t.Data[4], t.Data[5], t.Data[6], t.Data[7]));
    OthersTwice(s0, s2, c.s, m);
  }

  lemma KeepRequest(ir: bv32)
    requires !Any(ir, 0x1)
    ensures Keep(ir, 0x1) == 0
  {
  }

  lemma NoBits(bits: bv32)
    ensures !Any(0, bits)
  {
  }

  lemma OrZero(v: bv32)
    ensures Set(0, v) == v
  {
  }

  /** What CAN_Transmit does: it reports that there is no mailbox, exactly if each of the three was pending when
      it was looked at, and accepts nothing; or it accepts exactly the frame of the message, makes it pending in
      the mailbox that it reports, the first one that was empty when it was looked at, and leaves the bits of TDTR
      outside the length alone. The other mailboxes are left alone, with their flags. */
  ghost predicate TransmitEffect(hw: Bus, s: State, t: TxMessage, mailbox: nat, q: State)
    requires |s.boxes| == MAILBOXES
  {
    && Found(hw, s, mailbox)
    && s.sent <= q.sent && s.failed <= q.failed && OthersAlone(s, q, mailbox)
    && if mailbox == NO_MAILBOX then Later(s, q)
       else
         && mailbox < MAILBOXES && |q.boxes| == MAILBOXES
         && q.accepted == s.accepted + [FrameOf(t)]
         && mailbox in q.pending && q.pending[mailbox] == |s.accepted|
         && mailbox in q.last && q.last[mailbox] == |s.accepted|
         && Keep(q.boxes[mailbox].dtr, 0xFFFFFFF0) == Keep(s.boxes[mailbox].dtr, 0xFFFFFFF0)
         && (t.IDE == 0 ==> Keep(q.boxes[mailbox].ir, 0x001FFFF8) == 0)
  }

  /** CAN_Transmit. */
  method Transmit(c: Can, t: TxMessage) returns (mailbox: nat)
    requires c.Valid() && IsMessage(t)
    modifies c
    ensures c.Valid() && TransmitEffect(c.hw, old(c.s), t, mailbox, c.s)
  {
    hide Any, Set, Keep, Ticked, Inv, FrameIn, FrameOf, PackedId, PackedData, Found, OthersAlone;
    InvHasBoxes(c.s);
    ghost var s0 := c.s;
    mailbox := SelectMailbox(c);
    if mailbox != NO_MAILBOX {
      AllAreOthers(s0, c.s, mailbox);
      ghost var dtr, s1 := c.s.boxes[mailbox].dtr, c.s;
      FillId(c, mailbox, t);
      OthersTwice(s0, s1, c.s, mailbox);
      ghost var s2 := c.s;
      FillData(c, mailbox, t);
      OthersTwice(s0, s2, c.s, mailbox);
      PackedFrame(t, dtr);
      ghost var s3 := c.s;
      Request(c, mailbox, Packed(t, dtr));
      OthersTwice(s0, s3, c.s, mailbox);
    }
  }

  lemma AllAreOthers(s: State, q: State, m: nat)
    requires OthersAlone(s, q, NO_MAILBOX)
    ensures OthersAlone(s, q, m)
  {
    hide LeftAlone, NoNewAbort;
  }

  // TIR |= TXRQ
  method Request(c: Can, m: nat, ghost box: Mailbox)
    requires c.Valid() && m < MAILBOXES && m !in c.s.pending && box == c.s.boxes[m].(ir := Set(c.s.boxes[m].ir, 0x1))
    modifies c
    ensures c.Valid() && |c.s.boxes| == MAILBOXES && c.s.boxes[m] == box
    ensures c.s.accepted == old(c.s.accepted) + [FrameIn(box)]
    ensures m in c.s.pending && c.s.pending[m] == |old(c.s.accepted)|
    ensures m in c.s.last && c.s.last[m] == |old(c.s.accepted)|
    ensures old(c.s.sent) <= c.s.sent && old(c.s.failed) <= c.s.failed && OthersAlone(old(c.s), c.s, m)
  {
    hide Any, Set, Ticked, Inv, FrameIn, OthersAlone, BoxWritten;
    ghost var s0 := c.s;
    var v := Get(c, m, TIR);
    SetSets(v, 0x1);
    TickedInv(c.hw, c.s);
    InvHasBoxes(c.s);
    ghost var s1, q := c.s, Ticked(c.hw, c.s);
    InvHasBoxes(q);
    BoxWrittenInv(q, m, box);
    TickedOthers(c.hw, s1, m);
    BoxWrittenOthers(q, m, box);
    c.WriteRegister(m, TIR, Set(v, 0x1));
    InvHasBoxes(c.s);
    PendingIsLast(c.s, m);
    OthersTwice(s0, s1, q, m);
    OthersTwice(s0, q, c.s, m);
  }

  lemma PendingIsLast(s: State, m: nat)
    requires Inv(s) && m < MAILBOXES && m in s.pending
    ensures m in s.last && s.last[m] == s.pending[m]
  {
    hide Any, Rqcp, Txok, Tme, Ledger, Carried, Lasts;
    FlagsOf(s, m);
  }

  // ----- status and cancel

  function Mask(m: nat): bv32 {
    Set(Set(Rqcp(m), Txok(m)), Tme(m))
  }

  // The second switch of CAN_TransmitStatus
  function StatusOf(tsr: bv32, m: nat): TxStatus {
    var state := Keep(tsr, Mask(m));
    if state == 0 then Pending
    else if state == Set(Rqcp(m), Tme(m)) then Failed
    else if state == Mask(m) then Ok
    else Failed
  }

  lemma StatusReads(tsr: bv32, m: nat)
    requires m < MAILBOXES
    ensures StatusOf(tsr, m) == Pending <==> !Any(tsr, Rqcp(m)) && !Any(tsr, Txok(m)) && !Any(tsr, Tme(m))
    ensures StatusOf(tsr, m) == Ok <==> Any(tsr, Rqcp(m)) && Any(tsr, Txok(m)) && Any(tsr, Tme(m))
  {
    hide Any, Keep, Set, Rqcp, Txok, Tme;
    if m == 0 {
      StatusBits0(tsr);
    } else if m == 1 {
      StatusBits1(tsr);
    } else {
      StatusBits2(tsr);
    }
  }

  lemma StatusBits0(tsr: bv32)
    ensures StatusOf(tsr, 0) == Pending <==> !Any(tsr, Rqcp(0)) && !Any(tsr, Txok(0)) && !Any(tsr, Tme(0))
    ensures StatusOf(tsr, 0) == Ok <==> Any(tsr, Rqcp(0)) && Any(tsr, Txok(0)) && Any(tsr, Tme(0))
  {
  }

  lemma StatusBits1(tsr: bv32)
    ensures StatusOf(tsr, 1) == Pending <==> !Any(tsr, Rqcp(1)) && !Any(tsr, Txok(1)) && !Any(tsr, Tme(1))
    ensures StatusOf(tsr, 1) == Ok <==> Any(tsr, Rqcp(1)) && Any(tsr, Txok(1)) && Any(tsr, Tme(1))
  {
  }

  lemma StatusBits2(tsr: bv32)
    ensures StatusOf(tsr, 2) == Pending <==> !Any(tsr, Rqcp(2)) && !Any(tsr, Txok(2)) && !Any(tsr, Tme(2))
    ensures StatusOf(tsr, 2) == Ok <==> Any(tsr, Rqcp(2)) && Any(tsr, Txok(2)) && Any(tsr, Tme(2))
  {
  }

  /** What the answers of CAN_TransmitStatus say about the frame last given to the mailbox: Pending exactly
      while it is pending, Ok only if it was sent. */
  lemma StatusMeans(s: State, m: nat)
    requires Inv(s) && m < MAILBOXES
    ensures StatusOf(s.tsr, m) == Pending <==> m in s.pending
    ensures StatusOf(s.tsr, m) == Ok ==> m in s.last && s.last[m] in s.sent
    ensures m in s.last && s.last[m] in s.sent && Any(s.tsr, Rqcp(m)) ==> StatusOf(s.tsr, m) == Ok
  {
    hide Any, StatusOf, Rqcp, Txok, Tme, Ledger;
    StatusReads(s.tsr, m);
    assert Flags(s, m);
    LastIsNotPending(s, m);
  }

  lemma LastIsNotPending(s: State, m: nat)
    requires Inv(s) && m < MAILBOXES
    ensures m in s.last && s.last[m] in s.sent ==> m !in s.pending
  {
    hide Any, Rqcp, Txok, Tme;
    assert Flags(s, m);
  }

  /** CAN_TransmitStatus */
  method TransmitStatus(c: Can, m: nat) returns (status: TxStatus)
    requires c.Valid() && m < MAILBOXES
    modifies c
    ensures c.Valid() && c.s == Ticked(c.hw, old(c.s)) && Later(old(c.s), c.s)
    ensures status == StatusOf(c.s.tsr, m)
    ensures status == Pending <==> m in c.s.pending
    ensures status == Ok ==> m in c.s.last && c.s.last[m] in c.s.sent
  {
    hide Any, Ticked, StatusOf, Flags, Ledger;
    TickedInv(c.hw, c.s);
    var tsr := c.ReadTSR();
    StatusMeans(c.s, m);
    status := StatusOf(tsr, m);
  }

  /** CAN_CancelTransmit: TSR |= ABRQ. What it writes back are the completion flags that it read. The answer for
      a mailbox survives exactly if it was not Ok at the read: a completion is acknowledged by the call, so that
      Ok becomes Failed, for any mailbox. */
  method CancelTransmit(c: Can, m: nat)
    requires c.Valid() && m < MAILBOXES
    modifies c
    ensures c.Valid() && Later(old(c.s), c.s)
    ensures CancelEffect(c.hw, old(c.s), m, c.s)
    ensures forall n: nat :: n < MAILBOXES ==>
              var a := Ticked(c.hw, old(c.s));
              StatusOf(c.s.tsr, n) == StatusOf(Ticked(c.hw, a).tsr, n) <==> StatusOf(a.tsr, n) != Ok
  {
    hide Any, Set, Ticked, TsrWritten, Flags, Ledger, Abrq, Carried, Lasts, StatusOf;
    forall n: nat | n < MAILBOXES {
      CancelKeepsStatusIff(c.hw, c.s, m, n);
    }
    TickedInv(c.hw, c.s);
    var tsr := c.ReadTSR();
    TickedInv(c.hw, c.s);
    TsrWrittenInv(Ticked(c.hw, c.s), Set(tsr, Abrq(m)));
    c.WriteTSR(Set(tsr, Abrq(m)));
  }

  // The read and the write of TSR, with time passing before each of them
  ghost predicate CancelEffect(hw: Bus, s: State, m: nat, q: State)
    requires |s.boxes| == MAILBOXES
  {
    var a := Ticked(hw, s);
    var b := Ticked(hw, a);
    q == b.(tsr := TsrWritten(b.tsr, Set(a.tsr, Abrq(m))))
  }

  /** Whatever completes between the read and the write, a cancel of mailbox m keeps the answer for mailbox n
      exactly when the answer at the read was not Ok. */
  lemma CancelKeepsStatusIff(hw: Bus, s: State, m: nat, n: nat)
    requires Inv(s) && m < MAILBOXES && n < MAILBOXES
    ensures var a := Ticked(hw, s);
            var b := Ticked(hw, a);
            StatusOf(TsrWritten(b.tsr, Set(a.tsr, Abrq(m))), n) == StatusOf(b.tsr, n) <==> StatusOf(a.tsr, n) != Ok
  {
    hide Any, Set, Rqcp, Txok, Tme, Abrq, StatusOf, TsrWritten, Ledger, Disjoint, Ticked, Carried, Lasts, Later, Inv;
    InvHasBoxes(s);
    var a := Ticked(hw, s);
    var b := Ticked(hw, a);
    TickedInv(hw, s);
    TickedInv(hw, a);
    InvHasBoxes(a);
    FlagsOf(a, n);
    FlagsOf(b, n);
    if n !in a.pending {
      TickedFlags(hw, a, n);
    }
    var v := Set(a.tsr, Abrq(m));
    var after := TsrWritten(b.tsr, v);
    TsrWrittenFlags(b.tsr, v, n);
    OwnMailbox(m, n);
    Untouched(a.tsr, Abrq(m), Rqcp(n));
    StatusReads(a.tsr, n);
    StatusReads(b.tsr, n);
    StatusReads(after, n);
  }

  // A controller after reset: the mailboxes are empty, and TME says so
  function Reset(): State {
    State(0x1C000000, [Mailbox(0, 0, 0, 0), Mailbox(0, 0, 0, 0), Mailbox(0, 0, 0, 0)], 0, [], map[], map[], {}, {})
  }

  lemma ResetInv()
    ensures Inv(Reset())
  {
    hide Rqcp, Txok, Tme;
    ResetFlags(0);
    ResetFlags(1);
    ResetFlags(2);
  }

  lemma ResetFlags(m: nat)
    requires m < MAILBOXES
    ensures Flags(Reset(), m)
  {
  }

  // The first request of all, in mailbox 1
  lemma FirstRequest(box: Mailbox)
    requires box.ir == 0x1
    ensures var s := BoxWritten(Reset(), 1, box);
            Inv(s) && s.pending == map[1 := 0] && s.last == map[1 := 0] && s.sent == {}
  {
    hide Clear, Rqcp, Txok, Tme, FrameIn, Inv;
    ResetInv();
    BoxWrittenInv(Reset(), 1, box);
  }

  // On a bus where everything goes out at once
  lemma GoesOut(hw: Bus, s: State)
    requires |s.boxes| == MAILBOXES && s.pending == map[1 := 0] && hw(s.now)(1) == Success
    ensures Ticked(hw, s).pending == map[] && Ticked(hw, s).sent == s.sent + {0} && Ticked(hw, s).last == s.last
  {
    hide Clear, EndedFlags;
  }

  /** For example: after reset a frame is requested in mailbox 1 and goes out at once; then a cancel of mailbox 0
      turns the answer for mailbox 1 from Ok into Failed. */
  lemma CompletionForgotten() returns (hw: Bus, s: State)
    ensures s == BoxWritten(Reset(), 1, Mailbox(0x1, 0, 0, 0)) && Inv(s)
    ensures var a := Ticked(hw, s);
            var b := Ticked(hw, a);
            && StatusOf(a.tsr, 1) == Ok && b.last == map[1 := 0] && 0 in b.sent
            && StatusOf(TsrWritten(b.tsr, Set(a.tsr, Abrq(0))), 1) == Failed
  {
    hide Any, Set, Clear, Rqcp, Txok, Tme, Abrq, StatusOf, TsrWritten, FrameIn, Inv, Ticked, BoxWritten, Reset;
    hw := t => (m => Success);
    ResetInv();
    InvHasBoxes(Reset());
    s := BoxWritten(Reset(), 1, Mailbox(0x1, 0, 0, 0));
    FirstRequest(Mailbox(0x1, 0, 0, 0));
    InvHasBoxes(s);
    GoesOut(hw, s);
    var a := Ticked(hw, s);
    var b := Ticked(hw, a);
    TickedInv(hw, s);
    TickedInv(hw, a);
    TickedAlone(hw, s, 1);
    TickedAlone(hw, a, 1);
    StatusMeans(a, 1);
    StatusMeans(b, 1);
    CancelKeepsStatusIff(hw, s, 0, 1);
    var v := Set(a.tsr, Abrq(0));
    TsrWrittenInv(b, v);
    StatusMeans(b.(tsr := TsrWritten(b.tsr, v)), 1);
  }

  // ----- runs

  datatype Command = Send(t: TxMessage) | Query(m: nat) | Cancel(m: nat)

  datatype Outcome = Taken(mailbox: nat) | NotTaken | Answer(status: TxStatus) | Done

  predicate Allowed(command: Command) {
    match command
    case Send(t) => IsMessage(t)
    case Query(m) => m < MAILBOXES
    case Cancel(m) => m < MAILBOXES
  }

  function Frames(messages: seq<TxMessage>): (r: seq<Frame>)
    ensures |r| == |messages|
  {
    seq(|messages|, i requires 0 <= i < |messages| => FrameOf(messages[i]))
  }

  /** The messages of a run that were taken, in the order of the calls. */
  function TakenOf(commands: seq<Command>, outcomes: seq<Outcome>): seq<TxMessage>
    requires |outcomes| == |commands|
    decreases |commands|
  {
    if commands == [] then []
    else
      var i := |commands| - 1;
      TakenOf(commands[..i], outcomes[..i]) + if commands[i].Send? && outcomes[i].Taken? then [commands[i].t] else []
  }

  /** What one call does, and what it answers. */
  ghost predicate StepOf(hw: Bus, s: State, command: Command, outcome: Outcome, q: State)
    requires |s.boxes| == MAILBOXES
  {
    match command
    case Send(t) =>
      && (outcome.Taken? || outcome.NotTaken?)
      && (outcome.Taken? ==> outcome.mailbox < MAILBOXES)
      && TransmitEffect(hw, s, t, if outcome.Taken? then outcome.mailbox else NO_MAILBOX, q)
    case Query(m) =>
      && m < MAILBOXES && q == Ticked(hw, s)
      && outcome == Answer(StatusOf(q.tsr, m))
      && (outcome.status == Pending <==> m in q.pending)
      && (outcome.status == Ok ==> m in q.last && q.last[m] in q.sent)
    case Cancel(m) => outcome == Done && CancelEffect(hw, s, m, q)
  }

  // One call of a run
  method Execute(c: Can, command: Command) returns (outcome: Outcome)
    requires c.Valid() && Allowed(command)
    modifies c
    ensures c.Valid() && StepOf(c.hw, old(c.s), command, outcome, c.s)
    ensures old(c.s.sent) <= c.s.sent && old(c.s.failed) <= c.s.failed
    ensures c.s.accepted ==
            old(c.s.accepted) + if command.Send? && outcome.Taken? then [FrameOf(command.t)] else []
  {
    hide Any, Ticked, Flags, FrameOf, TsrWritten, Set, StatusOf, Ledger, Found, Keep, CancelEffect, Carried, Lasts;
    match command
    case Send(t) =>
      var mailbox := Transmit(c, t);
      outcome := if mailbox != NO_MAILBOX then Taken(mailbox) else NotTaken;
    case Query(m) =>
      var status := TransmitStatus(c, m);
      outcome := Answer(status);
    case Cancel(m) =>
      CancelTransmit(c, m);
      outcome := Done;
  }

  // The states of a run, from one call to the next
  ghost predicate Steps(hw: Bus, states: seq<State>, commands: seq<Command>, outcomes: seq<Outcome>) {
    && |outcomes| == |commands| && |states| == |commands| + 1
    && (forall i :: 0 <= i < |states| ==> Inv(states[i]))
    && forall i :: 0 <= i < |commands| ==> StepOf(hw, states[i], commands[i], outcomes[i], states[i + 1])
  }

  /** Any run of the three functions, over any course of events on the bus. Every call has its effect and its
      answer; the frames accepted are those of the messages taken, in order and unchanged; each of them is
      pending, sent or failed, and only one of these. */
  method Perform(c: Can, commands: seq<Command>) returns (outcomes: seq<Outcome>, ghost states: seq<State>)
    requires c.Valid() && forall i :: 0 <= i < |commands| ==> Allowed(commands[i])
    modifies c
    ensures c.Valid() && Steps(c.hw, states, commands, outcomes)
    ensures states[0] == old(c.s) && states[|commands|] == c.s
    ensures c.s.accepted == old(c.s.accepted) + Frames(TakenOf(commands, outcomes))
    ensures old(c.s.sent) <= c.s.sent && old(c.s.failed) <= c.s.failed
    ensures forall t: nat :: t < |c.s.accepted| ==> ExactlyOne(t in c.s.pending.Values, t in c.s.sent, t in c.s.failed)
  {
    hide Allowed, Inv, StepOf, FrameOf, TakenOf;
    outcomes, states := [], [c.s];
    InvHasBoxes(c.s);
    NoneTaken();
    var i := 0;
    while i < |commands|
      invariant i <= |commands| && c.Valid() && Steps(c.hw, states, commands[..i], outcomes)
      invariant states[0] == old(c.s) && states[i] == c.s
      invariant c.s.accepted == old(c.s.accepted) + Frames(TakenOf(commands[..i], outcomes))
      invariant old(c.s.sent) <= c.s.sent && old(c.s.failed) <= c.s.failed
    {
      var outcome := Execute(c, commands[i]);
      InvHasBoxes(c.s);
      OneMoreOutcome(commands, outcomes, i, outcome);
      outcomes, states := outcomes + [outcome], states + [c.s];
      i := i + 1;
    }
    assert commands[..|commands|] == commands;
    InOnePlace(c.s);
  }

  lemma NoneTaken()
    ensures Frames(TakenOf([], [])) == []
  {
  }

  lemma OneMoreOutcome(commands: seq<Command>, outcomes: seq<Outcome>, i: nat, outcome: Outcome)
    requires i < |commands| && |outcomes| == i
    ensures Frames(TakenOf(commands[..i + 1], outcomes + [outcome])) ==
            Frames(TakenOf(commands[..i], outcomes)) +
            if commands[i].Send? && outcome.Taken? then [FrameOf(commands[i].t)] else []
  {
    hide FrameOf;
    assert commands[..i + 1][..i] == commands[..i];
    assert (outcomes + [outcome])[..i] == outcomes;
  }

  predicate ExactlyOne(a: bool, b: bool, c: bool) {
    (a && !b && !c) || (!a && b && !c) || (!a && !b && c)
  }

  lemma InOnePlace(s: State)
    requires Inv(s)
    ensures forall t: nat :: t < |s.accepted| ==> ExactlyOne(t in s.pending.Values, t in s.sent, t in s.failed)
  {
    hide Flags, Carried, Lasts;
  }
}
