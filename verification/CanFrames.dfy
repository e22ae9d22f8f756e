/** CAN frames in mailbox registers: CAN_Transmit packs, CAN_Receive unpacks.

        TIR, RIR    STID 31..21, EXID 31..3, IDE 0x4, RTR 0x2, TXRQ 0x1
        TDTR, RDTR  TIME 31..16, FMI 15..8 (receive), TGT 0x100 (transmit), DLC 3..0

    These positions are the ones that the driver uses. */
module CanFrames {
  import opened Bits
  import opened Words

  // CanTxMsg
  datatype TxMessage = TxMessage(StdId: bv32, ExtId: bv32, IDE: bv32, RTR: bv32, DLC: bv32, Data: seq<bv8>)

  // CanRxMsg; the identifier field of the other type is left as it was
  datatype RxMessage = RxMessage(StdId: bv32, ExtId: bv32, IDE: bv32, RTR: bv32, DLC: bv32, FMI: bv32, Data: seq<bv8>)

  // What assert_param lets through
  predicate IsMessage(t: TxMessage) {
    && (t.IDE == 0 || t.IDE == 4) && (t.RTR == 0 || t.RTR == 2) && t.DLC <= 8 && |t.Data| == 8
    && (if t.IDE == 0 then t.StdId <= 0x7FF else t.ExtId <= 0x1FFFFFFF)
  }

  datatype Mailbox = Mailbox(ir: bv32, dtr: bv32, dlr: bv32, dhr: bv32)

  /** A frame on the bus. */
  datatype Frame = Frame(extended: bool, id: bv32, remote: bool, length: bv32, data: seq<bv8>)

  function FrameOf(t: TxMessage): Frame {
    Frame(t.IDE == 4, if t.IDE == 4 then t.ExtId else t.StdId, t.RTR == 2, t.DLC, t.Data)
  }

  function FrameReceived(r: RxMessage): Frame {
    Frame(r.IDE == 4, if r.IDE == 4 then r.ExtId else r.StdId, r.RTR == 2, r.DLC, r.Data)
  }

  // Byte k of a data register, lowest first
  function ByteOf(w: bv32, k: nat): bv8
    requires k < 4
  {
    if k == 0 then (w & 0xFF) as bv8
    else if k == 1 then ((w >> 8) & 0xFF) as bv8
    else if k == 2 then ((w >> 16) & 0xFF) as bv8
    else ((w >> 24) & 0xFF) as bv8
  }

  function DataOf(low: bv32, high: bv32): (d: seq<bv8>)
    ensures |d| == 8
  {
    [ByteOf(low, 0), ByteOf(low, 1), ByteOf(low, 2), ByteOf(low, 3),
     ByteOf(high, 0), ByteOf(high, 1), ByteOf(high, 2), ByteOf(high, 3)]
  }

  predicate ExtendedBit(ir: bv32) {
    ir & 0x4 != 0
  }

  predicate RemoteBit(ir: bv32) {
    ir & 0x2 != 0
  }

  function StandardId(ir: bv32): bv32 {
    (ir >> 21) & 0x7FF
  }

  function ExtendedId(ir: bv32): bv32 {
    (ir >> 3) & 0x1FFFFFFF
  }

  function LengthOf(dtr: bv32): bv32 {
    dtr & 0xF
  }

  /** The frame that the controller finds in a mailbox. */
  function FrameIn(m: Mailbox): Frame {
    Frame(ExtendedBit(m.ir), if ExtendedBit(m.ir) then ExtendedId(m.ir) else StandardId(m.ir),
          RemoteBit(m.ir), LengthOf(m.dtr), DataOf(m.dlr, m.dhr))
  }

  // ----- packing

  function PackedId(t: TxMessage): bv32 {
    if t.IDE == 0 then StandardWord(t.StdId, t.RTR) else ExtendedWord(t.ExtId, t.IDE, t.RTR)
  }

  function StandardWord(id: bv32, rtr: bv32): bv32 {
    (id << 21) | rtr
  }

  function ExtendedWord(id: bv32, ide: bv32, rtr: bv32): bv32 {
    ((id << 3) | ide) | rtr
  }

  function PackedData(a: bv8, b: bv8, c: bv8, d: bv8): bv32 {
    Number(d, c, b, a)
  }

  // The fields of a packed identifier, one by one
  lemma StandardFlags(id: bv32, rtr: bv32)
    requires id <= 0x7FF && (rtr == 0 || rtr == 2)
    ensures !ExtendedBit(StandardWord(id, rtr))
  {
  }

  lemma StandardRemote(id: bv32, rtr: bv32)
    requires id <= 0x7FF && (rtr == 0 || rtr == 2)
    ensures RemoteBit(StandardWord(id, rtr)) <==> rtr == 2
  {
  }

  lemma StandardNumber(id: bv32, rtr: bv32)
    requires id <= 0x7FF && (rtr == 0 || rtr == 2)
    ensures StandardId(StandardWord(id, rtr)) == id
  {
  }

  lemma StandardRequest(id: bv32, rtr: bv32)
    requires id <= 0x7FF && (rtr == 0 || rtr == 2)
    ensures !Any(StandardWord(id, rtr), 0x1)
  {
  }

  lemma ExtendedFlags(id: bv32, rtr: bv32)
    requires id <= 0x1FFFFFFF && (rtr == 0 || rtr == 2)
    ensures ExtendedBit(ExtendedWord(id, 4, rtr))
  {
  }

  lemma ExtendedRemote(id: bv32, rtr: bv32)
    requires id <= 0x1FFFFFFF && (rtr == 0 || rtr == 2)
    ensures RemoteBit(ExtendedWord(id, 4, rtr)) <==> rtr == 2
  {
  }

  lemma ExtendedNumber(id: bv32, rtr: bv32)
    requires id <= 0x1FFFFFFF && (rtr == 0 || rtr == 2)
    ensures ExtendedId(ExtendedWord(id, 4, rtr)) == id
  {
  }

  lemma ExtendedRequest(id: bv32, rtr: bv32)
    requires id <= 0x1FFFFFFF && (rtr == 0 || rtr == 2)
    ensures !Any(ExtendedWord(id, 4, rtr), 0x1)
  {
  }

  // A packed identifier has the fields of its message, and no request
  lemma PackedFields(t: TxMessage)
    requires IsMessage(t)
    ensures var v := PackedId(t);
            && ExtendedBit(v) == (t.IDE == 4) && (RemoteBit(v) <==> t.RTR == 2) && !Any(v, 0x1)
            && (if t.IDE == 4 then ExtendedId(v) == t.ExtId else StandardId(v) == t.StdId)
  {
    hide ExtendedBit, RemoteBit, StandardId, ExtendedId, Any, StandardWord, ExtendedWord;
    if t.IDE == 0 {
      StandardFlags(t.StdId, t.RTR);
      StandardRemote(t.StdId, t.RTR);
      StandardNumber(t.StdId, t.RTR);
      StandardRequest(t.StdId, t.RTR);
    } else {
      ExtendedFlags(t.ExtId, t.RTR);
      ExtendedRemote(t.ExtId, t.RTR);
      ExtendedNumber(t.ExtId, t.RTR);
      ExtendedRequest(t.ExtId, t.RTR);
    }
  }

  // TXRQ is not part of the frame
  lemma RequestFlags(v: bv32)
    ensures ExtendedBit(Set(v, 0x1)) == ExtendedBit(v)
  {
  }

  lemma RequestRemote(v: bv32)
    ensures RemoteBit(Set(v, 0x1)) == RemoteBit(v)
  {
  }

  lemma RequestStandard(v: bv32)
    ensures StandardId(Set(v, 0x1)) == StandardId(v)
  {
  }

  lemma RequestExtended(v: bv32)
    ensures ExtendedId(Set(v, 0x1)) == ExtendedId(v)
  {
  }

  lemma PackedLength(dtr: bv32, dlc: bv32)
    requires dlc <= 8
    ensures LengthOf(Set(Keep(dtr, 0xFFFFFFF0), Keep(dlc, 0xF))) == dlc
  {
  }

  lemma PackedRest(dtr: bv32, dlc: bv32)
    requires dlc <= 8
    ensures Keep(Set(Keep(dtr, 0xFFFFFFF0), Keep(dlc, 0xF)), 0xFFFFFFF0) == Keep(dtr, 0xFFFFFFF0)
  {
  }

  lemma PackedBytes(a: bv8, b: bv8, c: bv8, d: bv8)
    ensures ByteOf(PackedData(a, b, c, d), 0) == a && ByteOf(PackedData(a, b, c, d), 1) == b
    ensures ByteOf(PackedData(a, b, c, d), 2) == c && ByteOf(PackedData(a, b, c, d), 3) == d
  {
  }

  // A standard identifier leaves the places of the extended one clear
  lemma NothingBelow(t: TxMessage)
    requires IsMessage(t) && t.IDE == 0
    ensures Keep(PackedId(t), 0x001FFFF8) == 0
  {
    BelowWord(t.StdId, t.RTR);
  }

  lemma BelowWord(id: bv32, rtr: bv32)
    requires rtr == 0 || rtr == 2
    ensures ((id << 21) | rtr) & 0x001FFFF8 == 0
  {
  }

  // A mailbox as CAN_Transmit leaves it: only the length field of TDTR changes
  function Packed(t: TxMessage, dtr: bv32): Mailbox
    requires |t.Data| == 8
  {
    Mailbox(Set(PackedId(t), 0x1), Set(Keep(dtr, 0xFFFFFFF0), Keep(t.DLC, 0xF)),
            PackedData(t.Data[0], t.Data[1], t.Data[2], t.Data[3]),
            PackedData(t.Data[4], t.Data[5], t.Data[6], t.Data[7]))
  }

  /** Every message is found in its mailbox as it was given, in a standard frame with nothing in the places of an
      extended identifier, and the bits of TDTR outside the length field,
      TGT among them, are untouched. */
  lemma PackedFrame(t: TxMessage, dtr: bv32)
    requires IsMessage(t)
    ensures FrameIn(Packed(t, dtr)) == FrameOf(t)
    ensures Keep(Packed(t, dtr).dtr, 0xFFFFFFF0) == Keep(dtr, 0xFFFFFFF0)
    ensures t.IDE == 0 ==> Keep(Packed(t, dtr).ir, 0x001FFFF8) == 0
  {
    hide ByteOf, PackedData, PackedId, Set, Keep, Any, ExtendedBit, RemoteBit, StandardId, ExtendedId, LengthOf;
    var v := PackedId(t);
    PackedFields(t);
    if t.IDE == 0 {
      NothingBelow(t);
    }
    SetKeeps(v, 0x1, 0x001FFFF8);
    RequestFlags(v);
    RequestRemote(v);
    RequestStandard(v);
    RequestExtended(v);
    PackedRest(dtr, t.DLC);
    PackedLength(dtr, t.DLC);
    PackedBytes(t.Data[0], t.Data[1], t.Data[2], t.Data[3]);
    PackedBytes(t.Data[4], t.Data[5], t.Data[6], t.Data[7]);
    var m := Packed(t, dtr);
    assert DataOf(m.dlr, m.dhr) == t.Data;
  }

  // ----- receiving

  // In loop-back the receive mailbox gets the words of the transmit mailbox, without TXRQ, and some match index
  function LoopedBack(m: Mailbox, fmi: bv8): Mailbox {
    Mailbox(WithoutRequest(m.ir), WithIndex(m.dtr, fmi as bv32), m.dlr, m.dhr)
  }

  function WithoutRequest(ir: bv32): bv32 {
    ir & 0xFFFFFFFE
  }

  function WithIndex(dtr: bv32, fmi: bv32): bv32 {
    (dtr & 0xFFFF00FF) | (fmi << 8)
  }

  lemma LoopBackFlags(ir: bv32)
    ensures ExtendedBit(WithoutRequest(ir)) == ExtendedBit(ir)
  {
  }

  lemma LoopBackRemote(ir: bv32)
    ensures RemoteBit(WithoutRequest(ir)) == RemoteBit(ir)
  {
  }

  lemma LoopBackStandard(ir: bv32)
    ensures StandardId(WithoutRequest(ir)) == StandardId(ir)
  {
  }

  lemma LoopBackExtended(ir: bv32)
    ensures ExtendedId(WithoutRequest(ir)) == ExtendedId(ir)
  {
  }

  lemma LoopBackLength(dtr: bv32, fmi: bv32)
    ensures LengthOf(WithIndex(dtr, fmi)) == LengthOf(dtr)
  {
  }

  lemma LoopBackIndex(dtr: bv32, fmi: bv32)
    requires fmi <= 0xFF
    ensures IndexOf(WithIndex(dtr, fmi)) == fmi
  {
  }

  // The filter match index
  function IndexOf(dtr: bv32): bv32 {
    0xFF & (dtr >> 8)
  }

  // The message structure after CAN_Receive
  function Received(m: Mailbox, r0: RxMessage): RxMessage {
    var ide := Keep(m.ir, 0x04);
    r0.(IDE := ide,
        StdId := if ide == 0 then StandardId(m.ir) else r0.StdId,
        ExtId := if ide == 0 then r0.ExtId else ExtendedId(m.ir),
        RTR := Keep(m.ir, 0x02), DLC := LengthOf(m.dtr), FMI := IndexOf(m.dtr), Data := DataOf(m.dlr, m.dhr))
  }

  lemma ReceivedFrame(m: Mailbox, r0: RxMessage)
    ensures FrameReceived(Received(m, r0)) == FrameIn(m)
    ensures var r := Received(m, r0);
            && (r.IDE == 0 || r.IDE == 4) && (r.RTR == 0 || r.RTR == 2)
            && if r.IDE == 0 then r.ExtId == r0.ExtId else r.StdId == r0.StdId
  {
    hide DataOf, Keep, ExtendedBit, RemoteBit, StandardId, ExtendedId, LengthOf;
    FlagBits(m.ir);
  }

  lemma FlagBits(v: bv32)
    ensures Keep(v, 0x04) == 4 <==> ExtendedBit(v)
    ensures Keep(v, 0x04) == 0 <==> !ExtendedBit(v)
    ensures Keep(v, 0x02) == 2 <==> RemoteBit(v)
    ensures Keep(v, 0x04) == 0 || Keep(v, 0x04) == 4
    ensures Keep(v, 0x02) == 0 || Keep(v, 0x02) == 2
  {
  }

  /** Whatever is transmitted in loop-back is received as it was sent: type, identifier, remote flag, length
      and all eight data bytes. */
  lemma LoopBack(t: TxMessage, dtr: bv32, fmi: bv8, r0: RxMessage)
    requires IsMessage(t)
    ensures var r := Received(LoopedBack(Packed(t, dtr), fmi), r0);
            FrameReceived(r) == FrameOf(t) && r.FMI == fmi as bv32
  {
    hide FrameOf, Packed, FrameIn, FrameReceived, Received, LoopedBack;
    var m := Packed(t, dtr);
    PackedFrame(t, dtr);
    FrameLoopedBack(m, fmi);
    ReceivedFrame(LoopedBack(m, fmi), r0);
    IndexLoopedBack(m, fmi, r0);
  }

  lemma FrameLoopedBack(m: Mailbox, fmi: bv8)
    ensures FrameIn(LoopedBack(m, fmi)) == FrameIn(m)
  {
    hide DataOf, ExtendedBit, RemoteBit, StandardId, ExtendedId, LengthOf, WithoutRequest, WithIndex;
    LoopBackFlags(m.ir);
    LoopBackRemote(m.ir);
    LoopBackStandard(m.ir);
    LoopBackExtended(m.ir);
    LoopBackLength(m.dtr, fmi as bv32);
  }

  lemma IndexLoopedBack(m: Mailbox, fmi: bv8, r0: RxMessage)
    ensures Received(LoopedBack(m, fmi), r0).FMI == fmi as bv32
  {
    hide DataOf, IndexOf, WithoutRequest, WithIndex;
    LoopBackIndex(m.dtr, fmi as bv32);
  }
}
