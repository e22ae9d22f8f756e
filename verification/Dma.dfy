/** Event flags and interrupts of the two DMA controllers. Each controller has eight streams with five events
    each, spread over LISR (streams 0 to 3) and HISR (4 to 7). The driver encodes a flag or an interrupt in one
    word that also tells the register: 0x10000000 for LISR, 0x20000000 for HISR.

    The bits of LISR follow from the masks of DMA_DeInit and the flag constants; those of CR and FCR from
    DMA_IT_TC, HT, TE, DME and FE. */
module Dma {
  import opened Bits

  const CONTROLLERS: nat := 2
  const STREAMS: nat := 8

  datatype Event = FifoError | DirectModeError | TransferError | HalfTransfer | TransferComplete

  datatype Triple = Triple(c: nat, s: nat, e: Event)

  predicate IsTriple(t: Triple) {
    t.c < CONTROLLERS && t.s < STREAMS
  }

  function Pick(e: Event, fe: bv32, dme: bv32, te: bv32, ht: bv32, tc: bv32): bv32 {
    match e
    case FifoError => fe
    case DirectModeError => dme
    case TransferError => te
    case HalfTransfer => ht
    case TransferComplete => tc
  }

  // ----- constants of stm32f2xx_dma.h

  // DMA_FLAG_xIFs
  function FlagCode(s: nat, e: Event): bv32
    requires s < STREAMS
  {
    if s == 0 then Pick(e, 0x10800001, 0x10800004, 0x10000008, 0x10000010, 0x10000020)
    else if s == 1 then Pick(e, 0x10000040, 0x10000100, 0x10000200, 0x10000400, 0x10000800)
    else if s == 2 then Pick(e, 0x10010000, 0x10040000, 0x10080000, 0x10100000, 0x10200000)
    else if s == 3 then Pick(e, 0x10400000, 0x11000000, 0x12000000, 0x14000000, 0x18000000)
    else if s == 4 then Pick(e, 0x20000001, 0x20000004, 0x20000008, 0x20000010, 0x20000020)
    else if s == 5 then Pick(e, 0x20000040, 0x20000100, 0x20000200, 0x20000400, 0x20000800)
    else if s == 6 then Pick(e, 0x20010000, 0x20040000, 0x20080000, 0x20100000, 0x20200000)
    else Pick(e, 0x20400000, 0x21000000, 0x22000000, 0x24000000, 0x28000000)
  }

  // DMA_IT_xIFs
  function ItCode(s: nat, e: Event): bv32
    requires s < STREAMS
  {
    if s == 0 then Pick(e, 0x90000001, 0x10001004, 0x10002008, 0x10004010, 0x10008020)
    else if s == 1 then Pick(e, 0x90000040, 0x10001100, 0x10002200, 0x10004400, 0x10008800)
    else if s == 2 then Pick(e, 0x90010000, 0x10041000, 0x10082000, 0x10104000, 0x10208000)
    else if s == 3 then Pick(e, 0x90400000, 0x11001000, 0x12002000, 0x14004000, 0x18008000)
    else if s == 4 then Pick(e, 0xA0000001, 0x20001004, 0x20002008, 0x20004010, 0x20008020)
    else if s == 5 then Pick(e, 0xA0000040, 0x20001100, 0x20002200, 0x20004400, 0x20008800)
    else if s == 6 then Pick(e, 0xA0010000, 0x20041000, 0x20082000, 0x20104000, 0x20208000)
    else Pick(e, 0xA0400000, 0x21001000, 0x22002000, 0x24004000, 0x28008000)
  }

  // DMA_IT_x, the enable bits: FE in FCR, the others in CR
  function EnableBit(e: Event): bv32 {
    Pick(e, 0x80, 0x02, 0x04, 0x08, 0x10)
  }

  // IS_DMA_CLEAR_FLAG
  predicate ClearFlagAccepted(flag: bv32) {
    && Keep(flag, 0x30000000) != 0x30000000 && Keep(flag, 0x30000000) != 0
    && Keep(flag, 0xC082F082) == 0 && flag != 0
  }

  predicate CheckIsRight(s: nat, e: Event)
    requires s < STREAMS
  {
    ClearFlagAccepted(FlagCode(s, e)) <==> !(s == 0 && (e.FifoError? || e.DirectModeError?))
  }

  lemma CheckLow(e: Event)
    ensures CheckIsRight(0, e) && CheckIsRight(1, e) && CheckIsRight(2, e) && CheckIsRight(3, e)
  {
  }

  lemma CheckHigh(e: Event)
    ensures CheckIsRight(4, e) && CheckIsRight(5, e) && CheckIsRight(6, e) && CheckIsRight(7, e)
  {
  }

  /** The parameter check of DMA_ClearFlag refuses two of the forty flags: the FIFO and the direct mode error
      of stream 0, whose constants have a stray bit 23. */
  lemma ClearFlagAcceptedIff(s: nat, e: Event)
    requires s < STREAMS
    ensures ClearFlagAccepted(FlagCode(s, e)) <==> !(s == 0 && (e.FifoError? || e.DirectModeError?))
  {
    hide FlagCode, ClearFlagAccepted;
    assert CheckIsRight(s, e) by {
      hide CheckIsRight;
      CheckLow(e);
      CheckHigh(e);
    }
  }

  // ----- registers

  // NDTR, PAR, M0AR and M1AR of a stream
  datatype Transfer = Transfer(ndtr: bv32, par: bv32, m0ar: bv32, m1ar: bv32)

  // isr: LISR and HISR of controller 1, then of controller 2; the others by controller and stream
  datatype Registers = Registers(isr: seq<bv32>, cr: seq<bv32>, fcr: seq<bv32>, transfer: seq<Transfer>)

  predicate ValidFor(r: Registers) {
    |r.isr| == 4 && |r.cr| == 16 && |r.fcr| == 16 && |r.transfer| == 16
  }

  function IsrOf(c: nat, high: bool): nat {
    2 * c + (if high then 1 else 0)
  }

  function StreamOf(c: nat, s: nat): nat {
    STREAMS * c + s
  }

  // The bit of an event in its status register
  function EventBit(s: nat, e: Event): bv32
    requires s < STREAMS
  {
    if s == 0 || s == 4 then Pick(e, 0x01, 0x04, 0x08, 0x10, 0x20)
    else if s == 1 || s == 5 then Pick(e, 0x40, 0x100, 0x200, 0x400, 0x800)
    else if s == 2 || s == 6 then Pick(e, 0x10000, 0x40000, 0x80000, 0x100000, 0x200000)
    else Pick(e, 0x400000, 0x1000000, 0x2000000, 0x4000000, 0x8000000)
  }

  // Which stream of the four, and which event, a bit stands for
  function Quarter(b: bv32): nat {
    if b <= 0x20 then 0 else if b <= 0x800 then 1 else if b <= 0x200000 then 2 else 3
  }

  function Kind(b: bv32): Event {
    if Any(b, 0x00410041) then FifoError
    else if Any(b, 0x01040104) then DirectModeError
    else if Any(b, 0x02080208) then TransferError
    else if Any(b, 0x04100410) then HalfTransfer
    else TransferComplete
  }

  // An event's bit
  predicate BitIsRight(s: nat, e: Event)
    requires s < STREAMS
  {
    SingleBit(EventBit(s, e)) && Quarter(EventBit(s, e)) == s % 4 && Kind(EventBit(s, e)) == e
  }

  lemma BitsLow(e: Event)
    ensures BitIsRight(0, e)
    ensures BitIsRight(1, e)
    ensures BitIsRight(2, e)
    ensures BitIsRight(3, e)
  {
  }

  lemma BitsHigh(e: Event)
    ensures BitIsRight(4, e)
    ensures BitIsRight(5, e)
    ensures BitIsRight(6, e)
    ensures BitIsRight(7, e)
  {
  }

  // Its flag constant
  predicate FlagIsRight(s: nat, e: Event)
    requires s < STREAMS
  {
    (Any(FlagCode(s, e), 0x20000000) <==> s >= 4) && Keep(FlagCode(s, e), 0x0F7D0F7D) == EventBit(s, e)
  }

  lemma FlagsLow(e: Event)
    ensures FlagIsRight(0, e)
    ensures FlagIsRight(1, e)
    ensures FlagIsRight(2, e)
    ensures FlagIsRight(3, e)
  {
  }

  lemma FlagsHigh(e: Event)
    ensures FlagIsRight(4, e)
    ensures FlagIsRight(5, e)
    ensures FlagIsRight(6, e)
    ensures FlagIsRight(7, e)
  {
  }

  // Its interrupt constant
  predicate ItIsRight(s: nat, e: Event)
    requires s < STREAMS
  {
    (Any(ItCode(s, e), 0x20000000) <==> s >= 4) && Keep(ItCode(s, e), 0x0F7D0F7D) == EventBit(s, e)
  }

  lemma ItsLow(e: Event)
    ensures ItIsRight(0, e)
    ensures ItIsRight(1, e)
    ensures ItIsRight(2, e)
    ensures ItIsRight(3, e)
  {
  }

  lemma ItsHigh(e: Event)
    ensures ItIsRight(4, e)
    ensures ItIsRight(5, e)
    ensures ItIsRight(6, e)
    ensures ItIsRight(7, e)
  {
  }

  // (DMA_IT >> 11) & TRANSFER_IT_ENABLE_MASK
  function EnablePlace(it: bv32): bv32 {
    Keep(it >> 11, 0x1E)
  }

  // The way from the interrupt constant to the enable bit
  predicate EnableIsRight(s: nat, e: Event)
    requires s < STREAMS
  {
    (Any(ItCode(s, e), 0x0F3C0F3C) <==> !e.FifoError?) && (!e.FifoError? ==> EnablePlace(ItCode(s, e)) == EnableBit(e))
  }

  lemma EnablesLow(e: Event)
    ensures EnableIsRight(0, e)
    ensures EnableIsRight(1, e)
    ensures EnableIsRight(2, e)
    ensures EnableIsRight(3, e)
  {
  }

  lemma EnablesHigh(e: Event)
    ensures EnableIsRight(4, e)
    ensures EnableIsRight(5, e)
    ensures EnableIsRight(6, e)
    ensures EnableIsRight(7, e)
  {
  }

  // All of it, for every stream
  lemma Codes(s: nat, e: Event)
    requires s < STREAMS
    ensures BitIsRight(s, e) && FlagIsRight(s, e) && ItIsRight(s, e) && EnableIsRight(s, e)
  {
    hide BitIsRight, FlagIsRight, ItIsRight, EnableIsRight;
    BitsLow(e);
    BitsHigh(e);
    FlagsLow(e);
    FlagsHigh(e);
    ItsLow(e);
    ItsHigh(e);
    EnablesLow(e);
    EnablesHigh(e);
  }

  lemma EventBitsDiffer(s: nat, e: Event, s': nat, e': Event)
    requires s < STREAMS && s' < STREAMS && (s < 4 <==> s' < 4) && (s != s' || e != e')
    ensures EventBit(s, e) & EventBit(s', e') == 0
  {
    hide EventBit, Quarter, Kind, SingleBit, Any, FlagCode, ItCode;
    Codes(s, e);
    Codes(s', e');
    SingleBitsApart(EventBit(s, e), EventBit(s', e'));
  }

  // ----- what the registers stand for

  predicate IsPending(r: Registers, t: Triple)
    requires ValidFor(r) && IsTriple(t)
  {
    Any(r.isr[IsrOf(t.c, t.s >= 4)], EventBit(t.s, t.e))
  }

  predicate IsEnabled(r: Registers, t: Triple)
    requires ValidFor(r) && IsTriple(t)
  {
    Any(if t.e.FifoError? then r.fcr[StreamOf(t.c, t.s)] else r.cr[StreamOf(t.c, t.s)], EnableBit(t.e))
  }

  /** The events that have happened and were not cleared since. */
  ghost function Pending(r: Registers): set<Triple>
    requires ValidFor(r)
  {
    set t | IsTriple(t) && t in AllTriples() && IsPending(r, t)
  }

  /** The events that may raise an interrupt. */
  ghost function Enabled(r: Registers): set<Triple>
    requires ValidFor(r)
  {
    set t | IsTriple(t) && t in AllTriples() && IsEnabled(r, t)
  }

  ghost function AllTriples(): (a: set<Triple>)
    ensures forall t :: IsTriple(t) ==> t in a
  {
    set c: nat, s: nat, e: Event | c < CONTROLLERS && s < STREAMS :: Triple(c, s, e)
  }

  /** The events that a flag word names on controller c. */
  ghost function Named(c: nat, flag: bv32): set<Triple> {
    set t | IsTriple(t) && t in AllTriples() && t.c == c &&
            (t.s >= 4 <==> Any(flag, 0x20000000)) && Any(flag, EventBit(t.s, t.e))
  }

  // The configuration of a stream: what CR and FCR hold beside the interrupt enables, and the other registers
  datatype Setting = Setting(cr: bv32, fcr: bv32, transfer: Transfer)

  function SettingOf(r: Registers, i: nat): Setting
    requires ValidFor(r) && i < 16
  {
    Setting(Keep(r.cr[i], 0xFFFFFFE1), Keep(r.fcr[i], 0xFFFFFF7F), r.transfer[i])
  }

  /** The configuration of all streams. */
  function Settings(r: Registers): map<nat, Setting>
    requires ValidFor(r)
  {
    map i: nat | i < 16 :: SettingOf(r, i)
  }

  // The bits of the status registers that stand for no event
  ghost predicate SameReserved(r: Registers, q: Registers)
    requires ValidFor(r) && ValidFor(q)
  {
    forall i :: 0 <= i < 4 ==> Keep(q.isr[i], 0xF082F082) == Keep(r.isr[i], 0xF082F082)
  }

  lemma ReservedKept(v: bv32, flag: bv32)
    ensures Keep(Clear(v, Keep(flag, 0x0F7D0F7D)), 0xF082F082) == Keep(v, 0xF082F082)
  {
    hide Keep, Clear;
    EventsOnly(flag);
    ClearKeeps(v, Keep(flag, 0x0F7D0F7D), 0xF082F082);
  }

  lemma EventsOnly(flag: bv32)
    ensures Keep(flag, 0x0F7D0F7D) & 0xF082F082 == 0
  {
  }

  // ----- the controllers

  class DmaControllers {
    var r: Registers

    ghost predicate Valid()
      reads this
    {
      ValidFor(r)
    }

    /** The hardware: an event happens. */
    method Raise(t: Triple)
      requires Valid() && IsTriple(t)
      modifies this
      ensures Valid() && Pending(r) == Pending(old(r)) + {t} && Enabled(r) == Enabled(old(r))
      ensures r == old(r).(isr := r.isr)
    {
      hide Any, Set, EventBit, EnableBit;
      ghost var r0 := r;
      var i := IsrOf(t.c, t.s >= 4);
      r := r.(isr := r.isr[i := Set(r.isr[i], EventBit(t.s, t.e))]);
      forall u | IsTriple(u)
        ensures IsPending(r, u) <==> u == t || IsPending(r0, u)
        ensures IsEnabled(r, u) == IsEnabled(r0, u)
      {
        if u.c == t.c && (u.s >= 4 <==> t.s >= 4) {
          SetEvent(r0.isr[i], t, u);
        }
      }
    }

    // LISR or HISR
    method ReadISR(c: nat, high: bool) returns (v: bv32)
      requires Valid() && c < CONTROLLERS
      ensures v == r.isr[IsrOf(c, high)]
    {
      v := r.isr[IsrOf(c, high)];
    }

    // LIFCR or HIFCR: every 1 clears a flag
    method WriteIFCR(c: nat, high: bool, v: bv32)
      requires Valid() && c < CONTROLLERS
      modifies this
      ensures Valid() && r == old(r).(isr := old(r).isr[IsrOf(c, high) := Clear(old(r).isr[IsrOf(c, high)], v)])
    {
      r := r.(isr := r.isr[IsrOf(c, high) := Clear(r.isr[IsrOf(c, high)], v)]);
    }
  }

  lemma SetEvent(v: bv32, t: Triple, u: Triple)
    requires IsTriple(t) && IsTriple(u) && t.c == u.c && (t.s >= 4 <==> u.s >= 4)
    ensures Any(Set(v, EventBit(t.s, t.e)), EventBit(u.s, u.e)) == (t == u || Any(v, EventBit(u.s, u.e)))
  {
    hide Any, Set, EventBit, SingleBit;
    if t == u {
      Codes(t.s, t.e);
      SingleIsSome(EventBit(t.s, t.e));
      SetSets(v, EventBit(t.s, t.e));
    } else {
      EventBitsDiffer(t.s, t.e, u.s, u.e);
      SetOther(v, EventBit(t.s, t.e), EventBit(u.s, u.e));
    }
  }

  // ----- flags

  /** DMA_GetFlagStatus, for the constant of one event: whether it is pending. */
  method GetFlagStatus(d: DmaControllers, c: nat, flag: bv32, ghost t: Triple) returns (status: bool)
    requires d.Valid() && IsTriple(t) && t.c == c && flag == FlagCode(t.s, t.e)
    ensures status <==> t in Pending(d.r)
  {
    hide Any, Keep, EventBit, FlagCode, ItCode, BitIsRight, ItIsRight, EnableIsRight;
    Codes(t.s, t.e);
    var tmpreg: bv32;
    if Any(flag, 0x20000000) {
      tmpreg := d.ReadISR(c, true);
    } else {
      tmpreg := d.ReadISR(c, false);
    }
    MaskMoves(tmpreg, 0x0F7D0F7D, flag);
    status := Any(Keep(tmpreg, 0x0F7D0F7D), flag);
  }

  lemma ClearEvent(v: bv32, flag: bv32, s: nat, e: Event)
    requires s < STREAMS
    ensures Any(Clear(v, Keep(flag, 0x0F7D0F7D)), EventBit(s, e)) ==
            (Any(v, EventBit(s, e)) && !Any(flag, EventBit(s, e)))
  {
    hide Any, Clear, Keep, EventBit, SingleBit, FlagCode;
    Codes(s, e);
    ClearSingle(v, Keep(flag, 0x0F7D0F7D), EventBit(s, e));
    MaskMoves(flag, 0x0F7D0F7D, EventBit(s, e));
    assert Keep(EventBit(s, e), 0x0F7D0F7D) == EventBit(s, e) by {
      KeepTwice(FlagCode(s, e), 0x0F7D0F7D);
    }
  }

  // Clearing what a word names, in the register that it tells
  method ClearNamed(d: DmaControllers, c: nat, flag: bv32)
    requires d.Valid() && c < CONTROLLERS
    modifies d
    ensures d.Valid() && Pending(d.r) == Pending(old(d.r)) - Named(c, flag) && Enabled(d.r) == Enabled(old(d.r))
    ensures d.r == old(d.r).(isr := d.r.isr) && SameReserved(old(d.r), d.r)
  {
    hide Any, Keep, Clear, EventBit, EnableBit;
    ghost var r0 := d.r;
    if Any(flag, 0x20000000) {
      d.WriteIFCR(c, true, Keep(flag, 0x0F7D0F7D));
    } else {
      d.WriteIFCR(c, false, Keep(flag, 0x0F7D0F7D));
    }
    ReservedKept(r0.isr[IsrOf(c, Any(flag, 0x20000000))], flag);
    forall u | IsTriple(u)
      ensures IsPending(d.r, u) <==> IsPending(r0, u) && u !in Named(c, flag)
      ensures IsEnabled(d.r, u) == IsEnabled(r0, u)
    {
      ClearEvent(r0.isr[IsrOf(c, u.s >= 4)], flag, u.s, u.e);
    }
  }

  /** DMA_ClearFlag, for any combination of flags: set difference. */
  method ClearFlag(d: DmaControllers, c: nat, flag: bv32)
    requires d.Valid() && c < CONTROLLERS
    modifies d
    ensures d.Valid() && Pending(d.r) == Pending(old(d.r)) - Named(c, flag) && Enabled(d.r) == Enabled(old(d.r))
    ensures d.r == old(d.r).(isr := d.r.isr) && SameReserved(old(d.r), d.r)
  {
    ClearNamed(d, c, flag);
  }

  /** DMA_ClearITPendingBit, for any combination of interrupts */
  method ClearITPendingBit(d: DmaControllers, c: nat, it: bv32)
    requires d.Valid() && c < CONTROLLERS
    modifies d
    ensures d.Valid() && Pending(d.r) == Pending(old(d.r)) - Named(c, it) && Enabled(d.r) == Enabled(old(d.r))
    ensures d.r == old(d.r).(isr := d.r.isr) && SameReserved(old(d.r), d.r)
  {
    ClearNamed(d, c, it);
  }

  /** The constants of an event name that event only, and a combination names what its parts name. */
  lemma NamedByCode(t: Triple)
    requires IsTriple(t)
    ensures Named(t.c, FlagCode(t.s, t.e)) == {t} == Named(t.c, ItCode(t.s, t.e))
  {
    hide Any, Keep, EventBit, FlagCode, ItCode, SingleBit;
    Codes(t.s, t.e);
    forall u | IsTriple(u) && u.c == t.c && (u.s >= 4 <==> t.s >= 4)
      ensures Any(FlagCode(t.s, t.e), EventBit(u.s, u.e)) <==> u == t
      ensures Any(ItCode(t.s, t.e), EventBit(u.s, u.e)) <==> u == t
    {
      NamesOnly(t, u, FlagCode(t.s, t.e));
      NamesOnly(t, u, ItCode(t.s, t.e));
    }
  }

  lemma NamesOnly(t: Triple, u: Triple, code: bv32)
    requires IsTriple(t) && IsTriple(u) && u.c == t.c && (u.s >= 4 <==> t.s >= 4)
    requires Keep(code, 0x0F7D0F7D) == EventBit(t.s, t.e)
    ensures Any(code, EventBit(u.s, u.e)) <==> u == t
  {
    hide Any, Keep, EventBit, FlagCode, ItCode, SingleBit;
    Codes(u.s, u.e);
    KeepTwice(FlagCode(u.s, u.e), 0x0F7D0F7D);
    MaskMoves(code, 0x0F7D0F7D, EventBit(u.s, u.e));
    if u == t {
      SingleIsSome(EventBit(u.s, u.e));
      AnyOfItself(EventBit(u.s, u.e));
    } else {
      EventBitsDiffer(t.s, t.e, u.s, u.e);
      NoneOfOther(EventBit(t.s, t.e), EventBit(u.s, u.e));
    }
  }

  lemma NamedByCombination(c: nat, flag: bv32, other: bv32)
    requires Any(flag, 0x20000000) == Any(other, 0x20000000)
    ensures Named(c, Set(flag, other)) == Named(c, flag) + Named(c, other)
  {
    hide Any, Set, EventBit;
    AnyOfSet(flag, other, 0x20000000);
    forall u | IsTriple(u)
      ensures Any(Set(flag, other), EventBit(u.s, u.e)) ==
              (Any(flag, EventBit(u.s, u.e)) || Any(other, EventBit(u.s, u.e)))
    {
      AnyOfSet(flag, other, EventBit(u.s, u.e));
    }
  }

  // ----- interrupts

  /** The events that a combination of DMA_IT_TC, HT, TE, DME and FE names for a stream. */
  ghost function Chosen(c: nat, s: nat, it: bv32): set<Triple> {
    set t | IsTriple(t) && t in AllTriples() && t.c == c && t.s == s && Any(it, EnableBit(t.e))
  }

  lemma EnableBits(e: Event, it: bv32)
    ensures SingleBit(EnableBit(e))
    ensures e.FifoError? ==> EnableBit(e) == 0x80
    ensures !e.FifoError? ==> Any(Keep(it, 0x1E), EnableBit(e)) == Any(it, EnableBit(e))
    ensures it == 0x80 && !e.FifoError? ==> !Any(it, EnableBit(e))
  {
  }

  lemma EnablesApart(it: bv32)
    ensures Keep(it, 0x1E) & 0xFFFFFFE1 == 0
  {
  }

  // The registers of stream i with some enable bits on or off
  function Switched(r: Registers, i: nat, it: bv32, on: bool): (q: Registers)
    requires ValidFor(r) && i < 16
    ensures ValidFor(q)
  {
    hide Any, Keep, Set, Clear;
    var q := if Any(it, 0x80) then r.(fcr := r.fcr[i := if on then Set(r.fcr[i], 0x80) else Clear(r.fcr[i], 0x80)])
             else r;
    if it != 0x80 then
      q.(cr := q.cr[i := if on then Set(q.cr[i], Keep(it, 0x1E)) else Clear(q.cr[i], Keep(it, 0x1E))])
    else q
  }

  lemma SwitchedSettings(r: Registers, i: nat, it: bv32, on: bool)
    requires ValidFor(r) && i < 16
    ensures Settings(Switched(r, i, it, on)) == Settings(r)
  {
    hide Any, Keep, Set, Clear;
    EnablesApart(it);
    SetKeeps(r.cr[i], Keep(it, 0x1E), 0xFFFFFFE1);
    ClearKeeps(r.cr[i], Keep(it, 0x1E), 0xFFFFFFE1);
    SetKeeps(r.fcr[i], 0x80, 0xFFFFFF7F);
    ClearKeeps(r.fcr[i], 0x80, 0xFFFFFF7F);
    assert forall j :: 0 <= j < 16 ==> SettingOf(Switched(r, i, it, on), j) == SettingOf(r, j);
  }

  lemma SwitchedEnable(r: Registers, c: nat, s: nat, it: bv32, on: bool, u: Triple)
    requires ValidFor(r) && c < CONTROLLERS && s < STREAMS && IsTriple(u)
    ensures IsEnabled(Switched(r, StreamOf(c, s), it, on), u) ==
            if u in Chosen(c, s, it) then on else IsEnabled(r, u)
  {
    hide Any, Keep, Set, Clear, EnableBit, SingleBit;
    var i := StreamOf(c, s);
    AnyOfItself(0x80);
    EnableBits(u.e, it);
    SwitchedBit(r.fcr[i], 0x80, on, EnableBit(u.e));
    SwitchedBit(r.cr[i], Keep(it, 0x1E), on, EnableBit(u.e));
  }

  /** DMA_ITConfig switches the interrupts named, of that stream, and no other. Nothing else changes in any
      register. */
  method ITConfig(d: DmaControllers, c: nat, s: nat, it: bv32, on: bool)
    requires d.Valid() && c < CONTROLLERS && s < STREAMS && Keep(it, 0xFFFFFF61) == 0 && it != 0
    modifies d
    ensures d.Valid() && Pending(d.r) == Pending(old(d.r)) && Settings(d.r) == Settings(old(d.r))
    ensures d.r == old(d.r).(cr := d.r.cr, fcr := d.r.fcr)
    ensures Enabled(d.r) == if on then Enabled(old(d.r)) + Chosen(c, s, it) else Enabled(old(d.r)) - Chosen(c, s, it)
  {
    hide Any, Keep, Set, Clear, EventBit, IsEnabled, SettingOf;
    ghost var r0 := d.r;
    var i := StreamOf(c, s);
    if Any(it, 0x80) {
      d.r := d.r.(fcr := d.r.fcr[i := if on then Set(d.r.fcr[i], 0x80) else Clear(d.r.fcr[i], 0x80)]);
    }
    if it != 0x80 {
      d.r := d.r.(cr := d.r.cr[i := if on then Set(d.r.cr[i], Keep(it, 0x1E)) else Clear(d.r.cr[i], Keep(it, 0x1E))]);
    }
    assert d.r == Switched(r0, i, it, on);
    SwitchedSettings(r0, i, it, on);
    forall u | IsTriple(u)
      ensures IsEnabled(d.r, u) == if u in Chosen(c, s, it) then on else IsEnabled(r0, u)
      ensures IsPending(d.r, u) == IsPending(r0, u)
    {
      SwitchedEnable(r0, c, s, it, on, u);
    }
  }

  // The enable bit of an interrupt, as DMA_GetITStatus looks it up
  method EnableStatus(d: DmaControllers, c: nat, s: nat, it: bv32, ghost t: Triple) returns (enablestatus: bv32)
    requires d.Valid() && IsTriple(t) && t.c == c && t.s == s && it == ItCode(s, t.e)
    ensures enablestatus != 0 <==> IsEnabled(d.r, t)
  {
    hide Any, Keep, EventBit, EnableBit, EnablePlace, FlagCode, ItCode, BitIsRight, FlagIsRight, ItIsRight;
    Codes(t.s, t.e);
    FifoEnable();
    if Any(it, 0x0F3C0F3C) {
      var tmpreg := EnablePlace(it);
      KeepIsAny(d.r.cr[StreamOf(c, s)], tmpreg);
      enablestatus := Keep(d.r.cr[StreamOf(c, s)], tmpreg);
    } else {
      KeepIsAny(d.r.fcr[StreamOf(c, s)], 0x80);
      enablestatus := Keep(d.r.fcr[StreamOf(c, s)], 0x80);
    }
  }

  lemma FifoEnable()
    ensures EnableBit(FifoError) == 0x80
  {
  }

  /** DMA_GetITStatus, for an event of the stream: pending, and enabled. */
  method GetITStatus(d: DmaControllers, c: nat, s: nat, it: bv32, ghost t: Triple) returns (status: bool)
    requires d.Valid() && IsTriple(t) && t.c == c && t.s == s && it == ItCode(s, t.e)
    ensures status <==> t in Pending(d.r) && t in Enabled(d.r)
  {
    hide Any, Keep, EventBit, EnableBit, FlagCode, ItCode, BitIsRight, FlagIsRight, EnableIsRight, IsEnabled;
    Codes(t.s, t.e);
    var enablestatus := EnableStatus(d, c, s, it, t);
    var tmpreg: bv32;
    if Any(it, 0x20000000) {
      tmpreg := d.ReadISR(c, true);
    } else {
      tmpreg := d.ReadISR(c, false);
    }
    MaskMoves(tmpreg, 0x0F7D0F7D, it);
    status := Any(Keep(tmpreg, 0x0F7D0F7D), it) && enablestatus != 0;
  }

  // ----- DMA_DeInit

  // DMA_Streams_IT_MASK
  function StreamMask(s: nat): bv32
    requires s < STREAMS
  {
    if s == 0 then 0x3D else if s == 1 then 0x3D << 6 else if s == 2 then 0x3D << 16 else if s == 3 then 0x3D << 22
    else if s == 4 then 0x3D | 0x20000000 else if s == 5 then (0x3D << 6) | 0x20000000
    else if s == 6 then (0x3D << 16) | 0x20000000 else (0x3D << 22) | 0x20000000
  }

  predicate MaskIsRight(s: nat, u: nat, e: Event)
    requires s < STREAMS && u < STREAMS
  {
    Any(StreamMask(s), EventBit(u, e)) <==> s == u
  }

  lemma MasksLow(e: Event, u: nat)
    requires u < 4
    ensures MaskIsRight(0, u, e)
    ensures MaskIsRight(1, u, e)
    ensures MaskIsRight(2, u, e)
    ensures MaskIsRight(3, u, e)
  {
  }

  lemma MasksHigh(e: Event, u: nat)
    requires 4 <= u < STREAMS
    ensures MaskIsRight(4, u, e)
    ensures MaskIsRight(5, u, e)
    ensures MaskIsRight(6, u, e)
    ensures MaskIsRight(7, u, e)
  {
  }

  lemma Masks(s: nat, u: nat, e: Event)
    requires s < STREAMS && u < STREAMS && (s < 4 <==> u < 4)
    ensures MaskIsRight(s, u, e)
  {
    hide MaskIsRight;
    if s < 4 {
      MasksLow(e, u);
    } else {
      MasksHigh(e, u);
    }
  }

  /** The events of one stream. */
  ghost function EventsOf(c: nat, s: nat): set<Triple> {
    set t | IsTriple(t) && t in AllTriples() && t.c == c && t.s == s
  }

  lemma NothingEnabled(e: Event)
    ensures !Any(if e.FifoError? then 0x21 else 0, EnableBit(e))
  {
  }

  lemma ResetSettings(r: Registers, i: nat, q: Registers)
    requires ValidFor(r) && ValidFor(q) && i < 16
    requires q.cr == r.cr[i := 0] && q.fcr == r.fcr[i := 0x21] && q.transfer == r.transfer[i := Transfer(0, 0, 0, 0)]
    ensures Settings(q) == Settings(r)[i := Setting(0, 0x21, Transfer(0, 0, 0, 0))]
  {
    hide Keep;
    ResetSetting();
    assert forall j :: 0 <= j < 16 && j != i ==> SettingOf(q, j) == SettingOf(r, j);
  }

  lemma ResetSetting()
    ensures Keep(0, 0xFFFFFFE1) == 0 && Keep(0x21, 0xFFFFFF7F) == 0x21
  {
  }

  // NDTR, PAR, M0AR and M1AR, one after the other
  method ResetTransfer(d: DmaControllers, i: nat)
    requires d.Valid() && i < 16
    modifies d
    ensures d.Valid() && d.r == old(d.r).(transfer := old(d.r).transfer[i := Transfer(0, 0, 0, 0)])
  {
    d.r := d.r.(transfer := d.r.transfer[i := d.r.transfer[i].(ndtr := 0)]);
    d.r := d.r.(transfer := d.r.transfer[i := d.r.transfer[i].(par := 0)]);
    d.r := d.r.(transfer := d.r.transfer[i := d.r.transfer[i].(m0ar := 0)]);
    d.r := d.r.(transfer := d.r.transfer[i := d.r.transfer[i].(m1ar := 0)]);
  }

  /** DMA_DeInit: the registers of the stream have their reset values, its five events are neither pending nor
      enabled afterwards, and no other stream is affected. */
  method DeInit(d: DmaControllers, c: nat, s: nat)
    requires d.Valid() && c < CONTROLLERS && s < STREAMS
    modifies d
    ensures d.Valid()
    ensures Pending(d.r) == Pending(old(d.r)) - EventsOf(c, s) && Enabled(d.r) == Enabled(old(d.r)) - EventsOf(c, s)
    ensures var i := StreamOf(c, s);
            && d.r.cr == old(d.r).cr[i := 0] && d.r.fcr == old(d.r).fcr[i := 0x21]
            && d.r.transfer == old(d.r).transfer[i := Transfer(0, 0, 0, 0)]
            && Settings(d.r) == Settings(old(d.r))[i := Setting(0, 0x21, Transfer(0, 0, 0, 0))]
  {
    hide Any, Keep, Set, Clear, EventBit, EnableBit, SingleBit, StreamMask;
    ghost var r0 := d.r;
    var i := StreamOf(c, s);
    d.r := d.r.(cr := d.r.cr[i := Clear(d.r.cr[i], 0x1)]);
    d.r := d.r.(cr := d.r.cr[i := 0]);
    ResetTransfer(d, i);
    d.r := d.r.(fcr := d.r.fcr[i := 0x21]);
    d.WriteIFCR(c, s >= 4, StreamMask(s));
    ResetSettings(r0, i, d.r);
    forall u | IsTriple(u)
      ensures IsPending(d.r, u) <==> IsPending(r0, u) && u !in EventsOf(c, s)
      ensures IsEnabled(d.r, u) <==> IsEnabled(r0, u) && u !in EventsOf(c, s)
    {
      NothingEnabled(u.e);
      Codes(u.s, u.e);
      ClearSingle(r0.isr[IsrOf(c, s >= 4)], StreamMask(s), EventBit(u.s, u.e));
      if s < 4 <==> u.s < 4 {
        Masks(s, u.s, u.e);
      }
    }
  }

  // ----- runs

  datatype Command =
    | Happen(t: Triple)
    | GetFlag(t: Triple)
    | ClearFlags(c: nat, flag: bv32)
    | Configure(c: nat, s: nat, it: bv32, on: bool)
    | GetIT(t: Triple)
    | ClearIT(c: nat, it: bv32)
    | Reset(c: nat, s: nat)

  predicate Allowed(command: Command) {
    match command
    case Happen(t) => IsTriple(t)
    case GetFlag(t) => IsTriple(t)
    case ClearFlags(c, _) => c < CONTROLLERS
    case Configure(c, s, it, _) => c < CONTROLLERS && s < STREAMS && Keep(it, 0xFFFFFF61) == 0 && it != 0
    case GetIT(t) => IsTriple(t)
    case ClearIT(c, _) => c < CONTROLLERS
    case Reset(c, s) => c < CONTROLLERS && s < STREAMS
  }

  /** Two sets of events and the configuration of the streams, and what each step does to them. */
  datatype Model = Model(pending: set<Triple>, enabled: set<Triple>, settings: map<nat, Setting>)

  ghost function ModelOf(r: Registers): Model
    requires ValidFor(r)
  {
    Model(Pending(r), Enabled(r), Settings(r))
  }

  ghost function Next(m: Model, command: Command): Model {
    match command
    case Happen(t) => m.(pending := m.pending + {t})
    case GetFlag(_) => m
    case ClearFlags(c, flag) => m.(pending := m.pending - Named(c, flag))
    case Configure(c, s, it, on) =>
      m.(enabled := if on then m.enabled + Chosen(c, s, it) else m.enabled - Chosen(c, s, it))
    case GetIT(_) => m
    case ClearIT(c, it) => m.(pending := m.pending - Named(c, it))
    case Reset(c, s) =>
      Model(m.pending - EventsOf(c, s), m.enabled - EventsOf(c, s),
            m.settings[StreamOf(c, s) := Setting(0, 0x21, Transfer(0, 0, 0, 0))])
  }

  // What a getter has to answer
  ghost function Answer(m: Model, command: Command): bool {
    match command
    case GetFlag(t) => t in m.pending
    case GetIT(t) => t in m.pending && t in m.enabled
    case _ => false
  }

  ghost function AfterAll(m: Model, commands: seq<Command>): Model
    decreases |commands|
  {
    if commands == [] then m else Next(AfterAll(m, commands[..|commands| - 1]), commands[|commands| - 1])
  }

  // One step of a history
  method Execute(d: DmaControllers, command: Command) returns (answer: bool)
    requires d.Valid() && Allowed(command)
    modifies d
    ensures d.Valid() && ModelOf(d.r) == Next(ModelOf(old(d.r)), command)
    ensures answer == Answer(ModelOf(old(d.r)), command)
  {
    hide Any, Keep, Named, Chosen, EventsOf, Pending, Enabled, FlagCode, ItCode;
    answer := false;
    match command
    case Happen(t) => d.Raise(t);
    case GetFlag(t) => answer := GetFlagStatus(d, t.c, FlagCode(t.s, t.e), t);
    case ClearFlags(c, flag) => ClearFlag(d, c, flag);
    case Configure(c, s, it, on) => ITConfig(d, c, s, it, on);
    case GetIT(t) => answer := GetITStatus(d, t.c, t.s, ItCode(t.s, t.e), t);
    case ClearIT(c, it) => ClearITPendingBit(d, c, it);
    case Reset(c, s) => DeInit(d, c, s);
  }

  lemma OneMore(m: Model, commands: seq<Command>, i: nat)
    requires i < |commands|
    ensures AfterAll(m, commands[..i + 1]) == Next(AfterAll(m, commands[..i]), commands[i])
  {
    assert commands[..i + 1][..i] == commands[..i];
  }

  /** Under every history of calls and events the registers stand for the two sets, and every getter answers
      from them. */
  method Perform(d: DmaControllers, commands: seq<Command>) returns (answers: seq<bool>)
    requires d.Valid() && forall i :: 0 <= i < |commands| ==> Allowed(commands[i])
    modifies d
    ensures d.Valid() && ModelOf(d.r) == AfterAll(ModelOf(old(d.r)), commands) && |answers| == |commands|
    ensures forall i :: 0 <= i < |commands| ==>
              answers[i] == Answer(AfterAll(ModelOf(old(d.r)), commands[..i]), commands[i])
  {
    hide Allowed, ModelOf, Next, Answer;
    answers := [];
    ghost var m0 := ModelOf(d.r);
    assert commands[..0] == [];
    var i := 0;
    while i < |commands|
      invariant i <= |commands| && d.Valid() && |answers| == i
      invariant ModelOf(d.r) == AfterAll(m0, commands[..i])
      invariant forall j :: 0 <= j < i ==> answers[j] == Answer(AfterAll(m0, commands[..j]), commands[j])
    {
      OneMore(m0, commands, i);
      var answer := Execute(d, commands[i]);
      answers := answers + [answer];
      i := i + 1;
    }
    assert commands[..|commands|] == commands;
  }
}
