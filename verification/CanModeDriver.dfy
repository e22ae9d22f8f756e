/** CAN_Init, CAN_OperatingModeRequest, CAN_Sleep, CAN_WakeUp, and runs of them. */
module CanModeDriver {
  import opened Bits
  import opened CanModes

  const ACKNOWLEDGED := Equal(0x1, 0x1)    // INAK
  const RELEASED := Differ(0x1, 0x1)       // no INAK
  const AWAKE := Differ(0x2, 0x2)          // no SLAK

  // CAN_InitTypeDef
  datatype InitStruct = InitStruct(
    Prescaler: bv32, Mode: bv32, SJW: bv32, BS1: bv32, BS2: bv32,
    TTCM: bool, ABOM: bool, AWUM: bool, NART: bool, RFLM: bool, TXFP: bool)

  // What assert_param lets through
  predicate Allowed(s: InitStruct) {
    s.Mode <= 3 && s.SJW <= 3 && s.BS1 <= 15 && s.BS2 <= 7 && 1 <= s.Prescaler <= 1024
  }

  // ----- read-modify-write of MCR

  // MCR |= bits
  method SetMcr(c: Can, bits: bv32)
    requires !SleepRequested(c.r.mcr) && bits & 0x2 == 0
    modifies c
    ensures !SleepRequested(c.r.mcr)
    ensures c.r == old(c.r).(mcr := Set(old(c.r.mcr), bits), now := old(c.r.now) + 2)
  {
    hide Any, Set, Clear;
    TickedDrifts(c.hw, c.r);
    var v := c.ReadMCR();
    SetOther(v, bits, 0x2);
    c.WriteMCR(Set(v, bits));
  }

  // MCR &= ~bits
  method ClearMcr(c: Can, bits: bv32)
    requires c.Valid() && (!SleepRequested(c.r.mcr) || bits & 0x2 != 0)
    modifies c
    ensures !SleepRequested(c.r.mcr)
    ensures c.r == old(c.r).(mcr := Clear(old(c.r.mcr), bits), now := old(c.r.now) + 2)
  {
    hide Any, Set, Clear;
    TickedDrifts(c.hw, c.r);
    StillCleared(c.r.mcr, bits);
    var v := c.ReadMCR();
    c.WriteMCR(Clear(v, bits));
  }

  // Clearing SLEEP gives the same whether or not the controller cleared it before
  lemma StillCleared(mcr: bv32, bits: bv32)
    requires !SleepRequested(mcr) || bits & 0x2 != 0
    ensures !SleepRequested(Clear(mcr, bits)) && Clear(Clear(mcr, 0x2), bits) == Clear(mcr, bits)
  {
  }

  // MCR = (MCR & ~away) | bits
  function Replaced(mcr: bv32, away: bv32, bits: bv32): bv32 {
    Set(Clear(mcr, away), bits)
  }

  lemma InitInsteadOfSleep(mcr: bv32)
    ensures !SleepRequested(Replaced(mcr, 0x2, 0x1)) && InitRequested(Replaced(mcr, 0x2, 0x1))
    ensures Replaced(Clear(mcr, 0x2), 0x2, 0x1) == Replaced(mcr, 0x2, 0x1)
  {
    hide Any, Set, Clear;
    ClearClears(mcr, 0x2);
    ClearAgain(Clear(mcr, 0x2), 0x2);
    SetSets(Clear(mcr, 0x2), 0x1);
    SetOther(Clear(mcr, 0x2), 0x1, 0x2);
  }

  lemma SleepInsteadOfInit(mcr: bv32)
    ensures SleepRequested(Replaced(mcr, 0x1, 0x2)) && !InitRequested(Replaced(mcr, 0x1, 0x2))
    ensures Replaced(Clear(mcr, 0x2), 0x1, 0x2) == Replaced(mcr, 0x1, 0x2)
  {
    hide Any, Set, Clear;
    ClearClears(mcr, 0x1);
    SetSets(Clear(mcr, 0x1), 0x2);
    SetOther(Clear(mcr, 0x1), 0x2, 0x1);
    SetHidesClear(mcr, 0x1, 0x2);
  }

  lemma SetHidesClear(mcr: bv32, away: bv32, bits: bv32)
    ensures Set(Clear(Clear(mcr, bits), away), bits) == Set(Clear(mcr, away), bits)
  {
  }

  // ----- options and bit timing

  // One of the six switches of CAN_Init
  function Switched(mcr: bv32, bit: bv32, on: bool): bv32 {
    if on then Set(mcr, bit) else Clear(mcr, bit)
  }

  function Options(mcr: bv32, s: InitStruct): bv32 {
    Switched(Switched(Switched(Switched(Switched(Switched(mcr, 0x80, s.TTCM), 0x40, s.ABOM), 0x20, s.AWUM), 0x10,
                               s.NART),
                      0x08, s.RFLM), 0x04, s.TXFP)
  }

  lemma SwitchedReads(mcr: bv32, bit: bv32, on: bool)
    requires bit != 0
    ensures Any(Switched(mcr, bit, on), bit) == on
  {
    SetSets(mcr, bit);
    ClearClears(mcr, bit);
  }

  lemma SwitchedOther(mcr: bv32, bit: bv32, on: bool, other: bv32)
    requires bit & other == 0
    ensures Any(Switched(mcr, bit, on), other) == Any(mcr, other)
    ensures Keep(Switched(mcr, bit, on), other) == Keep(mcr, other)
  {
    hide Any, Set, Clear, Keep;
    SetOther(mcr, bit, other);
    ClearOther(mcr, bit, other);
    SetKeeps(mcr, bit, other);
    ClearKeeps(mcr, bit, other);
  }

  /** The six option bits are those asked for, each at its own place, and the rest of MCR is as it was. */
  lemma OptionsRead(mcr: bv32, s: InitStruct)
    ensures var v := Options(mcr, s);
            && Any(v, 0x80) == s.TTCM && Any(v, 0x40) == s.ABOM && Any(v, 0x20) == s.AWUM && Any(v, 0x10) == s.NART
            && Any(v, 0x08) == s.RFLM && Any(v, 0x04) == s.TXFP
            && Keep(v, 0xFFFFFF03) == Keep(mcr, 0xFFFFFF03)
  {
    hide Any, Keep, Switched;
    var a := Switched(mcr, 0x80, s.TTCM);
    var b := Switched(a, 0x40, s.ABOM);
    var c := Switched(b, 0x20, s.AWUM);
    var d := Switched(c, 0x10, s.NART);
    var e := Switched(d, 0x08, s.RFLM);
    OptionStep(mcr, 0x80, s.TTCM);
    OptionStep(a, 0x40, s.ABOM);
    OptionStep(b, 0x20, s.AWUM);
    OptionStep(c, 0x10, s.NART);
    OptionStep(d, 0x08, s.RFLM);
    OptionStep(e, 0x04, s.TXFP);
  }

  predicate OptionBit(bit: bv32) {
    bit == 0x80 || bit == 0x40 || bit == 0x20 || bit == 0x10 || bit == 0x08 || bit == 0x04
  }

  predicate OptionReads(v: bv32, w: bv32, bit: bv32, on: bool, other: bv32) {
    Any(w, other) == if bit == other then on else Any(v, other)
  }

  lemma OptionStep(mcr: bv32, bit: bv32, on: bool)
    requires OptionBit(bit)
    ensures var w := Switched(mcr, bit, on);
            && OptionReads(mcr, w, bit, on, 0x80) && OptionReads(mcr, w, bit, on, 0x40)
            && OptionReads(mcr, w, bit, on, 0x20)
            && OptionReads(mcr, w, bit, on, 0x10) && OptionReads(mcr, w, bit, on, 0x08)
            && OptionReads(mcr, w, bit, on, 0x04)
            && Keep(w, 0xFFFFFF03) == Keep(mcr, 0xFFFFFF03)
  {
    hide Any, Keep, Switched;
    OptionOne(mcr, bit, on, 0x80);
    OptionOne(mcr, bit, on, 0x40);
    OptionOne(mcr, bit, on, 0x20);
    OptionOne(mcr, bit, on, 0x10);
    OptionOne(mcr, bit, on, 0x08);
    OptionOne(mcr, bit, on, 0x04);
    OptionOutside(bit);
    SwitchedOther(mcr, bit, on, 0xFFFFFF03);
  }

  lemma OptionOne(mcr: bv32, bit: bv32, on: bool, other: bv32)
    requires OptionBit(bit) && OptionBit(other)
    ensures OptionReads(mcr, Switched(mcr, bit, on), bit, on, other)
  {
    hide Any, Keep, Switched;
    if bit == other {
      SwitchedReads(mcr, bit, on);
    } else {
      OptionsApart(bit, other);
      SwitchedOther(mcr, bit, on, other);
    }
  }

  lemma OptionsApart(bit: bv32, other: bv32)
    requires OptionBit(bit) && OptionBit(other) && bit != other
    ensures bit & other == 0
  {
  }

  lemma OptionOutside(bit: bv32)
    requires OptionBit(bit)
    ensures bit & 0xFFFFFF03 == 0
    ensures bit & 0x2 == 0
    ensures bit & 0x1 == 0
  {
  }

  // The value written to BTR
  function Timing(s: InitStruct): bv32 {
    TimingWord(s.Mode, s.SJW, s.BS1, s.BS2, s.Prescaler - 1)
  }

  function TimingWord(mode: bv32, sjw: bv32, bs1: bv32, bs2: bv32, prescaler: bv32): bv32 {
    (mode << 30) | (sjw << 24) | (bs1 << 16) | (bs2 << 20) | prescaler
  }

  /** What the controller makes of BTR: test mode, jump width, the two bit segments and the prescaler. */
  datatype BitTiming = BitTiming(mode: bv32, jump: bv32, segment1: bv32, segment2: bv32, prescaler: bv32)

  function Field(btr: bv32, place: bv8, mask: bv32): bv32
    requires place < 32
  {
    (btr >> place) & mask
  }

  function TimingOf(btr: bv32): BitTiming {
    BitTiming(Field(btr, 30, 0x3), Field(btr, 24, 0x3), Field(btr, 16, 0xF), Field(btr, 20, 0x7),
              Field(btr, 0, 0x3FF) + 1)
  }

  /** The register decodes to the timing asked for. */
  lemma TimingDecodes(s: InitStruct)
    requires Allowed(s)
    ensures TimingOf(Timing(s)) == BitTiming(s.Mode, s.SJW, s.BS1, s.BS2, s.Prescaler)
  {
    hide Field, TimingWord;
    TimingFields(s.Mode, s.SJW, s.BS1, s.BS2, s.Prescaler - 1);
  }

  lemma TimingFields(m: bv32, j: bv32, a: bv32, b: bv32, p: bv32)
    requires m <= 3 && j <= 3 && a <= 15 && b <= 7 && p <= 1023
    ensures TimingOf(TimingWord(m, j, a, b, p)) == BitTiming(m, j, a, b, p + 1)
  {
    hide Field, TimingWord;
    TimingMode(m, j, a, b, p);
    TimingJump(m, j, a, b, p);
    TimingSegment1(m, j, a, b, p);
    TimingSegment2(m, j, a, b, p);
    TimingPrescaler(m, j, a, b, p);
  }

  lemma TimingMode(m: bv32, j: bv32, a: bv32, b: bv32, p: bv32)
    requires m <= 3 && j <= 3 && a <= 15 && b <= 7 && p <= 1023
    ensures Field(TimingWord(m, j, a, b, p), 30, 0x3) == m
  {
  }

  lemma TimingJump(m: bv32, j: bv32, a: bv32, b: bv32, p: bv32)
    requires m <= 3 && j <= 3 && a <= 15 && b <= 7 && p <= 1023
    ensures Field(TimingWord(m, j, a, b, p), 24, 0x3) == j
  {
  }

  lemma TimingSegment1(m: bv32, j: bv32, a: bv32, b: bv32, p: bv32)
    requires m <= 3 && j <= 3 && a <= 15 && b <= 7 && p <= 1023
    ensures Field(TimingWord(m, j, a, b, p), 16, 0xF) == a
  {
  }

  lemma TimingSegment2(m: bv32, j: bv32, a: bv32, b: bv32, p: bv32)
    requires m <= 3 && j <= 3 && a <= 15 && b <= 7 && p <= 1023
    ensures Field(TimingWord(m, j, a, b, p), 20, 0x7) == b
  {
  }

  lemma TimingPrescaler(m: bv32, j: bv32, a: bv32, b: bv32, p: bv32)
    requires m <= 3 && j <= 3 && a <= 15 && b <= 7 && p <= 1023
    ensures Field(TimingWord(m, j, a, b, p), 0, 0x3FF) == p
  {
  }

  // ----- CAN_Init

  // if on { MCR |= bit; } else { MCR &= ~bit; }
  method SwitchOption(c: Can, bit: bv32, on: bool)
    requires !SleepRequested(c.r.mcr) && OptionBit(bit)
    modifies c
    ensures c.r == old(c.r).(mcr := Switched(old(c.r.mcr), bit, on), now := old(c.r.now) + 2)
    ensures !SleepRequested(c.r.mcr) && InitRequested(c.r.mcr) == InitRequested(old(c.r.mcr))
  {
    hide Any, Set, Clear;
    OptionOutside(bit);
    SwitchedOther(c.r.mcr, bit, on, 0x1);
    if on {
      SetMcr(c, bit);
    } else {
      ClearMcr(c, bit);
    }
  }

  method SwitchOptions(c: Can, s: InitStruct)
    requires !SleepRequested(c.r.mcr)
    modifies c
    ensures c.r == old(c.r).(mcr := Options(old(c.r.mcr), s), now := old(c.r.now) + 12)
    ensures !SleepRequested(c.r.mcr) && InitRequested(c.r.mcr) == InitRequested(old(c.r.mcr))
  {
    hide Any, Switched;
    SwitchOption(c, 0x80, s.TTCM);
    SwitchOption(c, 0x40, s.ABOM);
    SwitchOption(c, 0x20, s.AWUM);
    SwitchOption(c, 0x10, s.NART);
    SwitchOption(c, 0x08, s.RFLM);
    SwitchOption(c, 0x04, s.TXFP);
  }

  /** What CAN_Init does: either initialization mode is not acknowledged in time, and it stays requested and
      neither options nor timing are touched, or both are set up and the mode is left again. */
  ghost predicate InitEffect(hw: Bus, s: InitStruct, r: Registers, q: Registers, ok: bool) {
    var requested := Set(Clear(r.mcr, 0x2), 0x1);
    var check := CheckAt(hw, ACKNOWLEDGED, r.now + 4);
    && (Reached(hw, ACKNOWLEDGED, r.now + 4) <==> Keep(hw.msr(check), 0x1) == 0x1)
    && if !Reached(hw, ACKNOWLEDGED, r.now + 4) then
      !ok && q.mcr == requested && q.btr == r.btr && q.now == check + 1
    else
      && q.mcr == Clear(Options(requested, s), 0x1) && q.btr == Timing(s)
      && q.now == CheckAt(hw, RELEASED, check + 16) + 1
      && (ok <==> Reached(hw, RELEASED, check + 16))
      && (ok <==> Keep(hw.msr(q.now - 1), 0x1) == 0x0)
  }

  // What the three waits of CAN_Init and CAN_WakeUp wait for
  lemma WaitsMean()
    ensures forall v :: Holds(ACKNOWLEDGED, v) <==> Keep(v, 0x1) == 0x1
    ensures forall v :: Holds(RELEASED, v) <==> Keep(v, 0x1) == 0x0
    ensures forall v :: Holds(AWAKE, v) <==> Keep(v, 0x2) == 0x0
  {
    forall v ensures Keep(v, 0x1) != 0x1 <==> Keep(v, 0x1) == 0x0 {
      OneBitOrNone(v);
    }
    forall v ensures Keep(v, 0x2) != 0x2 <==> Keep(v, 0x2) == 0x0 {
      OneBitOrNone(v);
    }
  }

  lemma OneBitOrNone(v: bv32)
    ensures v & 0x1 != 0x1 <==> v & 0x1 == 0x0
    ensures v & 0x2 != 0x2 <==> v & 0x2 == 0x0
  {
  }

  method Init(c: Can, s: InitStruct) returns (ok: bool)
    requires c.Valid() && Allowed(s)
    modifies c
    ensures c.Valid() && InitEffect(c.hw, s, old(c.r), c.r, ok)
  {
    hide Any, Set, Clear, Keep, Options, Polls, Timing, Holds;
    WaitsMean();
    ClearMcr(c, 0x2);
    SetSets(c.r.mcr, 0x1);
    SetMcr(c, 0x1);
    ghost var requested := c.r;
    ClearAgain(requested.mcr, 0x2);
    ok := Await(c, ACKNOWLEDGED);
    if ok {
      SeenAcknowledge(c.r.seen);
      SwitchOptions(c, s);
      TickedDrifts(c.hw, c.r);
      c.WriteBTR(Timing(s));
      ClearMcr(c, 0x1);
      ghost var released := c.r;
      ClearAgain(released.mcr, 0x2);
      ok := Await(c, RELEASED);
    }
  }

  lemma SeenAcknowledge(msr: bv32)
    requires Holds(ACKNOWLEDGED, msr)
    ensures Any(msr, 0x1)
  {
  }

  /** After a successful CAN_Init the timing decodes to the one asked for, the options are on or off as asked,
      neither sleep nor initialization is requested, and the rest of MCR is as it was. */
  lemma InitSucceeds(hw: Bus, s: InitStruct, r: Registers, q: Registers)
    requires Allowed(s) && InitEffect(hw, s, r, q, true)
    ensures TimingOf(q.btr) == BitTiming(s.Mode, s.SJW, s.BS1, s.BS2, s.Prescaler)
    ensures Any(q.mcr, 0x80) == s.TTCM && Any(q.mcr, 0x40) == s.ABOM && Any(q.mcr, 0x20) == s.AWUM
    ensures Any(q.mcr, 0x10) == s.NART && Any(q.mcr, 0x08) == s.RFLM && Any(q.mcr, 0x04) == s.TXFP
    ensures !SleepRequested(q.mcr) && !InitRequested(q.mcr)
    ensures Keep(q.mcr, 0xFFFFFF00) == Keep(r.mcr, 0xFFFFFF00)
  {
    hide Any, Set, Clear, Keep, Options, Reached, Timing, TimingOf;
    var requested := Set(Clear(r.mcr, 0x2), 0x1);
    TimingDecodes(s);
    OptionsRead(requested, s);
    var v := Options(requested, s);
    ClearOther(v, 0x1, 0x80);
    ClearOther(v, 0x1, 0x40);
    ClearOther(v, 0x1, 0x20);
    ClearOther(v, 0x1, 0x10);
    ClearOther(v, 0x1, 0x08);
    ClearOther(v, 0x1, 0x04);
    ClearClears(v, 0x1);
    RequestsGone(r.mcr, v);
  }

  lemma RequestsGone(mcr: bv32, v: bv32)
    requires Keep(v, 0xFFFFFF03) == Keep(Set(Clear(mcr, 0x2), 0x1), 0xFFFFFF03)
    ensures !SleepRequested(Clear(v, 0x1))
    ensures Keep(Clear(v, 0x1), 0xFFFFFF00) == Keep(mcr, 0xFFFFFF00)
  {
    hide Set, Clear, Keep, Any;
    var requested := Set(Clear(mcr, 0x2), 0x1);
    ClearClears(mcr, 0x2);
    SetOther(Clear(mcr, 0x2), 0x1, 0x2);
    SameSleep(v, requested);
    ClearOther(v, 0x1, 0x2);
    ClearKeeps(v, 0x1, 0xFFFFFF00);
    SameRest(v, requested);
    SetKeeps(Clear(mcr, 0x2), 0x1, 0xFFFFFF00);
    ClearKeeps(mcr, 0x2, 0xFFFFFF00);
  }

  lemma SameSleep(v: bv32, w: bv32)
    requires Keep(v, 0xFFFFFF03) == Keep(w, 0xFFFFFF03)
    ensures Any(v, 0x2) == Any(w, 0x2)
  {
  }

  lemma SameRest(v: bv32, w: bv32)
    requires Keep(v, 0xFFFFFF03) == Keep(w, 0xFFFFFF03)
    ensures Keep(v, 0xFFFFFF00) == Keep(w, 0xFFFFFF00)
  {
    hide Keep;
    KeepLess(v, 0xFFFFFF03, 0xFFFFFF00);
    KeepLess(w, 0xFFFFFF03, 0xFFFFFF00);
  }

  // ----- modes

  // The acknowledge that CAN_OperatingModeRequest waits for
  function Acknowledge(mode: bv8): Condition {
    Equal(0x3, if mode == 0 then 0x1 else if mode == 1 then 0x0 else 0x2)
  }

  // MCR as CAN_OperatingModeRequest writes it
  function Request(mcr: bv32, mode: bv8): bv32 {
    if mode == 0 then Replaced(mcr, 0x2, 0x1) else if mode == 1 then Clear(mcr, 0x3) else Replaced(mcr, 0x1, 0x2)
  }

  /** CAN_OperatingModeRequest, for initialization (0), normal (1) and sleep mode (2); any other mode fails
      without an access. */
  method OperatingModeRequest(c: Can, mode: bv8) returns (ok: bool)
    requires c.Valid()
    modifies c
    ensures c.Valid()
    ensures mode > 2 ==> !ok && c.r == old(c.r)
    ensures mode <= 2 ==>
              && (ok <==> Reached(c.hw, Acknowledge(mode), old(c.r.now) + 2))
              && c.r.now == CheckAt(c.hw, Acknowledge(mode), old(c.r.now) + 2) + 1
              && (ok <==>
                    Keep(c.hw.msr(c.r.now - 1), 0x3) == if mode == 0 then 0x1 else if mode == 1 then 0x0 else 0x2)
              && RequestEffect(c.hw, mode, old(c.r), c.r)
  {
    hide Any, Set, Clear, Keep, Replaced, Polls, Drifted, RequestEffect;
    ghost var r0 := c.r;
    if mode <= 2 {
      AcknowledgeMeans(mode);
      RequestDrifts(c.hw, mode, r0);
    }
    if mode == 0 {
      var v := c.ReadMCR();
      c.WriteMCR(Replaced(v, 0x2, 0x1));
      ok := Await(c, Acknowledge(0));
    } else if mode == 1 {
      var v := c.ReadMCR();
      c.WriteMCR(Clear(v, 0x3));
      ok := Await(c, Acknowledge(1));
    } else if mode == 2 {
      var v := c.ReadMCR();
      c.WriteMCR(Replaced(v, 0x1, 0x2));
      ok := Await(c, Acknowledge(2));
    } else {
      ok := false;
    }
    if mode <= 2 {
      RequestSettles(c.hw, mode, r0, c.r);
    }
  }

  lemma AcknowledgeMeans(mode: bv8)
    requires mode <= 2
    ensures forall v :: Holds(Acknowledge(mode), v) <==>
              Keep(v, 0x3) == if mode == 0 then 0x1 else if mode == 1 then 0x0 else 0x2
  {
    hide Keep;
  }

  /** MCR after a request for mode 0, 1 or 2 that began with registers r: INRQ alone, neither, or SLEEP alone is
      requested; SLEEP is gone again if the controller woke up by itself since the write, which is the second
      access. The rest of MCR, and BTR, are as before. */
  predicate RequestEffect(hw: Bus, mode: bv8, r: Registers, q: Registers) {
    && q.btr == r.btr && q.now >= r.now + 2
    && Keep(q.mcr, 0x3) ==
       (if mode == 0 then 0x1 else if mode == 2 && !Woken(hw, r.mcr, r.now + 2, q.now) then 0x2 else 0x0)
    && Keep(q.mcr, 0xFFFFFFFC) == Keep(r.mcr, 0xFFFFFFFC)
  }

  // The wait after the write; what the read before it saw of SLEEP does not matter
  lemma RequestDrifts(hw: Bus, mode: bv8, r: Registers)
    requires mode <= 2
    ensures Consistent(Request(r.mcr, mode)) && Request(Ticked(hw, r).mcr, mode) == Request(r.mcr, mode)
  {
    hide Any, Set, Clear, Replaced;
    RequestConsistent(r.mcr, mode);
    RequestHides(r.mcr, mode);
  }

  lemma RequestConsistent(mcr: bv32, mode: bv8)
    requires mode <= 2
    ensures Consistent(Request(mcr, mode))
  {
    hide Any, Set, Clear;
    if mode == 0 {
      InitInsteadOfSleep(mcr);
    } else if mode == 1 {
      StillCleared(mcr, 0x3);
    } else {
      SleepInsteadOfInit(mcr);
    }
  }

  lemma RequestHides(mcr: bv32, mode: bv8)
    requires mode <= 2
    ensures Request(Clear(mcr, 0x2), mode) == Request(mcr, mode)
  {
    hide Any, Set, Clear;
    if mode == 0 {
      InitInsteadOfSleep(mcr);
    } else if mode == 1 {
      StillCleared(mcr, 0x3);
    } else {
      SleepInsteadOfInit(mcr);
    }
  }

  lemma RequestSettles(hw: Bus, mode: bv8, r: Registers, q: Registers)
    requires mode <= 2 && q.now >= r.now + 2
    requires Drifted(hw, r.(mcr := Request(r.mcr, mode), now := r.now + 2), q)
    ensures RequestEffect(hw, mode, r, q)
  {
    hide Any, Set, Clear, Keep, Request, Woken;
    RequestReads(r.mcr, mode);
    ClearReads(Request(r.mcr, mode));
    SameAwum(hw, r.mcr, Request(r.mcr, mode), r.now + 2, q.now);
  }

  lemma SameAwum(hw: Bus, mcr: bv32, v: bv32, a: nat, b: nat)
    requires Keep(v, 0xFFFFFFFC) == Keep(mcr, 0xFFFFFFFC)
    ensures Woken(hw, v, a, b) == Woken(hw, mcr, a, b)
  {
    hide Any, Keep;
    SameOption(mcr, v);
  }

  lemma SameOption(mcr: bv32, v: bv32)
    requires Keep(v, 0xFFFFFFFC) == Keep(mcr, 0xFFFFFFFC)
    ensures Any(v, 0x20) == Any(mcr, 0x20)
  {
    assert v & 0x20 == (v & 0xFFFFFFFC) & 0x20;
    assert mcr & 0x20 == (mcr & 0xFFFFFFFC) & 0x20;
  }

  lemma RequestReads(mcr: bv32, mode: bv8)
    requires mode <= 2
    ensures var v := Request(mcr, mode);
            && Keep(v, 0x3) == (if mode == 0 then 0x1 else if mode == 1 then 0x0 else 0x2)
            && Keep(v, 0xFFFFFFFC) == Keep(mcr, 0xFFFFFFFC)
  {
    hide Set, Clear, Keep;
    RequestBits(mcr);
    ClearKeeps(mcr, 0x1, 0xFFFFFFFC);
    ClearKeeps(mcr, 0x2, 0xFFFFFFFC);
    ClearKeeps(mcr, 0x3, 0xFFFFFFFC);
    SetKeeps(Clear(mcr, 0x2), 0x1, 0xFFFFFFFC);
    SetKeeps(Clear(mcr, 0x1), 0x2, 0xFFFFFFFC);
  }

  lemma RequestBits(mcr: bv32)
    ensures Keep(Set(Clear(mcr, 0x2), 0x1), 0x3) == 0x1
    ensures Keep(Clear(mcr, 0x3), 0x3) == 0x0
    ensures Keep(Set(Clear(mcr, 0x1), 0x2), 0x3) == 0x2
  {
    RequestWord(mcr);
  }

  lemma RequestWord(m: bv32)
    ensures ((m & !0x2) | 0x1) & 0x3 == 0x1
    ensures (m & !0x3) & 0x3 == 0x0
    ensures ((m & !0x1) | 0x2) & 0x3 == 0x2
  {
  }

  lemma ClearReads(v: bv32)
    ensures Keep(Clear(v, 0x2), 0xFFFFFFFC) == Keep(v, 0xFFFFFFFC)
    ensures Keep(Clear(v, 0x2), 0x3) == if Keep(v, 0x3) == 0x1 || Keep(v, 0x3) == 0x3 then 0x1 else 0x0
  {
    hide Clear, Keep;
    ClearKeeps(v, 0x2, 0xFFFFFFFC);
    ClearedBits(v);
  }

  lemma ClearedBits(v: bv32)
    ensures Keep(Clear(v, 0x2), 0x3) == if Keep(v, 0x3) == 0x1 || Keep(v, 0x3) == 0x3 then 0x1 else 0x0
  {
    ClearedWord(v);
  }

  lemma ClearedWord(v: bv32)
    ensures (v & !0x2) & 0x3 == if v & 0x3 == 0x1 || v & 0x3 == 0x3 then 0x1 else 0x0
  {
  }

  /** CAN_Sleep: one read decides. */
  method Sleep(c: Can) returns (ok: bool)
    requires c.Valid()
    modifies c
    ensures c.Valid() && c.r.now == old(c.r.now) + 3 && RequestEffect(c.hw, 2, old(c.r), c.r)
    ensures ok <==> Keep(c.hw.msr(c.r.now - 1), 0x3) == 0x2
  {
    hide Any, Set, Clear, Keep, Replaced, Drifted, RequestEffect;
    ghost var r0 := c.r;
    RequestDrifts(c.hw, 2, r0);
    var v := c.ReadMCR();
    c.WriteMCR(Replaced(v, 0x1, 0x2));
    TickedDrifts(c.hw, c.r);
    var msr := Look(c);
    RequestSettles(c.hw, 2, r0, c.r);
    ok := Keep(msr, 0x3) == 0x2;
  }

  /** CAN_WakeUp */
  method WakeUp(c: Can) returns (ok: bool)
    requires c.Valid()
    modifies c
    ensures c.Valid() && !SleepRequested(c.r.mcr) && c.r.mcr == Clear(old(c.r.mcr), 0x2) && c.r.btr == old(c.r.btr)
    ensures ok <==> Reached(c.hw, AWAKE, old(c.r.now) + 2)
    ensures c.r.now == CheckAt(c.hw, AWAKE, old(c.r.now) + 2) + 1
    ensures ok <==> Keep(c.hw.msr(c.r.now - 1), 0x2) == 0x0
  {
    hide Any, Set, Clear, Keep, Polls, Holds;
    WaitsMean();
    ClearMcr(c, 0x2);
    ghost var cleared := c.r;
    ClearAgain(cleared.mcr, 0x2);
    ok := Await(c, AWAKE);
  }

  // ----- runs

  datatype Command = DoInit(s: InitStruct) | DoRequest(mode: bv8) | DoSleep | DoWakeUp

  predicate Feasible(commands: seq<Command>) {
    forall i :: 0 <= i < |commands| ==> commands[i].DoInit? ==> Allowed(commands[i].s)
  }

  // The acknowledge that a call reports
  function Evidence(command: Command): Condition {
    match command
    case DoInit(_) => RELEASED
    case DoRequest(mode) => Acknowledge(mode)
    case DoSleep => Equal(0x3, 0x2)
    case DoWakeUp => AWAKE
  }

  // A call for an unknown mode does not touch the controller
  predicate Accesses(command: Command) {
    command.DoRequest? ==> command.mode <= 2
  }

  // The initialization of a call that begins at access t is acknowledged
  predicate Acknowledged(hw: Bus, command: Command, t: nat) {
    command.DoInit? && Reached(hw, ACKNOWLEDGED, t + 4)
  }

  /** The access at which a call that begins at access t reads MSR for the last time. */
  function LastRead(hw: Bus, command: Command, t: nat): (at: nat)
    requires Accesses(command)
    ensures at >= t
  {
    match command
    case DoInit(_) =>
      var check := CheckAt(hw, ACKNOWLEDGED, t + 4);
      if Reached(hw, ACKNOWLEDGED, t + 4) then CheckAt(hw, RELEASED, check + 16) else check
    case DoRequest(mode) => CheckAt(hw, Acknowledge(mode), t + 2)
    case DoSleep => t + 2
    case DoWakeUp => CheckAt(hw, AWAKE, t + 2)
  }

  /** Whether it succeeds: the last read shows the acknowledge, and for an initialization the first wait was
      acknowledged as well. */
  predicate Succeeds(hw: Bus, command: Command, t: nat) {
    && Accesses(command)
    && (command.DoInit? ==> Acknowledged(hw, command, t))
    && Holds(Evidence(command), hw.msr(LastRead(hw, command, t)))
  }

  // The access after the call
  function EndOf(hw: Bus, command: Command, t: nat): (end: nat)
    ensures end >= t
  {
    if Accesses(command) then LastRead(hw, command, t) + 1 else t
  }

  // The access at which call i of a run begins
  function StartOf(hw: Bus, commands: seq<Command>, t: nat, i: nat): nat
    requires i <= |commands|
  {
    if i == 0 then t else EndOf(hw, commands[i - 1], StartOf(hw, commands, t, i - 1))
  }

  lemma {:induction false} StartsInOrder(hw: Bus, commands: seq<Command>, t: nat, i: nat, j: nat)
    requires i <= j <= |commands|
    ensures StartOf(hw, commands, t, i) <= StartOf(hw, commands, t, j)
    decreases j
  {
    hide EndOf;
    if i < j {
      StartsInOrder(hw, commands, t, i, j - 1);
    }
  }

  /** What one call does to the registers. SLEEP may drop by itself after the request. */
  ghost predicate CallEffect(hw: Bus, r: Registers, command: Command, q: Registers, ok: bool) {
    match command
    case DoInit(s) => InitEffect(hw, s, r, q, ok)
    case DoRequest(mode) => if mode > 2 then q == r else RequestEffect(hw, mode, r, q)
    case DoSleep => RequestEffect(hw, 2, r, q)
    case DoWakeUp => q.mcr == Clear(r.mcr, 0x2) && q.btr == r.btr
  }

  // One call of a run
  method Execute(c: Can, command: Command) returns (ok: bool)
    requires c.Valid() && (command.DoInit? ==> Allowed(command.s))
    modifies c
    ensures c.Valid() && c.r.now == EndOf(c.hw, command, old(c.r.now))
    ensures ok <==> Succeeds(c.hw, command, old(c.r.now))
    ensures c.r.btr == if Acknowledged(c.hw, command, old(c.r.now)) then Timing(command.s) else old(c.r.btr)
    ensures CallEffect(c.hw, old(c.r), command, c.r, ok)
  {
    hide Any, Set, Clear, Keep, Polls, Timing, Options, Replaced, Request, Woken;
    match command
    case DoInit(s) => ok := Init(c, s);
    case DoRequest(mode) => ok := OperatingModeRequest(c, mode);
    case DoSleep => ok := Sleep(c);
    case DoWakeUp => ok := WakeUp(c);
  }

  datatype Report = Report(ok: bool, at: nat)

  // Call i of a run is an acknowledged initialization
  predicate Initializes(hw: Bus, commands: seq<Command>, t: nat, i: nat)
    requires i < |commands|
  {
    Acknowledged(hw, commands[i], StartOf(hw, commands, t, i))
  }

  ghost predicate LastInitializes(hw: Bus, commands: seq<Command>, t: nat, i: nat, k: nat)
    requires i < k <= |commands|
  {
    Initializes(hw, commands, t, i) && forall j :: i < j < k ==> !Initializes(hw, commands, t, j)
  }

  /** BTR after the first k calls of a run is that of the last initialization that was acknowledged. */
  ghost predicate TimingIsLast(hw: Bus, commands: seq<Command>, t: nat, k: nat, before: bv32, btr: bv32)
    requires k <= |commands|
  {
    && ((forall i :: 0 <= i < k ==> !Initializes(hw, commands, t, i)) ==> btr == before)
    && forall i :: 0 <= i < k && LastInitializes(hw, commands, t, i, k) ==> btr == Timing(commands[i].s)
  }

  /** A report tells whether its call succeeded, and where it read MSR for the last time: inside the call, and
      in case of success the acknowledge was there. */
  predicate Tells(hw: Bus, command: Command, t: nat, report: Report) {
    && (report.ok <==> Succeeds(hw, command, t))
    && (Accesses(command) ==>
          && report.at == LastRead(hw, command, t) && t <= report.at < EndOf(hw, command, t)
          && (report.ok ==> Holds(Evidence(command), hw.msr(report.at))))
  }

  ghost predicate AllTell(hw: Bus, commands: seq<Command>, t: nat, reports: seq<Report>)
    requires |reports| <= |commands|
  {
    forall i :: 0 <= i < |reports| ==> Tells(hw, commands[i], StartOf(hw, commands, t, i), reports[i])
  }

  // The registers of a run, from one call to the next
  ghost predicate Steps(hw: Bus, states: seq<Registers>, commands: seq<Command>, reports: seq<Report>) {
    && |reports| == |commands| && |states| == |commands| + 1
    && (forall i :: 0 <= i < |states| ==> Consistent(states[i].mcr))
    && forall i :: 0 <= i < |commands| ==> CallEffect(hw, states[i], commands[i], states[i + 1], reports[i].ok)
  }

  /** Any run of the four functions, whatever the controller answers: sleep and initialization are never
      requested together, the calls follow each other, each of them has its effect on the registers and succeeds
      exactly as its own last read of MSR says, and the bit timing is that of the last acknowledged
      initialization. */
  method Perform(c: Can, commands: seq<Command>) returns (reports: seq<Report>, ghost states: seq<Registers>)
    requires c.Valid() && Feasible(commands)
    modifies c
    ensures c.Valid() && Steps(c.hw, states, commands, reports)
    ensures states[0] == old(c.r) && states[|commands|] == c.r
    ensures c.r.now == StartOf(c.hw, commands, old(c.r.now), |commands|)
    ensures AllTell(c.hw, commands, old(c.r.now), reports)
    ensures forall i, j :: 0 <= i < j < |commands| && Accesses(commands[i]) && Accesses(commands[j]) ==>
              reports[i].at < reports[j].at
    ensures TimingIsLast(c.hw, commands, old(c.r.now), |commands|, old(c.r.btr), c.r.btr)
  {
    hide Acknowledged, Succeeds, LastRead, Accesses, Timing, Holds, EndOf, TimingIsLast, Tells, CallEffect, Consistent;
    reports, states := [], [c.r];
    ghost var t := c.r.now;
    var i := 0;
    NoTiming(c.hw, commands, t, c.r.btr);
    while i < |commands|
      invariant i <= |commands| && c.Valid() && |reports| == i && c.r.now == StartOf(c.hw, commands, t, i)
      invariant AllTell(c.hw, commands, t, reports)
      invariant Steps(c.hw, states, commands[..i], reports) && states[0] == old(c.r) && states[i] == c.r
      invariant TimingIsLast(c.hw, commands, t, i, old(c.r.btr), c.r.btr)
    {
      ghost var start, btr := c.r.now, c.r.btr;
      var ok := Execute(c, commands[i]);
      TimingStep(c.hw, commands, t, i, old(c.r.btr), btr, c.r.btr);
      var report := Report(ok, if c.r.now > 0 then c.r.now - 1 else 0);
      ReportTells(c.hw, commands[i], start, report);
      reports, states := reports + [report], states + [c.r];
      i := i + 1;
    }
    assert commands[..|commands|] == commands;
    InOrder(c.hw, commands, t, reports);
  }

  lemma ReportTells(hw: Bus, command: Command, t: nat, report: Report)
    requires report.ok <==> Succeeds(hw, command, t)
    requires report.at == if EndOf(hw, command, t) > 0 then EndOf(hw, command, t) - 1 else 0
    ensures Tells(hw, command, t, report)
  {
    hide Reached, Holds, CheckAt;
  }

  // The last reads of a run come one after the other
  lemma InOrder(hw: Bus, commands: seq<Command>, t: nat, reports: seq<Report>)
    requires |reports| == |commands| && AllTell(hw, commands, t, reports)
    ensures forall i, j :: 0 <= i < j < |commands| && Accesses(commands[i]) && Accesses(commands[j]) ==>
              reports[i].at < reports[j].at
  {
    hide Succeeds, LastRead, Accesses, EndOf;
    forall i, j | 0 <= i < j < |commands| && Accesses(commands[i]) && Accesses(commands[j])
      ensures reports[i].at < reports[j].at
    {
      assert Tells(hw, commands[i], StartOf(hw, commands, t, i), reports[i]);
      assert Tells(hw, commands[j], StartOf(hw, commands, t, j), reports[j]);
      StartsInOrder(hw, commands, t, i + 1, j);
    }
  }

  lemma NoTiming(hw: Bus, commands: seq<Command>, t: nat, btr: bv32)
    ensures TimingIsLast(hw, commands, t, 0, btr, btr)
  {
  }

  lemma TimingStep(hw: Bus, commands: seq<Command>, t: nat, k: nat, before: bv32, btr: bv32, btr': bv32)
    requires k < |commands| && TimingIsLast(hw, commands, t, k, before, btr)
    requires btr' == if Initializes(hw, commands, t, k) then Timing(commands[k].s) else btr
    ensures TimingIsLast(hw, commands, t, k + 1, before, btr')
  {
    hide StartOf, Timing, Reached;
  }
}
