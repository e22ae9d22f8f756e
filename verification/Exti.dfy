/** The external interrupt lines. EXTI_Init updates four sets of lines, some of them through an address that it
    computes from the base of the peripheral and an offset in its parameters.

        offset   0x00 IMR   0x04 EMR   0x08 RTSR   0x0C FTSR   0x10 SWIER   0x14 PR */
module Exti {
  import opened Bits

  datatype Mode = Interrupt | Event

  datatype Trigger = Rising | Falling | RisingFalling

  // EXTI_InitTypeDef
  datatype InitStruct = InitStruct(Line: bv32, Mode: Mode, Trigger: Trigger, LineCmd: bool)

  // The values of the enumerations are register offsets
  function ModeOffset(m: Mode): nat {
    if m.Interrupt? then 0x00 else 0x04
  }

  function TriggerOffset(t: Trigger): nat {
    match t
    case Rising => 0x08
    case Falling => 0x0C
    case RisingFalling => 0x10
  }

  datatype Registers = Registers(imr: bv32, emr: bv32, rtsr: bv32, ftsr: bv32, swier: bv32, pr: bv32)

  // One of the four line sets
  predicate LineSet(offset: nat) {
    offset == 0x00 || offset == 0x04 || offset == 0x08 || offset == 0x0C
  }

  /** The peripheral. A store through a computed address may only reach one of the four line sets: SWIER would
      raise interrupts, PR would acknowledge them. */
  class ExtiPeripheral {
    var r: Registers

    // *(__IO uint32_t *)(EXTI_BASE + offset)
    method Load(offset: nat) returns (v: bv32)
      requires LineSet(offset)
      ensures v == if offset == 0x00 then r.imr else if offset == 0x04 then r.emr
                   else if offset == 0x08 then r.rtsr else r.ftsr
    {
      v := if offset == 0x00 then r.imr else if offset == 0x04 then r.emr
           else if offset == 0x08 then r.rtsr else r.ftsr;
    }

    method Store(offset: nat, v: bv32)
      requires LineSet(offset)
      modifies this
      ensures r == if offset == 0x00 then old(r).(imr := v)
                   else if offset == 0x04 then old(r).(emr := v)
                   else if offset == 0x08 then old(r).(rtsr := v)
                   else old(r).(ftsr := v)
    {
      if offset == 0x00 {
        r := r.(imr := v);
      } else if offset == 0x04 {
        r := r.(emr := v);
      } else if offset == 0x08 {
        r := r.(rtsr := v);
      } else {
        r := r.(ftsr := v);
      }
    }

    // PR: every 1 clears a pending bit
    method WritePR(v: bv32)
      modifies this
      ensures r == old(r).(pr := Clear(old(r).pr, v))
    {
      r := r.(pr := Clear(r.pr, v));
    }
  }

  // ----- one line

  /** What the registers say about one line, given as its bit. */
  datatype Line = Line(interrupt: bool, event: bool, rising: bool, falling: bool)

  const OFF := Line(false, false, false, false)

  function LineOf(r: Registers, b: bv32): Line {
    Line(Any(r.imr, b), Any(r.emr, b), Any(r.rtsr, b), Any(r.ftsr, b))
  }

  predicate On(l: Line) {
    l.interrupt || l.event
  }

  // Not in both modes, and never on without an edge
  predicate Good(l: Line) {
    !(l.interrupt && l.event) && (On(l) ==> l.rising || l.falling)
  }

  // What a call means for a line that it names
  function Configured(l: Line, s: InitStruct): Line {
    if s.LineCmd then
      Line(s.Mode.Interrupt?, s.Mode.Event?, !s.Trigger.Falling?, !s.Trigger.Rising?)
    else if s.Mode.Interrupt? then l.(interrupt := false)
    else l.(event := false)
  }

  function Next(l: Line, s: InitStruct, b: bv32): Line {
    if Any(s.Line, b) then Configured(l, s) else l
  }

  // ----- the driver

  // The four line sets of EXTI_DeInit
  method ClearSets(d: ExtiPeripheral)
    modifies d
    ensures d.r == old(d.r).(imr := 0, emr := 0, rtsr := 0, ftsr := 0)
  {
    d.Store(0x00, 0);
    d.Store(0x04, 0);
    d.Store(0x08, 0);
    d.Store(0x0C, 0);
  }

  /** EXTI_DeInit */
  method DeInit(d: ExtiPeripheral)
    modifies d
    ensures forall b: bv32 :: LineOf(d.r, b) == OFF
    ensures d.r.pr == Clear(old(d.r).pr, 0x007FFFFF) && d.r.swier == old(d.r).swier
    ensures Keep(d.r.pr, 0x007FFFFF) == 0
  {
    hide Keep, Clear, LineOf;
    ClearSets(d);
    ghost var pr := d.r.pr;
    d.WritePR(0x007FFFFF);
    Acknowledged(pr);
    AllOff(d.r);
  }

  lemma AllOff(r: Registers)
    requires r.imr == r.emr == r.rtsr == r.ftsr == 0
    ensures forall b: bv32 :: LineOf(r, b) == OFF
  {
    hide Any;
    forall b: bv32 ensures LineOf(r, b) == OFF {
      NoneOf(b);
    }
  }

  lemma Acknowledged(pr: bv32)
    ensures Keep(Clear(pr, 0x007FFFFF), 0x007FFFFF) == 0
  {
  }

  lemma NoneOf(b: bv32)
    ensures !Any(0, b)
  {
  }

  // *tmp |= line, or *tmp &= ~line
  method Switch(d: ExtiPeripheral, offset: nat, line: bv32, on: bool)
    requires LineSet(offset)
    modifies d
    ensures var r := old(d.r);
            d.r == if offset == 0x00 then r.(imr := Switched(r.imr, line, on))
                   else if offset == 0x04 then r.(emr := Switched(r.emr, line, on))
                   else if offset == 0x08 then r.(rtsr := Switched(r.rtsr, line, on))
                   else r.(ftsr := Switched(r.ftsr, line, on))
  {
    hide Set, Clear;
    var v := d.Load(offset);
    d.Store(offset, if on then Set(v, line) else Clear(v, line));
  }

  function Switched(v: bv32, line: bv32, on: bool): bv32 {
    if on then Set(v, line) else Clear(v, line)
  }

  lemma SwitchedLine(v: bv32, line: bv32, on: bool, b: bv32)
    requires SingleBit(b)
    ensures Any(Switched(v, line, on), b) == if Any(line, b) then on else Any(v, b)
  {
    hide Any, Set, Clear;
    SwitchedBit(v, line, on, b);
  }

  // A line set that is cleared for the lines, and set again for them or not
  function Chosen(v: bv32, line: bv32, on: bool): bv32 {
    var cleared := Switched(v, line, false);
    if on then Switched(cleared, line, true) else cleared
  }

  // The registers after EXTI_Init
  function Written(r: Registers, s: InitStruct): Registers {
    if s.LineCmd then
      r.(imr := Chosen(r.imr, s.Line, s.Mode.Interrupt?), emr := Chosen(r.emr, s.Line, s.Mode.Event?),
         rtsr := Chosen(r.rtsr, s.Line, !s.Trigger.Falling?), ftsr := Chosen(r.ftsr, s.Line, !s.Trigger.Rising?))
    else if s.Mode.Interrupt? then r.(imr := Switched(r.imr, s.Line, false))
    else r.(emr := Switched(r.emr, s.Line, false))
  }

  lemma ChosenLine(v: bv32, line: bv32, on: bool, b: bv32)
    requires SingleBit(b)
    ensures Any(Chosen(v, line, on), b) == if Any(line, b) then on else Any(v, b)
  {
    hide Any, Switched, SingleBit;
    SwitchedLine(v, line, false, b);
    SwitchedLine(Switched(v, line, false), line, true, b);
  }

  lemma EnabledLine(r: Registers, s: InitStruct, b: bv32)
    requires SingleBit(b) && s.LineCmd
    ensures LineOf(Written(r, s), b) == Next(LineOf(r, b), s, b)
  {
    hide Any, Switched, Chosen, SingleBit;
    ChosenLine(r.imr, s.Line, s.Mode.Interrupt?, b);
    ChosenLine(r.emr, s.Line, s.Mode.Event?, b);
    ChosenLine(r.rtsr, s.Line, !s.Trigger.Falling?, b);
    ChosenLine(r.ftsr, s.Line, !s.Trigger.Rising?, b);
  }

  lemma DisabledLine(r: Registers, s: InitStruct, b: bv32)
    requires SingleBit(b) && !s.LineCmd
    ensures LineOf(Written(r, s), b) == Next(LineOf(r, b), s, b)
  {
    hide Any, Switched, SingleBit;
    if s.Mode.Interrupt? {
      SwitchedLine(r.imr, s.Line, false, b);
    } else {
      SwitchedLine(r.emr, s.Line, false, b);
    }
  }

  // Clear EXTI line configuration, and set the lines in the register of the mode
  method SelectMode(d: ExtiPeripheral, s: InitStruct)
    modifies d
    ensures var r := old(d.r);
            d.r == r.(imr := Chosen(r.imr, s.Line, s.Mode.Interrupt?), emr := Chosen(r.emr, s.Line, s.Mode.Event?))
  {
    hide Any, Switched;
    Switch(d, 0x00, s.Line, false);
    Switch(d, 0x04, s.Line, false);
    var tmp := 0;
    tmp := tmp + ModeOffset(s.Mode);
    Switch(d, tmp, s.Line, true);
  }

  // Clear rising and falling edge configuration, and set the lines in one register or both
  method SelectTrigger(d: ExtiPeripheral, s: InitStruct)
    modifies d
    ensures var r := old(d.r);
            d.r ==
              r.(rtsr := Chosen(r.rtsr, s.Line, !s.Trigger.Falling?),
                 ftsr := Chosen(r.ftsr, s.Line, !s.Trigger.Rising?))
  {
    hide Any, Switched;
    Switch(d, 0x08, s.Line, false);
    Switch(d, 0x0C, s.Line, false);
    if s.Trigger.RisingFalling? {
      Switch(d, 0x08, s.Line, true);
      Switch(d, 0x0C, s.Line, true);
    } else {
      var tmp := 0;
      tmp := tmp + TriggerOffset(s.Trigger);
      Switch(d, tmp, s.Line, true);
    }
  }

  /** EXTI_Init: every line that the call names is configured as asked, every other line is left alone, and
      neither SWIER nor PR is touched. */
  method Init(d: ExtiPeripheral, s: InitStruct)
    modifies d
    ensures forall b: bv32 :: SingleBit(b) ==> LineOf(d.r, b) == Next(LineOf(old(d.r), b), s, b)
    ensures d.r.swier == old(d.r).swier && d.r.pr == old(d.r).pr
  {
    hide Any, Switched, SingleBit, Next, LineOf;
    ghost var r := d.r;
    if s.LineCmd {
      SelectMode(d, s);
      SelectTrigger(d, s);
    } else {
      var tmp := 0;
      tmp := tmp + ModeOffset(s.Mode);
      Switch(d, tmp, s.Line, false);
    }
    assert d.r == Written(r, s);
    forall b: bv32 | SingleBit(b)
      ensures LineOf(d.r, b) == Next(LineOf(r, b), s, b)
    {
      if s.LineCmd {
        EnabledLine(r, s, b);
      } else {
        DisabledLine(r, s, b);
      }
    }
  }

  // ----- what a call does to a line

  lemma NextIsGood(l: Line, s: InitStruct, b: bv32)
    requires Good(l)
    ensures Good(Next(l, s, b))
  {
    hide Any;
  }

  /** A call that disables a line turns it off exactly when the line was not on in the other mode: the mode in
      the structure says which set it is taken out of. */
  lemma DisabledIff(l: Line, s: InitStruct, b: bv32)
    requires Good(l) && !s.LineCmd && Any(s.Line, b)
    ensures !On(Next(l, s, b)) <==> !(if s.Mode.Interrupt? then l.event else l.interrupt)
  {
    hide Any;
  }

  /** For example: a line that is on for interrupts stays on when it is disabled for events. */
  lemma StillOn()
    ensures var l := Configured(OFF, InitStruct(0x1, Interrupt, Rising, true));
            On(Next(l, InitStruct(0x1, Event, Rising, false), 0x1))
  {
  }

  // ----- runs

  function After(l: Line, calls: seq<InitStruct>, b: bv32): Line
    decreases |calls|
  {
    if calls == [] then l else Next(After(l, calls[..|calls| - 1], b), calls[|calls| - 1], b)
  }

  predicate Names(calls: seq<InitStruct>, b: bv32) {
    exists i :: 0 <= i < |calls| && Any(calls[i].Line, b)
  }

  lemma {:induction false} AfterIsGood(l: Line, calls: seq<InitStruct>, b: bv32)
    requires Good(l)
    ensures Good(After(l, calls, b)) && (!Names(calls, b) ==> After(l, calls, b) == l)
    decreases |calls|
  {
    hide Any;
    if calls != [] {
      var rest := calls[..|calls| - 1];
      AfterIsGood(l, rest, b);
      assert Names(rest, b) ==> Names(calls, b) by {
        if Names(rest, b) {
          var i :| 0 <= i < |rest| && Any(rest[i].Line, b);
          assert Any(calls[i].Line, b);
        }
      }
      NextIsGood(After(l, rest, b), calls[|calls| - 1], b);
    }
  }

  // Call i is the last one that enables line b, and nothing names the line after it
  predicate LastEnables(calls: seq<InitStruct>, b: bv32, i: nat) {
    && i < |calls| && calls[i].LineCmd && Any(calls[i].Line, b)
    && forall j :: i < j < |calls| ==> !Any(calls[j].Line, b)
  }

  lemma {:induction false} AfterEnable(l: Line, calls: seq<InitStruct>, b: bv32, i: nat)
    requires LastEnables(calls, b, i)
    ensures After(l, calls, b) == Configured(OFF, calls[i])
    decreases |calls|
  {
    hide Any;
    if i < |calls| - 1 {
      AfterEnable(l, calls[..|calls| - 1], b, i);
    }
  }

  /** Starting from EXTI_DeInit, after any sequence of calls on any sets of lines: no line is both in the
      interrupt and in the event set, every line that is on has an edge, a line is as its last enabling call
      asked, and a line that no call names is off. */
  method Session(d: ExtiPeripheral, calls: seq<InitStruct>)
    modifies d
    ensures forall b: bv32 :: SingleBit(b) ==> LineOf(d.r, b) == After(OFF, calls, b) && Good(LineOf(d.r, b))
    ensures forall b: bv32, i: nat :: SingleBit(b) && LastEnables(calls, b, i) ==>
            LineOf(d.r, b) == Configured(OFF, calls[i])
    ensures forall b: bv32 :: SingleBit(b) && !Names(calls, b) ==> LineOf(d.r, b) == OFF
    ensures d.r.swier == old(d.r).swier && Keep(d.r.pr, 0x007FFFFF) == 0
  {
    hide Any, Keep, SingleBit, LineOf, Next, Names;
    DeInit(d);
    var i := 0;
    while i < |calls|
      invariant i <= |calls|
      invariant forall b: bv32 :: SingleBit(b) ==> LineOf(d.r, b) == After(OFF, calls[..i], b)
      invariant d.r.swier == old(d.r).swier && Keep(d.r.pr, 0x007FFFFF) == 0
    {
      assert calls[..i + 1][..i] == calls[..i];
      Init(d, calls[i]);
      i := i + 1;
    }
    assert calls[..|calls|] == calls;
    forall b: bv32 | SingleBit(b)
      ensures Good(After(OFF, calls, b)) && (!Names(calls, b) ==> After(OFF, calls, b) == OFF)
    {
      AfterIsGood(OFF, calls, b);
    }
    forall b: bv32, j: nat | SingleBit(b) && LastEnables(calls, b, j)
      ensures LineOf(d.r, b) == Configured(OFF, calls[j])
    {
      AfterEnable(OFF, calls, b, j);
    }
  }
}
