/** The sequencers of an ADC. Ranks, sample times and lengths are fields packed into six registers; the driver
    keeps them in agreement with a plain table.

        SQR3, SQR2, SQR1   ranks 1..6, 7..12 and 13..16, five bits each; length less one in SQR1 bits 23..20
        SMPR2, SMPR1       sample times of channels 0..9 and 10..18, three bits each
        JSQR               slots 1..4, five bits each; length less one in bits 21..20 */
module Adc {
  import opened Bits

  const RANKS: nat := 16
  const CHANNELS: nat := 19
  const SLOTS: nat := 4

  // ----- fields

  function Up(v: bv32, shift: bv8): bv32
    requires shift < 32
  {
    v << shift
  }

  function Down(v: bv32, shift: bv8): bv32
    requires shift < 32
  {
    v >> shift
  }

  function Field(reg: bv32, mask: bv32, shift: bv8): bv32
    requires shift < 32
  {
    Down(Keep(reg, Up(mask, shift)), shift)
  }

  // tmpreg &= ~(mask << shift); tmpreg |= value << shift;
  function Put(reg: bv32, mask: bv32, shift: bv8, value: bv32): bv32
    requires shift < 32
  {
    Set(Clear(reg, Up(mask, shift)), Up(value, shift))
  }

  predicate Apart(mask: bv32, shift: bv8, mask': bv32, shift': bv8)
    requires shift < 32 && shift' < 32
  {
    Up(mask, shift) & Up(mask', shift') == 0
  }

  // Neither is cut off at the top of the register
  predicate Fits(mask: bv32, shift: bv8)
    requires shift < 32
  {
    Down(Up(mask, shift), shift) == mask
  }

  lemma UnderMask(mask: bv32, shift: bv8, value: bv32)
    requires shift < 32 && Keep(value, mask) == value
    ensures Keep(Up(value, shift), Up(mask, shift)) == Up(value, shift)
  {
  }

  lemma DownAgain(mask: bv32, shift: bv8, value: bv32)
    requires shift < 32 && Keep(value, mask) == value && Fits(mask, shift)
    ensures Down(Up(value, shift), shift) == value
  {
  }

  lemma PutIsFound(reg: bv32, mask: bv32, shift: bv8, value: bv32)
    requires shift < 32 && Keep(value, mask) == value && Fits(mask, shift)
    ensures Field(Put(reg, mask, shift, value), mask, shift) == value
  {
    hide Up, Down, Keep, Set, Clear, Fits;
    UnderMask(mask, shift, value);
    FieldThere(reg, Up(mask, shift), Up(value, shift));
    DownAgain(mask, shift, value);
  }

  lemma PutElsewhere(reg: bv32, mask: bv32, shift: bv8, value: bv32, mask': bv32, shift': bv8)
    requires shift < 32 && shift' < 32 && Keep(value, mask) == value && Apart(mask, shift, mask', shift')
    ensures Field(Put(reg, mask, shift, value), mask', shift') == Field(reg, mask', shift')
  {
    hide Up, Down, Keep, Set, Clear;
    UnderMask(mask, shift, value);
    FieldElsewhere(reg, Up(mask, shift), Up(value, shift), Up(mask', shift'));
  }

  // Bits of the register outside the field stay
  lemma PutKeeps(reg: bv32, mask: bv32, shift: bv8, value: bv32, other: bv32)
    requires shift < 32 && Keep(value, mask) == value && Up(mask, shift) & other == 0
    ensures Keep(Put(reg, mask, shift, value), other) == Keep(reg, other)
  {
    hide Up, Down, Keep, Set, Clear;
    UnderMask(mask, shift, value);
    FieldElsewhere(reg, Up(mask, shift), Up(value, shift), other);
  }

  // Where the six ranks and the four slots are in their registers; the two places above are not defined
  function RankPlace(i: nat): bv8
    requires i < 7
  {
    if i == 0 then 0 else if i == 1 then 5 else if i == 2 then 10 else if i == 3 then 15 else if i == 4 then 20
    else if i == 5 then 25 else 30
  }

  // Where the sample times are
  function TimePlace(i: nat): bv8
    requires i < 10
  {
    if i == 0 then 0 else if i == 1 then 3 else if i == 2 then 6 else if i == 3 then 9 else if i == 4 then 12
    else if i == 5 then 15 else if i == 6 then 18 else if i == 7 then 21 else if i == 8 then 24 else 27
  }

  // The places as the driver computes them
  function Place5(i: nat): (p: bv8)
    requires i < 7
    ensures p < 32 && p == RankPlace(i)
  {
    5 * (i as bv8)
  }

  function Place3(i: nat): (p: bv8)
    requires i < 10
    ensures p < 32 && p == TimePlace(i)
  {
    3 * (i as bv8)
  }

  lemma Fits5(i: nat)
    requires i < 6
    ensures Fits(0x1F, Place5(i))
  {
  }

  lemma Fits3(i: nat)
    requires i < 10
    ensures Fits(0x7, Place3(i))
  {
  }

  lemma Apart5(i: nat, j: nat)
    requires i < 7 && j < 7 && i != j
    ensures Apart(0x1F, Place5(i), 0x1F, Place5(j))
  {
  }

  lemma Apart3(i: nat, j: nat)
    requires i < 10 && j < 10 && i != j
    ensures Apart(0x7, Place3(i), 0x7, Place3(j))
  {
  }

  // The bits above all fields
  lemma Above5(i: nat)
    requires i < 6
    ensures Up(0x1F, Place5(i)) & 0xC0000000 == 0
    ensures i < 4 ==> Up(0x1F, Place5(i)) & 0xFF000000 == 0
    ensures i < 4 ==> Up(0x1F, Place5(i)) & 0xFFC00000 == 0
  {
  }

  lemma Above3(i: nat)
    requires i < 10
    ensures Up(0x7, Place3(i)) & 0xC0000000 == 0
    ensures i < 9 ==> Up(0x7, Place3(i)) & 0xF8000000 == 0
  {
  }

  lemma Above20()
    ensures Up(0xF, 20) & 0xFF000000 == 0 && Up(0x3, 20) & 0xFFC00000 == 0
  {
  }

  // The length fields begin at bit 20, where the fifth five-bit field would be
  lemma Apart20(i: nat)
    requires i < 7 && i != 4
    ensures Apart(0x1F, Place5(i), 0xF, 20)
    ensures Apart(0xF, 20, 0x1F, Place5(i))
    ensures Apart(0x1F, Place5(i), 0x3, 20)
    ensures Apart(0x3, 20, 0x1F, Place5(i))
  {
  }

  lemma Fits20()
    ensures Fits(0xF, 20) && Fits(0x3, 20)
  {
  }

  // A channel number or a length as the driver shifts it in
  function Code(n: nat): bv32
    requires n < 32
  {
    (n as bv8) as bv32
  }

  lemma CodeNumber(n: nat)
    requires n < 32
    ensures Code(n) as nat == n
  {
  }

  lemma CodeFits5(n: nat)
    requires n < 32
    ensures Keep(Code(n), 0x1F) == Code(n)
  {
  }

  lemma CodeFits4(n: nat)
    requires n < 16
    ensures Keep(Code(n), 0xF) == Code(n)
  {
  }

  lemma CodeFits2(n: nat)
    requires n < 4
    ensures Keep(Code(n), 0x3) == Code(n)
  {
  }

  lemma JlIsSmall(jsqr: bv32)
    ensures Field(jsqr, 0x3, 20) as nat < 4
  {
  }

  // ----- registers and table

  datatype Registers = Registers(sqr1: bv32, sqr2: bv32, sqr3: bv32, smpr1: bv32, smpr2: bv32, jsqr: bv32)

  /** Channels by rank, sample times by channel, and the number of conversions; the same for the injected
      group, where `slots` are JSQ1 to JSQ4; and the bits of the registers that belong to none of these, JSQR
      apart. */
  datatype Table = Table(channels: seq<nat>, times: seq<bv32>, length: nat, slots: seq<nat>, injected: nat,
                         reserved: Reserved)

  datatype Reserved = Reserved(sqr1: bv32, sqr2: bv32, sqr3: bv32, smpr1: bv32, smpr2: bv32)

  function ReservedOf(r: Registers): Reserved {
    Reserved(Keep(r.sqr1, 0xFF000000), Keep(r.sqr2, 0xC0000000), Keep(r.sqr3, 0xC0000000),
             Keep(r.smpr1, 0xF8000000), Keep(r.smpr2, 0xC0000000))
  }

  // The same for JSQR
  predicate SameReserved(v: bv32, w: bv32) {
    Keep(v, 0xFFC00000) == Keep(w, 0xFFC00000)
  }

  function ChannelAt(sqr1: bv32, sqr2: bv32, sqr3: bv32, k: nat): nat
    requires k < RANKS
  {
    if k < 6 then Field(sqr3, 0x1F, RankPlace(k)) as nat
    else if k < 12 then Field(sqr2, 0x1F, RankPlace(k - 6)) as nat
    else Field(sqr1, 0x1F, RankPlace(k - 12)) as nat
  }

  function ChannelsOf(sqr1: bv32, sqr2: bv32, sqr3: bv32): (s: seq<nat>)
    ensures |s| == RANKS
  {
    seq(RANKS, k requires 0 <= k < RANKS => ChannelAt(sqr1, sqr2, sqr3, k))
  }

  function TimeAt(smpr1: bv32, smpr2: bv32, c: nat): bv32
    requires c < CHANNELS
  {
    if c < 10 then Field(smpr2, 0x7, TimePlace(c)) else Field(smpr1, 0x7, TimePlace(c - 10))
  }

  function TimesOf(smpr1: bv32, smpr2: bv32): (s: seq<bv32>)
    ensures |s| == CHANNELS
  {
    seq(CHANNELS, c requires 0 <= c < CHANNELS => TimeAt(smpr1, smpr2, c))
  }

  function LengthOf(sqr1: bv32): nat {
    Field(sqr1, 0xF, 20) as nat + 1
  }

  function SlotsOf(jsqr: bv32): (s: seq<nat>)
    ensures |s| == SLOTS
  {
    seq(SLOTS, k requires 0 <= k < SLOTS => Field(jsqr, 0x1F, RankPlace(k)) as nat)
  }

  function JL(jsqr: bv32): (n: nat)
    ensures n < 4
  {
    JlIsSmall(jsqr);
    Field(jsqr, 0x3, 20) as nat
  }

  function TableOf(r: Registers): (t: Table)
    ensures |t.channels| == RANKS && |t.times| == CHANNELS && |t.slots| == SLOTS && 1 <= t.injected <= SLOTS
  {
    Table(ChannelsOf(r.sqr1, r.sqr2, r.sqr3), TimesOf(r.smpr1, r.smpr2), LengthOf(r.sqr1), SlotsOf(r.jsqr),
          JL(r.jsqr) + 1, ReservedOf(r))
  }

  /** What an injected conversion goes through: n conversions use the last n slots. */
  function Injected(t: Table): (s: seq<nat>)
    requires |t.slots| == SLOTS && 1 <= t.injected <= SLOTS
    ensures |s| == t.injected
  {
    t.slots[SLOTS - t.injected..]
  }

  class Adc {
    var r: Registers
  }

  // ----- the driver

  // Two registers have the same channel at a place
  predicate SameChannel(v: bv32, w: bv32, j: nat)
    requires j < 7
  {
    Field(v, 0x1F, Place5(j)) == Field(w, 0x1F, Place5(j))
  }

  lemma PutChannel(reg: bv32, i: nat, channel: nat)
    requires i < 6 && channel < CHANNELS
    ensures var v := Put(reg, 0x1F, Place5(i), Code(channel));
            Field(v, 0x1F, Place5(i)) as nat == channel && forall j: nat :: j < 6 && j != i ==> SameChannel(v, reg, j)
  {
    hide Field, Put, Fits, Apart, Code, Keep, Place5;
    var v := Put(reg, 0x1F, Place5(i), Code(channel));
    Fits5(i);
    CodeFits5(channel);
    CodeNumber(channel);
    PutIsFound(reg, 0x1F, Place5(i), Code(channel));
    forall j: nat | j < 6 && j != i
      ensures SameChannel(v, reg, j)
    {
      PutOther(reg, i, channel, j);
    }
  }

  lemma PutOther(reg: bv32, i: nat, channel: nat, j: nat)
    requires i < 7 && channel < CHANNELS && j < 7 && i != j
    ensures SameChannel(Put(reg, 0x1F, Place5(i), Code(channel)), reg, j)
  {
    hide Field, Put, Apart, Code, Keep, Place5;
    CodeFits5(channel);
    Apart5(i, j);
    PutElsewhere(reg, 0x1F, Place5(i), Code(channel), 0x1F, Place5(j));
  }

  // Fields other than the one at bit 20 leave both lengths alone
  lemma PutKeepsLength(reg: bv32, i: nat, channel: nat)
    requires i < 7 && i != 4 && channel < CHANNELS
    ensures var v := Put(reg, 0x1F, Place5(i), Code(channel)); LengthOf(v) == LengthOf(reg) && JL(v) == JL(reg)
  {
    hide Field, Put, Apart, Code, Keep, Place5;
    CodeFits5(channel);
    Apart20(i);
    PutElsewhere(reg, 0x1F, Place5(i), Code(channel), 0xF, 20);
    PutElsewhere(reg, 0x1F, Place5(i), Code(channel), 0x3, 20);
  }

  predicate SameTime(v: bv32, w: bv32, j: nat)
    requires j < 10
  {
    Field(v, 0x7, Place3(j)) == Field(w, 0x7, Place3(j))
  }

  lemma PutTime(reg: bv32, i: nat, time: bv32)
    requires i < 10 && time <= 7
    ensures var v := Put(reg, 0x7, Place3(i), time);
            Field(v, 0x7, Place3(i)) == time && forall j: nat :: j < 10 && j != i ==> SameTime(v, reg, j)
  {
    hide Field, Put, Fits, Apart, Keep, Place3;
    var v := Put(reg, 0x7, Place3(i), time);
    Fits3(i);
    TimeFits(time);
    PutIsFound(reg, 0x7, Place3(i), time);
    forall j: nat | j < 10 && j != i
      ensures SameTime(v, reg, j)
    {
      Apart3(i, j);
      PutElsewhere(reg, 0x7, Place3(i), time, 0x7, Place3(j));
    }
  }

  lemma TimeFits(time: bv32)
    requires time <= 7
    ensures Keep(time, 0x7) == time
  {
  }

  // The first part of the two channel functions
  method ConfigureTime(d: Adc, channel: nat, time: bv32)
    requires channel < CHANNELS && time <= 7
    modifies d
    ensures d.r == old(d.r).(smpr1 := d.r.smpr1, smpr2 := d.r.smpr2)
    ensures TimesOf(d.r.smpr1, d.r.smpr2) == TimesOf(old(d.r.smpr1), old(d.r.smpr2))[channel := time]
    ensures ReservedOf(d.r) == ReservedOf(old(d.r))
  {
    hide Put, Place3, TimesOf, Keep, Up;
    TimeFits(time);
    var tmpreg1: bv32;
    if channel > 9 {
      tmpreg1 := d.r.smpr1;
      HighTime(tmpreg1, d.r.smpr2, channel, time);
      Above3(channel - 10);
      PutKeeps(tmpreg1, 0x7, Place3(channel - 10), time, 0xF8000000);
      tmpreg1 := Put(tmpreg1, 0x7, Place3(channel - 10), time);
      d.r := d.r.(smpr1 := tmpreg1);
    } else {
      tmpreg1 := d.r.smpr2;
      LowTime(d.r.smpr1, tmpreg1, channel, time);
      Above3(channel);
      PutKeeps(tmpreg1, 0x7, Place3(channel), time, 0xC0000000);
      tmpreg1 := Put(tmpreg1, 0x7, Place3(channel), time);
      d.r := d.r.(smpr2 := tmpreg1);
    }
  }

  lemma HighTime(smpr1: bv32, smpr2: bv32, c: nat, time: bv32)
    requires 10 <= c < CHANNELS && time <= 7
    ensures TimesOf(Put(smpr1, 0x7, Place3(c - 10), time), smpr2) == TimesOf(smpr1, smpr2)[c := time]
  {
    hide Field, Put, Place3;
    PutTime(smpr1, c - 10, time);
    var v := Put(smpr1, 0x7, Place3(c - 10), time);
    forall j | 10 <= j < CHANNELS && j != c
      ensures TimeAt(v, smpr2, j) == TimeAt(smpr1, smpr2, j)
    {
      assert SameTime(v, smpr1, j - 10);
    }
  }

  lemma LowTime(smpr1: bv32, smpr2: bv32, c: nat, time: bv32)
    requires c < 10 && time <= 7
    ensures TimesOf(smpr1, Put(smpr2, 0x7, Place3(c), time)) == TimesOf(smpr1, smpr2)[c := time]
  {
    hide Field, Put, Place3;
    PutTime(smpr2, c, time);
    var v := Put(smpr2, 0x7, Place3(c), time);
    forall j: nat | j < 10 && j != c
      ensures TimeAt(smpr1, v, j) == TimeAt(smpr1, smpr2, j)
    {
      assert SameTime(v, smpr2, j);
    }
  }

  // The second part of ADC_RegularChannelConfig
  method ConfigureRank(d: Adc, channel: nat, rank: nat)
    requires channel < CHANNELS && 1 <= rank <= RANKS
    modifies d
    ensures d.r == old(d.r).(sqr1 := d.r.sqr1, sqr2 := d.r.sqr2, sqr3 := d.r.sqr3)
    ensures LengthOf(d.r.sqr1) == LengthOf(old(d.r.sqr1)) && ReservedOf(d.r) == ReservedOf(old(d.r))
    ensures ChannelsOf(d.r.sqr1, d.r.sqr2, d.r.sqr3) ==
            ChannelsOf(old(d.r.sqr1), old(d.r.sqr2), old(d.r.sqr3))[rank - 1 := channel]
  {
    hide Put, Place5, ChannelsOf, LengthOf, Code, Keep, Up;
    CodeFits5(channel);
    var tmpreg1: bv32;
    if rank < 7 {
      tmpreg1 := d.r.sqr3;
      ThirdRegister(d.r.sqr1, d.r.sqr2, tmpreg1, rank - 1, channel);
      Above5(rank - 1);
      PutKeeps(tmpreg1, 0x1F, Place5(rank - 1), Code(channel), 0xC0000000);
      tmpreg1 := Put(tmpreg1, 0x1F, Place5(rank - 1), Code(channel));
      d.r := d.r.(sqr3 := tmpreg1);
    } else if rank < 13 {
      tmpreg1 := d.r.sqr2;
      SecondRegister(d.r.sqr1, tmpreg1, d.r.sqr3, rank - 7, channel);
      Above5(rank - 7);
      PutKeeps(tmpreg1, 0x1F, Place5(rank - 7), Code(channel), 0xC0000000);
      tmpreg1 := Put(tmpreg1, 0x1F, Place5(rank - 7), Code(channel));
      d.r := d.r.(sqr2 := tmpreg1);
    } else {
      tmpreg1 := d.r.sqr1;
      FirstRegister(tmpreg1, d.r.sqr2, d.r.sqr3, rank - 13, channel);
      Above5(rank - 13);
      PutKeeps(tmpreg1, 0x1F, Place5(rank - 13), Code(channel), 0xFF000000);
      tmpreg1 := Put(tmpreg1, 0x1F, Place5(rank - 13), Code(channel));
      d.r := d.r.(sqr1 := tmpreg1);
    }
  }

  lemma ThirdRegister(sqr1: bv32, sqr2: bv32, sqr3: bv32, i: nat, channel: nat)
    requires i < 6 && channel < CHANNELS
    ensures ChannelsOf(sqr1, sqr2, Put(sqr3, 0x1F, Place5(i), Code(channel))) ==
            ChannelsOf(sqr1, sqr2, sqr3)[i := channel]
  {
    hide Field, Put, Place5, Code;
    PutChannel(sqr3, i, channel);
    var v := Put(sqr3, 0x1F, Place5(i), Code(channel));
    forall k: nat | k < 6 && k != i
      ensures ChannelAt(sqr1, sqr2, v, k) == ChannelAt(sqr1, sqr2, sqr3, k)
    {
      assert SameChannel(v, sqr3, k);
    }
  }

  lemma SecondRegister(sqr1: bv32, sqr2: bv32, sqr3: bv32, i: nat, channel: nat)
    requires i < 6 && channel < CHANNELS
    ensures ChannelsOf(sqr1, Put(sqr2, 0x1F, Place5(i), Code(channel)), sqr3) ==
            ChannelsOf(sqr1, sqr2, sqr3)[i + 6 := channel]
  {
    hide Field, Put, Place5, Code;
    PutChannel(sqr2, i, channel);
    var v := Put(sqr2, 0x1F, Place5(i), Code(channel));
    forall k: nat | 6 <= k < 12 && k != i + 6
      ensures ChannelAt(sqr1, v, sqr3, k) == ChannelAt(sqr1, sqr2, sqr3, k)
    {
      assert SameChannel(v, sqr2, k - 6);
    }
  }

  // Here the length must survive
  lemma FirstRegister(sqr1: bv32, sqr2: bv32, sqr3: bv32, i: nat, channel: nat)
    requires i < 4 && channel < CHANNELS
    ensures var v := Put(sqr1, 0x1F, Place5(i), Code(channel));
            && LengthOf(v) == LengthOf(sqr1)
            && ChannelsOf(v, sqr2, sqr3) == ChannelsOf(sqr1, sqr2, sqr3)[i + 12 := channel]
  {
    hide Field, Put, Place5, Code, LengthOf;
    PutChannel(sqr1, i, channel);
    PutKeepsLength(sqr1, i, channel);
    var v := Put(sqr1, 0x1F, Place5(i), Code(channel));
    forall k: nat | 12 <= k < RANKS && k != i + 12
      ensures ChannelAt(v, sqr2, sqr3, k) == ChannelAt(sqr1, sqr2, sqr3, k)
    {
      assert SameChannel(v, sqr1, k - 12);
    }
  }

  /** ADC_RegularChannelConfig changes the rank and the sample time of the channel, and nothing else. */
  method RegularChannelConfig(d: Adc, channel: nat, rank: nat, time: bv32)
    requires channel < CHANNELS && 1 <= rank <= RANKS && time <= 7
    modifies d
    ensures var t := TableOf(old(d.r));
            TableOf(d.r) == t.(channels := t.channels[rank - 1 := channel], times := t.times[channel := time])
    ensures d.r.jsqr == old(d.r.jsqr)
  {
    hide ChannelsOf, TimesOf, LengthOf, SlotsOf, JL, ReservedOf;
    ConfigureTime(d, channel, time);
    ConfigureRank(d, channel, rank);
  }

  lemma ClearLength(reg: bv32, v: bv32)
    ensures Set(Keep(reg, 0xFF0FFFFF), Up(v, 20)) == Put(reg, 0xF, 20, v)
  {
  }

  lemma ClearInjectedLength(reg: bv32, v: bv32)
    ensures Set(Keep(reg, 0xFFCFFFFF), Up(v, 20)) == Put(reg, 0x3, 20, v)
  {
  }

  lemma PutLength(sqr1: bv32, sqr2: bv32, sqr3: bv32, n: nat)
    requires 1 <= n <= RANKS
    ensures var v := Put(sqr1, 0xF, 20, Code(n - 1));
            LengthOf(v) == n && ChannelsOf(v, sqr2, sqr3) == ChannelsOf(sqr1, sqr2, sqr3)
  {
    hide Field, Put, Fits, Apart, Code, Keep, Place5;
    var v := Put(sqr1, 0xF, 20, Code(n - 1));
    Fits20();
    CodeFits4(n - 1);
    CodeNumber(n - 1);
    PutIsFound(sqr1, 0xF, 20, Code(n - 1));
    forall k: nat | 12 <= k < RANKS
      ensures ChannelAt(v, sqr2, sqr3, k) == ChannelAt(sqr1, sqr2, sqr3, k)
    {
      Apart20(k - 12);
      PutElsewhere(sqr1, 0xF, 20, Code(n - 1), 0x1F, Place5(k - 12));
    }
  }

  lemma PutInjectedLength(jsqr: bv32, n: nat)
    requires 1 <= n <= SLOTS
    ensures var v := Put(jsqr, 0x3, 20, Code(n - 1)); JL(v) + 1 == n && SlotsOf(v) == SlotsOf(jsqr)
  {
    hide Field, Put, Fits, Apart, Code, Keep, Place5;
    var v := Put(jsqr, 0x3, 20, Code(n - 1));
    Fits20();
    CodeFits2(n - 1);
    CodeNumber(n - 1);
    PutIsFound(jsqr, 0x3, 20, Code(n - 1));
    forall k: nat | k < SLOTS
      ensures Field(v, 0x1F, RankPlace(k)) == Field(jsqr, 0x1F, RankPlace(k))
    {
      Apart20(k);
      PutElsewhere(jsqr, 0x3, 20, Code(n - 1), 0x1F, Place5(k));
    }
  }

  /** The part of ADC_Init that sets the number of conversions: ranks 13 to 16, in the same register, stay. */
  method Init(d: Adc, nbrOfConversion: nat)
    requires 1 <= nbrOfConversion <= RANKS
    modifies d
    ensures TableOf(d.r) == TableOf(old(d.r)).(length := nbrOfConversion) && d.r.jsqr == old(d.r.jsqr)
  {
    hide Put, Set, Keep, Up, Code, ChannelsOf, TimesOf, LengthOf, SlotsOf, JL;
    var tmpreg1 := d.r.sqr1;
    Above20();
    CodeFits4(nbrOfConversion - 1);
    PutKeeps(tmpreg1, 0xF, 20, Code(nbrOfConversion - 1), 0xFF000000);
    ClearLength(tmpreg1, Code(nbrOfConversion - 1));
    PutLength(tmpreg1, d.r.sqr2, d.r.sqr3, nbrOfConversion);
    tmpreg1 := Keep(tmpreg1, 0xFF0FFFFF);
    tmpreg1 := Set(tmpreg1, Up(Code(nbrOfConversion - 1), 20));
    d.r := d.r.(sqr1 := tmpreg1);
  }

  /** ADC_InjectedSequencerLengthConfig: slots stay, so that the last min(m, n) conversions stay. */
  method InjectedSequencerLengthConfig(d: Adc, length: nat)
    requires 1 <= length <= SLOTS
    modifies d
    ensures TableOf(d.r) == TableOf(old(d.r)).(injected := length) && SameReserved(d.r.jsqr, old(d.r.jsqr))
  {
    hide Put, Set, Keep, Up, Code, ChannelsOf, TimesOf, LengthOf, SlotsOf, JL;
    var tmpreg1 := d.r.jsqr;
    Above20();
    CodeFits2(length - 1);
    PutKeeps(tmpreg1, 0x3, 20, Code(length - 1), 0xFFC00000);
    ClearInjectedLength(tmpreg1, Code(length - 1));
    PutInjectedLength(tmpreg1, length);
    tmpreg1 := Keep(tmpreg1, 0xFFCFFFFF);
    tmpreg1 := Set(tmpreg1, Up(Code(length - 1), 20));
    d.r := d.r.(jsqr := tmpreg1);
  }

  // JSQR as ADC_InjectedChannelConfig writes it
  function InjectedWord(jsqr: bv32, channel: nat, rank: nat): bv32
    requires channel < CHANNELS && 1 <= rank <= SLOTS
  {
    Put(jsqr, 0x1F, Place5(rank + 3 - (JL(jsqr) + 1)), Code(channel))
  }

  /** What the call makes of the injected group. A rank within the length gets its channel. One that lies beyond
      it is written above the four slots, and there rank length + 1 shares its place with the length, which takes
      the two low bits of the channel. */
  function AfterInjectedRank(t: Table, channel: nat, rank: nat): (u: Table)
    requires |t.slots| == SLOTS && 1 <= t.injected <= SLOTS && 1 <= rank <= SLOTS
    ensures |u.slots| == SLOTS && 1 <= u.injected <= SLOTS
  {
    if rank <= t.injected then t.(slots := t.slots[SLOTS - t.injected + rank - 1 := channel])
    else if rank == t.injected + 1 then t.(injected := channel % 4 + 1)
    else t
  }

  lemma InjectedWordReads(jsqr: bv32, channel: nat, rank: nat)
    requires channel < CHANNELS && 1 <= rank <= SLOTS
    ensures var v := InjectedWord(jsqr, channel, rank);
            var n := JL(jsqr) + 1;
            && SlotsOf(v) == (if rank <= n then SlotsOf(jsqr)[SLOTS - n + rank - 1 := channel] else SlotsOf(jsqr))
            && JL(v) == if rank == n + 1 then channel % 4 else JL(jsqr)
  {
    hide Field, Put, Place5, Code, JL;
    var i := rank + 3 - (JL(jsqr) + 1);
    var v := InjectedWord(jsqr, channel, rank);
    if i < 4 {
      PutChannel(jsqr, i, channel);
    }
    forall k: nat | k < SLOTS && k != i
      ensures SlotsOf(v)[k] == SlotsOf(jsqr)[k]
    {
      PutOther(jsqr, i, channel, k);
    }
    if i == 4 {
      LowBits(jsqr, channel);
    } else {
      PutKeepsLength(jsqr, i, channel);
    }
  }

  // All bits but those of place i
  function Outside(i: nat): bv32
    requires i < 7
  {
    !Up(0x1F, RankPlace(i))
  }

  // Two values of JSQR differ in one place at most, which holds the channel, or as much of it as there is room
  predicate OnlyPlace(v: bv32, w: bv32, i: nat, channel: nat)
    requires i < 7
  {
    && Keep(w, Outside(i)) == Keep(v, Outside(i))
    && Field(w, 0x1F, RankPlace(i)) as nat == if i < 6 then channel else channel % 4
  }

  lemma InjectedWordPlace(jsqr: bv32, channel: nat, rank: nat)
    requires channel < CHANNELS && 1 <= rank <= SLOTS
    ensures OnlyPlace(jsqr, InjectedWord(jsqr, channel, rank), rank + 3 - (JL(jsqr) + 1), channel)
  {
    hide Put, Field, Code, Place5, RankPlace, Keep, JL, Up, Outside;
    var i := rank + 3 - (JL(jsqr) + 1);
    CodeFits5(channel);
    OutsideApart(i);
    PutKeeps(jsqr, 0x1F, Place5(i), Code(channel), Outside(i));
    if i < 6 {
      PutChannel(jsqr, i, channel);
    } else {
      SixthPlace(jsqr, channel);
    }
  }

  lemma OutsideApart(i: nat)
    requires i < 7
    ensures Up(0x1F, Place5(i)) & Outside(i) == 0
  {
    hide Up, Place5, RankPlace;
    NotThere(Up(0x1F, Place5(i)));
  }

  lemma NotThere(mask: bv32)
    ensures mask & !mask == 0
  {
  }

  lemma SixthPlace(jsqr: bv32, channel: nat)
    requires channel < CHANNELS
    ensures Field(Put(jsqr, 0x1F, Place5(6), Code(channel)), 0x1F, Place5(6)) as nat == channel % 4
  {
    hide Field, Put, Code, Place5;
    CodeLow(channel);
    TopPlace(jsqr, Code(channel));
  }

  lemma TopPlace(jsqr: bv32, v: bv32)
    ensures Field(Put(jsqr, 0x1F, Place5(6), v), 0x1F, Place5(6)) == v & 0x3
  {
  }

  lemma InjectedWordKeeps(jsqr: bv32, channel: nat, rank: nat)
    requires channel < CHANNELS && 1 <= rank <= JL(jsqr) + 1
    ensures SameReserved(InjectedWord(jsqr, channel, rank), jsqr)
  {
    hide Put, Code, Place5, Keep, JL, Up;
    var i := rank + 3 - (JL(jsqr) + 1);
    CodeFits5(channel);
    Above5(i);
    PutKeeps(jsqr, 0x1F, Place5(i), Code(channel), 0xFFC00000);
  }

  /** ADC_InjectedChannelConfig, for every rank that assert_param lets through: the sample time of the channel
      and, within the length, the conversion of that rank change, and nothing else. */
  method InjectedChannelConfig(d: Adc, channel: nat, rank: nat, time: bv32)
    requires channel < CHANNELS && 1 <= rank <= SLOTS && time <= 7
    modifies d
    ensures var t := TableOf(old(d.r));
            && TableOf(d.r) == AfterInjectedRank(t, channel, rank).(times := t.times[channel := time])
            && (rank <= t.injected ==>
                  && Injected(TableOf(d.r)) == Injected(t)[rank - 1 := channel]
                  && SameReserved(d.r.jsqr, old(d.r.jsqr)))
            && OnlyPlace(old(d.r.jsqr), d.r.jsqr, rank + 3 - t.injected, channel)
  {
    hide Put, Code, Place5, ChannelsOf, TimesOf, LengthOf, SlotsOf, JL, SameReserved, Keep, OnlyPlace;
    InjectedWordPlace(d.r.jsqr, channel, rank);
    if rank <= JL(d.r.jsqr) + 1 {
      InjectedWordKeeps(d.r.jsqr, channel, rank);
    }
    ConfigureTime(d, channel, time);
    var tmpreg1 := d.r.jsqr;
    InjectedWordReads(tmpreg1, channel, rank);
    var tmpreg3 := JL(tmpreg1);
    tmpreg1 := Put(tmpreg1, 0x1F, Place5(rank + 3 - (tmpreg3 + 1)), Code(channel));
    d.r := d.r.(jsqr := tmpreg1);
  }

  // ----- ranks beyond the length

  /** A configuration leaves the length as it is exactly when it is for another rank than length + 1, or its
      channel has the length in its two lowest bits. */
  lemma LengthKeptIff(t: Table, channel: nat, rank: nat)
    requires Shaped(t) && channel < CHANNELS && 1 <= rank <= SLOTS
    ensures AfterInjectedRank(t, channel, rank).injected == t.injected <==>
            rank != t.injected + 1 || channel % 4 == t.injected - 1
  {
  }

  /** For example: with one injected conversion, configuring rank 2 for channel 3 makes the sequence four long,
      and channel 3 is not in it. */
  lemma LengthLost(t: Table)
    requires Shaped(t) && t.injected == 1 && 3 !in t.slots
    ensures var u := AfterInjectedRank(t, 3, 2); u.injected == 4 && 3 !in Injected(u)
  {
  }

  lemma LowBits(jsqr: bv32, channel: nat)
    requires channel < CHANNELS
    ensures JL(Put(jsqr, 0x1F, Place5(4), Code(channel))) == channel % 4
  {
    hide Field, Put, Code;
    CodeLow(channel);
    FourthPlace(jsqr, Code(channel));
  }

  lemma CodeLow(n: nat)
    requires n < CHANNELS
    ensures (Code(n) & 0x3) as nat == n % 4
  {
  }

  lemma FourthPlace(jsqr: bv32, v: bv32)
    ensures Field(Put(jsqr, 0x1F, Place5(4), v), 0x3, 20) == v & 0x3
  {
  }

  // ----- runs

  datatype Command =
    | SetLength(n: nat)
    | SetRank(channel: nat, rank: nat, time: bv32)
    | SetInjectedLength(n: nat)
    | SetInjectedRank(channel: nat, rank: nat, time: bv32)

  predicate Shaped(t: Table) {
    |t.channels| == RANKS && |t.times| == CHANNELS && |t.slots| == SLOTS && 1 <= t.injected <= SLOTS
  }

  predicate Possible(command: Command) {
    match command
    case SetLength(n) => 1 <= n <= RANKS
    case SetRank(channel, rank, time) => channel < CHANNELS && 1 <= rank <= RANKS && time <= 7
    case SetInjectedLength(n) => 1 <= n <= SLOTS
    case SetInjectedRank(channel, rank, time) => channel < CHANNELS && 1 <= rank <= SLOTS && time <= 7
  }

  // What a call does to the table
  function Applied(t: Table, command: Command): (u: Table)
    requires Shaped(t) && Possible(command)
    ensures Shaped(u)
  {
    match command
    case SetLength(n) => t.(length := n)
    case SetRank(channel, rank, time) =>
      t.(channels := t.channels[rank - 1 := channel], times := t.times[channel := time])
    case SetInjectedLength(n) => t.(injected := n)
    case SetInjectedRank(channel, rank, time) =>
      AfterInjectedRank(t, channel, rank).(times := t.times[channel := time])
  }

  predicate AllPossible(commands: seq<Command>) {
    forall i :: 0 <= i < |commands| ==> Possible(commands[i])
  }

  function AllApplied(t: Table, commands: seq<Command>): (u: Table)
    requires Shaped(t) && AllPossible(commands)
    ensures Shaped(u)
    decreases |commands|
  {
    if commands == [] then t else AllApplied(Applied(t, commands[0]), commands[1..])
  }

  /** Over any run of the four functions the six registers stand for what the calls do to the table. */
  method Perform(d: Adc, commands: seq<Command>)
    requires AllPossible(commands)
    modifies d
    ensures TableOf(d.r) == AllApplied(TableOf(old(d.r)), commands)
  {
    hide TableOf;
    var i := 0;
    while i < |commands|
      invariant i <= |commands| && Shaped(TableOf(d.r)) && AllPossible(commands[i..])
      invariant AllApplied(TableOf(d.r), commands[i..]) == AllApplied(TableOf(old(d.r)), commands)
    {
      assert commands[i..][0] == commands[i] && commands[i..][1..] == commands[i + 1..];
      match commands[i] {
        case SetLength(n) => Init(d, n);
        case SetRank(channel, rank, time) => RegularChannelConfig(d, channel, rank, time);
        case SetInjectedLength(n) => InjectedSequencerLengthConfig(d, n);
        case SetInjectedRank(channel, rank, time) => InjectedChannelConfig(d, channel, rank, time);
      }
      i := i + 1;
    }
  }

  // ----- laws of the table

  /** A new injected length m leaves the last conversions of the old sequence, as many as both have. */
  lemma NewLength(t: Table, m: nat)
    requires Shaped(t) && 1 <= m <= SLOTS
    ensures var u := Injected(Applied(t, SetInjectedLength(m)));
            if m <= t.injected then u == Injected(t)[t.injected - m..] else u[m - t.injected..] == Injected(t)
  {
  }

  predicate InjectedRanksOnly(commands: seq<Command>, n: nat) {
    forall i :: 0 <= i < |commands| ==>
      && commands[i].SetInjectedRank? && commands[i].channel < CHANNELS
      && 1 <= commands[i].rank <= n && commands[i].time <= 7
  }

  // Call i is the last one for that rank
  ghost predicate LastFor(commands: seq<Command>, n: nat, rank: nat, i: nat)
    requires InjectedRanksOnly(commands, n)
  {
    i < |commands| && commands[i].rank == rank && forall j :: i < j < |commands| ==> commands[j].rank != rank
  }

  ghost predicate Unnamed(commands: seq<Command>, n: nat, rank: nat)
    requires InjectedRanksOnly(commands, n)
  {
    forall i :: 0 <= i < |commands| ==> commands[i].rank != rank
  }

  /** Setting the injected length to n and then configuring ranks 1 to n in any order, with repeats, gives the
      sequence of the channels last given for each rank; a rank that no call names keeps its slot. */
  lemma InjectedRun(t: Table, n: nat, commands: seq<Command>)
    requires Shaped(t) && 1 <= n <= SLOTS && InjectedRanksOnly(commands, n)
    ensures var u := Applied(t, SetInjectedLength(n));
            && AllPossible(commands) && AllApplied(u, commands).injected == n
            && |Injected(AllApplied(u, commands))| == n
            && (forall rank: nat, i: nat :: 1 <= rank <= n && LastFor(commands, n, rank, i) ==>
                  Injected(AllApplied(u, commands))[rank - 1] == commands[i].channel)
            && (forall rank: nat :: 1 <= rank <= n && Unnamed(commands, n, rank) ==>
                  Injected(AllApplied(u, commands))[rank - 1] == Injected(u)[rank - 1])
  {
    hide AllApplied, Injected;
    var u := Applied(t, SetInjectedLength(n));
    RanksApplied(u, commands);
    forall rank: nat, i: nat | 1 <= rank <= n && LastFor(commands, n, rank, i)
      ensures Injected(AllApplied(u, commands))[rank - 1] == commands[i].channel
    {
      LastRank(u, commands, rank, i);
    }
    forall rank: nat | 1 <= rank <= n && Unnamed(commands, n, rank)
      ensures Injected(AllApplied(u, commands))[rank - 1] == Injected(u)[rank - 1]
    {
      NoRank(u, commands, rank);
    }
  }

  lemma {:induction false} RanksApplied(t: Table, commands: seq<Command>)
    requires Shaped(t) && InjectedRanksOnly(commands, t.injected)
    ensures AllPossible(commands) && AllApplied(t, commands).injected == t.injected
    decreases |commands|
  {
    if commands != [] {
      RanksApplied(Applied(t, commands[0]), commands[1..]);
    }
  }

  lemma {:induction false} NoRank(t: Table, commands: seq<Command>, rank: nat)
    requires Shaped(t) && InjectedRanksOnly(commands, t.injected) && AllPossible(commands) && 1 <= rank <= t.injected
    requires Unnamed(commands, t.injected, rank)
    ensures AllApplied(t, commands).injected == t.injected
    ensures Injected(AllApplied(t, commands))[rank - 1] == Injected(t)[rank - 1]
    decreases |commands|
  {
    if commands != [] {
      NoRank(Applied(t, commands[0]), commands[1..], rank);
    }
  }

  lemma {:induction false} LastRank(t: Table, commands: seq<Command>, rank: nat, i: nat)
    requires Shaped(t) && InjectedRanksOnly(commands, t.injected) && AllPossible(commands) && 1 <= rank <= t.injected
    requires LastFor(commands, t.injected, rank, i)
    ensures AllApplied(t, commands).injected == t.injected
    ensures Injected(AllApplied(t, commands))[rank - 1] == commands[i].channel
    decreases |commands|
  {
    if i == 0 {
      NoRank(Applied(t, commands[0]), commands[1..], rank);
    } else {
      LastRank(Applied(t, commands[0]), commands[1..], rank, i - 1);
    }
  }
}
