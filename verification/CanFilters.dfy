/** The filter banks of the CAN controllers. Mode, scale, FIFO assignment and activation of bank n are bit n of
    four registers; its identifiers and masks are in FR1 and FR2. CAN_FilterInit keeps all of them in agreement
    with a plain table of banks.

    FINIT is bit 0 of FMR. What the controller makes of a bank follows the reference manual:

        32 bits    STID 31..21, EXID 20..3, IDE 2, RTR 1: the layout of a mailbox
        16 bits    two halves in each register, the lower one first */
module CanFilters {
  import opened Bits
  import opened CanFrames

  const BANKS: nat := 28

  // ((uint32_t)1) << CAN_FilterNumber
  function Bit(n: nat): bv32
    requires n < 32
  {
    Shifted(n as bv8)
  }

  function Shifted(n: bv8): bv32
    requires n < 32
  {
    1 << n
  }

  lemma ShiftedDiffer(n: bv8, m: bv8)
    requires n < 32 && m < 32 && n != m
    ensures Shifted(n) & Shifted(m) == 0
  {
  }

  lemma ShiftedIsSome(n: bv8)
    requires n < 32
    ensures Shifted(n) != 0
  {
  }

  lemma BankNumbers(n: nat, m: nat)
    requires n < 32 && m < 32 && n != m
    ensures n as bv8 != m as bv8
  {
    BackAndForth(n);
    BackAndForth(m);
  }

  lemma BackAndForth(n: nat)
    requires n < 32
    ensures (n as bv8) as nat == n
  {
  }

  lemma BankNumber(n: nat)
    requires n < 32
    ensures n as bv8 < 32
  {
  }

  // Bit n of a register, counted from the low end
  predicate IsOn(reg: bv32, n: nat)
    requires n < 32
  {
    IsOnAt(reg, n as bv8)
  }

  predicate IsOnAt(reg: bv32, n: bv8)
    requires n < 32
  {
    (reg >> n) & 1 == 1
  }

  lemma OnIsAny(reg: bv32, n: nat)
    requires n < 32
    ensures IsOn(reg, n) == Any(reg, Bit(n))
  {
    hide IsOnAt, Any, Shifted;
    BankNumber(n);
    ShiftedReads(reg, n as bv8);
  }

  lemma ShiftedReads(reg: bv32, n: bv8)
    requires n < 32
    ensures IsOnAt(reg, n) == Any(reg, Shifted(n))
  {
  }

  // ----- registers

  datatype Words = Words(fr1: bv32, fr2: bv32)

  datatype Registers = Registers(fmr: bv32, fm1r: bv32, fs1r: bv32, ffa1r: bv32, fa1r: bv32, words: seq<Words>)

  predicate ValidFor(f: Registers) {
    |f.words| == BANKS
  }

  predicate Initializing(f: Registers) {
    Any(f.fmr, 0x1)
  }

  // ----- what a bank is

  datatype Filter =
    | Mask32(id: bv32, mask: bv32)
    | List32(first: bv32, second: bv32)
    | Mask16(id1: bv16, mask1: bv16, id2: bv16, mask2: bv16)
    | List16(a: bv16, b: bv16, c: bv16, d: bv16)

  datatype Entry = Entry(active: bool, fifo1: bool, filter: Filter)

  function Low(w: bv32): bv16 {
    (w & 0xFFFF) as bv16
  }

  function High(w: bv32): bv16 {
    (w >> 16) as bv16
  }

  // ((0x0000FFFF & (uint32_t)high) << 16) | (0x0000FFFF & (uint32_t)low)
  function Joined(high: bv16, low: bv16): bv32 {
    ((0x0000FFFF & (high as bv32)) << 16) | (0x0000FFFF & (low as bv32))
  }

  lemma JoinedHigh(high: bv16, low: bv16)
    ensures High(Joined(high, low)) == high
  {
  }

  lemma JoinedLow(high: bv16, low: bv16)
    ensures Low(Joined(high, low)) == low
  {
  }

  // How the controller reads a bank
  function FilterOf(list: bool, wide: bool, w: Words): Filter {
    if wide then if list then List32(w.fr1, w.fr2) else Mask32(w.fr1, w.fr2)
    else if list then List16(Low(w.fr1), High(w.fr1), Low(w.fr2), High(w.fr2))
    else Mask16(Low(w.fr1), High(w.fr1), Low(w.fr2), High(w.fr2))
  }

  function EntryAt(f: Registers, n: nat): Entry
    requires ValidFor(f) && n < BANKS
  {
    Entry(IsOn(f.fa1r, n), IsOn(f.ffa1r, n), FilterOf(IsOn(f.fm1r, n), IsOn(f.fs1r, n), f.words[n]))
  }

  /** The table of banks that the registers stand for. */
  function Table(f: Registers): (t: seq<Entry>)
    requires ValidFor(f)
    ensures |t| == BANKS
  {
    seq(BANKS, n requires 0 <= n < BANKS => EntryAt(f, n))
  }

  // ----- the peripheral

  /** FM1R, FS1R, FFA1R and the words of a bank may be written only while FINIT is set, and the words only
      while the bank is inactive: these are the preconditions of the writes. */
  class CanFilter {
    var f: Registers

    ghost predicate Valid()
      reads this
    {
      ValidFor(f)
    }

    method WriteFMR(v: bv32)
      modifies this
      ensures f == old(f).(fmr := v)
    {
      f := f.(fmr := v);
    }

    method WriteFA1R(v: bv32)
      modifies this
      ensures f == old(f).(fa1r := v)
    {
      f := f.(fa1r := v);
    }

    method WriteFS1R(v: bv32)
      requires Initializing(f)
      modifies this
      ensures f == old(f).(fs1r := v)
    {
      f := f.(fs1r := v);
    }

    method WriteFM1R(v: bv32)
      requires Initializing(f)
      modifies this
      ensures f == old(f).(fm1r := v)
    {
      f := f.(fm1r := v);
    }

    method WriteFFA1R(v: bv32)
      requires Initializing(f)
      modifies this
      ensures f == old(f).(ffa1r := v)
    {
      f := f.(ffa1r := v);
    }

    method WriteFR1(n: nat, v: bv32)
      requires Valid() && n < BANKS && Initializing(f) && !IsOn(f.fa1r, n)
      modifies this
      ensures f == old(f).(words := old(f.words)[n := old(f.words)[n].(fr1 := v)])
    {
      f := f.(words := f.words[n := f.words[n].(fr1 := v)]);
    }

    method WriteFR2(n: nat, v: bv32)
      requires Valid() && n < BANKS && Initializing(f) && !IsOn(f.fa1r, n)
      modifies this
      ensures f == old(f).(words := old(f.words)[n := old(f.words)[n].(fr2 := v)])
    {
      f := f.(words := f.words[n := f.words[n].(fr2 := v)]);
    }
  }

  // ----- CAN_FilterInit

  datatype FilterMode = IdMask | IdList

  datatype FilterScale = Scale16bit | Scale32bit

  datatype FilterFifo = Fifo0 | Fifo1

  // CAN_FilterInitTypeDef
  datatype FilterInitStruct = FilterInitStruct(
    IdHigh: bv16, IdLow: bv16, MaskIdHigh: bv16, MaskIdLow: bv16,
    FIFOAssignment: FilterFifo, Number: nat, Mode: FilterMode, Scale: FilterScale, Activation: bool)

  predicate Allowed(s: FilterInitStruct) {
    s.Number < BANKS
  }

  /** What the fields of the structure are documented to mean. */
  function Asked(s: FilterInitStruct): Entry {
    Entry(s.Activation, s.FIFOAssignment == Fifo1,
          match (s.Scale, s.Mode)
          case (Scale32bit, IdMask) => Mask32(Joined(s.IdHigh, s.IdLow), Joined(s.MaskIdHigh, s.MaskIdLow))
          case (Scale32bit, IdList) => List32(Joined(s.IdHigh, s.IdLow), Joined(s.MaskIdHigh, s.MaskIdLow))
          case (Scale16bit, IdMask) => Mask16(s.IdLow, s.MaskIdLow, s.IdHigh, s.MaskIdHigh)
          case (Scale16bit, IdList) => List16(s.IdLow, s.MaskIdLow, s.IdHigh, s.MaskIdHigh))
  }

  // Two registers have the same bits but for bit n
  ghost predicate SameElsewhere(v: bv32, w: bv32, n: nat) {
    forall m: nat :: m < 32 && m != n ==> IsOn(v, m) == IsOn(w, m)
  }

  lemma SetBank(reg: bv32, n: nat)
    requires n < 32
    ensures IsOn(Set(reg, Bit(n)), n) && SameElsewhere(Set(reg, Bit(n)), reg, n)
  {
    hide Any, Set, Shifted, IsOn;
    BankNumber(n);
    ShiftedIsSome(n as bv8);
    SetSets(reg, Bit(n));
    OnIsAny(Set(reg, Bit(n)), n);
    forall m: nat | m < 32 && m != n
      ensures IsOn(Set(reg, Bit(n)), m) == IsOn(reg, m)
    {
      Apart(n, m);
      SetOther(reg, Bit(n), Bit(m));
      OnIsAny(Set(reg, Bit(n)), m);
      OnIsAny(reg, m);
    }
  }

  lemma ClearBank(reg: bv32, n: nat)
    requires n < 32
    ensures !IsOn(Clear(reg, Bit(n)), n) && SameElsewhere(Clear(reg, Bit(n)), reg, n)
  {
    hide Any, Clear, Bit, IsOn;
    ClearClears(reg, Bit(n));
    OnIsAny(Clear(reg, Bit(n)), n);
    forall m: nat | m < 32 && m != n
      ensures IsOn(Clear(reg, Bit(n)), m) == IsOn(reg, m)
    {
      Apart(n, m);
      ClearOther(reg, Bit(n), Bit(m));
      OnIsAny(Clear(reg, Bit(n)), m);
      OnIsAny(reg, m);
    }
  }

  lemma Apart(n: nat, m: nat)
    requires n < 32 && m < 32 && n != m
    ensures Bit(n) & Bit(m) == 0
  {
    BankNumber(n);
    BankNumber(m);
    BankNumbers(n, m);
    ShiftedDiffer(n as bv8, m as bv8);
  }

  // Scale and words of bank n, which must be inactive
  method WriteWords(c: CanFilter, s: FilterInitStruct)
    requires c.Valid() && Allowed(s) && Initializing(c.f) && !IsOn(c.f.fa1r, s.Number)
    modifies c
    ensures c.Valid()
    ensures c.f == old(c.f).(fs1r := c.f.fs1r, words := old(c.f.words)[s.Number := c.f.words[s.Number]])
    ensures IsOn(c.f.fs1r, s.Number) == (s.Scale == Scale32bit) && SameElsewhere(c.f.fs1r, old(c.f.fs1r), s.Number)
    ensures c.f.words[s.Number] ==
              if s.Scale == Scale32bit then Words(Joined(s.IdHigh, s.IdLow), Joined(s.MaskIdHigh, s.MaskIdLow))
              else Words(Joined(s.MaskIdLow, s.IdLow), Joined(s.MaskIdHigh, s.IdHigh))
  {
    hide Any, Set, Clear, Bit, IsOn, Joined, SameElsewhere;
    var n := s.Number;
    if s.Scale == Scale16bit {
      ClearBank(c.f.fs1r, n);
      c.WriteFS1R(Clear(c.f.fs1r, Bit(n)));
      c.WriteFR1(n, Joined(s.MaskIdLow, s.IdLow));
      c.WriteFR2(n, Joined(s.MaskIdHigh, s.IdHigh));
    }
    if s.Scale == Scale32bit {
      SetBank(c.f.fs1r, n);
      c.WriteFS1R(Set(c.f.fs1r, Bit(n)));
      c.WriteFR1(n, Joined(s.IdHigh, s.IdLow));
      c.WriteFR2(n, Joined(s.MaskIdHigh, s.MaskIdLow));
    }
  }

  // Mode, FIFO and activation of bank n
  method WriteFlags(c: CanFilter, s: FilterInitStruct)
    requires c.Valid() && Allowed(s) && Initializing(c.f) && !IsOn(c.f.fa1r, s.Number)
    modifies c
    ensures c.Valid() && c.f == old(c.f).(fm1r := c.f.fm1r, ffa1r := c.f.ffa1r, fa1r := c.f.fa1r)
    ensures IsOn(c.f.fm1r, s.Number) == (s.Mode == IdList) && SameElsewhere(c.f.fm1r, old(c.f.fm1r), s.Number)
    ensures IsOn(c.f.ffa1r, s.Number) ==
            (s.FIFOAssignment == Fifo1) && SameElsewhere(c.f.ffa1r, old(c.f.ffa1r), s.Number)
    ensures IsOn(c.f.fa1r, s.Number) == s.Activation && SameElsewhere(c.f.fa1r, old(c.f.fa1r), s.Number)
  {
    hide Any, Set, Clear, Bit, IsOn, SameElsewhere;
    var n := s.Number;
    if s.Mode == IdMask {
      ClearBank(c.f.fm1r, n);
      c.WriteFM1R(Clear(c.f.fm1r, Bit(n)));
    } else {
      SetBank(c.f.fm1r, n);
      c.WriteFM1R(Set(c.f.fm1r, Bit(n)));
    }
    if s.FIFOAssignment == Fifo0 {
      ClearBank(c.f.ffa1r, n);
      c.WriteFFA1R(Clear(c.f.ffa1r, Bit(n)));
    }
    if s.FIFOAssignment == Fifo1 {
      SetBank(c.f.ffa1r, n);
      c.WriteFFA1R(Set(c.f.ffa1r, Bit(n)));
    }
    Same(c.f.fa1r, n);
    if s.Activation {
      SetBank(c.f.fa1r, n);
      c.WriteFA1R(Set(c.f.fa1r, Bit(n)));
    }
  }

  lemma Same(v: bv32, n: nat)
    requires n < 32
    ensures SameElsewhere(v, v, n)
  {
  }

  // The four bit registers differ in bit n at most
  ghost predicate OtherBanks(f: Registers, g: Registers, n: nat) {
    && SameElsewhere(g.fs1r, f.fs1r, n) && SameElsewhere(g.fm1r, f.fm1r, n)
    && SameElsewhere(g.ffa1r, f.ffa1r, n) && SameElsewhere(g.fa1r, f.fa1r, n)
  }

  /** CAN_FilterInit: the bank becomes what the structure asks for, no other bank changes, and the filters are
      out of initialization mode again. */
  method FilterInit(c: CanFilter, s: FilterInitStruct)
    requires c.Valid() && Allowed(s)
    modifies c
    ensures c.Valid() && Table(c.f) == Table(old(c.f))[s.Number := Asked(s)]
    ensures !Initializing(c.f) && c.f.fmr == Clear(old(c.f.fmr), 0x1)
    ensures OtherBanks(old(c.f), c.f, s.Number)
  {
    hide Any, Set, Clear, Bit, IsOn, Joined, SameElsewhere, Table;
    ghost var f0 := c.f;
    var n := s.Number;
    SetSets(c.f.fmr, 0x1);
    c.WriteFMR(Set(c.f.fmr, 0x1));
    ClearBank(c.f.fa1r, n);
    c.WriteFA1R(Clear(c.f.fa1r, Bit(n)));
    WriteWords(c, s);
    ghost var fa1r := c.f.fa1r;
    WriteFlags(c, s);
    ClearClears(c.f.fmr, 0x1);
    ClearSet(f0.fmr);
    c.WriteFMR(Clear(c.f.fmr, 0x1));
    SameTwice(f0.fa1r, fa1r, c.f.fa1r, n);
    TableAfter(f0, c.f, s);
  }

  lemma ClearSet(v: bv32)
    ensures Clear(Set(v, 0x1), 0x1) == Clear(v, 0x1)
  {
  }

  lemma SameTwice(u: bv32, v: bv32, w: bv32, n: nat)
    requires n < 32 && SameElsewhere(v, u, n) && SameElsewhere(w, v, n)
    ensures SameElsewhere(w, u, n)
  {
    hide IsOn;
  }

  // Registers that agree with f except for bank n, which is set up for s
  ghost predicate ConfiguredFor(f: Registers, g: Registers, s: FilterInitStruct)
    requires ValidFor(f) && ValidFor(g) && Allowed(s)
  {
    var n := s.Number;
    && g.words == f.words[n := g.words[n]]
    && OtherBanks(f, g, n)
    && IsOn(g.fs1r, n) == (s.Scale == Scale32bit) && IsOn(g.fm1r, n) == (s.Mode == IdList)
    && IsOn(g.ffa1r, n) == (s.FIFOAssignment == Fifo1) && IsOn(g.fa1r, n) == s.Activation
    && g.words[n] ==
         if s.Scale == Scale32bit then Words(Joined(s.IdHigh, s.IdLow), Joined(s.MaskIdHigh, s.MaskIdLow))
         else Words(Joined(s.MaskIdLow, s.IdLow), Joined(s.MaskIdHigh, s.IdHigh))
  }

  lemma TableAfter(f: Registers, g: Registers, s: FilterInitStruct)
    requires ValidFor(f) && ValidFor(g) && Allowed(s) && ConfiguredFor(f, g, s)
    ensures Table(g) == Table(f)[s.Number := Asked(s)]
  {
    hide IsOn, Joined, Low, High, OtherBanks;
    JoinedHigh(s.MaskIdLow, s.IdLow);
    JoinedLow(s.MaskIdLow, s.IdLow);
    JoinedHigh(s.MaskIdHigh, s.IdHigh);
    JoinedLow(s.MaskIdHigh, s.IdHigh);
    forall m: nat | m < BANKS
      ensures EntryAt(g, m) == if m == s.Number then Asked(s) else EntryAt(f, m)
    {
      if m != s.Number {
        OtherBank(f, g, s, m);
      }
    }
  }

  lemma OtherBank(f: Registers, g: Registers, s: FilterInitStruct, m: nat)
    requires ValidFor(f) && ValidFor(g) && Allowed(s) && ConfiguredFor(f, g, s) && m < BANKS && m != s.Number
    ensures EntryAt(g, m) == EntryAt(f, m)
  {
    hide IsOn, Joined, FilterOf;
    assert IsOn(g.fs1r, m) == IsOn(f.fs1r, m) && IsOn(g.fm1r, m) == IsOn(f.fm1r, m);
    assert IsOn(g.ffa1r, m) == IsOn(f.ffa1r, m) && IsOn(g.fa1r, m) == IsOn(f.fa1r, m);
  }

  // ----- runs

  predicate AllAllowed(calls: seq<FilterInitStruct>) {
    forall i :: 0 <= i < |calls| ==> Allowed(calls[i])
  }

  // The table after a sequence of calls
  function After(table: seq<Entry>, calls: seq<FilterInitStruct>): (t: seq<Entry>)
    requires |table| == BANKS && AllAllowed(calls)
    ensures |t| == BANKS
    decreases |calls|
  {
    if calls == [] then table
    else After(table, calls[..|calls| - 1])[calls[|calls| - 1].Number := Asked(calls[|calls| - 1])]
  }

  // Call i is the last one for bank n
  ghost predicate LastFor(calls: seq<FilterInitStruct>, n: nat, i: nat) {
    i < |calls| && calls[i].Number == n && forall j :: i < j < |calls| ==> calls[j].Number != n
  }

  /** Any sequence of calls leaves the filters out of initialization mode, every bank with its last
      configuration, and the banks that no call names as they were. */
  method FilterInits(c: CanFilter, calls: seq<FilterInitStruct>)
    requires c.Valid() && AllAllowed(calls) && !Initializing(c.f)
    modifies c
    ensures c.Valid() && !Initializing(c.f)
    ensures forall n: nat, i: nat :: n < BANKS && LastFor(calls, n, i) ==> EntryAt(c.f, n) == Asked(calls[i])
    ensures forall n: nat :: n < BANKS && (forall i :: 0 <= i < |calls| ==> calls[i].Number != n) ==>
              EntryAt(c.f, n) == EntryAt(old(c.f), n)
  {
    hide Any, Bit, EntryAt, Asked, After;
    ghost var t0 := Table(c.f);
    AfterAll(t0, calls);
    AfterNone(t0);
    var i := 0;
    while i < |calls|
      invariant i <= |calls| && c.Valid() && !Initializing(c.f)
      invariant Table(c.f) == After(t0, calls[..i])
    {
      AfterOneMore(t0, calls, i);
      FilterInit(c, calls[i]);
      i := i + 1;
    }
    assert calls[..|calls|] == calls;
    forall n: nat | n < BANKS
      ensures EntryAt(c.f, n) == Table(c.f)[n] && EntryAt(old(c.f), n) == t0[n]
    {
    }
  }

  lemma AfterNone(table: seq<Entry>)
    requires |table| == BANKS
    ensures After(table, []) == table
  {
  }

  lemma AfterOneMore(table: seq<Entry>, calls: seq<FilterInitStruct>, i: nat)
    requires |table| == BANKS && AllAllowed(calls) && i < |calls|
    ensures After(table, calls[..i + 1]) == After(table, calls[..i])[calls[i].Number := Asked(calls[i])]
  {
    assert calls[..i + 1][..i] == calls[..i];
  }

  lemma {:induction false} AfterAll(table: seq<Entry>, calls: seq<FilterInitStruct>)
    requires |table| == BANKS && AllAllowed(calls)
    ensures forall n: nat, i: nat {:trigger LastFor(calls, n, i)} ::
              n < BANKS && LastFor(calls, n, i) ==> After(table, calls)[n] == Asked(calls[i])
    ensures forall n: nat {:trigger After(table, calls)[n]} ::
              n < BANKS && (forall i :: 0 <= i < |calls| ==> calls[i].Number != n) ==>
                After(table, calls)[n] == table[n]
    decreases |calls|
  {
    hide Asked;
    if calls != [] {
      var rest := calls[..|calls| - 1];
      AfterAll(table, rest);
      forall n: nat, i: nat | n < BANKS && LastFor(calls, n, i)
        ensures After(table, calls)[n] == Asked(calls[i])
      {
        if i < |rest| {
          assert calls[|calls| - 1].Number != n;
          assert LastFor(rest, n, i);
        }
      }
    }
  }

  // ----- what a bank accepts

  // What a 16-bit filter sees of an identifier word: STID 15..5, RTR 4, IDE 3, EXID(17..15) 2..0
  function Narrow(w: bv32): bv16 {
    (((w >> 16) & 0xFFE0) | ((w & 0x2) << 3) | ((w & 0x4) << 1) | ((w >> 18) & 0x7)) as bv16
  }

  predicate Passes32(id: bv32, mask: bv32, w: bv32) {
    Keep(w, mask) == Keep(id, mask)
  }

  predicate Passes16(id: bv16, mask: bv16, w: bv16) {
    w & mask == id & mask
  }

  /** Whether a bank lets the frame with this identifier word through. */
  predicate Accepts(e: Entry, w: bv32) {
    e.active &&
    match e.filter
    case Mask32(id, mask) => Passes32(id, mask, w)
    case List32(first, second) => w == first || w == second
    case Mask16(id1, mask1, id2, mask2) => Passes16(id1, mask1, Narrow(w)) || Passes16(id2, mask2, Narrow(w))
    case List16(a, b, c, d) => Narrow(w) == a || Narrow(w) == b || Narrow(w) == c || Narrow(w) == d
  }

  // Identifier type, identifier and remote flag agree
  predicate SameIdentifier(t: TxMessage, u: TxMessage) {
    && FrameOf(t).extended == FrameOf(u).extended
    && FrameOf(t).id == FrameOf(u).id
    && FrameOf(t).remote == FrameOf(u).remote
  }

  /** A bank given the packed identifier of a message and a full mask accepts exactly the frames with that
      identifier, of that type and with that remote flag. */
  lemma ExactIdentifier(t: TxMessage, u: TxMessage, s: FilterInitStruct)
    requires IsMessage(t) && IsMessage(u) && s.Activation && s.Mode == IdMask && s.Scale == Scale32bit
    requires s.IdHigh == High(PackedId(t)) && s.IdLow == Low(PackedId(t))
    requires s.MaskIdHigh == 0xFFFF && s.MaskIdLow == 0xFFFF
    ensures Accepts(Asked(s), PackedId(u)) <==> SameIdentifier(t, u)
  {
    hide PackedId, Joined, High, Low, Passes32, ExtendedBit, RemoteBit, StandardId, ExtendedId, Any;
    JoinedHalves(PackedId(t));
    FullMask(PackedId(t), PackedId(u));
    PackedFields(t);
    PackedFields(u);
    if SameIdentifier(t, u) {
      SamePacked(t, u);
    }
  }

  lemma JoinedHalves(w: bv32)
    ensures Joined(High(w), Low(w)) == w
  {
  }

  lemma FullMask(v: bv32, w: bv32)
    ensures Passes32(v, Joined(0xFFFF, 0xFFFF), w) <==> v == w
  {
    hide Joined, Keep;
    AllOnes();
    UnderAllOnes(v);
    UnderAllOnes(w);
  }

  lemma AllOnes()
    ensures Joined(0xFFFF, 0xFFFF) == 0xFFFFFFFF
  {
  }

  lemma UnderAllOnes(v: bv32)
    ensures Keep(v, 0xFFFFFFFF) == v
  {
  }

  lemma SamePacked(t: TxMessage, u: TxMessage)
    requires IsMessage(t) && IsMessage(u) && SameIdentifier(t, u)
    ensures PackedId(t) == PackedId(u)
  {
    hide StandardWord, ExtendedWord;
  }

  /** Four 16-bit identifiers tell standard frames apart: a list of nothing but the narrow word of a standard
      message accepts that identifier and no extended frame. */
  lemma ExactStandardIdentifier(t: TxMessage, u: TxMessage, s: FilterInitStruct)
    requires IsMessage(t) && IsMessage(u) && t.IDE == 0 && s.Activation && s.Mode == IdList && s.Scale == Scale16bit
    requires s.IdHigh == s.IdLow == s.MaskIdHigh == s.MaskIdLow == Narrow(PackedId(t))
    ensures Accepts(Asked(s), PackedId(u)) <==> SameIdentifier(t, u)
  {
    hide PackedId, Narrow, ExtendedBit, RemoteBit, StandardId, ExtendedId, Any;
    PackedFields(t);
    PackedFields(u);
    if Narrow(PackedId(u)) == Narrow(PackedId(t)) {
      NarrowExtended(PackedId(t), PackedId(u));
      NarrowRemote(PackedId(t), PackedId(u));
      NarrowStandard(PackedId(t), PackedId(u));
    }
    if SameIdentifier(t, u) {
      SamePacked(t, u);
    }
  }

  lemma NarrowExtended(v: bv32, w: bv32)
    requires Narrow(v) == Narrow(w)
    ensures ExtendedBit(v) == ExtendedBit(w)
  {
  }

  lemma NarrowRemote(v: bv32, w: bv32)
    requires Narrow(v) == Narrow(w)
    ensures RemoteBit(v) == RemoteBit(w)
  {
  }

  lemma NarrowStandard(v: bv32, w: bv32)
    requires Narrow(v) == Narrow(w)
    ensures StandardId(v) == StandardId(w)
  {
  }
}
