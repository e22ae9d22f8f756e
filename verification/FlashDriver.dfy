/** FLASH_Unlock, FLASH_Lock, the erase and program functions, and what a sequence of them does to memory. */
module FlashDriver {
  import opened Bits
  import opened Words
  import opened FlashHardware

  datatype FlashStatus =
    | BUSY | ERROR_PGS | ERROR_PGP | ERROR_PGA | ERROR_WRP | ERROR_PROGRAM | ERROR_OPERATION | COMPLETE

  /** Between two calls nothing runs, and PG, SER, MER and STRT are clear. */
  ghost predicate Resting(hw: Chip, f: State) {
    ValidFor(hw, f) && f.job.NoJob? && Clean(f.cr)
  }

  // ----- status

  // FLASH_GetStatus, for flags read while no operation runs
  function Outcome(sr: bv32): FlashStatus {
    if Any(sr, 0x10) then ERROR_WRP
    else if Any(sr, 0xEF) then ERROR_PROGRAM
    else if Any(sr, 0x02) then ERROR_OPERATION
    else COMPLETE
  }

  /** COMPLETE means that no flag at all is set: EOP, which reports a success, and OPERR are both covered by
      the mask of ERROR_PROGRAM, so that ERROR_OPERATION is never returned. */
  lemma OutcomeMeans(sr: bv32)
    ensures Outcome(sr) == COMPLETE <==> sr & 0xFF == 0
    ensures Outcome(sr) == ERROR_WRP <==> sr & 0x10 != 0
    ensures Outcome(sr) == ERROR_PROGRAM <==> sr & 0x10 == 0 && sr & 0xEF != 0
  {
    OutcomeMasks(sr);
  }

  lemma OutcomeMasks(sr: bv32)
    ensures sr & 0xFF == 0 <==> sr & 0x10 == 0 && sr & 0xEF == 0
    ensures sr & 0x02 != 0 ==> sr & 0xEF != 0
  {
  }

  /** An operation that ended without an error flag is reported as COMPLETE exactly when EOP did not come up. */
  lemma EndOfOperationIsAnError(sr: bv32, flags: bv32)
    requires Outcome(sr) == COMPLETE && !Any(flags, 0xF2) && flags & 0x0C == 0
    ensures Outcome(Set(sr, flags)) == if Any(flags, 0x01) then ERROR_PROGRAM else COMPLETE
  {
    OutcomeMeans(sr);
    FlagsJoin(sr, flags);
    OutcomeMeans(Set(sr, flags));
  }

  lemma FlagsJoin(sr: bv32, flags: bv32)
    requires sr & 0xFF == 0 && flags & 0xF2 == 0 && flags & 0x0C == 0
    ensures (sr | flags) & 0x10 == 0
    ensures (sr | flags) & 0xFF == flags & 0x01
    ensures (sr | flags) & 0xEF == flags & 0x01
  {
  }

  method GetStatus(d: Flash) returns (status: FlashStatus)
    requires d.Valid()
    modifies d
    ensures d.Valid() && d.f == SrRead(d.hw, old(d.f))
    ensures status == if d.f.job.Working? then BUSY else Outcome(d.f.sr)
  {
    hide Any, Set, Clear;
    var sr, busy := d.ReadSR();
    if busy {
      status := BUSY;
    } else {
      sr, busy := d.ReadSR();
      if Any(sr, 0x10) {
        status := ERROR_WRP;
      } else {
        sr, busy := d.ReadSR();
        if Any(sr, 0xEF) {
          status := ERROR_PROGRAM;
        } else {
          sr, busy := d.ReadSR();
          if Any(sr, 0x02) {
            status := ERROR_OPERATION;
          } else {
            status := COMPLETE;
          }
        }
      }
    }
  }

  // The device when the operation in hand has ended
  function Settled(hw: Chip, f: State): State
    requires ValidFor(hw, f)
  {
    if f.job.NoJob? then f else Ended(hw, f)
  }

  /** FLASH_WaitForLastOperation; it ends because every operation does. */
  method WaitForLastOperation(d: Flash) returns (status: FlashStatus)
    requires d.Valid()
    modifies d
    ensures d.Valid() && d.f == Settled(d.hw, old(d.f))
    ensures status == Outcome(d.f.sr)
  {
    hide Any, Set, Clear, Outcome, Settled, SrRead;
    ghost var end := Settled(d.hw, d.f);
    SettledStep(d.hw, d.f);
    status := GetStatus(d);
    while status == BUSY
      invariant d.Valid() && Settled(d.hw, d.f) == end
      invariant status == if d.f.job.Working? then BUSY else Outcome(d.f.sr)
      decreases if d.f.job.Working? then d.f.remaining + 1 else 0
    {
      OutcomeIsNotBusy(d.f.sr);
      SettledStep(d.hw, d.f);
      status := GetStatus(d);
    }
    OutcomeIsNotBusy(d.f.sr);
    SettledStep(d.hw, d.f);
  }

  // A status read brings the end of the operation nearer and does not change what it will be
  lemma SettledStep(hw: Chip, f: State)
    requires ValidFor(hw, f)
    ensures f.job.NoJob? ==> Settled(hw, f) == f && SrRead(hw, f) == f
    ensures f.job.Working? ==>
              var g := SrRead(hw, f);
              Settled(hw, g) == Settled(hw, f) && (g.job.Working? ==> g.remaining < f.remaining)
  {
    hide Any, Set, Clear;
  }

  lemma OutcomeIsNotBusy(sr: bv32)
    ensures Outcome(sr) != BUSY
  {
  }

  // ----- locking

  /** FLASH_Unlock. It clears LOCK and nothing else, unless the unlock sequence was begun or failed before: then
      the device stays locked until the next reset. */
  method Unlock(d: Flash)
    requires d.Valid()
    modifies d
    ensures d.Valid()
    ensures d.f == if !Locked(old(d.f.cr)) then old(d.f)
                   else if old(d.f.stage) == FirstKey then old(d.f).(cr := Clear(old(d.f.cr), 0x80000000))
                   else old(d.f).(stage := LockedUntilReset)
    ensures Locked(d.f.cr) <==> Locked(old(d.f.cr)) && old(d.f.stage) != FirstKey
  {
    hide Any, Clear;
    if Locked(d.f.cr) {
      ClearClears(d.f.cr, 0x80000000);
      d.WriteKEYR(0x45670123);
      d.WriteKEYR(0xCDEF89AB);
    }
  }

  /** FLASH_Lock */
  method LockFlash(d: Flash)
    requires d.Valid() && Resting(d.hw, d.f)
    modifies d
    ensures d.Valid() && Resting(d.hw, d.f) && Locked(d.f.cr)
    ensures d.f == if Locked(old(d.f.cr)) then old(d.f) else old(d.f).(cr := Set(old(d.f.cr), 0x80000000))
  {
    hide Any, Set, Clear;
    CleanKept(d.f.cr, 0x80000000);
    SetSets(d.f.cr, 0x80000000);
    CleanMeans(Set(d.f.cr, 0x80000000));
    d.WriteCR(Set(d.f.cr, 0x80000000));
  }

  lemma CleanKept(cr: bv32, bits: bv32)
    requires Clean(cr) && bits & 0x10007 == 0
    ensures Clean(Set(cr, bits)) && Clean(Clear(cr, bits))
  {
    hide Any, Set, Clear;
    Parts(bits);
    SetOther(cr, bits, 0x1);
    SetOther(cr, bits, 0x2);
    SetOther(cr, bits, 0x4);
    SetOther(cr, bits, 0x10000);
    ClearOther(cr, bits, 0x1);
    ClearOther(cr, bits, 0x2);
    ClearOther(cr, bits, 0x4);
    ClearOther(cr, bits, 0x10000);
  }

  lemma Parts(bits: bv32)
    requires bits & 0x10007 == 0
    ensures bits & 0x1 == 0
    ensures bits & 0x2 == 0
    ensures bits & 0x4 == 0
    ensures bits & 0x10000 == 0
  {
  }

  lemma CleanMeans(cr: bv32)
    requires Clean(cr)
    ensures Exclusive(cr) && !Starting(cr)
  {
  }

  // ----- programming

  // A store was issued while no operation ran, with PG alone set and PSIZE equal to its width
  predicate Proper(e: StoreEvent) {
    && !e.busy && Programming(e.cr) && Exclusive(e.cr)
    && (e.width == 1 ==> Keep(e.cr, 0x300) == 0x000) && (e.width == 2 ==> Keep(e.cr, 0x300) == 0x100)
    && (e.width == 4 ==> Keep(e.cr, 0x300) == 0x200) && (e.width == 8 ==> Keep(e.cr, 0x300) == 0x300)
  }

  // FLASH_PSIZE_x for a store of that many bytes
  function PsizeBits(width: nat): bv32 {
    if width == 1 then 0x000 else if width == 2 then 0x100 else if width == 4 then 0x200 else 0x300
  }

  // The control register that a program operation stores under
  function ProgramCr(cr: bv32, width: nat): bv32 {
    Set(Set(Clear(cr, 0x300), PsizeBits(width)), 0x1)
  }

  lemma ProgramCrReads(cr: bv32, width: nat)
    requires Clean(cr)
    ensures var c3 := ProgramCr(cr, width);
            && Locked(c3) == Locked(cr)
            && Programming(c3) && Exclusive(c3) && !Starting(c3) && Keep(c3, 0x300) == PsizeBits(width)
  {
    hide Any, Set, Clear, Keep, PsizeBits;
    PsizeInside(width);
    SelectionKept(cr, PsizeBits(width));
    OnlyBit(Set(Clear(cr, 0x300), PsizeBits(width)), 0x1);
    PsizeField(cr, PsizeBits(width));
  }

  lemma PsizeInside(width: nat)
    ensures Keep(PsizeBits(width), 0x300) == PsizeBits(width)
    ensures PsizeBits(width) & 0x10007 == 0 && PsizeBits(width) & 0x80000000 == 0
  {
  }

  // Selecting the parallelism affects neither the operation bits nor LOCK
  lemma SelectionKept(cr: bv32, p: bv32)
    requires Clean(cr) && p & 0x10007 == 0 && p & 0x80000000 == 0
    ensures Clean(Clear(cr, 0x300)) && Clean(Set(Clear(cr, 0x300), p))
    ensures Locked(Clear(cr, 0x300)) == Locked(cr) && Locked(Set(Clear(cr, 0x300), p)) == Locked(cr)
  {
    hide Any, Set, Clear;
    CleanKept(cr, 0x300);
    CleanKept(Clear(cr, 0x300), p);
    ClearOther(cr, 0x300, 0x80000000);
    SetOther(Clear(cr, 0x300), p, 0x80000000);
  }

  // Setting one of PG, SER, MER in a clean register
  lemma OnlyBit(cr: bv32, bit: bv32)
    requires Clean(cr) && (bit == 0x1 || bit == 0x2 || bit == 0x4)
    ensures var c := Set(cr, bit);
            && Exclusive(c) && !Starting(c) && Any(c, bit) && Locked(c) == Locked(cr)
            && (bit != 0x1 ==> !Programming(c)) && (bit != 0x2 ==> !SectorErasing(c))
            && (bit != 0x4 ==> !MassErasing(c))
  {
    hide Any, Set, Clear;
    SetSets(cr, bit);
    SetOther(cr, bit, 0x10000);
    SetOther(cr, bit, 0x80000000);
    if bit != 0x1 { SetOther(cr, bit, 0x1); }
    if bit != 0x2 { SetOther(cr, bit, 0x2); }
    if bit != 0x4 { SetOther(cr, bit, 0x4); }
  }

  lemma PsizeField(cr: bv32, p: bv32)
    requires Keep(p, 0x300) == p
    ensures Keep(Set(Set(Clear(cr, 0x300), p), 0x1), 0x300) == p
  {
    hide Keep, Set, Clear;
    FieldThere(cr, 0x300, p);
    SetKeeps(Set(Clear(cr, 0x300), p), 0x1, 0x300);
  }

  // FLASH->CR &= CR_PSIZE_MASK; FLASH->CR |= psize
  method SelectParallelism(d: Flash, psize: bv32)
    requires d.Valid() && Resting(d.hw, d.f) && psize & 0x10007 == 0 && psize & 0x80000000 == 0
    modifies d
    ensures d.Valid() && Resting(d.hw, d.f) && Locked(d.f.cr) == Locked(old(d.f.cr))
    ensures d.f == if Locked(old(d.f.cr)) then old(d.f) else old(d.f).(cr := Set(Clear(old(d.f.cr), 0x300), psize))
  {
    hide Any, Set, Clear, Layout;
    SelectionKept(d.f.cr, psize);
    CleanKept(d.f.cr, psize);
    d.WriteCR(Clear(d.f.cr, 0x300));
    d.WriteCR(Set(d.f.cr, psize));
  }

  // FLASH->CR &= ~bit, at the end of an operation; the hardware cleared STRT
  method LeaveMode(d: Flash, bit: bv32)
    requires d.Valid() && d.f.job.NoJob? && Exclusive(d.f.cr) && !Starting(d.f.cr)
    requires bit == 0x1 || bit == 0x2 || bit == 0x4
    requires Locked(d.f.cr) ==> Clean(d.f.cr)
    requires bit == 0x1 || !Programming(d.f.cr)
    requires bit == 0x2 || !SectorErasing(d.f.cr)
    requires bit == 0x4 || !MassErasing(d.f.cr)
    modifies d
    ensures d.Valid() && Resting(d.hw, d.f) && Locked(d.f.cr) == Locked(old(d.f.cr))
    ensures d.f == if Locked(old(d.f.cr)) then old(d.f) else old(d.f).(cr := Clear(old(d.f.cr), bit))
  {
    hide Any, Set, Clear, Layout;
    ClearClears(d.f.cr, bit);
    ClearOther(d.f.cr, bit, 0x10000);
    ClearOther(d.f.cr, bit, 0x80000000);
    if bit != 0x1 { ClearOther(d.f.cr, bit, 0x1); }
    if bit != 0x2 { ClearOther(d.f.cr, bit, 0x2); }
    if bit != 0x4 { ClearOther(d.f.cr, bit, 0x4); }
    d.WriteCR(Clear(d.f.cr, bit));
  }

  // An operation starts on a device that is unlocked and shows no error
  function JobsAfter(f: State): nat {
    if Outcome(f.sr) != COMPLETE || Locked(f.cr) then f.jobs else f.jobs + 1
  }

  // CR value v has PSIZE p and the value `value` in a field; the rest of it is that of cr
  predicate Selected(cr: bv32, v: bv32, p: bv32, field: bv32, value: bv32, rest: bv32) {
    Keep(v, 0x300) == p && Keep(v, field) == value && Keep(v, rest) == Keep(cr, rest)
  }

  /** What a program call did, by what it found. */
  ghost predicate ProgramEffect(hw: Chip, f: State, a: nat, data: seq<bv8>, g: State, status: FlashStatus)
    requires a + |data| <= |f.mem|
  {
    && status == Outcome(g.sr) && Locked(g.cr) == Locked(f.cr) && g.stage == f.stage
    && g.jobs == JobsAfter(f) && g.starts == f.starts
    && if Outcome(f.sr) != COMPLETE then g == f
       else if Locked(f.cr) then
         && g.mem == f.mem && g.sr == Set(f.sr, 0x80) && g.cr == f.cr
         && g.stores == f.stores + [StoreEvent(a, |data|, f.cr, false)]
       else
         && g.sr == Set(f.sr, hw.flags(f.jobs)) && |g.mem| == |f.mem|
         && (!Failed(hw, f.jobs) ==> g.mem == Programmed(f.mem, a, data))
         && (forall x :: 0 <= x < |f.mem| && !(a <= x < a + |data|) ==> g.mem[x] == f.mem[x])
         && var e := StoreEvent(a, |data|, ProgramCr(f.cr, |data|), false);
            && g.stores == f.stores + [e] && Proper(e)
            && Selected(f.cr, e.cr, Keep(e.cr, 0x300), 0x1, 0x1, 0xFFFFFCFE)
            && Selected(f.cr, g.cr, Keep(e.cr, 0x300), 0x1, 0x0, 0xFFFFFCFE)
  }

  // The device when the store is issued; on a locked device the writes to CR had no effect
  function Prepared(f: State, width: nat): State {
    if Locked(f.cr) then f else f.(cr := ProgramCr(f.cr, width))
  }

  lemma PreparedReads(f: State, width: nat)
    requires Clean(f.cr) && width in {1, 2, 4, 8}
    ensures var c := Prepared(f, width).cr;
            && Exclusive(c) && !Starting(c) && !SectorErasing(c) && !MassErasing(c) && Locked(c) == Locked(f.cr)
            && (Locked(c) ==> Clean(c)) && (!Locked(c) ==> Programming(c) && WidthOf(c) == width)
  {
    hide Any, Set, Clear, Keep, ProgramCr;
    ProgramCrReads(f.cr, width);
  }

  // What a program operation leaves of CR: PSIZE, and the other bits as they were
  lemma ProgramCrLeft(cr: bv32, width: nat)
    requires Clean(cr)
    ensures var c := ProgramCr(cr, width);
            && Keep(c, 0x1) == 0x1 && Keep(c, 0xFFFFFCFE) == Keep(cr, 0xFFFFFCFE)
            && Selected(cr, Clear(c, 0x1), PsizeBits(width), 0x1, 0x0, 0xFFFFFCFE)
  {
    hide Any, Set, Clear, Keep, PsizeBits;
    PsizeInside(width);
    PsizeApart(PsizeBits(width));
    var c1 := Clear(cr, 0x300);
    var c2 := Set(c1, PsizeBits(width));
    PsizeField(cr, PsizeBits(width));
    ClearKeeps(cr, 0x300, 0xFFFFFCFE);
    SetKeeps(c1, PsizeBits(width), 0xFFFFFCFE);
    SetKeeps(c2, 0x1, 0xFFFFFCFE);
    ClearKeeps(Set(c2, 0x1), 0x1, 0xFFFFFCFE);
    ClearKeeps(Set(c2, 0x1), 0x1, 0x300);
    KeptBit(c2, 0x1);
  }

  lemma PsizeApart(p: bv32)
    requires Keep(p, 0x300) == p
    ensures p & 0xFFFFFCFE == 0 && p & 0xFFFEFC00 == 0 && p & 0xFFFEFCF8 == 0 && p & 0x10007 == 0 && p & 0x100FF == 0
    ensures p & 0x80000000 == 0
  {
    PsizeWord(p);
  }

  lemma PsizeWord(p: bv32)
    requires p & 0x300 == p
    ensures p & 0xFFFFFCFE == 0
    ensures p & 0xFFFEFC00 == 0
    ensures p & 0xFFFEFCF8 == 0
    ensures p & 0x10007 == 0
    ensures p & 0x100FF == 0
    ensures p & 0x80000000 == 0
  {
  }

  lemma KeptBit(v: bv32, bit: bv32)
    ensures Keep(Set(v, bit), bit) == bit && Keep(Clear(v, bit), bit) == 0
    ensures Keep(Clear(Set(v, bit), bit), bit) == 0
  {
    OrThere(v, bit);
    AndNotThere(v, bit);
    AndNotThere(v | bit, bit);
  }

  // PSIZE, PG, and the store
  method IssueStore(d: Flash, address: nat, data: seq<bv8>)
    requires d.Valid() && Resting(d.hw, d.f) && address + |data| <= |d.f.mem|
    modifies d
    ensures d.Valid() && ValidFor(d.hw, Prepared(old(d.f), |data|))
    ensures d.f == Stored(d.hw, Prepared(old(d.f), |data|), address, data)
  {
    hide Any, Set, Clear, Keep, PsizeBits, Layout;
    PsizeInside(|data|);
    SelectParallelism(d, PsizeBits(|data|));
    OnlyBit(d.f.cr, 0x1);
    d.WriteCR(Set(d.f.cr, 0x1));
    assert d.f == Prepared(old(d.f), |data|);
    d.Store(address, data);
  }

  // What the store comes to when the operation has ended
  lemma StoreSettles(hw: Chip, f: State, a: nat, data: seq<bv8>)
    requires ValidFor(hw, f) && f.job.NoJob? && Clean(f.cr) && a + |data| <= |f.mem| && |data| in {1, 2, 4, 8}
    ensures ValidFor(hw, Prepared(f, |data|))
    ensures var f1 := Prepared(f, |data|);
            var g := Settled(hw, Stored(hw, f1, a, data));
            && g.job.NoJob? && g.cr == f1.cr && g.stage == f.stage && g.starts == f.starts
            && g.jobs == (if Locked(f.cr) then f.jobs else f.jobs + 1)
            && if Locked(f.cr) then
                 && g.mem == f.mem && g.sr == Set(f.sr, 0x80)
                 && g.stores == f.stores + [StoreEvent(a, |data|, f.cr, false)]
               else
                 && g.sr == Set(f.sr, hw.flags(f.jobs)) && |g.mem| == |f.mem|
                 && (!Failed(hw, f.jobs) ==> g.mem == Programmed(f.mem, a, data))
                 && (forall x :: 0 <= x < |f.mem| && !(a <= x < a + |data|) ==> g.mem[x] == f.mem[x])
                 && g.stores == f.stores + [StoreEvent(a, |data|, f1.cr, false)]
  {
    hide Any, Set, Clear, WidthOf, ProgramCr, Failed, Layout;
    PreparedReads(f, |data|);
    ClearAgain(Prepared(f, |data|).cr, 0x10000);
  }

  /** The body of the four program functions. */
  method Program(d: Flash, address: nat, data: seq<bv8>) returns (status: FlashStatus)
    requires |data| in {1, 2, 4, 8}
    requires d.Valid() && Resting(d.hw, d.f) && address + |data| <= |d.f.mem|
    modifies d
    ensures d.Valid() && Resting(d.hw, d.f)
    ensures ProgramEffect(d.hw, old(d.f), address, data, d.f, status)
  {
    hide Any, Set, Clear, Keep, Outcome, Layout, Failed, ProgramCr, Settled, Stored;
    ghost var f0 := d.f;
    AtRest(d.hw, f0);
    status := WaitForLastOperation(d);
    if status == COMPLETE {
      PreparedReads(f0, |data|);
      ProgramCrReads(f0.cr, |data|);
      ProgramCrLeft(f0.cr, |data|);
      StoreSettles(d.hw, f0, address, data);
      IssueStore(d, address, data);
      status := WaitForLastOperation(d);
      LeaveMode(d, 0x1);
    }
  }

  // There is nothing to wait for
  lemma AtRest(hw: Chip, f: State)
    requires Resting(hw, f)
    ensures Settled(hw, f) == f
  {
  }

  // ----- erasing

  // VoltageRange_1 .. VoltageRange_4
  function VoltagePsize(voltageRange: nat): (p: bv32)
  {
    if voltageRange == 0 then 0x000 else if voltageRange == 1 then 0x100 else if voltageRange == 2 then 0x200 else 0x300
  }

  lemma VoltageInside(voltageRange: nat)
    ensures VoltagePsize(voltageRange) & 0x10007 == 0 && VoltagePsize(voltageRange) & 0x80000000 == 0
    ensures Keep(VoltagePsize(voltageRange), 0x300) == VoltagePsize(voltageRange)
  {
  }

  // PSIZE is the one for the voltage range: by byte, half-word, word or double word
  predicate ForRange(v: bv32, voltageRange: nat) {
    && (voltageRange == 0 ==> Keep(v, 0x300) == 0x000) && (voltageRange == 1 ==> Keep(v, 0x300) == 0x100)
    && (voltageRange == 2 ==> Keep(v, 0x300) == 0x200) && (voltageRange > 2 ==> Keep(v, 0x300) == 0x300)
  }

  /** What an erase call asks for: the voltage range, the field of CR that selects and starts the operation, with
      its value, and the bits of CR that it leaves alone. */
  datatype Erase = Erase(voltageRange: nat, field: bv32, value: bv32, rest: bv32)

  // STRT, SER and the sector number; PG, MER and the bit above the number are clear
  function SectorErase(n: nat, voltageRange: nat): Erase
    requires n < SECTORS
  {
    Erase(voltageRange, 0x100FF, Set(0x10002, SectorBits(n)), 0xFFFEFC00)
  }

  // STRT and MER; PG and SER are clear
  function MassErase(voltageRange: nat): Erase {
    Erase(voltageRange, 0x10007, 0x10004, 0xFFFEFCF8)
  }

  /** What an erase call did, by what it found. On a locked device it does nothing. */
  ghost predicate EraseEffect(hw: Chip, f: State, lo: nat, hi: nat, e: Erase, g: State, status: FlashStatus)
    requires lo <= hi <= |f.mem|
  {
    && status == Outcome(g.sr) && Locked(g.cr) == Locked(f.cr) && g.stage == f.stage && g.stores == f.stores
    && g.jobs == JobsAfter(f)
    && if Outcome(f.sr) != COMPLETE || Locked(f.cr) then
         g.mem == f.mem && g.sr == f.sr && g.cr == f.cr && g.starts == f.starts
       else
         && Started(f.cr, f.starts, e, g.cr, g.starts)
         && g.sr == Set(f.sr, hw.flags(f.jobs)) && |g.mem| == |f.mem|
         && (!Failed(hw, f.jobs) ==> g.mem == Erased(f.mem, lo, hi))
         && (forall x :: 0 <= x < |f.mem| && !(lo <= x < hi) ==> g.mem[x] == f.mem[x])
  }

  // The operation was started once, as asked for; afterwards nothing of it is left in CR but PSIZE
  ghost predicate Started(cr: bv32, starts: seq<bv32>, e: Erase, cr': bv32, starts': seq<bv32>) {
    && |starts'| == |starts| + 1 && starts'[..|starts|] == starts
    && var v := starts'[|starts|];
       && ForRange(v, e.voltageRange)
       && Selected(cr, v, Keep(v, 0x300), e.field, e.value, e.rest)
       && Selected(cr, cr', Keep(v, 0x300), e.field, 0x0, e.rest)
  }

  // FLASH->CR |= STRT, with SER or MER set
  method Start(d: Flash)
    requires d.Valid() && d.f.job.NoJob? && Exclusive(d.f.cr) && !Starting(d.f.cr) && !Programming(d.f.cr)
    modifies d
    ensures d.Valid() && d.f == CrWritten(d.hw, old(d.f), Set(old(d.f.cr), 0x10000))
  {
    hide Any, Set, Clear, SectorOf, CrWritten;
    var cr := d.f.cr;
    SetOther(cr, 0x10000, 0x1);
    SetOther(cr, 0x10000, 0x2);
    SetOther(cr, 0x10000, 0x4);
    d.WriteCR(Set(cr, 0x10000));
  }

  lemma StartKeepsSector(cr: bv32)
    ensures SectorOf(Set(cr, 0x10000)) == SectorOf(cr)
  {
    assert (cr | 0x10000) & 0x78 == cr & 0x78;
  }

  // SER and the sector number
  function SectorCr(cr: bv32, n: nat): bv32
    requires n < SECTORS
  {
    Set(Clear(cr, 0xF8), Set(0x2, SectorBits(n)))
  }

  lemma SectorCrReads(cr: bv32, n: nat)
    requires Clean(cr) && n < SECTORS
    ensures Clean(Clear(cr, 0xF8)) && Locked(Clear(cr, 0xF8)) == Locked(cr)
    ensures var c := SectorCr(cr, n);
            && SectorErasing(c) && Exclusive(c) && !Programming(c) && !MassErasing(c) && !Starting(c)
            && Locked(c) == Locked(cr) && SectorOf(c) == n
  {
    hide Any, Set, Clear, SectorOf, SectorBits;
    var c1 := Clear(cr, 0xF8);
    CleanKept(cr, 0xF8);
    ClearOther(cr, 0xF8, 0x80000000);
    SectorSplit(c1, n);
    SectorInside(n);
    OnlyBit(c1, 0x2);
    var c2 := Set(c1, 0x2);
    SetOther(c2, SectorBits(n), 0x1);
    SetOther(c2, SectorBits(n), 0x2);
    SetOther(c2, SectorBits(n), 0x4);
    SetOther(c2, SectorBits(n), 0x10000);
    SetOther(c2, SectorBits(n), 0x80000000);
    SectorField(cr, n);
  }

  lemma SectorSplit(c: bv32, n: nat)
    requires n < SECTORS
    ensures Set(c, Set(0x2, SectorBits(n))) == Set(Set(c, 0x2), SectorBits(n))
  {
    hide SectorBits;
  }

  lemma SectorInside(n: nat)
    requires n < SECTORS
    ensures SectorBits(n) & 0x1 == 0 && SectorBits(n) & 0x2 == 0 && SectorBits(n) & 0x4 == 0
    ensures SectorBits(n) & 0x10000 == 0 && SectorBits(n) & 0x80000000 == 0
  {
  }

  lemma SectorField(cr: bv32, n: nat)
    requires n < SECTORS
    ensures SectorOf(SectorCr(cr, n)) == n
  {
    hide SectorOf;
    SnbField(cr, SectorBits(n));
    SectorCode(n, SectorCr(cr, n));
  }

  lemma SnbField(cr: bv32, s: bv32)
    requires s & 0x78 == s
    ensures Set(Clear(cr, 0xF8), Set(0x2, s)) & 0x78 == s
  {
  }

  lemma SectorCode(n: nat, cr: bv32)
    requires n < SECTORS && cr & 0x78 == SectorBits(n)
    ensures SectorOf(cr) == n
  {
  }

  // FLASH->CR &= SECTOR_MASK; FLASH->CR |= SER | sector
  method SelectSector(d: Flash, sector: nat)
    requires d.Valid() && Resting(d.hw, d.f) && sector < SECTORS
    modifies d
    ensures d.Valid()
    ensures d.f == if Locked(old(d.f.cr)) then old(d.f) else old(d.f).(cr := SectorCr(old(d.f.cr), sector))
    ensures Exclusive(d.f.cr) && !Starting(d.f.cr) && !Programming(d.f.cr) && !MassErasing(d.f.cr)
    ensures Locked(d.f.cr) == Locked(old(d.f.cr))
    ensures !Locked(d.f.cr) ==> SectorErasing(d.f.cr) && SectorOf(d.f.cr) == sector
    ensures Locked(d.f.cr) ==> Clean(d.f.cr)
  {
    hide Any, Set, Clear, SectorOf, SectorBits, Layout;
    ghost var cr := d.f.cr;
    SectorCrReads(cr, sector);
    d.WriteCR(Clear(d.f.cr, 0xF8));
    if Locked(cr) {
      LockedSelection(cr, Set(0x2, SectorBits(sector)), sector);
    }
    d.WriteCR(Set(d.f.cr, Set(0x2, SectorBits(sector))));
  }

  lemma SectorRange(hw: Chip, f: State, n: nat)
    requires ValidFor(hw, f) && n < SECTORS
    ensures |hw.bounds| == SECTORS + 1 && hw.bounds[n] <= hw.bounds[n + 1] <= |f.mem|
  {
  }

  // The device when a sector erase is started; on a locked device the writes to CR had no effect
  function SectorSelected(f: State, psize: bv32, n: nat): State
    requires n < SECTORS
  {
    if Locked(f.cr) then f else f.(cr := SectorCr(Set(Clear(f.cr, 0x300), psize), n))
  }

  lemma SectorSelectedReads(f: State, psize: bv32, n: nat)
    requires Clean(f.cr) && n < SECTORS && psize & 0x10007 == 0 && psize & 0x80000000 == 0
    ensures var c := SectorSelected(f, psize, n).cr;
            && Exclusive(c) && !Starting(c) && !Programming(c) && !MassErasing(c) && Locked(c) == Locked(f.cr)
            && (Locked(c) ==> Clean(c)) && (!Locked(c) ==> SectorErasing(c) && SectorOf(c) == n)
  {
    hide Any, Set, Clear, SectorOf, SectorCr;
    SelectionKept(f.cr, psize);
    SectorCrReads(Set(Clear(f.cr, 0x300), psize), n);
  }

  // PSIZE, SER with the sector, STRT
  method StartSector(d: Flash, sector: nat, psize: bv32)
    requires d.Valid() && Resting(d.hw, d.f) && sector < SECTORS && psize & 0x10007 == 0 && psize & 0x80000000 == 0
    modifies d
    ensures d.Valid()
    ensures var f1 := SectorSelected(old(d.f), psize, sector);
            ValidFor(d.hw, f1) && f1.job.NoJob? && d.f == CrWritten(d.hw, f1, Set(f1.cr, 0x10000))
  {
    hide Any, Set, Clear, SectorOf, SectorBits, Layout, SectorCr, CrWritten;
    SelectParallelism(d, psize);
    SelectSector(d, sector);
    Start(d);
  }

  // What an erase comes to when the operation has ended
  lemma EraseSettles(hw: Chip, f: State, lo: nat, hi: nat)
    requires ValidFor(hw, f) && f.job.NoJob? && lo <= hi <= |f.mem| && !Starting(f.cr)
    requires var v := Set(f.cr, 0x10000);
             && Starting(v) && Locked(v) == Locked(f.cr) && Clear(v, 0x10000) == f.cr
             && (!Locked(f.cr) ==> Selects(hw, |f.mem|, v, lo, hi))
    ensures var g := Settled(hw, CrWritten(hw, f, Set(f.cr, 0x10000)));
            && g.job.NoJob? && g.cr == f.cr && g.stage == f.stage && g.stores == f.stores
            && g.starts == (if Locked(f.cr) then f.starts else f.starts + [Set(f.cr, 0x10000)])
            && g.jobs == (if Locked(f.cr) then f.jobs else f.jobs + 1)
            && if Locked(f.cr) then g.mem == f.mem && g.sr == f.sr
               else
                 && g.sr == Set(f.sr, hw.flags(f.jobs)) && |g.mem| == |f.mem|
                 && (!Failed(hw, f.jobs) ==> g.mem == Erased(f.mem, lo, hi))
                 && (forall x :: 0 <= x < |f.mem| && !(lo <= x < hi) ==> g.mem[x] == f.mem[x])
  {
    hide Any, Set, Clear, SectorOf, Failed, Layout, Selects, CrWritten, Erased;
    if Locked(f.cr) {
      LockedErase(hw, f);
    } else {
      EraseBegins(hw, f, lo, hi);
    }
  }

  lemma LockedErase(hw: Chip, f: State)
    requires ValidFor(hw, f) && f.job.NoJob? && Locked(f.cr)
    ensures CrWritten(hw, f, Set(f.cr, 0x10000)) == f
  {
    hide Any, Set, Clear;
  }

  lemma EraseBegins(hw: Chip, f: State, lo: nat, hi: nat)
    requires ValidFor(hw, f) && f.job.NoJob? && lo <= hi <= |f.mem| && !Locked(f.cr)
    requires var v := Set(f.cr, 0x10000); Starting(v) && Selects(hw, |f.mem|, v, lo, hi)
    ensures var v := Set(f.cr, 0x10000);
            CrWritten(hw, f, v) == Begun(hw, f.(cr := v, starts := f.starts + [v]), lo, hi, Erased(f.mem, lo, hi))
  {
    hide Any, Set, Clear, SectorOf, Layout, Erased;
  }

  // A control register value that selects the erase of a range
  predicate Selects(hw: Chip, size: nat, v: bv32, lo: nat, hi: nat) {
    if MassErasing(v) then lo == 0 && hi == size
    else SectorErasing(v) && SectorOf(v) < SECTORS < |hw.bounds| &&
         lo == hw.bounds[SectorOf(v)] && hi == hw.bounds[SectorOf(v) + 1]
  }

  // STRT leaves the selection alone
  lemma StartReads(cr: bv32)
    requires !Starting(cr)
    ensures var v := Set(cr, 0x10000);
            && Starting(v) && Locked(v) == Locked(cr) && Clear(v, 0x10000) == cr && SectorOf(v) == SectorOf(cr)
            && SectorErasing(v) == SectorErasing(cr) && MassErasing(v) == MassErasing(cr)
            && Programming(v) == Programming(cr)
  {
    hide Any, Set, Clear, SectorOf;
    SetSets(cr, 0x10000);
    SetOther(cr, 0x10000, 0x1);
    SetOther(cr, 0x10000, 0x2);
    SetOther(cr, 0x10000, 0x4);
    SetOther(cr, 0x10000, 0x80000000);
    ClearAfterSet(cr, 0x10000);
    StartKeepsSector(cr);
  }

  // FLASH->CR &= ~SER; FLASH->CR &= SECTOR_MASK
  method LeaveSector(d: Flash)
    requires d.Valid() && d.f.job.NoJob? && Exclusive(d.f.cr) && !Starting(d.f.cr)
    requires !Programming(d.f.cr) && !MassErasing(d.f.cr) && (Locked(d.f.cr) ==> Clean(d.f.cr))
    modifies d
    ensures d.Valid() && Resting(d.hw, d.f) && Locked(d.f.cr) == Locked(old(d.f.cr))
    ensures d.f == if Locked(old(d.f.cr)) then old(d.f)
                   else old(d.f).(cr := Clear(Clear(old(d.f.cr), 0x2), 0xF8))
  {
    hide Any, Set, Clear, Layout;
    LeaveMode(d, 0x2);
    CleanKept(d.f.cr, 0xF8);
    ClearOther(d.f.cr, 0xF8, 0x80000000);
    d.WriteCR(Clear(d.f.cr, 0xF8));
  }

  /** FLASH_EraseSector */
  method EraseSector(d: Flash, sector: nat, voltageRange: nat) returns (status: FlashStatus)
    requires d.Valid() && Resting(d.hw, d.f) && sector < SECTORS
    modifies d
    ensures d.Valid() && Resting(d.hw, d.f)
    ensures EraseEffect(d.hw, old(d.f), d.hw.bounds[sector], d.hw.bounds[sector + 1], SectorErase(sector, voltageRange),
                        d.f, status)
  {
    hide Any, Set, Clear, Keep, Outcome, Failed, SectorOf, SectorCr, VoltagePsize, Layout, Settled, CrWritten, Started;
    ghost var f0 := d.f;
    SectorRange(d.hw, f0, sector);
    AtRest(d.hw, f0);
    status := WaitForLastOperation(d);
    if status == COMPLETE {
      VoltageInside(voltageRange);
      ghost var f1 := SectorSelected(f0, VoltagePsize(voltageRange), sector);
      SectorSelectedReads(f0, VoltagePsize(voltageRange), sector);
      SectorStarted(f0.cr, f0.starts, sector, voltageRange);
      StartReads(f1.cr);
      StartSector(d, sector, VoltagePsize(voltageRange));
      EraseSettles(d.hw, f1, d.hw.bounds[sector], d.hw.bounds[sector + 1]);
      status := WaitForLastOperation(d);
      LeaveSector(d);
    }
  }

  // CR in the course of a sector erase
  lemma SectorStarted(cr: bv32, starts: seq<bv32>, n: nat, voltageRange: nat)
    requires Clean(cr) && n < SECTORS
    ensures var c := SectorCr(Set(Clear(cr, 0x300), VoltagePsize(voltageRange)), n);
            Started(cr, starts, SectorErase(n, voltageRange), Clear(Clear(c, 0x2), 0xF8), starts + [Set(c, 0x10000)])
  {
    hide Any, Set, Clear, Keep, VoltagePsize, SectorBits, ForRange;
    var p := VoltagePsize(voltageRange);
    var c2 := Set(Clear(cr, 0x300), p);
    var s := Set(0x2, SectorBits(n));
    var c := SectorCr(c2, n);
    VoltageInside(voltageRange);
    SelectionKept(cr, p);
    CleanWord(c2);
    SectorCode7(n);
    SectorValue(c2, SectorBits(n));
    FieldThere(cr, 0x300, p);
    PsizeLeaves(cr, p);
    SectorLeaves(c2, s, 0x300);
    SectorLeaves(c2, s, 0xFFFEFC00);
    RangeOf(Set(c, 0x10000), voltageRange);
  }

  // CR in the course of a mass erase
  lemma AllStarted(cr: bv32, starts: seq<bv32>, voltageRange: nat)
    requires Clean(cr)
    ensures var c := Set(Set(Clear(cr, 0x300), VoltagePsize(voltageRange)), 0x4);
            Started(cr, starts, MassErase(voltageRange), Clear(c, 0x4), starts + [Set(c, 0x10000)])
  {
    hide Any, Set, Clear, Keep, VoltagePsize, ForRange;
    var p := VoltagePsize(voltageRange);
    var c2 := Set(Clear(cr, 0x300), p);
    var c := Set(c2, 0x4);
    VoltageInside(voltageRange);
    SelectionKept(cr, p);
    CleanWord(c2);
    MassValue(c2);
    FieldThere(cr, 0x300, p);
    PsizeLeaves(cr, p);
    MassLeaves(c2, 0x300);
    MassLeaves(c2, 0xFFFEFCF8);
    RangeOf(Set(c, 0x10000), voltageRange);
  }

  lemma RangeOf(v: bv32, voltageRange: nat)
    requires Keep(v, 0x300) == VoltagePsize(voltageRange)
    ensures ForRange(v, voltageRange)
  {
    hide Keep;
  }

  lemma CleanWord(cr: bv32)
    requires Clean(cr)
    ensures Keep(cr, 0x10007) == 0
  {
    assert cr & 0x10007 == (cr & 0x1) | (cr & 0x2) | (cr & 0x4) | (cr & 0x10000);
  }

  lemma PsizeLeaves(cr: bv32, p: bv32)
    requires Keep(p, 0x300) == p
    ensures Keep(Set(Clear(cr, 0x300), p), 0xFFFEFC00) == Keep(cr, 0xFFFEFC00)
    ensures Keep(Set(Clear(cr, 0x300), p), 0xFFFEFCF8) == Keep(cr, 0xFFFEFCF8)
  {
    hide Keep, Set, Clear;
    FieldElsewhere(cr, 0x300, p, 0xFFFEFC00);
    FieldElsewhere(cr, 0x300, p, 0xFFFEFCF8);
  }

  lemma SectorCode7(n: nat)
    requires n < SECTORS
    ensures Keep(SectorBits(n), 0x78) == SectorBits(n)
    ensures Set(0x2, SectorBits(n)) & 0x300 == 0 && Set(0x2, SectorBits(n)) & 0xFFFEFC00 == 0
  {
  }

  lemma SectorLeaves(c: bv32, s: bv32, other: bv32)
    requires s & other == 0 && 0xF8 & other == 0 && 0x2 & other == 0 && 0x10000 & other == 0
    ensures var d := Set(Clear(c, 0xF8), s);
            Keep(Set(d, 0x10000), other) == Keep(Clear(Clear(d, 0x2), 0xF8), other) == Keep(c, other)
  {
    hide Keep, Set, Clear;
    var d := Set(Clear(c, 0xF8), s);
    ClearKeeps(c, 0xF8, other);
    SetKeeps(Clear(c, 0xF8), s, other);
    SetKeeps(d, 0x10000, other);
    ClearKeeps(d, 0x2, other);
    ClearKeeps(Clear(d, 0x2), 0xF8, other);
  }

  lemma SectorValue(c: bv32, b: bv32)
    requires Keep(c, 0x10007) == 0 && Keep(b, 0x78) == b
    ensures var d := Set(Clear(c, 0xF8), Set(0x2, b));
            Keep(Set(d, 0x10000), 0x100FF) == Set(0x10002, b) && Keep(Clear(Clear(d, 0x2), 0xF8), 0x100FF) == 0
  {
    SectorWord(c, b);
  }

  lemma SectorWord(c: bv32, b: bv32)
    requires c & 0x10007 == 0 && b & 0x78 == b
    ensures (((c & !0xF8) | (0x2 | b)) | 0x10000) & 0x100FF == 0x10002 | b
    ensures ((((c & !0xF8) | (0x2 | b)) & !0x2) & !0xF8) & 0x100FF == 0
  {
  }

  lemma MassLeaves(c: bv32, other: bv32)
    requires 0x4 & other == 0 && 0x10000 & other == 0
    ensures Keep(Set(Set(c, 0x4), 0x10000), other) == Keep(Clear(Set(c, 0x4), 0x4), other) == Keep(c, other)
  {
    hide Keep, Set, Clear;
    SetKeeps(c, 0x4, other);
    SetKeeps(Set(c, 0x4), 0x10000, other);
    ClearKeeps(Set(c, 0x4), 0x4, other);
  }

  lemma MassValue(c: bv32)
    requires Keep(c, 0x10007) == 0
    ensures Keep(Set(Set(c, 0x4), 0x10000), 0x10007) == 0x10004 && Keep(Clear(Set(c, 0x4), 0x4), 0x10007) == 0
  {
    MassWord(c);
  }

  lemma MassWord(c: bv32)
    requires c & 0x10007 == 0
    ensures ((c | 0x4) | 0x10000) & 0x10007 == 0x10004
    ensures ((c | 0x4) & !0x4) & 0x10007 == 0
  {
  }

  lemma LockedSelection(cr: bv32, bits: bv32, n: nat)
    requires Clean(cr) && n < SECTORS && bits == Set(0x2, SectorBits(n))
    ensures Exclusive(Set(cr, bits))
  {
    hide Any, Set, Clear, SectorBits;
    SectorSplit(cr, n);
    SectorInside(n);
    OnlyBit(cr, 0x2);
    SetOther(Set(cr, 0x2), SectorBits(n), 0x1);
    SetOther(Set(cr, 0x2), SectorBits(n), 0x4);
  }

  // PSIZE, MER, STRT
  method StartAll(d: Flash, psize: bv32)
    requires d.Valid() && Resting(d.hw, d.f) && psize & 0x10007 == 0 && psize & 0x80000000 == 0
    modifies d
    ensures d.Valid()
    ensures var f1 := AllSelected(old(d.f), psize);
            ValidFor(d.hw, f1) && f1.job.NoJob? && d.f == CrWritten(d.hw, f1, Set(f1.cr, 0x10000))
  {
    hide Any, Set, Clear, SectorOf, Layout;
    SelectParallelism(d, psize);
    OnlyBit(d.f.cr, 0x4);
    d.WriteCR(Set(d.f.cr, 0x4));
    assert d.f == AllSelected(old(d.f), psize);
    Start(d);
  }

  // The device when the mass erase is started
  function AllSelected(f: State, psize: bv32): State {
    if Locked(f.cr) then f else f.(cr := Set(Set(Clear(f.cr, 0x300), psize), 0x4))
  }

  lemma AllSelectedReads(f: State, psize: bv32)
    requires Clean(f.cr) && psize & 0x10007 == 0 && psize & 0x80000000 == 0
    ensures var c := AllSelected(f, psize).cr;
            && Exclusive(c) && !Starting(c) && !Programming(c) && !SectorErasing(c) && Locked(c) == Locked(f.cr)
            && (Locked(c) ==> Clean(c)) && (!Locked(c) ==> MassErasing(c))
  {
    hide Any, Set, Clear;
    SelectionKept(f.cr, psize);
    OnlyBit(Set(Clear(f.cr, 0x300), psize), 0x4);
  }

  /** FLASH_EraseAllSectors */
  method EraseAllSectors(d: Flash, voltageRange: nat) returns (status: FlashStatus)
    requires d.Valid() && Resting(d.hw, d.f)
    modifies d
    ensures d.Valid() && Resting(d.hw, d.f)
    ensures EraseEffect(d.hw, old(d.f), 0, |old(d.f.mem)|, MassErase(voltageRange), d.f, status)
  {
    hide Any, Set, Clear, Keep, Outcome, Failed, SectorOf, VoltagePsize, Layout, Settled, CrWritten, Started;
    ghost var f0 := d.f;
    AtRest(d.hw, f0);
    status := WaitForLastOperation(d);
    if status == COMPLETE {
      VoltageInside(voltageRange);
      ghost var f1 := AllSelected(f0, VoltagePsize(voltageRange));
      AllSelectedReads(f0, VoltagePsize(voltageRange));
      AllStarted(f0.cr, f0.starts, voltageRange);
      StartReads(f1.cr);
      StartAll(d, VoltagePsize(voltageRange));
      EraseSettles(d.hw, f1, 0, |f0.mem|);
      status := WaitForLastOperation(d);
      LeaveMode(d, 0x4);
    }
  }

  // ----- the four program functions: what they store, lowest byte first

  /** FLASH_ProgramByte */
  method ProgramByte(d: Flash, address: nat, data: bv8) returns (status: FlashStatus)
    requires d.Valid() && Resting(d.hw, d.f) && address + 1 <= |d.f.mem|
    modifies d
    ensures d.Valid() && Resting(d.hw, d.f)
    ensures ProgramEffect(d.hw, old(d.f), address, [data], d.f, status)
  {
    status := Program(d, address, [data]);
  }

  /** FLASH_ProgramHalfWord, for the half-word of these two bytes */
  method ProgramHalfWord(d: Flash, address: nat, high: bv8, low: bv8) returns (status: FlashStatus)
    requires d.Valid() && Resting(d.hw, d.f) && address + 2 <= |d.f.mem|
    modifies d
    ensures d.Valid() && Resting(d.hw, d.f)
    ensures ProgramEffect(d.hw, old(d.f), address, [low, high], d.f, status)
  {
    status := Program(d, address, [low, high]);
  }

  /** FLASH_ProgramWord */
  method ProgramWord(d: Flash, address: nat, data: Word) returns (status: FlashStatus)
    requires d.Valid() && Resting(d.hw, d.f) && address + 4 <= |d.f.mem|
    modifies d
    ensures d.Valid() && Resting(d.hw, d.f)
    ensures ProgramEffect(d.hw, old(d.f), address, Bytes(Rev(data)), d.f, status)
  {
    status := Program(d, address, Bytes(Rev(data)));
  }

  /** FLASH_ProgramDoubleWord, for the double word of these two words */
  method ProgramDoubleWord(d: Flash, address: nat, high: Word, low: Word) returns (status: FlashStatus)
    requires d.Valid() && Resting(d.hw, d.f) && address + 8 <= |d.f.mem|
    modifies d
    ensures d.Valid() && Resting(d.hw, d.f)
    ensures ProgramEffect(d.hw, old(d.f), address, Bytes(Rev(low)) + Bytes(Rev(high)), d.f, status)
  {
    status := Program(d, address, Bytes(Rev(low)) + Bytes(Rev(high)));
  }
}
