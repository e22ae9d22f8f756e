/** The FLASH interface: a memory of sectors in which programming can only clear bits, behind a control
    register that has to be unlocked.

        CR   PG 0x1, SER 0x2, MER 0x4, SNB 0x78, PSIZE 0x300, STRT 0x10000, LOCK 0x80000000
        SR   EOP 0x01, OPERR 0x02, WRPERR 0x10, PGAERR 0x20, PGPERR 0x40, PGSERR 0x80, BSY 0x10000

    SR and the PSIZE and key values are in stm32f2xx_flash.h. The bits of CR are in stm32f2xx.h, which is
    not part of this model, and are declared here. */
module FlashHardware {
  import opened Bits

  const SECTORS: nat := 12

  /** One device: where its sectors begin and end, how many status reads operation number j stays busy, the
      flags that it raises at its end, and what a failed operation leaves in the bytes that it worked on. */
  datatype Chip = Chip(bounds: seq<nat>, latency: nat -> nat, flags: nat -> bv32, residue: nat -> (nat -> bv8))

  // An operation in hand, with the range that it works on and the memory that it leaves if all goes well
  datatype Job = NoJob | Working(lo: nat, hi: nat, result: seq<bv8>)

  // How far the unlock sequence got
  datatype KeyStage = FirstKey | SecondKey | LockedUntilReset

  /** A store of the core into the memory, with what the control register said. */
  datatype StoreEvent = StoreEvent(address: nat, width: nat, cr: bv32, busy: bool)

  // With the values that CR was given when STRT was raised
  datatype State = State(cr: bv32, sr: bv32, stage: KeyStage, mem: seq<bv8>, job: Job, remaining: nat, jobs: nat,
                         stores: seq<StoreEvent>, starts: seq<bv32>)

  predicate Layout(bounds: seq<nat>) {
    |bounds| == SECTORS + 1 && bounds[0] == 0 && forall i, j :: 0 <= i < j <= SECTORS ==> bounds[i] < bounds[j]
  }

  ghost predicate ValidFor(hw: Chip, f: State) {
    && Layout(hw.bounds)
    && |f.mem| == hw.bounds[SECTORS]
    && (f.job.Working? ==> f.jobs > 0 && Confined(f.mem, f.job))
  }

  // An operation changes its own range only
  ghost predicate Confined(mem: seq<bv8>, job: Job)
    requires job.Working?
  {
    && job.lo <= job.hi <= |mem| && |job.result| == |mem|
    && forall x :: 0 <= x < |mem| && !(job.lo <= x < job.hi) ==> job.result[x] == mem[x]
  }

  // ----- memory

  function Erased(mem: seq<bv8>, lo: nat, hi: nat): (r: seq<bv8>)
    requires lo <= hi <= |mem|
    ensures |r| == |mem|
    ensures forall x :: 0 <= x < |mem| && !(lo <= x < hi) ==> r[x] == mem[x]
    ensures forall x :: lo <= x < hi ==> r[x] == 0xFF
  {
    seq(|mem|, x requires 0 <= x < |mem| => if lo <= x < hi then 0xFF else mem[x])
  }

  // Programming can only clear bits
  function Programmed(mem: seq<bv8>, a: nat, data: seq<bv8>): (r: seq<bv8>)
    requires a + |data| <= |mem|
    ensures |r| == |mem|
    ensures forall x :: 0 <= x < |mem| && !(a <= x < a + |data|) ==> r[x] == mem[x]
    ensures forall x {:trigger r[x]} :: a <= x < a + |data| ==> r[x] == mem[x] & data[x - a]
  {
    seq(|mem|, x requires 0 <= x < |mem| => if a <= x < a + |data| then mem[x] & data[x - a] else mem[x])
  }

  function Spoilt(mem: seq<bv8>, lo: nat, hi: nat, residue: nat -> bv8): (r: seq<bv8>)
    requires lo <= hi <= |mem|
    ensures |r| == |mem|
    ensures forall x :: 0 <= x < |mem| && !(lo <= x < hi) ==> r[x] == mem[x]
  {
    seq(|mem|, x requires 0 <= x < |mem| => if lo <= x < hi then residue(x) else mem[x])
  }

  // ----- control register fields

  // FLASH_Sector_0 .. FLASH_Sector_11
  function SectorBits(n: nat): bv32
    requires n < SECTORS
  {
    if n == 0 then 0x00 else if n == 1 then 0x08 else if n == 2 then 0x10 else if n == 3 then 0x18
    else if n == 4 then 0x20 else if n == 5 then 0x28 else if n == 6 then 0x30 else if n == 7 then 0x38
    else if n == 8 then 0x40 else if n == 9 then 0x48 else if n == 10 then 0x50 else 0x58
  }

  // The sector that SNB selects; the remaining values select no sector of this device
  function SectorOf(cr: bv32): (n: nat) {
    var s := cr & 0x78;
    if s == 0x00 then 0 else if s == 0x08 then 1 else if s == 0x10 then 2 else if s == 0x18 then 3
    else if s == 0x20 then 4 else if s == 0x28 then 5 else if s == 0x30 then 6 else if s == 0x38 then 7
    else if s == 0x40 then 8 else if s == 0x48 then 9 else if s == 0x50 then 10 else if s == 0x58 then 11
    else SECTORS
  }

  // The bytes that PSIZE lets a store have
  function WidthOf(cr: bv32): nat {
    var p := Keep(cr, 0x300);
    if p == 0x000 then 1 else if p == 0x100 then 2 else if p == 0x200 then 4 else 8
  }

  predicate Programming(cr: bv32) {
    Any(cr, 0x1)
  }

  predicate SectorErasing(cr: bv32) {
    Any(cr, 0x2)
  }

  predicate MassErasing(cr: bv32) {
    Any(cr, 0x4)
  }

  predicate Starting(cr: bv32) {
    Any(cr, 0x10000)
  }

  predicate Locked(cr: bv32) {
    Any(cr, 0x80000000)
  }

  // None of PG, SER, MER and STRT
  predicate Clean(cr: bv32) {
    !Programming(cr) && !SectorErasing(cr) && !MassErasing(cr) && !Starting(cr)
  }

  // At most one of PG, SER and MER
  predicate Exclusive(cr: bv32) {
    && !(Programming(cr) && SectorErasing(cr))
    && !(Programming(cr) && MassErasing(cr))
    && !(SectorErasing(cr) && MassErasing(cr))
  }

  // ----- what the hardware does

  /** A write to CR is ignored while the register is locked. STRT starts the erase that is selected. */
  function CrWritten(hw: Chip, f: State, v: bv32): (g: State)
    requires ValidFor(hw, f) && f.job.NoJob?
    ensures ValidFor(hw, g)
  {
    hide Any, Set, Clear, SectorOf;
    if Locked(f.cr) then f
    else
      var g := f.(cr := v);
      if !Starting(v) then g
      else
        var s := g.(starts := f.starts + [v]);
        if MassErasing(v) then Begun(hw, s, 0, |f.mem|, Erased(f.mem, 0, |f.mem|))
        else if SectorErasing(v) && SectorOf(v) < SECTORS then
          var n := SectorOf(v);
          Begun(hw, s, hw.bounds[n], hw.bounds[n + 1], Erased(f.mem, hw.bounds[n], hw.bounds[n + 1]))
        else s.(sr := Set(f.sr, 0x80))
  }

  // The two keys in order clear LOCK, anything else keeps it set until the next reset
  function KeyWritten(f: State, v: bv32): State {
    if !Locked(f.cr) then f
    else if f.stage == FirstKey && v == 0x45670123 then f.(stage := SecondKey)
    else if f.stage == SecondKey && v == 0xCDEF89AB then f.(stage := FirstKey, cr := Clear(f.cr, 0x80000000))
    else f.(stage := LockedUntilReset)
  }

  function Begun(hw: Chip, f: State, lo: nat, hi: nat, result: seq<bv8>): State {
    f.(job := Working(lo, hi, result), remaining := hw.latency(f.jobs), jobs := f.jobs + 1)
  }

  /** A store into the memory: refused with an error flag if PG is clear or PSIZE is not its width. */
  function Stored(hw: Chip, f: State, a: nat, data: seq<bv8>): (g: State)
    requires ValidFor(hw, f) && f.job.NoJob? && a + |data| <= |f.mem|
    ensures ValidFor(hw, g)
  {
    hide Any, Set, Clear, WidthOf;
    var g := f.(stores := f.stores + [StoreEvent(a, |data|, f.cr, !f.job.NoJob?)]);
    if !Programming(f.cr) then g.(sr := Set(f.sr, 0x80))
    else if WidthOf(f.cr) != |data| then g.(sr := Set(f.sr, 0x40))
    else Begun(hw, g, a, a + |data|, Programmed(f.mem, a, data))
  }

  // Operation j raised an error flag, that is one other than EOP
  predicate Failed(hw: Chip, j: nat) {
    Any(hw.flags(j), 0xF2)
  }

  function Ended(hw: Chip, f: State): (g: State)
    requires ValidFor(hw, f) && f.job.Working?
    ensures ValidFor(hw, g)
  {
    hide Any, Set, Clear;
    var j := f.jobs - 1;
    f.(job := NoJob, remaining := 0, cr := Clear(f.cr, 0x10000), sr := Set(f.sr, hw.flags(j)),
       mem := if Failed(hw, j) then Spoilt(f.mem, f.job.lo, f.job.hi, hw.residue(j)) else f.job.result)
  }

  function SrRead(hw: Chip, f: State): (g: State)
    requires ValidFor(hw, f)
    ensures ValidFor(hw, g)
  {
    hide Any, Set, Clear;
    if f.job.NoJob? then f
    else if f.remaining > 0 then f.(remaining := f.remaining - 1)
    else Ended(hw, f)
  }

  class Flash {
    const hw: Chip
    var f: State

    ghost predicate Valid()
      reads this
    {
      ValidFor(hw, f)
    }

    /** Every write of the driver keeps PG, SER and MER exclusive and comes while no operation runs: these
        are the preconditions of WriteCR. */
    method WriteCR(v: bv32)
      requires Valid() && f.job.NoJob? && Exclusive(v)
      modifies this
      ensures Valid() && f == CrWritten(hw, old(f), v)
    {
      f := CrWritten(hw, f, v);
    }

    method WriteKEYR(v: bv32)
      requires Valid()
      modifies this
      ensures Valid() && f == KeyWritten(old(f), v)
    {
      hide Any, Clear;
      f := KeyWritten(f, v);
    }

    /** The core would stall if it stored while an operation runs, so it must not. */
    method Store(a: nat, data: seq<bv8>)
      requires Valid() && f.job.NoJob? && a + |data| <= |f.mem|
      modifies this
      ensures Valid() && f == Stored(hw, old(f), a, data)
    {
      f := Stored(hw, f, a, data);
    }

    // FLASH->SR: the flags, and whether BSY is set
    method ReadSR() returns (sr: bv32, busy: bool)
      requires Valid()
      modifies this
      ensures Valid() && f == SrRead(hw, old(f)) && sr == f.sr && (busy <==> f.job.Working?)
    {
      f := SrRead(hw, f);
      sr := f.sr;
      busy := f.job.Working?;
    }
  }
}
