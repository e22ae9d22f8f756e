/** The register-level functions of the CRYP driver and the block loop that its high-level functions share. */
module CrypDriver {
  import opened Bits
  import opened BlockModes
  import opened MemoryRun
  import opened CrypRegisters
  import opened CrypHardware

  datatype ErrorStatus = ERROR | SUCCESS

  // CRYP_InitTypeDef
  datatype InitStruct = InitStruct(decrypt: bool, mode: AlgoMode, dataType: DataType, keySize: KeySize)

  // ----- control register writes

  // The control register after CRYP_Init: each field cleared and set again, KEYSIZE for AES only
  function Configured(cr: bv32, s: InitStruct): bv32 {
    var cr1 := Set(Clear(cr, 0x0038), ModeBits(s.mode));
    var cr2 := Set(Clear(cr1, 0x00C0), DataTypeBits(s.dataType));
    var cr3 := if IsAes(s.mode) then Set(Clear(cr2, 0x0300), KeySizeBits(s.keySize)) else cr2;
    Set(Clear(cr3, 0x0004), DirectionBit(s.decrypt))
  }

  predicate SameSwitches(cr: bv32, cr': bv32) {
    FlushClear(cr') && Enabled(cr') == Enabled(cr)
  }

  // None of the values set by CRYP_Init reaches the switches
  lemma InitBits(s: InitStruct)
    ensures ModeBits(s.mode) & 0xC000 == 0
    ensures DataTypeBits(s.dataType) & 0xC000 == 0
    ensures KeySizeBits(s.keySize) & 0xC000 == 0
    ensures DirectionBit(s.decrypt) & 0xC000 == 0
  {
  }

  // A field replaced: cleared, and set again
  function Replaced(cr: bv32, mask: bv32, bits: bv32): bv32 {
    Set(Clear(cr, mask), bits)
  }

  // The three steps of CRYP_Init before the direction
  function Selected(cr: bv32, s: InitStruct): bv32 {
    var cr2 := Replaced(Replaced(cr, 0x0038, ModeBits(s.mode)), 0x00C0, DataTypeBits(s.dataType));
    if IsAes(s.mode) then Replaced(cr2, 0x0300, KeySizeBits(s.keySize)) else cr2
  }

  lemma ConfiguredIsReplaced(cr: bv32, s: InitStruct)
    ensures Configured(cr, s) == Replaced(Selected(cr, s), 0x0004, DirectionBit(s.decrypt))
  {
    hide Set, Clear, ModeBits, DataTypeBits, KeySizeBits, DirectionBit;
  }

  // Each value lies within its field
  lemma FieldBits(s: InitStruct)
    ensures Keep(ModeBits(s.mode), 0x0038) == ModeBits(s.mode)
    ensures Keep(DataTypeBits(s.dataType), 0x00C0) == DataTypeBits(s.dataType)
    ensures Keep(KeySizeBits(s.keySize), 0x0300) == KeySizeBits(s.keySize)
    ensures Keep(DirectionBit(s.decrypt), 0x0004) == DirectionBit(s.decrypt)
  {
  }

  lemma ModeField(cr: bv32, s: InitStruct)
    ensures Keep(Configured(cr, s), 0x0038) == ModeBits(s.mode)
  {
    hide Keep, Set, Clear, Configured, ModeBits, DataTypeBits, KeySizeBits, DirectionBit;
    FieldBits(s);
    ConfiguredIsReplaced(cr, s);
    var cr1 := Replaced(cr, 0x0038, ModeBits(s.mode));
    var cr2 := Replaced(cr1, 0x00C0, DataTypeBits(s.dataType));
    FieldThere(cr, 0x0038, ModeBits(s.mode));
    FieldElsewhere(cr1, 0x00C0, DataTypeBits(s.dataType), 0x0038);
    FieldElsewhere(cr2, 0x0300, KeySizeBits(s.keySize), 0x0038);
    FieldElsewhere(Selected(cr, s), 0x0004, DirectionBit(s.decrypt), 0x0038);
  }

  lemma DataTypeField(cr: bv32, s: InitStruct)
    ensures Keep(Configured(cr, s), 0x00C0) == DataTypeBits(s.dataType)
  {
    hide Keep, Set, Clear, Configured, ModeBits, DataTypeBits, KeySizeBits, DirectionBit;
    FieldBits(s);
    ConfiguredIsReplaced(cr, s);
    var cr1 := Replaced(cr, 0x0038, ModeBits(s.mode));
    var cr2 := Replaced(cr1, 0x00C0, DataTypeBits(s.dataType));
    FieldThere(cr1, 0x00C0, DataTypeBits(s.dataType));
    FieldElsewhere(cr2, 0x0300, KeySizeBits(s.keySize), 0x00C0);
    FieldElsewhere(Selected(cr, s), 0x0004, DirectionBit(s.decrypt), 0x00C0);
  }

  lemma KeySizeField(cr: bv32, s: InitStruct)
    ensures Keep(Configured(cr, s), 0x0300) == if IsAes(s.mode) then KeySizeBits(s.keySize) else Keep(cr, 0x0300)
  {
    hide Keep, Set, Clear, Configured, ModeBits, DataTypeBits, KeySizeBits, DirectionBit;
    FieldBits(s);
    ConfiguredIsReplaced(cr, s);
    var cr1 := Replaced(cr, 0x0038, ModeBits(s.mode));
    var cr2 := Replaced(cr1, 0x00C0, DataTypeBits(s.dataType));
    FieldElsewhere(cr, 0x0038, ModeBits(s.mode), 0x0300);
    FieldElsewhere(cr1, 0x00C0, DataTypeBits(s.dataType), 0x0300);
    FieldThere(cr2, 0x0300, KeySizeBits(s.keySize));
    FieldElsewhere(Selected(cr, s), 0x0004, DirectionBit(s.decrypt), 0x0300);
  }

  lemma DirectionField(cr: bv32, s: InitStruct)
    ensures Keep(Configured(cr, s), 0x0004) == DirectionBit(s.decrypt)
  {
    hide Keep, Set, Clear, Configured, Selected, DirectionBit;
    FieldBits(s);
    ConfiguredIsReplaced(cr, s);
    FieldThere(Selected(cr, s), 0x0004, DirectionBit(s.decrypt));
  }

  lemma NoField(cr: bv32, s: InitStruct)
    ensures Keep(Configured(cr, s), 0xFFFFFC03) == Keep(cr, 0xFFFFFC03)
  {
    hide Keep, Set, Clear, Configured, ModeBits, DataTypeBits, KeySizeBits, DirectionBit;
    FieldBits(s);
    ConfiguredIsReplaced(cr, s);
    var cr1 := Replaced(cr, 0x0038, ModeBits(s.mode));
    var cr2 := Replaced(cr1, 0x00C0, DataTypeBits(s.dataType));
    FieldElsewhere(cr, 0x0038, ModeBits(s.mode), 0xFFFFFC03);
    FieldElsewhere(cr1, 0x00C0, DataTypeBits(s.dataType), 0xFFFFFC03);
    FieldElsewhere(cr2, 0x0300, KeySizeBits(s.keySize), 0xFFFFFC03);
    FieldElsewhere(Selected(cr, s), 0x0004, DirectionBit(s.decrypt), 0xFFFFFC03);
  }

  lemma FieldMeansMode(v: bv32, m: AlgoMode)
    requires Keep(v, 0x0038) == ModeBits(m)
    ensures ModeOf(v) == m
  {
  }

  lemma FieldMeansDataType(v: bv32, d: DataType)
    requires Keep(v, 0x00C0) == DataTypeBits(d)
    ensures DataTypeOf(v) == d
  {
  }

  lemma FieldMeansDirection(v: bv32, decrypt: bool)
    requires Keep(v, 0x0004) == DirectionBit(decrypt)
    ensures Decrypting(v) == decrypt
  {
  }

  /** The fields of the control register after CRYP_Init are those asked for, whatever was there before;
      everything outside the fields stays, and for DES and TDES the key size. */
  lemma ConfiguredFields(cr: bv32, s: InitStruct)
    ensures ModeOf(Configured(cr, s)) == s.mode
    ensures Keep(Configured(cr, s), 0x00C0) == DataTypeBits(s.dataType) && DataTypeOf(Configured(cr, s)) == s.dataType
    ensures Keep(Configured(cr, s), 0x0300) == if IsAes(s.mode) then KeySizeBits(s.keySize) else Keep(cr, 0x0300)
    ensures Decrypting(Configured(cr, s)) == s.decrypt
    ensures Keep(Configured(cr, s), 0xFFFFFC03) == Keep(cr, 0xFFFFFC03)
  {
    hide Keep, Configured, ModeOf, DataTypeOf, Decrypting, ModeBits, DataTypeBits, KeySizeBits, DirectionBit;
    ModeField(cr, s);
    FieldMeansMode(Configured(cr, s), s.mode);
    DataTypeField(cr, s);
    FieldMeansDataType(Configured(cr, s), s.dataType);
    KeySizeField(cr, s);
    DirectionField(cr, s);
    FieldMeansDirection(Configured(cr, s), s.decrypt);
    NoField(cr, s);
  }

  /** The bits outside the configuration, FFLUSH and CRYPEN. */
  function Rest(cr: bv32): bv32 {
    Keep(cr, 0xFFFF3C03)
  }

  lemma ConfiguredRest(cr: bv32, s: InitStruct)
    ensures Rest(Configured(cr, s)) == Rest(cr)
  {
    hide Keep, Configured, ModeOf, Decrypting, ModeBits, DataTypeBits, KeySizeBits, DirectionBit;
    ConfiguredFields(cr, s);
    KeepLess(Configured(cr, s), 0xFFFFFC03, 0xFFFF3C03);
    KeepLess(cr, 0xFFFFFC03, 0xFFFF3C03);
  }

  // Switching the processor on or off
  lemma SwitchedRest(cr: bv32)
    ensures Rest(Set(cr, 0x8000)) == Rest(cr) && Rest(Clear(cr, 0x8000)) == Rest(cr)
  {
    hide Keep, Set, Clear;
    SetKeeps(cr, 0x8000, 0xFFFF3C03);
    ClearKeeps(cr, 0x8000, 0xFFFF3C03);
  }

  predicate Quiet(r: Registers) {
    !Enabled(r.cr) || r.inFifo == [] || !r.job.NoJob?
  }

  // A write that leaves the switches alone changes nothing but the register
  lemma PlainWrite(hw: Chip, r: Registers, v: bv32)
    requires ValidFor(hw, r) && Quiet(r) && SameSwitches(r.cr, v)
    ensures CrWritten(hw, r, v) == r.(cr := v)
  {
    hide Sound, Any, Set, Clear, ModeOf, BlockJob, PrepareJob;
    ClearAgain(v, 0x4000);
    NothingStarts(hw, r.(cr := v));
  }

  lemma Disjoint(bits: bv32)
    requires bits & 0xC000 == 0
    ensures bits & 0x4000 == 0
    ensures bits & 0x8000 == 0
  {
  }

  /** CRYP_Init */
  method Init(p: Cryp, s: InitStruct)
    requires p.Valid() && Quiet(p.r)
    modifies p
    ensures p.Valid() && p.r == old(p.r).(cr := Configured(old(p.r.cr), s))
  {
    hide Sound, Any, Set, Clear, ModeOf, CrWritten, ModeBits, DataTypeBits, KeySizeBits, DirectionBit;
    InitBits(s);
    ClearBits(p, 0x0038);
    SetBits(p, ModeBits(s.mode));
    ClearBits(p, 0x00C0);
    SetBits(p, DataTypeBits(s.dataType));
    if IsAes(s.mode) {
      ClearBits(p, 0x0300);
      SetBits(p, KeySizeBits(s.keySize));
    }
    ClearBits(p, 0x0004);
    SetBits(p, DirectionBit(s.decrypt));
  }

  // CRYP->CR &= ~mask, for a field of the configuration
  method ClearBits(p: Cryp, mask: bv32)
    requires p.Valid() && Quiet(p.r) && mask & 0xC000 == 0
    modifies p
    ensures p.Valid() && p.r == old(p.r).(cr := Clear(old(p.r.cr), mask)) && Quiet(p.r)
  {
    hide Sound, Any, Set, Clear, ModeOf, CrWritten;
    Disjoint(mask);
    ClearOther(p.r.cr, mask, 0x4000);
    ClearOther(p.r.cr, mask, 0x8000);
    PlainWrite(p.hw, p.r, Clear(p.r.cr, mask));
    p.WriteCR(Clear(p.r.cr, mask));
  }

  // CRYP->CR |= bits, for a field of the configuration
  method SetBits(p: Cryp, bits: bv32)
    requires p.Valid() && Quiet(p.r) && bits & 0xC000 == 0
    modifies p
    ensures p.Valid() && p.r == old(p.r).(cr := Set(old(p.r.cr), bits)) && Quiet(p.r)
  {
    hide Sound, Any, Set, Clear, ModeOf, CrWritten;
    Disjoint(bits);
    SetOther(p.r.cr, bits, 0x4000);
    SetOther(p.r.cr, bits, 0x8000);
    PlainWrite(p.hw, p.r, Set(p.r.cr, bits));
    p.WriteCR(Set(p.r.cr, bits));
  }

  /** CRYP_KeyInit */
  method KeyInit(p: Cryp, s: KeyRegisters)
    requires p.Valid()
    modifies p
    ensures p.Valid() && p.r == old(p.r).(keys := KeysWritten(p.hw, old(p.r), s))
  {
    hide Sound, Any;
    p.r := p.r.(keys := KeysWritten(p.hw, p.r, p.r.keys.(k0l := s.k0l)));
    p.r := p.r.(keys := KeysWritten(p.hw, p.r, p.r.keys.(k0r := s.k0r)));
    p.r := p.r.(keys := KeysWritten(p.hw, p.r, p.r.keys.(k1l := s.k1l)));
    p.r := p.r.(keys := KeysWritten(p.hw, p.r, p.r.keys.(k1r := s.k1r)));
    p.r := p.r.(keys := KeysWritten(p.hw, p.r, p.r.keys.(k2l := s.k2l)));
    p.r := p.r.(keys := KeysWritten(p.hw, p.r, p.r.keys.(k2r := s.k2r)));
    p.r := p.r.(keys := KeysWritten(p.hw, p.r, p.r.keys.(k3l := s.k3l)));
    p.r := p.r.(keys := KeysWritten(p.hw, p.r, p.r.keys.(k3r := s.k3r)));
  }

  /** CRYP_IVInit */
  method IVInit(p: Cryp, s: IvRegisters)
    requires p.Valid()
    modifies p
    ensures p.Valid() && p.r == old(p.r).(iv := IvWritten(p.hw, old(p.r), s))
  {
    hide Sound, Any;
    p.r := p.r.(iv := IvWritten(p.hw, p.r, p.r.iv.(iv0l := s.iv0l)));
    p.r := p.r.(iv := IvWritten(p.hw, p.r, p.r.iv.(iv0r := s.iv0r)));
    p.r := p.r.(iv := IvWritten(p.hw, p.r, p.r.iv.(iv1l := s.iv1l)));
    p.r := p.r.(iv := IvWritten(p.hw, p.r, p.r.iv.(iv1r := s.iv1r)));
  }

  /** CRYP_FIFOFlush */
  method FIFOFlush(p: Cryp)
    requires p.Valid()
    modifies p
    ensures p.Valid()
    ensures p.r == old(p.r).(inFifo := [], outFifo := [],
                             flushedWhileBusy := old(p.r.flushedWhileBusy) || !old(p.r.job).NoJob?)
  {
    hide Sound, Any, Set, Clear, ModeOf, BlockJob, PrepareJob;
    ClearAfterSet(p.r.cr, 0x4000);
    SetOther(p.r.cr, 0x4000, 0x8000);
    SetSets(p.r.cr, 0x4000);
    ModeUnchanged(p.r.cr, 0x4000);
    ghost var r := p.r;
    p.WriteCR(Set(p.r.cr, 0x4000));
    NothingStarts(p.hw, r.(inFifo := [], outFifo := [], flushedWhileBusy := r.flushedWhileBusy || !r.job.NoJob?));
  }

  /** CRYP_Cmd(ENABLE), with nothing in the input FIFO */
  method Enable(p: Cryp)
    requires p.Valid() && p.r.inFifo == []
    modifies p
    ensures p.Valid()
    ensures var q := old(p.r).(cr := Set(old(p.r.cr), 0x8000));
            p.r == if !Enabled(old(p.r.cr)) && KeyPreparation(old(p.r.cr)) && old(p.r.job).NoJob? then
                     q.(job := PrepareJob(p.hw.si, q.cr, q.keys), remaining := p.hw.schedule(q.jobs),
                        jobs := q.jobs + 1)
                   else q
  {
    hide Sound, Any, Set, Clear, ModeOf, BlockJob, PrepareJob;
    SetOther(p.r.cr, 0x8000, 0x4000);
    ClearAgain(Set(p.r.cr, 0x8000), 0x4000);
    SetSets(p.r.cr, 0x8000);
    ModeUnchanged(p.r.cr, 0x8000);
    ghost var r := p.r;
    p.WriteCR(Set(p.r.cr, 0x8000));
    NothingStarts(p.hw, r.(cr := Set(r.cr, 0x8000)));
  }

  /** CRYP_Cmd(DISABLE) */
  method Disable(p: Cryp)
    requires p.Valid()
    modifies p
    ensures p.Valid() && p.r == old(p.r).(cr := Clear(old(p.r.cr), 0x8000)) && !Enabled(p.r.cr)
  {
    hide Sound, Any, Set, Clear, ModeOf, BlockJob, PrepareJob;
    ClearOther(p.r.cr, 0x8000, 0x4000);
    ClearAgain(Clear(p.r.cr, 0x8000), 0x4000);
    ClearClears(p.r.cr, 0x8000);
    ghost var r := p.r;
    p.WriteCR(Clear(p.r.cr, 0x8000));
    NothingStarts(p.hw, r.(cr := Clear(r.cr, 0x8000)));
  }

  /** CRYP_GetFlagStatus(CRYP_FLAG_BUSY) */
  method BusyFlag(p: Cryp) returns (busy: bool)
    requires p.Valid()
    modifies p
    ensures p.Valid() && p.r == SrRead(p.hw, old(p.r)) && (busy <==> !p.r.job.NoJob?)
  {
    hide Sound, Any, SrRead, Status;
    var sr := p.ReadSR();
    StatusBits(p.r);
    busy := sr & 0x10 != 0;
  }

  // ----- waiting

  /** The registers at the end of a wait for the job in hand that does not give up. */
  function Waited(hw: Chip, r: Registers): Registers
    requires ValidFor(hw, r) && !r.job.NoJob?
  {
    Finished(hw, r.(remaining := 0, polls := r.polls + r.remaining + 1))
  }

  // Nothing is left to start when the job in hand ends
  lemma WaitedIsQuiet(hw: Chip, r: Registers)
    requires ValidFor(hw, r) && !r.job.NoJob? && r.inFifo == []
    ensures var w := r.(remaining := 0, polls := r.polls + r.remaining + 1, job := NoJob);
            Waited(hw, r) ==
              match r.job
              case Preparing(k) => w.(keys := k, cr := if hw.dropsEnable then Clear(r.cr, 0x8000) else r.cr)
              case Processing(out, iv) => w.(outFifo := r.outFifo + out, iv := iv)
  {
    hide Sound, Any, Set, Clear, ModeOf, BlockJob;
  }

  // AESBUSY_TIMEOUT, DESBUSY_TIMEOUT and TDESBUSY_TIMEOUT
  const BUSY_TIMEOUT: nat := 0x00010000

  /** The polling loop of the high-level functions. */
  method WaitWhileBusy(p: Cryp) returns (busy: bool)
    requires p.Valid() && !p.r.job.NoJob? && p.r.inFifo == []
    modifies p
    ensures p.Valid()
    ensures busy <==> old(p.r.remaining) >= MAX_READS
    ensures !busy ==> p.r == Waited(p.hw, old(p.r))
    ensures busy ==>
            p.r == old(p.r).(remaining := old(p.r.remaining) - MAX_READS, polls := old(p.r.polls) + MAX_READS)
  {
    hide Sound, Any, Set, Clear, ModeOf, BlockJob, Started;
    ghost var r := p.r;
    ghost var end := Waited(p.hw, r);
    WaitedIsQuiet(p.hw, r);
    var counter := 0;
    busy := true;
    while counter != BUSY_TIMEOUT && busy
      invariant p.Valid() && counter <= BUSY_TIMEOUT
      invariant busy ==>
                counter <= r.remaining && p.r == r.(remaining := r.remaining - counter, polls := r.polls + counter)
      invariant !busy ==> counter == r.remaining + 1 && p.r == end
    {
      busy := BusyFlag(p);
      counter := counter + 1;
    }
  }
}
