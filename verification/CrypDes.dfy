/** CRYP_DES_ECB, CRYP_DES_CBC, CRYP_TDES_ECB and CRYP_TDES_CBC. */
module CrypDes {
  import opened Bits
  import opened Words
  import opened BlockModes
  import opened MemoryRun
  import opened CrypRegisters
  import opened CrypHardware
  import opened CrypDriver
  import opened CrypBlocks
  import opened CrypRun
  import opened CrypAes

  // The two words of a DES key, or of one key of a TDES bundle
  method LoadPair(ram: array<bv8>, a: nat) returns (left: Word, right: Word)
    requires a + 8 <= ram.Length
    ensures Bytes(left) + Bytes(right) == ram[a..a + 8]
  {
    hide Bytes;
    var addr := a;
    left := LoadReversed(ram, addr);
    addr := addr + 4;
    right := LoadReversed(ram, addr);
    assert ram[a..a + 8] == ram[a..a + 4] + ram[a + 4..a + 8];
  }

  // Unlike for AES, every mode other than MODE_ENCRYPT decrypts
  ghost function DesCall(m: seq<bv8>, family: Family, chaining: Chaining, mode: bv8, iv: Block, key: nat,
                         input: nat, ilength: nat, output: nat): Call
    requires family != Aes && key + KeyLength(family) <= |m|
  {
    Call(family, chaining, mode != 0x01, m[key..key + KeyLength(family)], iv, input, output,
         Blocks(family, ilength))
  }

  function KeyLength(family: Family): nat {
    if family == Tdes then 24 else 8
  }

  predicate DesArguments(memory: nat, family: Family, key: nat, input: nat, ilength: nat, output: nat) {
    && family != Aes && ilength % 8 == 0
    && key + KeyLength(family) <= memory && input + ilength <= memory && output + ilength <= memory
  }

  ghost function KeyMaterial(family: Family, k: KeyRegisters): seq<bv8> {
    if family == Tdes then Bytes(k.k1l) + Bytes(k.k1r) + Bytes(k.k2l) + Bytes(k.k2r) + Bytes(k.k3l) + Bytes(k.k3r)
    else Bytes(k.k1l) + Bytes(k.k1r)
  }

  /** CRYP_Init, CRYP_KeyInit, CRYP_IVInit if there is an IV, CRYP_FIFOFlush and CRYP_Cmd(ENABLE). */
  method SetUp(p: Cryp, s: InitStruct, k: KeyRegisters, iv: Option<IvRegisters>)
    requires p.Idle() && s.dataType == Data8b && !s.mode.AesKeyPreparation?
    modifies p
    ensures p.Valid()
    ensures p.r ==
            old(p.r).(cr := DriverCr(old(p.r.cr), s), keys := k, iv := if iv.Some? then iv.value else old(p.r.iv),
                             inFifo := [], outFifo := [])
  {
    hide Sound, Any, ModeOf, Set, Clear, Configured;
    ghost var cr := p.r.cr;
    Init(p, s);
    KeyInit(p, k);
    if iv.Some? {
      IVInit(p, iv.value);
    }
    FIFOFlush(p);
    ConfiguredFields(cr, s);
    Enable(p);
  }

  /** The text that the four functions share, once the key and, for CBC, the IV are loaded. */
  method Run(p: Cryp, ram: array<bv8>, mode: AlgoMode, decrypt: bool, k: KeyRegisters, iv: Option<IvRegisters>,
             input: nat, ilength: nat, output: nat, ghost call: Call)
    returns (status: ErrorStatus)
    requires p.Idle() && !IsAes(mode)
    requires call.family == FamilyOfMode(mode) && call.chaining == ChainingOfMode(mode) && call.decrypt == decrypt
    requires call.input == input && call.output == output && call.count == Blocks(call.family, ilength)
    requires WholeBlocks(call.family, ilength) && call.Sensible(ram.Length)
    requires input + ilength <= ram.Length && output + ilength <= ram.Length
    requires call.key == KeyMaterial(call.family, k) && OthersZero(call.family, |call.key|, k)
    requires call.iv == ChainOf(call.family, if iv.Some? then iv.value else p.r.iv)
    modifies p, ram
    ensures p.Valid() && !Enabled(p.r.cr)
    ensures Performed(p.hw, call, old(p.r), old(ram[..]), p.r, ram[..], status)
    ensures Apart(call.family, input, output, call.count) ==>
              Promised(p.hw, call, old(p.r.jobs), old(ram[..]), ram[..], status)
    ensures status == SUCCESS ==> p.Idle() && p.r.inFifo == p.r.outFifo == []
  {
    hide Sound, Any, ModeOf, Set, Clear, Ready, DriverCr, Bytes, Promised, Rest, ByteSwapping;
    ghost var r0, mem0 := p.r, ram[..];
    ghost var cr := p.r.cr;
    var s := InitStruct(decrypt, mode, Data8b, Key128b);
    SetUp(p, s, k, iv);
    DriverCrReads(cr, s);
    SetUpLeaves(cr, s);
    SetUpIsReady(p.hw, p.r, cr, s);
    ghost var c := ContextFor(p.hw.si, call.family, call.chaining, call.decrypt, call.key);
    assert Ready(p.hw, p.r, c);
    status := BlockLoop(p, ram, input, ilength, output, FamilyOfMode(mode), c);
    if status == SUCCESS {
      ReadyIsEmpty(p.hw, p.r, c);
    }
    Disable(p);
    if Apart(call.family, input, output, call.count) {
      PerformedAsPromised(p.hw, call, r0, mem0, p.r, ram[..], status);
    }
  }

  method LoadDesKey(ram: array<bv8>, key: nat) returns (k: KeyRegisters)
    requires key + 8 <= ram.Length
    ensures KeyMaterial(Des, k) == ram[key..key + 8] && OthersZero(Des, 8, k)
  {
    var l, r := LoadPair(ram, key);
    k := NO_KEY.(k1l := l, k1r := r);
  }

  method LoadTdesKey(ram: array<bv8>, key: nat) returns (k: KeyRegisters)
    requires key + 24 <= ram.Length
    ensures KeyMaterial(Tdes, k) == ram[key..key + 24] && OthersZero(Tdes, 24, k)
  {
    hide Bytes;
    var l1, r1 := LoadPair(ram, key);
    var l2, r2 := LoadPair(ram, key + 8);
    var l3, r3 := LoadPair(ram, key + 16);
    k := NO_KEY.(k1l := l1, k1r := r1, k2l := l2, k2r := r2, k3l := l3, k3r := r3);
    assert ram[key..key + 24] == ram[key..key + 8] + ram[key + 8..key + 16] + ram[key + 16..key + 24];
    assert KeyMaterial(Tdes, k) == (Bytes(l1) + Bytes(r1)) + (Bytes(l2) + Bytes(r2)) + (Bytes(l3) + Bytes(r3));
  }

  /** The IV structure: its second half is never assigned and holds whatever `stack` left there. */
  method LoadDesIv(ram: array<bv8>, initVectors: nat, stack: IvRegisters, ghost family: Family)
    returns (iv: IvRegisters)
    requires family != Aes && initVectors + 8 <= ram.Length
    ensures ChainOf(family, iv) == ram[initVectors..initVectors + 8]
  {
    hide Bytes;
    var l, r := LoadPair(ram, initVectors);
    iv := stack.(iv0l := l, iv0r := r);
  }

  /** CRYP_DES_ECB */
  method DES_ECB(p: Cryp, ram: array<bv8>, mode: bv8, key: nat, input: nat, ilength: nat, output: nat)
    returns (status: ErrorStatus)
    requires p.Idle() && DesArguments(ram.Length, Des, key, input, ilength, output)
    modifies p, ram
    ensures p.Valid() && !Enabled(p.r.cr)
    ensures var call := DesCall(old(ram[..]), Des, EcbMode, mode, old(ChainOf(Des, p.r.iv)), key, input, ilength,
                                output);
            && Performed(p.hw, call, old(p.r), old(ram[..]), p.r, ram[..], status)
            && (Apart(Des, input, output, call.count) ==>
                  Promised(p.hw, call, old(p.r.jobs), old(ram[..]), ram[..], status))
    ensures status == SUCCESS ==> p.Idle() && p.r.inFifo == p.r.outFifo == []
  {
    hide Sound, Any, Performed, Promised, KeyMaterial, ChainOf;
    ghost var call := DesCall(ram[..], Des, EcbMode, mode, ChainOf(Des, p.r.iv), key, input, ilength, output);
    var k := LoadDesKey(ram, key);
    status := Run(p, ram, DesEcb, mode != MODE_ENCRYPT, k, None, input, ilength, output, call);
  }

  /** CRYP_DES_CBC */
  method DES_CBC(p: Cryp, ram: array<bv8>, mode: bv8, key: nat, initVectors: nat, input: nat, ilength: nat, output: nat,
                 stack: IvRegisters)
    returns (status: ErrorStatus)
    requires p.Idle() && DesArguments(ram.Length, Des, key, input, ilength, output) && initVectors + 8 <= ram.Length
    modifies p, ram
    ensures p.Valid() && !Enabled(p.r.cr)
    ensures var call := DesCall(old(ram[..]), Des, CbcMode, mode, old(ram[initVectors..initVectors + 8]), key, input,
                                ilength, output);
            && Performed(p.hw, call, old(p.r), old(ram[..]), p.r, ram[..], status)
            && (Apart(Des, input, output, call.count) ==>
                  Promised(p.hw, call, old(p.r.jobs), old(ram[..]), ram[..], status))
    ensures status == SUCCESS ==> p.Idle() && p.r.inFifo == p.r.outFifo == []
  {
    hide Sound, Any, Performed, Promised, KeyMaterial, ChainOf;
    ghost var call := DesCall(ram[..], Des, CbcMode, mode, ram[initVectors..initVectors + 8], key, input, ilength,
                              output);
    var k := LoadDesKey(ram, key);
    var iv := LoadDesIv(ram, initVectors, stack, Des);
    status := Run(p, ram, DesCbc, mode != MODE_ENCRYPT, k, Some(iv), input, ilength, output, call);
  }

  /** CRYP_TDES_ECB */
  method TDES_ECB(p: Cryp, ram: array<bv8>, mode: bv8, key: nat, input: nat, ilength: nat, output: nat)
    returns (status: ErrorStatus)
    requires p.Idle() && DesArguments(ram.Length, Tdes, key, input, ilength, output)
    modifies p, ram
    ensures p.Valid() && !Enabled(p.r.cr)
    ensures var call := DesCall(old(ram[..]), Tdes, EcbMode, mode, old(ChainOf(Tdes, p.r.iv)), key, input, ilength,
                                output);
            && Performed(p.hw, call, old(p.r), old(ram[..]), p.r, ram[..], status)
            && (Apart(Tdes, input, output, call.count) ==>
                  Promised(p.hw, call, old(p.r.jobs), old(ram[..]), ram[..], status))
    ensures status == SUCCESS ==> p.Idle() && p.r.inFifo == p.r.outFifo == []
  {
    hide Sound, Any, Performed, Promised, KeyMaterial, ChainOf;
    ghost var call := DesCall(ram[..], Tdes, EcbMode, mode, ChainOf(Tdes, p.r.iv), key, input, ilength, output);
    var k := LoadTdesKey(ram, key);
    status := Run(p, ram, TdesEcb, mode != MODE_ENCRYPT, k, None, input, ilength, output, call);
  }

  /** CRYP_TDES_CBC */
  method TDES_CBC(p: Cryp, ram: array<bv8>, mode: bv8, key: nat, initVectors: nat, input: nat, ilength: nat,
                  output: nat, stack: IvRegisters)
    returns (status: ErrorStatus)
    requires p.Idle() && DesArguments(ram.Length, Tdes, key, input, ilength, output) && initVectors + 8 <= ram.Length
    modifies p, ram
    ensures p.Valid() && !Enabled(p.r.cr)
    ensures var call := DesCall(old(ram[..]), Tdes, CbcMode, mode, old(ram[initVectors..initVectors + 8]), key, input,
                                ilength, output);
            && Performed(p.hw, call, old(p.r), old(ram[..]), p.r, ram[..], status)
            && (Apart(Tdes, input, output, call.count) ==>
                  Promised(p.hw, call, old(p.r.jobs), old(ram[..]), ram[..], status))
    ensures status == SUCCESS ==> p.Idle() && p.r.inFifo == p.r.outFifo == []
  {
    hide Sound, Any, Performed, Promised, KeyMaterial, ChainOf;
    ghost var call := DesCall(ram[..], Tdes, CbcMode, mode, ram[initVectors..initVectors + 8], key, input, ilength,
                              output);
    var k := LoadTdesKey(ram, key);
    var iv := LoadDesIv(ram, initVectors, stack, Tdes);
    status := Run(p, ram, TdesCbc, mode != MODE_ENCRYPT, k, Some(iv), input, ilength, output, call);
  }
}
