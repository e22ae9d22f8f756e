/** CRYP_AES_ECB, CRYP_AES_CBC and CRYP_AES_CTR. */
module CrypAes {
  import opened Bits
  import opened Words
  import opened BlockModes
  import opened MemoryRun
  import opened CrypRegisters
  import opened CrypHardware
  import opened CrypDriver
  import opened CrypBlocks
  import opened CrypRun

  const MODE_ENCRYPT: bv8 := 0x01
  const MODE_DECRYPT: bv8 := 0x00

  const NO_KEY := KeyRegisters(ZERO, ZERO, ZERO, ZERO, ZERO, ZERO, ZERO, ZERO)

  // __REV(*(uint32_t*)a)
  method LoadReversed(ram: array<bv8>, a: nat) returns (w: Word)
    requires a + 4 <= ram.Length
    ensures Bytes(w) == ram[a..a + 4]
  {
    w := LoadWord(ram, a);
    RevLoadIsBigEndian(ram[..], a);
    w := Rev(w);
  }

  /** The switch on the key size: the key, read most significant byte first, goes to the end of the key
      registers. */
  method LoadAesKey(ram: array<bv8>, key: nat, keysize: nat) returns (size: KeySize, k: KeyRegisters)
    requires keysize == 128 || keysize == 192 || keysize == 256
    requires key + keysize / 8 <= ram.Length
    ensures KeySizeBytes(size) == keysize / 8
    ensures AesKey(keysize / 8, k) == ram[key..key + keysize / 8] && OthersZero(Aes, keysize / 8, k)
  {
    hide Bytes;
    var keyaddr := key;
    k := NO_KEY;
    if keysize == 128 {
      size := Key128b;
    } else if keysize == 192 {
      size := Key192b;
      var l1 := LoadReversed(ram, keyaddr);
      k := k.(k1l := l1);
      keyaddr := keyaddr + 4;
      var r1 := LoadReversed(ram, keyaddr);
      k := k.(k1r := r1);
      keyaddr := keyaddr + 4;
      assert Bytes(k.k1l) + Bytes(k.k1r) == ram[key..keyaddr];
    } else {
      size := Key256b;
      var l0 := LoadReversed(ram, keyaddr);
      k := k.(k0l := l0);
      keyaddr := keyaddr + 4;
      var r0 := LoadReversed(ram, keyaddr);
      k := k.(k0r := r0);
      keyaddr := keyaddr + 4;
      var l1 := LoadReversed(ram, keyaddr);
      k := k.(k1l := l1);
      keyaddr := keyaddr + 4;
      var r1 := LoadReversed(ram, keyaddr);
      k := k.(k1r := r1);
      keyaddr := keyaddr + 4;
      assert ram[key..key + 16] ==
             ram[key..key + 4] + ram[key + 4..key + 8] + ram[key + 8..key + 12] + ram[key + 12..key + 16];
      assert Bytes(k.k0l) + Bytes(k.k0r) + Bytes(k.k1l) + Bytes(k.k1r) == ram[key..keyaddr];
    }
    k := LoadLowKey(ram, keyaddr, k);
    ghost var low := Bytes(k.k2l) + Bytes(k.k2r) + Bytes(k.k3l) + Bytes(k.k3r);
    assert ram[key..key + keysize / 8] == ram[key..keyaddr] + low;
  }

  // The four words that all three key sizes end with
  method LoadLowKey(ram: array<bv8>, a: nat, k0: KeyRegisters) returns (k: KeyRegisters)
    requires a + 16 <= ram.Length
    ensures k.k0l == k0.k0l && k.k0r == k0.k0r && k.k1l == k0.k1l && k.k1r == k0.k1r
    ensures Bytes(k.k2l) + Bytes(k.k2r) + Bytes(k.k3l) + Bytes(k.k3r) == ram[a..a + 16]
  {
    hide Bytes;
    var keyaddr := a;
    var l2 := LoadReversed(ram, keyaddr);
    keyaddr := keyaddr + 4;
    var r2 := LoadReversed(ram, keyaddr);
    keyaddr := keyaddr + 4;
    var l3 := LoadReversed(ram, keyaddr);
    keyaddr := keyaddr + 4;
    var r3 := LoadReversed(ram, keyaddr);
    k := k0.(k2l := l2, k2r := r2, k3l := l3, k3r := r3);
    assert ram[a..a + 16] == ram[a..a + 4] + ram[a + 4..a + 8] + ram[a + 8..a + 12] + ram[a + 12..a + 16];
  }

  method LoadIv(ram: array<bv8>, initVectors: nat) returns (iv: IvRegisters)
    requires initVectors + 16 <= ram.Length
    ensures ChainOf(Aes, iv) == ram[initVectors..initVectors + 16]
  {
    hide Bytes;
    var ivaddr := initVectors;
    var l0 := LoadReversed(ram, ivaddr);
    ivaddr := ivaddr + 4;
    var r0 := LoadReversed(ram, ivaddr);
    ivaddr := ivaddr + 4;
    var l1 := LoadReversed(ram, ivaddr);
    ivaddr := ivaddr + 4;
    var r1 := LoadReversed(ram, ivaddr);
    iv := IvRegisters(l0, r0, l1, r1);
    var a := initVectors;
    assert ram[a..a + 16] == ram[a..a + 4] + ram[a + 4..a + 8] + ram[a + 8..a + 12] + ram[a + 12..a + 16];
  }

  // The registers after a key preparation that does not give up
  ghost predicate Prepared(hw: Chip, r0: Registers, size: KeySize, k: KeyRegisters, r1: Registers) {
    var n := KeySizeBytes(size);
    && ValidFor(hw, r1)
    && r1.job.NoJob? && r1.inFifo == [] && r1.outFifo == []
    && AesKey(n, r1.keys) == hw.si.aesPrep(AesKey(n, k)) && (OthersZero(Aes, n, k) ==> OthersZero(Aes, n, r1.keys))
    && r1.iv == r0.iv && r1.dmacr == r0.dmacr && r1.flushedWhileBusy == r0.flushedWhileBusy
    && r1.jobs == r0.jobs + 1 && r1.polls == r0.polls + hw.schedule(r0.jobs) + 1
  }

  /** Key preparation for decryption, up to the check of the busy status. */
  method PrepareKey(p: Cryp, size: KeySize, k: KeyRegisters) returns (status: ErrorStatus)
    requires p.Idle()
    modifies p
    ensures p.Valid()
    ensures status == SUCCESS <==> p.hw.schedule(old(p.r.jobs)) < MAX_READS
    ensures status == SUCCESS ==> Prepared(p.hw, old(p.r), size, k, p.r)
    ensures status == ERROR ==> p.r.job.Preparing? && p.r.inFifo == [] && p.r.polls == old(p.r.polls) + MAX_READS
    ensures p.r.dmacr == old(p.r.dmacr) && Rest(p.r.cr) == Rest(old(p.r.cr))
  {
    hide Sound, Any, Set, Clear, ModeOf, Configured, WithAesKey, AesKey, Waited, Rest;
    ghost var r0 := p.r;
    FIFOFlush(p);
    Init(p, InitStruct(true, AesKeyPreparation, Data32b, size));
    KeyInit(p, k);
    PreparationCr(r0.cr, size);
    ghost var cr := Configured(r0.cr, InitStruct(true, AesKeyPreparation, Data32b, size));
    ConfiguredRest(r0.cr, InitStruct(true, AesKeyPreparation, Data32b, size));
    SwitchedRest(cr);
    SwitchedRest(Set(cr, 0x8000));
    Enable(p);
    assert p.r.job == PrepareJob(p.hw.si, Set(cr, 0x8000), k);
    PreparedLength(p.hw.si, AesKey(KeySizeBytes(size), k));
    if OthersZero(Aes, KeySizeBytes(size), k) {
      OthersStay(KeySizeBytes(size), k, p.hw.si.aesPrep(AesKey(KeySizeBytes(size), k)));
    }
    WithAesKeyHolds(KeySizeBytes(size), k, p.hw.si.aesPrep(AesKey(KeySizeBytes(size), k)));
    WaitedIsQuiet(p.hw, p.r);
    var busy := WaitWhileBusy(p);
    status := if busy then ERROR else SUCCESS;
  }

  lemma OthersStay(n: nat, k: KeyRegisters, b: seq<bv8>)
    requires AesKeyBytes(n) && |b| == n && OthersZero(Aes, n, k)
    ensures OthersZero(Aes, n, WithAesKey(n, k, b))
  {
    hide Bytes;
  }

  lemma PreparedLength(si: Silicon, key: seq<bv8>)
    requires Sound(si) && AesKeyBytes(|key|)
    ensures |si.aesPrep(key)| == |key|
  {
  }

  lemma PreparationCr(cr: bv32, size: KeySize)
    requires FlushClear(cr) && !Enabled(cr)
    ensures var v := Configured(cr, InitStruct(true, AesKeyPreparation, Data32b, size));
            FlushClear(v) && !Enabled(v) && KeyPreparation(v) && KeyBytesOf(Set(v, 0x8000)) == KeySizeBytes(size)
  {
    hide Set, Clear, ModeOf, Any, Configured, Decrypting;
    var s := InitStruct(true, AesKeyPreparation, Data32b, size);
    ConfiguredFields(cr, s);
    ConfiguredSwitches(cr, s);
    SetFields(Configured(cr, s));
  }

  ghost function AesCall(m: seq<bv8>, chaining: Chaining, mode: bv8, iv: Block, key: nat, keysize: nat,
                         input: nat, ilength: nat, output: nat): Call
    requires key + keysize / 8 <= |m|
  {
    Call(Aes, chaining, mode == 0x00, m[key..key + keysize / 8], iv, input, output, Blocks(Aes, ilength))
  }

  // What assert_param and the documentation ask of a caller
  predicate Arguments(memory: nat, key: nat, keysize: nat, input: nat, ilength: nat, output: nat) {
    && (keysize == 128 || keysize == 192 || keysize == 256)
    && ilength % 16 == 0
    && key + keysize / 8 <= memory && input + ilength <= memory && output + ilength <= memory
  }

  /** CRYP_AES_ECB */
  method AES_ECB(p: Cryp, ram: array<bv8>, mode: bv8, key: nat, keysize: nat, input: nat, ilength: nat, output: nat)
    returns (status: ErrorStatus)
    requires p.Idle() && Arguments(ram.Length, key, keysize, input, ilength, output)
    modifies p, ram
    ensures p.Valid() && !Enabled(p.r.cr)
    ensures var call := AesCall(old(ram[..]), EcbMode, mode, old(ChainOf(Aes, p.r.iv)), key, keysize, input, ilength,
                                output);
            && Performed(p.hw, call, old(p.r), old(ram[..]), p.r, ram[..], status)
            && (Apart(Aes, input, output, call.count) ==>
                  Promised(p.hw, call, old(p.r.jobs), old(ram[..]), ram[..], status))
    ensures status == SUCCESS ==> p.Idle() && p.r.inFifo == p.r.outFifo == []
  {
    hide Sound, Any, ModeOf, Set, Clear, Performed, Promised, Ready, Here, AesKey, Rest;
    ghost var call := AesCall(ram[..], EcbMode, mode, ChainOf(Aes, p.r.iv), key, keysize, input, ilength, output);
    ghost var r0, mem0 := p.r, ram[..];
    var size, k := LoadAesKey(ram, key, keysize);
    status := SUCCESS;
    if mode == MODE_DECRYPT {
      status := PrepareKey(p, size, k);
    } else {
      KeyInit(p, k);
    }
    status := Run(p, ram, AesEcb, mode == MODE_DECRYPT, size, None, status, input, ilength, output, call, r0);
    if Apart(Aes, input, output, call.count) {
      PerformedAsPromised(p.hw, call, r0, mem0, p.r, ram[..], status);
    }
  }

  /** CRYP_AES_CBC */
  method AES_CBC(p: Cryp, ram: array<bv8>, mode: bv8, initVectors: nat, key: nat, keysize: nat,
                 input: nat, ilength: nat, output: nat)
    returns (status: ErrorStatus)
    requires p.Idle() && Arguments(ram.Length, key, keysize, input, ilength, output) && initVectors + 16 <= ram.Length
    modifies p, ram
    ensures p.Valid() && !Enabled(p.r.cr)
    ensures var call := AesCall(old(ram[..]), CbcMode, mode, old(ram[initVectors..initVectors + 16]), key, keysize,
                                input, ilength, output);
            && Performed(p.hw, call, old(p.r), old(ram[..]), p.r, ram[..], status)
            && (Apart(Aes, input, output, call.count) ==>
                  Promised(p.hw, call, old(p.r.jobs), old(ram[..]), ram[..], status))
    ensures status == SUCCESS ==> p.Idle() && p.r.inFifo == p.r.outFifo == []
  {
    hide Sound, Any, ModeOf, Set, Clear, Performed, Promised, Ready, Here, AesKey, ChainOf, Rest;
    ghost var call := AesCall(ram[..], CbcMode, mode, ram[initVectors..initVectors + 16], key, keysize, input, ilength,
                              output);
    ghost var r0, mem0 := p.r, ram[..];
    var size, k := LoadAesKey(ram, key, keysize);
    var iv := LoadIv(ram, initVectors);
    status := SUCCESS;
    if mode == MODE_DECRYPT {
      status := PrepareKey(p, size, k);
    } else {
      KeyInit(p, k);
    }
    status := Run(p, ram, AesCbc, mode == MODE_DECRYPT, size, Some(iv), status, input, ilength, output, call, r0);
    if Apart(Aes, input, output, call.count) {
      PerformedAsPromised(p.hw, call, r0, mem0, p.r, ram[..], status);
    }
  }

  /** CRYP_AES_CTR: no preparation, whatever the direction. */
  method AES_CTR(p: Cryp, ram: array<bv8>, mode: bv8, initVectors: nat, key: nat, keysize: nat,
                 input: nat, ilength: nat, output: nat)
    returns (status: ErrorStatus)
    requires p.Idle() && Arguments(ram.Length, key, keysize, input, ilength, output) && initVectors + 16 <= ram.Length
    modifies p, ram
    ensures p.Valid() && !Enabled(p.r.cr)
    ensures var call := AesCall(old(ram[..]), CtrMode, mode, old(ram[initVectors..initVectors + 16]), key, keysize,
                                input, ilength, output);
            && Performed(p.hw, call, old(p.r), old(ram[..]), p.r, ram[..], status)
            && (Apart(Aes, input, output, call.count) ==>
                  Promised(p.hw, call, old(p.r.jobs), old(ram[..]), ram[..], status))
    ensures status == SUCCESS ==> p.Idle() && p.r.inFifo == p.r.outFifo == []
  {
    hide Sound, Any, ModeOf, Set, Clear, Performed, Promised, Ready, Here, AesKey, ChainOf, Rest;
    ghost var call := AesCall(ram[..], CtrMode, mode, ram[initVectors..initVectors + 16], key, keysize, input, ilength,
                              output);
    ghost var r0, mem0 := p.r, ram[..];
    var size, k := LoadAesKey(ram, key, keysize);
    var iv := LoadIv(ram, initVectors);
    KeyInit(p, k);
    status := Run(p, ram, AesCtr, mode == MODE_DECRYPT, size, Some(iv), SUCCESS, input, ilength, output, call, r0);
    if Apart(Aes, input, output, call.count) {
      PerformedAsPromised(p.hw, call, r0, mem0, p.r, ram[..], status);
    }
  }

  datatype Option<T> = None | Some(value: T)

  // Key registers, FIFOs and counters where the common part of the three functions begins
  ghost predicate KeyInPlace(hw: Chip, call: Call, r0: Registers, size: KeySize, r: Registers, status: ErrorStatus) {
    && ValidFor(hw, r) && r.dmacr == r0.dmacr && Rest(r.cr) == Rest(r0.cr)
    && (status == ERROR <==> call.PreparationFails(hw.schedule, r0.jobs))
    && if status == ERROR then
         r.job.Preparing? && r.inFifo == [] && r.polls == r0.polls + MAX_READS
       else
         && r.job.NoJob? && Quiet(r)
         && OthersZero(Aes, KeySizeBytes(size), r.keys)
         && AesKey(KeySizeBytes(size), r.keys) == ContextFor(hw.si, Aes, call.chaining, call.decrypt, call.key).key
         && r.iv == r0.iv && r.flushedWhileBusy == r0.flushedWhileBusy
         && r.jobs == call.FirstBlock(r0.jobs)
         && r.polls == r0.polls + if call.Prepares() then hw.schedule(r0.jobs) + 1 else 0
  }

  /** CRYP_Init, CRYP_IVInit if there is an IV, CRYP_FIFOFlush and CRYP_Cmd(ENABLE). */
  method SetUp(p: Cryp, s: InitStruct, iv: Option<IvRegisters>)
    requires p.Valid() && Quiet(p.r) && s.dataType == Data8b && !s.mode.AesKeyPreparation?
    modifies p
    ensures p.Valid()
    ensures p.r == old(p.r).(cr := DriverCr(old(p.r.cr), s),
                             iv := if iv.Some? then IvWritten(p.hw, old(p.r), iv.value) else old(p.r.iv),
                             inFifo := [], outFifo := [],
                             flushedWhileBusy := old(p.r.flushedWhileBusy) || !old(p.r.job).NoJob?)
  {
    hide Sound, Any, ModeOf, Set, Clear, Configured;
    ghost var cr := p.r.cr;
    Init(p, s);
    if iv.Some? {
      IVInit(p, iv.value);
    }
    FIFOFlush(p);
    ConfiguredFields(cr, s);
    Enable(p);
  }

  /** From the second CRYP_Init on: the same text in the three functions, except for CRYP_IVInit. */
  method Run(p: Cryp, ram: array<bv8>, mode: AlgoMode, decrypt: bool, size: KeySize, iv: Option<IvRegisters>,
             status0: ErrorStatus, input: nat, ilength: nat, output: nat, ghost call: Call, ghost r0: Registers)
    returns (status: ErrorStatus)
    requires IsAes(mode) && !mode.AesKeyPreparation?
    requires call.family == Aes && call.chaining == ChainingOfMode(mode) && call.decrypt == decrypt
    requires call.input == input && call.output == output && call.count == Blocks(Aes, ilength)
    requires WholeBlocks(Aes, ilength) && call.Sensible(ram.Length)
    requires call.iv == ChainOf(Aes, if iv.Some? then iv.value else r0.iv) && |call.key| == KeySizeBytes(size)
    requires KeyInPlace(p.hw, call, r0, size, p.r, status0)
    modifies p, ram
    ensures p.Valid() && !Enabled(p.r.cr)
    ensures Performed(p.hw, call, r0, old(ram[..]), p.r, ram[..], status)
    ensures status == SUCCESS ==> p.Idle() && p.r.inFifo == p.r.outFifo == []
  {
    hide Sound, Any, ModeOf, Set, Clear, Ready, AesKey, DriverCr, Rest, ByteSwapping, Decrypting, OthersZero, Loop;
    status := status0;
    ghost var cr := p.r.cr;
    var s := InitStruct(decrypt, mode, Data8b, size);
    DriverCrReads(cr, s);
    SetUpLeaves(cr, s);
    SetUp(p, s, iv);
    if status != ERROR {
      SetUpIsReady(p.hw, p.r, cr, s);
      ghost var c := ContextFor(p.hw.si, Aes, call.chaining, call.decrypt, call.key);
      assert Ready(p.hw, p.r, c);
      status := BlockLoop(p, ram, input, ilength, output, Aes, c);
      if status == SUCCESS {
        ReadyIsEmpty(p.hw, p.r, c);
      }
    }
    Disable(p);
  }
}
