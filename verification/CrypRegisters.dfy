/** Registers of the CRYP processor and what the silicon reads in them.

    The control register CR has the fields

        ALGODIR   0x0004    direction, set to decrypt
        ALGOMODE  0x0038    algorithm and chaining
        DATATYPE  0x00C0    swap of bits, bytes or half-words in a data word
        KEYSIZE   0x0300    AES key size
        FFLUSH    0x4000    empties the FIFOs
        CRYPEN    0x8000    enables the processor

    The values of the first four come from stm32f2xx_cryp.h. Those of FFLUSH, CRYPEN, SR and DMACR are in
    stm32f2xx.h, which is not part of this model, and are declared here. */
module CrypRegisters {
  import opened Bits
  import opened Words
  import opened BlockModes

  datatype AlgoMode = TdesEcb | TdesCbc | DesEcb | DesCbc | AesEcb | AesCbc | AesCtr | AesKeyPreparation

  datatype DataType = Data32b | Data16b | Data8b | Data1b

  datatype KeySize = Key128b | Key192b | Key256b

  function ModeBits(m: AlgoMode): bv32 {
    match m
    case TdesEcb => 0x0000
    case TdesCbc => 0x0008
    case DesEcb => 0x0010
    case DesCbc => 0x0018
    case AesEcb => 0x0020
    case AesCbc => 0x0028
    case AesCtr => 0x0030
    case AesKeyPreparation => 0x0038
  }

  predicate IsAes(m: AlgoMode) {
    m.AesEcb? || m.AesCbc? || m.AesCtr? || m.AesKeyPreparation?
  }

  function DataTypeBits(d: DataType): bv32 {
    match d
    case Data32b => 0x0000
    case Data16b => 0x0040
    case Data8b => 0x0080
    case Data1b => 0x00C0
  }

  function KeySizeBits(k: KeySize): bv32 {
    match k
    case Key128b => 0x0000
    case Key192b => 0x0100
    case Key256b => 0x0200
  }

  function DirectionBit(decrypt: bool): bv32 {
    if decrypt then 0x0004 else 0x0000
  }

  // K0LR .. K3RR
  datatype KeyRegisters = KeyRegisters(k0l: Word, k0r: Word, k1l: Word, k1r: Word,
                                       k2l: Word, k2r: Word, k3l: Word, k3r: Word)

  // IV0LR .. IV1RR
  datatype IvRegisters = IvRegisters(iv0l: Word, iv0r: Word, iv1l: Word, iv1r: Word)

  predicate Enabled(cr: bv32) {
    Any(cr, 0x8000)
  }

  // FFLUSH always reads as 0
  predicate FlushClear(cr: bv32) {
    !Any(cr, 0x4000)
  }

  predicate KeyPreparation(cr: bv32) {
    ModeOf(cr).AesKeyPreparation?
  }

  lemma ModeUnchanged(cr: bv32, bits: bv32)
    requires bits & 0x0038 == 0
    ensures ModeOf(Set(cr, bits)) == ModeOf(cr)
    ensures ModeOf(Clear(cr, bits)) == ModeOf(cr)
  {
    assert (cr | bits) & 0x0038 == cr & 0x0038;
    assert (cr & !bits) & 0x0038 == cr & 0x0038;
  }

  // The mode that the ALGOMODE field selects
  function ModeOf(cr: bv32): AlgoMode {
    var m := cr & 0x0038;
    if m == 0x0000 then TdesEcb
    else if m == 0x0008 then TdesCbc
    else if m == 0x0010 then DesEcb
    else if m == 0x0018 then DesCbc
    else if m == 0x0020 then AesEcb
    else if m == 0x0028 then AesCbc
    else if m == 0x0030 then AesCtr
    else AesKeyPreparation
  }

  function FamilyOf(cr: bv32): Family {
    FamilyOfMode(ModeOf(cr))
  }

  function FamilyOfMode(m: AlgoMode): Family {
    if m.TdesEcb? || m.TdesCbc? then Tdes else if m.DesEcb? || m.DesCbc? then Des else Aes
  }

  function ChainingOfMode(m: AlgoMode): Chaining {
    if m.AesCtr? then CtrMode else if m.TdesCbc? || m.DesCbc? || m.AesCbc? then CbcMode else EcbMode
  }

  function KeyBytesOf(cr: bv32): (n: nat)
    ensures AesKeyBytes(n)
  {
    if cr & 0x0300 == 0x0000 then 16 else if cr & 0x0300 == 0x0100 then 24 else 32
  }

  // The last n bytes of the key registers, most significant byte first, are the AES key
  function AesKey(n: nat, k: KeyRegisters): (r: seq<bv8>)
    requires AesKeyBytes(n)
    ensures |r| == n
  {
    var low := Bytes(k.k2l) + Bytes(k.k2r) + Bytes(k.k3l) + Bytes(k.k3r);
    if n == 16 then low
    else if n == 24 then Bytes(k.k1l) + Bytes(k.k1r) + low
    else Bytes(k.k0l) + Bytes(k.k0r) + Bytes(k.k1l) + Bytes(k.k1r) + low
  }

  // The key registers after the silicon put an AES key of n bytes there
  function WithAesKey(n: nat, k: KeyRegisters, b: seq<bv8>): KeyRegisters
    requires AesKeyBytes(n) && |b| == n
  {
    var k' := k.(k2l := WordAt(b, n - 16), k2r := WordAt(b, n - 12), k3l := WordAt(b, n - 8), k3r := WordAt(b, n - 4));
    if n == 16 then k'
    else if n == 24 then k'.(k1l := WordAt(b, 0), k1r := WordAt(b, 4))
    else k'.(k0l := WordAt(b, 0), k0r := WordAt(b, 4), k1l := WordAt(b, 8), k1r := WordAt(b, 12))
  }

  // Four bytes from index i on as a word, most significant byte first
  function WordAt(b: seq<bv8>, i: nat): (w: Word)
    requires i + 4 <= |b|
    ensures Bytes(w) == b[i..i + 4]
  {
    Word(b[i], b[i + 1], b[i + 2], b[i + 3])
  }

  // A sequence of bytes is its words in order
  lemma Words2(b: seq<bv8>)
    requires |b| == 8
    ensures b[0..4] + b[4..8] == b
  {
  }

  lemma Words4(b: seq<bv8>)
    requires |b| == 16
    ensures b[0..4] + b[4..8] + b[8..12] + b[12..16] == b
  {
  }

  lemma WithAesKeyHolds(n: nat, k: KeyRegisters, b: seq<bv8>)
    requires AesKeyBytes(n) && |b| == n
    ensures AesKey(n, WithAesKey(n, k, b)) == b
  {
    hide Bytes;
    if n == 16 {
      Words4(b);
    } else if n == 24 {
      assert b == b[0..4] + b[4..8] + (b[8..12] + b[12..16] + b[16..20] + b[20..24]);
    } else {
      assert b == b[0..4] + b[4..8] + b[8..12] + b[12..16] + (b[16..20] + b[20..24] + b[24..28] + b[28..32]);
    }
  }

  function KeyOf(cr: bv32, k: KeyRegisters): (key: seq<bv8>)
    ensures KeyFits(FamilyOf(cr), key)
  {
    match FamilyOf(cr)
    case Aes => AesKey(KeyBytesOf(cr), k)
    case Des => Bytes(k.k1l) + Bytes(k.k1r)
    case Tdes => Bytes(k.k1l) + Bytes(k.k1r) + Bytes(k.k2l) + Bytes(k.k2r) + Bytes(k.k3l) + Bytes(k.k3r)
  }

  predicate Decrypting(cr: bv32) {
    cr & 0x0004 != 0
  }

  function ContextOf(si: Silicon, cr: bv32, k: KeyRegisters): (c: Context)
    ensures Sound(si) ==> Proper(c)
  {
    Context(si, FamilyOf(cr), ChainingOfMode(ModeOf(cr)), Decrypting(cr), KeyOf(cr, k))
  }

  // DES and TDES use the first half of the IV registers only
  function ChainOf(family: Family, iv: IvRegisters): (r: Block)
    ensures |r| == BlockSize(family)
  {
    var first := Bytes(iv.iv0l) + Bytes(iv.iv0r);
    if family == Aes then first + Bytes(iv.iv1l) + Bytes(iv.iv1r) else first
  }

  function WithChain(family: Family, iv: IvRegisters, chain: Block): IvRegisters
    requires |chain| == BlockSize(family)
  {
    var iv' := iv.(iv0l := WordAt(chain, 0), iv0r := WordAt(chain, 4));
    if family == Aes then iv'.(iv1l := WordAt(chain, 8), iv1r := WordAt(chain, 12)) else iv'
  }

  lemma WithChainHolds(family: Family, iv: IvRegisters, chain: Block)
    requires |chain| == BlockSize(family)
    ensures ChainOf(family, WithChain(family, iv, chain)) == chain
  {
    hide Bytes;
    if family == Aes {
      Words4(chain);
    } else {
      Words2(chain);
    }
  }

  function MirrorBits(b: bv8): bv8 {
    ((b & 0x01) << 7) | ((b & 0x02) << 5) | ((b & 0x04) << 3) | ((b & 0x08) << 1) |
    ((b & 0x10) >> 1) | ((b & 0x20) >> 3) | ((b & 0x40) >> 5) | ((b & 0x80) >> 7)
  }

  // The data type that the DATATYPE field selects
  function DataTypeOf(cr: bv32): DataType {
    var t := cr & 0x00C0;
    if t == 0x0000 then Data32b else if t == 0x0040 then Data16b else if t == 0x0080 then Data8b else Data1b
  }

  // The swap that the data type asks for, on the way in and on the way out
  function Swapped(cr: bv32, w: Word): Word {
    match DataTypeOf(cr)
    case Data32b => w
    case Data16b => Word(w.b1, w.b0, w.b3, w.b2)
    case Data8b => Rev(w)
    case Data1b => Word(MirrorBits(w.b0), MirrorBits(w.b1), MirrorBits(w.b2), MirrorBits(w.b3))
  }

  // Words in a block
  function Width(family: Family): (n: nat)
    ensures 2 <= n <= 4
  {
    if family == Aes then 4 else 2
  }

  function BlockOf(cr: bv32, ws: seq<Word>): (b: Block)
    requires |ws| == Width(FamilyOf(cr))
    ensures |b| == BlockSize(FamilyOf(cr))
  {
    var first := Bytes(Swapped(cr, ws[0])) + Bytes(Swapped(cr, ws[1]));
    if FamilyOf(cr) == Aes then first + Bytes(Swapped(cr, ws[2])) + Bytes(Swapped(cr, ws[3])) else first
  }

  function WordsOf(cr: bv32, b: Block): (ws: seq<Word>)
    requires |b| == BlockSize(FamilyOf(cr))
    ensures |ws| == Width(FamilyOf(cr))
  {
    var first := [Swapped(cr, WordAt(b, 0)), Swapped(cr, WordAt(b, 4))];
    if FamilyOf(cr) == Aes then first + [Swapped(cr, WordAt(b, 8)), Swapped(cr, WordAt(b, 12))] else first
  }
}
