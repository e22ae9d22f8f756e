/** Block cipher modes of operation over an abstract block cipher: what the silicon computes block by block
    (Step, Stream), what NIST SP 800-38A asks for (Ecb, Cbc, Ctr), and the laws that connect the two. */
module BlockModes {

  type Block = seq<bv8>

  /** The functions etched into the processor. aesDec takes a *prepared* key: the one that aesPrep
      derives from the key given by the user. */
  datatype Silicon = Silicon(
    aesEnc: (seq<bv8>, Block) -> Block,
    aesDec: (seq<bv8>, Block) -> Block,
    aesPrep: seq<bv8> -> seq<bv8>,
    desEnc: (seq<bv8>, Block) -> Block,
    desDec: (seq<bv8>, Block) -> Block,
    increment: Block -> Block)

  predicate AesKeyBytes(n: nat) {
    n == 16 || n == 24 || n == 32
  }

  /** Each cipher is a permutation of the blocks, with its inverse. */
  ghost predicate Sound(si: Silicon) {
    && (forall k, b {:trigger si.aesEnc(k, b)} :: AesKeyBytes(|k|) && |b| == 16 ==>
          |si.aesEnc(k, b)| == 16 && si.aesDec(si.aesPrep(k), si.aesEnc(k, b)) == b)
    && (forall k, b {:trigger si.aesDec(k, b)} :: AesKeyBytes(|k|) && |b| == 16 ==> |si.aesDec(k, b)| == 16)
    && (forall k {:trigger si.aesPrep(k)} :: AesKeyBytes(|k|) ==> |si.aesPrep(k)| == |k|)
    && (forall k, b {:trigger si.desEnc(k, b)} :: |k| == 8 && |b| == 8 ==>
          |si.desEnc(k, b)| == 8 && si.desDec(k, si.desEnc(k, b)) == b)
    && (forall k, b {:trigger si.desDec(k, b)} :: |k| == 8 && |b| == 8 ==>
          |si.desDec(k, b)| == 8 && si.desEnc(k, si.desDec(k, b)) == b)
    && (forall b {:trigger si.increment(b)} :: |b| == 16 ==> |si.increment(b)| == 16)
  }

  datatype Family = Aes | Des | Tdes

  datatype Chaining = EcbMode | CbcMode | CtrMode

  /** What the processor works with while it runs: algorithm, chaining, direction, and the content of
      the key registers. Counter mode exists for AES only. */
  datatype Context = Context(si: Silicon, family: Family, chaining: Chaining, decrypt: bool, key: seq<bv8>)

  function BlockSize(family: Family): nat {
    if family == Aes then 16 else 8
  }

  predicate KeyFits(family: Family, key: seq<bv8>) {
    match family
    case Aes => AesKeyBytes(|key|)
    case Des => |key| == 8
    case Tdes => |key| == 24
  }

  ghost predicate Proper(c: Context) {
    && Sound(c.si)
    && KeyFits(c.family, c.key)
    && (c.chaining == CtrMode ==> c.family == Aes)
  }

  function Xor(a: Block, b: Block): (r: Block)
    requires |a| == |b|
    ensures |r| == |a|
  {
    seq(|a|, i requires 0 <= i < |a| => a[i] ^ b[i])
  }

  lemma XorTwice(a: Block, b: Block)
    requires |a| == |b|
    ensures Xor(Xor(a, b), b) == a
  {
    forall i | 0 <= i < |a| ensures Xor(Xor(a, b), b)[i] == a[i] {
      XorByte(a[i], b[i]);
    }
  }

  lemma XorByte(x: bv8, y: bv8)
    ensures (x ^ y) ^ y == x
  {
  }

  // ----- the processor

  function Forward(si: Silicon, family: Family, key: seq<bv8>, b: Block): Block
    requires KeyFits(family, key)
  {
    match family
    case Aes => si.aesEnc(key, b)
    case Des => si.desEnc(key, b)
    case Tdes => si.desEnc(key[16..24], si.desDec(key[8..16], si.desEnc(key[0..8], b)))
  }

  // Backward with the key material that the registers hold
  function Backward(si: Silicon, family: Family, key: seq<bv8>, b: Block): Block
    requires KeyFits(family, key)
  {
    match family
    case Aes => si.aesDec(key, b)
    case Des => si.desDec(key, b)
    case Tdes => si.desDec(key[0..8], si.desEnc(key[8..16], si.desDec(key[16..24], b)))
  }

  datatype Stepped = Stepped(out: Block, chain: Block)

  /** One block through the processor: its output and the next content of the IV registers. */
  function Step(c: Context, chain: Block, b: Block): (r: Stepped)
    requires KeyFits(c.family, c.key)
    requires Proper(c) && |chain| == |b| == BlockSize(c.family)
    ensures |r.out| == |r.chain| == BlockSize(c.family)
  {
    match c.chaining
    case EcbMode =>
      Stepped(if c.decrypt then Backward(c.si, c.family, c.key, b) else Forward(c.si, c.family, c.key, b), chain)
    case CbcMode =>
      if c.decrypt then
        Stepped(Xor(Backward(c.si, c.family, c.key, b), chain), b)
      else
        var e := Forward(c.si, c.family, c.key, Xor(b, chain));
        Stepped(e, e)
    case CtrMode =>
      Stepped(Xor(b, Forward(c.si, c.family, c.key, chain)), c.si.increment(chain))
  }

  ghost predicate Whole(n: nat, message: seq<Block>) {
    forall j :: 0 <= j < |message| ==> |message[j]| == n
  }

  function Stream(c: Context, chain: Block, message: seq<Block>): (r: seq<Block>)
    requires Proper(c) && |chain| == BlockSize(c.family) && Whole(BlockSize(c.family), message)
    ensures |r| == |message| && Whole(BlockSize(c.family), r)
    decreases |message|
  {
    if message == [] then [] else
      var s := Step(c, chain, message[0]);
      [s.out] + Stream(c, s.chain, message[1..])
  }

  // IV registers after a message
  function LastChain(c: Context, chain: Block, message: seq<Block>): (r: Block)
    requires Proper(c) && |chain| == BlockSize(c.family) && Whole(BlockSize(c.family), message)
    ensures |r| == BlockSize(c.family)
    decreases |message|
  {
    if message == [] then chain else LastChain(c, Step(c, chain, message[0]).chain, message[1..])
  }

  // ----- the standard

  /** The forward cipher CIPH_K. For TDES, section 3 of NIST SP 800-67: encrypt with the first key of the bundle,
      decrypt with the second, encrypt with the third. */
  function Ciph(si: Silicon, family: Family, key: seq<bv8>, b: Block): Block
    requires KeyFits(family, key)
  {
    match family
    case Aes => si.aesEnc(key, b)
    case Des => si.desEnc(key, b)
    case Tdes =>
      var k1, k2, k3 := key[0..8], key[8..16], key[16..24];
      var first := si.desEnc(k1, b);
      var second := si.desDec(k2, first);
      si.desEnc(k3, second)
  }

  /** The inverse cipher, for the key that the user gave. */
  function CiphInv(si: Silicon, family: Family, key: seq<bv8>, b: Block): Block
    requires KeyFits(family, key) && Sound(si)
  {
    match family
    case Aes => si.aesDec(si.aesPrep(key), b)
    case Des => si.desDec(key, b)
    case Tdes =>
      var k1, k2, k3 := key[0..8], key[8..16], key[16..24];
      var first := si.desDec(k3, b);
      var second := si.desEnc(k2, first);
      si.desDec(k1, second)
  }

  /** Section 6.1 of NIST SP 800-38A. */
  ghost predicate Ecb(si: Silicon, family: Family, key: seq<bv8>, plain: seq<Block>, cipher: seq<Block>)
    requires KeyFits(family, key)
  {
    |cipher| == |plain| && forall j :: 0 <= j < |plain| ==> cipher[j] == Ciph(si, family, key, plain[j])
  }

  ghost predicate EcbInverse(si: Silicon, family: Family, key: seq<bv8>, cipher: seq<Block>, plain: seq<Block>)
    requires KeyFits(family, key) && Sound(si)
  {
    |cipher| == |plain| && forall j :: 0 <= j < |cipher| ==> plain[j] == CiphInv(si, family, key, cipher[j])
  }

  /** Section 6.2 of NIST SP 800-38A. */
  ghost predicate Cbc(si: Silicon, family: Family, key: seq<bv8>, iv: Block, plain: seq<Block>, cipher: seq<Block>)
    requires KeyFits(family, key)
    requires Whole(|iv|, plain) && Whole(|iv|, cipher)
  {
    && |cipher| == |plain|
    && forall j {:trigger plain[j]} :: 0 <= j < |plain| ==>
         cipher[j] == Ciph(si, family, key, Xor(plain[j], if j == 0 then iv else cipher[j - 1]))
  }

  ghost predicate CbcInverse(si: Silicon, family: Family, key: seq<bv8>, iv: Block, cipher: seq<Block>,
                             plain: seq<Block>)
    requires KeyFits(family, key) && Sound(si)
    requires Whole(|iv|, plain) && Whole(|iv|, cipher) && |iv| == BlockSize(family)
  {
    && |cipher| == |plain|
    && forall j {:trigger plain[j]} :: 0 <= j < |cipher| ==>
         |CiphInv(si, family, key, cipher[j])| == |iv| &&
         plain[j] == Xor(CiphInv(si, family, key, cipher[j]), if j == 0 then iv else cipher[j - 1])
  }

  // The counter block T_(j+1)
  function Counter(si: Silicon, iv: Block, j: nat): (r: Block)
    requires Sound(si) && |iv| == 16
    ensures |r| == 16
  {
    if j == 0 then iv else si.increment(Counter(si, iv, j - 1))
  }

  /** Section 6.5 of NIST SP 800-38A; the same equation encrypts and decrypts. */
  ghost predicate Ctr(si: Silicon, key: seq<bv8>, iv: Block, message: seq<Block>, out: seq<Block>)
    requires Sound(si) && KeyFits(Aes, key) && |iv| == 16 && Whole(16, message)
  {
    && |out| == |message|
    && forall j :: 0 <= j < |message| ==> out[j] == Xor(message[j], Ciph(si, Aes, key, Counter(si, iv, j)))
  }

  /** Key material for decrypting: prepared for AES in ECB and CBC, as given otherwise. */
  function DecryptionKey(si: Silicon, family: Family, chaining: Chaining, key: seq<bv8>): seq<bv8> {
    if family == Aes && chaining != CtrMode then si.aesPrep(key) else key
  }

  /** The context that a driver sets up for the user's key. */
  function ContextFor(si: Silicon, family: Family, chaining: Chaining, decrypt: bool, key: seq<bv8>): Context {
    Context(si, family, chaining, decrypt, if decrypt then DecryptionKey(si, family, chaining, key) else key)
  }

  /** The output blocks are what the standard prescribes. */
  ghost predicate Standard(si: Silicon, family: Family, chaining: Chaining, decrypt: bool, key: seq<bv8>, iv: Block,
                           message: seq<Block>, out: seq<Block>)
    requires Sound(si) && KeyFits(family, key) && |iv| == BlockSize(family)
    requires chaining == CtrMode ==> family == Aes
    requires Whole(|iv|, message) && Whole(|iv|, out)
  {
    match chaining
    case EcbMode => if decrypt then EcbInverse(si, family, key, message, out) else Ecb(si, family, key, message, out)
    case CbcMode =>
      if decrypt then CbcInverse(si, family, key, iv, message, out) else Cbc(si, family, key, iv, message, out)
    case CtrMode => Ctr(si, key, iv, message, out)
  }

  // ----- laws

  /** The stream of blocks leaving the processor is the one of the standard. */
  lemma StreamIsStandard(si: Silicon, family: Family, chaining: Chaining, decrypt: bool, key: seq<bv8>, iv: Block,
                         message: seq<Block>)
    requires Sound(si) && KeyFits(family, key) && |iv| == BlockSize(family)
    requires chaining == CtrMode ==> family == Aes
    requires Whole(|iv|, message)
    ensures Standard(si, family, chaining, decrypt, key, iv, message,
                     Stream(ContextFor(si, family, chaining, decrypt, key), iv, message))
  {
    match chaining
    case EcbMode => StreamIsEcb(si, family, decrypt, key, iv, message);
    case CbcMode =>
      if decrypt {
        StreamIsCbcInverse(si, family, key, iv, message);
      } else {
        StreamIsCbc(si, family, key, iv, message);
      }
    case CtrMode => StreamIsCtr(si, decrypt, key, iv, message);
  }

  lemma StreamIsEcb(si: Silicon, family: Family, decrypt: bool, key: seq<bv8>, iv: Block, message: seq<Block>)
    requires Sound(si) && KeyFits(family, key) && |iv| == BlockSize(family) && Whole(|iv|, message)
    ensures Standard(si, family, EcbMode, decrypt, key, iv, message,
                     Stream(ContextFor(si, family, EcbMode, decrypt, key), iv, message))
  {
    var c := ContextFor(si, family, EcbMode, decrypt, key);
    var out := Stream(c, iv, message);
    forall j | 0 <= j < |message|
      ensures out[j] == if decrypt then CiphInv(si, family, key, message[j]) else Ciph(si, family, key, message[j])
    {
      StandardBlock(c, iv, message, j);
    }
  }

  lemma StreamIsCbc(si: Silicon, family: Family, key: seq<bv8>, iv: Block, message: seq<Block>)
    requires Sound(si) && KeyFits(family, key) && |iv| == BlockSize(family) && Whole(|iv|, message)
    ensures Cbc(si, family, key, iv, message, Stream(ContextFor(si, family, CbcMode, false, key), iv, message))
  {
    var c := ContextFor(si, family, CbcMode, false, key);
    var out := Stream(c, iv, message);
    forall j {:trigger message[j]} | 0 <= j < |message|
      ensures out[j] == Ciph(si, family, key, Xor(message[j], if j == 0 then iv else out[j - 1]))
    {
      StandardBlock(c, iv, message, j);
    }
  }

  lemma StreamIsCbcInverse(si: Silicon, family: Family, key: seq<bv8>, iv: Block, message: seq<Block>)
    requires Sound(si) && KeyFits(family, key) && |iv| == BlockSize(family) && Whole(|iv|, message)
    ensures CbcInverse(si, family, key, iv, message, Stream(ContextFor(si, family, CbcMode, true, key), iv, message))
  {
    var c := ContextFor(si, family, CbcMode, true, key);
    var out := Stream(c, iv, message);
    forall j | 0 <= j < |message|
      ensures |CiphInv(si, family, key, message[j])| == |iv|
      ensures out[j] == Xor(CiphInv(si, family, key, message[j]), if j == 0 then iv else message[j - 1])
    {
      StandardBlock(c, iv, message, j);
    }
  }

  lemma StreamIsCtr(si: Silicon, decrypt: bool, key: seq<bv8>, iv: Block, message: seq<Block>)
    requires Sound(si) && KeyFits(Aes, key) && |iv| == 16 && Whole(16, message)
    ensures Ctr(si, key, iv, message, Stream(ContextFor(si, Aes, CtrMode, decrypt, key), iv, message))
  {
    var c := ContextFor(si, Aes, CtrMode, decrypt, key);
    var out := Stream(c, iv, message);
    forall j | 0 <= j < |message|
      ensures out[j] == Xor(message[j], Ciph(si, Aes, key, Counter(si, iv, j)))
    {
      StandardBlock(c, iv, message, j);
    }
  }

  lemma StandardBlock(c: Context, iv: Block, message: seq<Block>, j: nat)
    requires Proper(c) && |iv| == BlockSize(c.family) && Whole(|iv|, message) && j < |message|
    ensures StandardAt(c, iv, message, Stream(c, iv, message), j)
  {
    StreamAt(c, iv, message, j);
    match c.chaining
    case EcbMode => ChainIsConstant(c, iv, message, j);
    case CbcMode => if j > 0 { StreamAt(c, iv, message, j - 1); }
    case CtrMode => ChainIsCounter(c, iv, message, j);
  }

  // The equation of the standard for block j, in terms of the key material in the registers
  ghost predicate StandardAt(c: Context, iv: Block, message: seq<Block>, out: seq<Block>, j: nat)
    requires Proper(c) && |iv| == BlockSize(c.family)
    requires Whole(|iv|, message) && Whole(|iv|, out) && j < |message| == |out|
  {
    match c.chaining
    case EcbMode =>
      out[j] ==
        if c.decrypt then Backward(c.si, c.family, c.key, message[j]) else Forward(c.si, c.family, c.key, message[j])
    case CbcMode =>
      if c.decrypt then
        |Backward(c.si, c.family, c.key, message[j])| == |iv| &&
        out[j] == Xor(Backward(c.si, c.family, c.key, message[j]), if j == 0 then iv else message[j - 1])
      else
        out[j] == Forward(c.si, c.family, c.key, Xor(message[j], if j == 0 then iv else out[j - 1]))
    case CtrMode =>
      out[j] == Xor(message[j], Forward(c.si, Aes, c.key, Counter(c.si, iv, j)))
  }

  // IV registers before block j
  function ChainAt(c: Context, chain: Block, message: seq<Block>, j: nat): (r: Block)
    requires Proper(c) && |chain| == BlockSize(c.family) && Whole(BlockSize(c.family), message) && j <= |message|
    ensures |r| == BlockSize(c.family)
  {
    if j == 0 then chain else Step(c, ChainAt(c, chain, message, j - 1), message[j - 1]).chain
  }

  lemma {:induction false} ChainAtTail(c: Context, chain: Block, message: seq<Block>, j: nat)
    requires Proper(c) && |chain| == BlockSize(c.family) && Whole(BlockSize(c.family), message) && 1 <= j <= |message|
    ensures ChainAt(c, chain, message, j) == ChainAt(c, Step(c, chain, message[0]).chain, message[1..], j - 1)
  {
    if j > 1 {
      ChainAtTail(c, chain, message, j - 1);
    } else {
      assert ChainAt(c, chain, message, 0) == chain;
    }
  }

  lemma {:induction false} StreamAt(c: Context, chain: Block, message: seq<Block>, j: nat)
    requires Proper(c) && |chain| == BlockSize(c.family) && Whole(BlockSize(c.family), message) && j < |message|
    ensures Stream(c, chain, message)[j] == Step(c, ChainAt(c, chain, message, j), message[j]).out
    decreases j
  {
    if j > 0 {
      ChainAtTail(c, chain, message, j);
      StreamAt(c, Step(c, chain, message[0]).chain, message[1..], j - 1);
    }
  }

  lemma {:induction false} ChainIsCounter(c: Context, iv: Block, message: seq<Block>, j: nat)
    requires Proper(c) && |iv| == 16 && c.chaining == CtrMode && Whole(16, message) && j <= |message|
    ensures ChainAt(c, iv, message, j) == Counter(c.si, iv, j)
  {
    if j > 0 {
      ChainIsCounter(c, iv, message, j - 1);
    }
  }

  lemma {:induction false} ChainIsConstant(c: Context, iv: Block, message: seq<Block>, j: nat)
    requires Proper(c) && c.chaining == EcbMode && |iv| == BlockSize(c.family)
    requires Whole(BlockSize(c.family), message) && j <= |message|
    ensures ChainAt(c, iv, message, j) == iv
  {
    if j > 0 {
      ChainIsConstant(c, iv, message, j - 1);
    }
  }

  /** Decrypting what was encrypted gives the message back, for every algorithm and mode. */
  lemma {:induction false} RoundTrip(si: Silicon, family: Family, chaining: Chaining, key: seq<bv8>, iv: Block,
                                     message: seq<Block>)
    requires Sound(si) && KeyFits(family, key) && |iv| == BlockSize(family)
    requires chaining == CtrMode ==> family == Aes
    requires Whole(|iv|, message)
    ensures Stream(ContextFor(si, family, chaining, true, key), iv,
                   Stream(ContextFor(si, family, chaining, false, key), iv, message)) == message
    decreases |message|
  {
    if message != [] {
      var e := ContextFor(si, family, chaining, false, key);
      var d := ContextFor(si, family, chaining, true, key);
      var s := Step(e, iv, message[0]);
      StepInverse(si, family, chaining, key, iv, message[0]);
      RoundTrip(si, family, chaining, key, s.chain, message[1..]);
      var out := Stream(e, iv, message);
      assert out[0] == s.out && out[1..] == Stream(e, s.chain, message[1..]);
      assert Stream(d, iv, out) == [message[0]] + Stream(d, s.chain, out[1..]);
    }
  }

  lemma StepInverse(si: Silicon, family: Family, chaining: Chaining, key: seq<bv8>, chain: Block, b: Block)
    requires Sound(si) && KeyFits(family, key) && |b| == |chain| == BlockSize(family)
    requires chaining == CtrMode ==> family == Aes
    ensures var s := Step(ContextFor(si, family, chaining, false, key), chain, b);
            Step(ContextFor(si, family, chaining, true, key), chain, s.out) == Stepped(b, s.chain)
  {
    match chaining
    case EcbMode => ForwardBackward(si, family, key, b);
    case CbcMode =>
      ForwardBackward(si, family, key, Xor(b, chain));
      XorTwice(b, chain);
    case CtrMode =>
      XorTwice(b, si.aesEnc(key, chain));
  }

  lemma ForwardBackward(si: Silicon, family: Family, key: seq<bv8>, b: Block)
    requires Sound(si) && KeyFits(family, key) && |b| == BlockSize(family)
    ensures CiphInv(si, family, key, Ciph(si, family, key, b)) == b
  {
    if family == Tdes {
      var x := si.desEnc(key[0..8], b);
      var y := si.desDec(key[8..16], x);
      assert si.desDec(key[16..24], si.desEnc(key[16..24], y)) == y;
      assert si.desEnc(key[8..16], y) == x;
    }
  }

  /** A message may be cut at any block boundary, if the second part starts from the IV registers that
      the first part left. */
  lemma {:induction false} StreamSplit(c: Context, chain: Block, a: seq<Block>, b: seq<Block>)
    requires Proper(c) && |chain| == BlockSize(c.family)
    requires Whole(BlockSize(c.family), a) && Whole(BlockSize(c.family), b)
    ensures Stream(c, chain, a + b) == Stream(c, chain, a) + Stream(c, LastChain(c, chain, a), b)
    ensures LastChain(c, chain, a + b) == LastChain(c, LastChain(c, chain, a), b)
    decreases |a|
  {
    if a == [] {
      assert a + b == b;
    } else {
      assert (a + b)[1..] == a[1..] + b;
      StreamSplit(c, Step(c, chain, a[0]).chain, a[1..], b);
    }
  }

  /** For CBC encryption the IV registers end up with the last ciphertext block, so that block is the IV
      to give to a second call. */
  lemma {:induction false} CbcChainIsLastBlock(c: Context, iv: Block, a: seq<Block>)
    requires Proper(c) && c.chaining == CbcMode && !c.decrypt && |iv| == BlockSize(c.family)
    requires Whole(BlockSize(c.family), a) && a != []
    ensures LastChain(c, iv, a) == Stream(c, iv, a)[|a| - 1]
    decreases |a|
  {
    var s := Step(c, iv, a[0]);
    if |a| > 1 {
      CbcChainIsLastBlock(c, s.chain, a[1..]);
    } else {
      assert LastChain(c, s.chain, a[1..]) == s.chain;
    }
  }

  lemma CbcSplit(si: Silicon, family: Family, key: seq<bv8>, iv: Block, a: seq<Block>, b: seq<Block>)
    requires Sound(si) && KeyFits(family, key) && |iv| == BlockSize(family)
    requires Whole(|iv|, a) && Whole(|iv|, b) && a != []
    ensures var c := ContextFor(si, family, CbcMode, false, key);
            var first := Stream(c, iv, a);
            Stream(c, iv, a + b) == first + Stream(c, first[|a| - 1], b)
  {
    var c := ContextFor(si, family, CbcMode, false, key);
    StreamSplit(c, iv, a, b);
    CbcChainIsLastBlock(c, iv, a);
  }

  // TDES with one key three times is DES with that key
  lemma BundleOfOneKey(si: Silicon, key: seq<bv8>, b: Block)
    requires Sound(si) && |key| == 8 && |b| == 8
    ensures Forward(si, Tdes, key + key + key, b) == Forward(si, Des, key, b)
    ensures Backward(si, Tdes, key + key + key, b) == Backward(si, Des, key, b)
  {
    var k := key + key + key;
    assert k[0..8] == key && k[8..16] == key && k[16..24] == key;
    assert si.desDec(key, si.desEnc(key, b)) == b;
    assert si.desEnc(key, si.desDec(key, b)) == b;
  }
}
