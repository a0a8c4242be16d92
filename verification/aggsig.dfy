/** Aggregate signatures: the signer bitmask and its wire form
    (crates/karstflow-alpenglow/src/aggsig.rs). Words are naturals below 2^64 and
    bytes naturals below 256; signing and verifying are outside the model. */
module AggSig {
  import opened Base

  const SIG_SZ: nat := 192
  const MAX_SIGNERS: nat := 2048
  const WORD_BITS: nat := 64
  const BITMASK_WORDS: nat := 32

  type Byte = b: nat | b < 256

  function WordsForBits(nbits: nat): nat {
    (nbits + 63) / 64
  }

  function SerializedSize(nbits: nat): nat {
    SIG_SZ + 8 + 8 + 8 * WordsForBits(nbits)
  }

  // ---- single words ----

  /** (w >> k) & 1 == 1 */
  predicate Bit(w: nat, k: nat)
    decreases k
  {
    if k == 0 then w % 2 == 1 else Bit(w / 2, k - 1)
  }

  /** w | (1 << k) */
  function SetBit(w: nat, k: nat): nat
    decreases k
  {
    if k == 0 then w / 2 * 2 + 1 else SetBit(w / 2, k - 1) * 2 + w % 2
  }

  function CountOnes(w: nat): nat {
    if w == 0 then 0 else w % 2 + CountOnes(w / 2)
  }

  lemma {:induction false} SetBitBits(w: nat, k: nat, j: nat)
    ensures Bit(SetBit(w, k), j) <==> j == k || Bit(w, j)
    decreases k
  {
    if k > 0 && j > 0 {
      SetBitBits(w / 2, k - 1, j - 1);
    }
  }

  lemma {:induction false} SetBitBound(w: nat, k: nat, n: nat)
    requires w < Pow2(n) && k < n
    ensures SetBit(w, k) < Pow2(n)
    decreases k
  {
    if k > 0 {
      SetBitBound(w / 2, k - 1, n - 1);
    }
  }

  lemma {:induction false} SetBitCount(w: nat, k: nat)
    requires !Bit(w, k)
    ensures CountOnes(SetBit(w, k)) == CountOnes(w) + 1
    decreases k
  {
    if k > 0 {
      SetBitCount(w / 2, k - 1);
      assert SetBit(w, k) / 2 == SetBit(w / 2, k - 1) && SetBit(w, k) % 2 == w % 2;
    } else {
      assert SetBit(w, 0) == w + 1;
    }
  }

  lemma {:induction false} ZeroHasNoBits(k: nat)
    ensures !Bit(0, k)
  {
    if k > 0 {
      ZeroHasNoBits(k - 1);
    }
  }

  /** A word without bits is the zero word. */
  lemma {:induction false} NoBitsIsZero(w: nat)
    requires forall k: nat :: !Bit(w, k)
    ensures w == 0
  {
    if w > 0 {
      assert !Bit(w, 0);
      forall k: nat
        ensures !Bit(w / 2, k)
      {
        assert !Bit(w, k + 1);
      }
      NoBitsIsZero(w / 2);
    }
  }

  // ---- aggregates ----

  datatype AggregateSignature = AggregateSignature(sig: seq<Byte>, nbits: nat, bitmask: seq<nat>) {

    predicate Shaped() {
      && |sig| == SIG_SZ
      && |bitmask| == BITMASK_WORDS
    }

    predicate IsSigner(i: nat)
      requires Shaped()
    {
      i < nbits && i < MAX_SIGNERS && Bit(bitmask[i / 64], i % 64)
    }

    ghost function Signers(): set<nat>
      requires Shaped()
    {
      set i | 0 <= i < nbits && IsSigner(i)
    }

    /** Number of set bits in the first `n` words. */
    function OnesUpTo(n: nat): nat
      requires n <= |bitmask|
    {
      if n == 0 then 0 else OnesUpTo(n - 1) + CountOnes(bitmask[n - 1])
    }

    function SignerCount(): nat {
      OnesUpTo(|bitmask|)
    }

    /** Every aggregate built by `Init` and `Add`: words fit, and no bit at or above `nbits`. */
    ghost predicate Valid() {
      && Shaped()
      && nbits <= MAX_SIGNERS
      && (forall w :: 0 <= w < BITMASK_WORDS ==> bitmask[w] < Pow2(64))
      && (forall w, k: nat :: 0 <= w < BITMASK_WORDS && Bit(bitmask[w], k) ==> k < 64 && 64 * w + k < nbits)
      && SignerCount() == |Signers()|
    }
  }

  function Init(nbits: nat): (a: AggregateSignature)
    requires nbits <= MAX_SIGNERS
    ensures a.Shaped() && a.nbits == nbits
  {
    AggregateSignature(seq(SIG_SZ, i => 0), nbits, seq(BITMASK_WORDS, i => 0))
  }

  /** Exclusive or, bit by bit. */
  function Xor(a: nat, b: nat): nat
    decreases a + b
  {
    if a == 0 && b == 0 then 0 else 2 * Xor(a / 2, b / 2) + if a % 2 == b % 2 then 0 else 1
  }

  lemma {:induction false} XorBound(a: nat, b: nat, n: nat)
    requires a < Pow2(n) && b < Pow2(n)
    ensures Xor(a, b) < Pow2(n)
    decreases n
  {
    if n > 0 {
      XorBound(a / 2, b / 2, n - 1);
    }
  }

  lemma XorHalf(a: nat, b: nat)
    ensures Xor(a, b) / 2 == Xor(a / 2, b / 2)
    ensures Xor(a, b) % 2 == if a % 2 == b % 2 then 0 else 1
  {
  }

  function XorByte(a: Byte, b: Byte): Byte {
    ByteIsPower();
    XorBound(a, b, 8);
    Xor(a, b)
  }

  lemma ByteIsPower()
    ensures Pow2(8) == 256
  {
    assert Pow2(4) == 16;
  }

  /** Adds one signer; the source asserts the index is in range and not yet set. */
  function Add(a: AggregateSignature, i: nat, sig: seq<Byte>): (r: AggregateSignature)
    requires a.Shaped() && |sig| == SIG_SZ
    requires i < a.nbits <= MAX_SIGNERS && !a.IsSigner(i)
    ensures r.Shaped() && r.nbits == a.nbits
  {
    a.(bitmask := a.bitmask[i / 64 := SetBit(a.bitmask[i / 64], i % 64)],
       sig := seq(SIG_SZ, j requires 0 <= j < SIG_SZ => XorByte(a.sig[j], sig[j])))
  }

  lemma EqualByHalves(a: nat, b: nat)
    requires a / 2 == b / 2 && a % 2 == b % 2
    ensures a == b
  {
  }

  lemma SetBitHalf(w: nat, k: nat)
    ensures SetBit(w, k) / 2 == (if k == 0 then w / 2 else SetBit(w / 2, k - 1))
    ensures SetBit(w, k) % 2 == (if k == 0 then 1 else w % 2)
  {
  }

  lemma {:induction false} SetBitCommutes(w: nat, j: nat, k: nat)
    ensures SetBit(SetBit(w, j), k) == SetBit(SetBit(w, k), j)
    decreases j
  {
    SetBitHalf(w, j);
    SetBitHalf(w, k);
    SetBitHalf(SetBit(w, j), k);
    SetBitHalf(SetBit(w, k), j);
    if j > 0 && k > 0 {
      SetBitCommutes(w / 2, j - 1, k - 1);
    }
    hide SetBit;
    var a, b := SetBit(SetBit(w, j), k), SetBit(SetBit(w, k), j);
    EqualByHalves(a, b);
  }

  lemma {:induction false} XorCommutes(x: nat, s: nat, t: nat)
    ensures Xor(Xor(x, s), t) == Xor(Xor(x, t), s)
    decreases x + s + t
  {
    if x + s + t > 0 {
      hide Xor;
      var a, b := Xor(Xor(x, s), t), Xor(Xor(x, t), s);
      XorHalf(x, s);
      XorHalf(x, t);
      XorHalf(Xor(x, s), t);
      XorHalf(Xor(x, t), s);
      XorCommutes(x / 2, s / 2, t / 2);
      EqualByHalves(a, b);
    }
  }

  lemma {:induction false} XorBit(a: nat, b: nat, k: nat)
    ensures Bit(Xor(a, b), k) <==> Bit(a, k) != Bit(b, k)
    decreases k
  {
    XorHalf(a, b);
    if k > 0 {
      XorBit(a / 2, b / 2, k - 1);
    }
  }

  /** Adding a signature folds it in bit by bit, and leaves all other signers as they were. */
  lemma AddFolds(a: AggregateSignature, i: nat, sig: seq<Byte>, j: nat, k: nat)
    requires a.Shaped() && |sig| == SIG_SZ && i < a.nbits <= MAX_SIGNERS && !a.IsSigner(i)
    ensures j < SIG_SZ ==> (Bit(Add(a, i, sig).sig[j], k) <==> Bit(a.sig[j], k) != Bit(sig[j], k))
    ensures Add(a, i, sig).IsSigner(j) <==> j == i || a.IsSigner(j)
  {
    AddSigner(a, i, sig, j);
    if j < SIG_SZ {
      XorBit(a.sig[j], sig[j], k);
    }
  }

  /** The order in which signatures are added does not matter. */
  lemma AddCommutes(a: AggregateSignature, i: nat, s: seq<Byte>, j: nat, t: seq<Byte>)
    requires a.Shaped() && |s| == SIG_SZ && |t| == SIG_SZ && a.nbits <= MAX_SIGNERS
    requires i < a.nbits && j < a.nbits && i != j && !a.IsSigner(i) && !a.IsSigner(j)
    ensures !Add(a, i, s).IsSigner(j) && !Add(a, j, t).IsSigner(i)
    ensures Add(Add(a, i, s), j, t) == Add(Add(a, j, t), i, s)
  {
    AddSigner(a, i, s, j);
    AddSigner(a, j, t, i);
    SetBitCommutes(a.bitmask[i / 64], i % 64, j % 64);
    hide SetBit, Xor, AggregateSignature.IsSigner;
    var p, q := Add(Add(a, i, s), j, t), Add(Add(a, j, t), i, s);
    forall n | 0 <= n < SIG_SZ
      ensures p.sig[n] == q.sig[n]
    {
      XorCommutes(a.sig[n], s[n], t[n]);
    }
    assert p.sig == q.sig;
    assert p.bitmask == q.bitmask;
  }

  lemma {:induction false} OnesUpToZero(a: AggregateSignature, n: nat)
    requires n <= |a.bitmask|
    requires forall w :: 0 <= w < n ==> a.bitmask[w] == 0
    ensures a.OnesUpTo(n) == 0
  {
    if n > 0 {
      OnesUpToZero(a, n - 1);
    }
  }

  lemma {:induction false} OnesUpToUpdate(a: AggregateSignature, b: AggregateSignature, w: nat, n: nat)
    requires |a.bitmask| == |b.bitmask| && n <= |a.bitmask| && w < |a.bitmask|
    requires b.bitmask == a.bitmask[w := b.bitmask[w]]
    requires CountOnes(b.bitmask[w]) == CountOnes(a.bitmask[w]) + 1
    ensures b.OnesUpTo(n) == a.OnesUpTo(n) + if w < n then 1 else 0
  {
    if n > 0 {
      OnesUpToUpdate(a, b, w, n - 1);
    }
  }

  lemma InitValid(nbits: nat)
    requires nbits <= MAX_SIGNERS
    ensures Init(nbits).Valid() && Init(nbits).Signers() == {}
  {
    var a := Init(nbits);
    forall k: nat
      ensures !Bit(0, k)
    {
      ZeroHasNoBits(k);
    }
    OnesUpToZero(a, |a.bitmask|);
    assert a.Signers() == {};
  }

  lemma AddSigner(a: AggregateSignature, i: nat, sig: seq<Byte>, j: nat)
    requires a.Shaped() && |sig| == SIG_SZ
    requires i < a.nbits <= MAX_SIGNERS && !a.IsSigner(i)
    ensures Add(a, i, sig).IsSigner(j) <==> j == i || a.IsSigner(j)
  {
    if j < MAX_SIGNERS && j / 64 == i / 64 {
      SetBitBits(a.bitmask[i / 64], i % 64, j % 64);
    }
  }

  lemma AddSigners(a: AggregateSignature, i: nat, sig: seq<Byte>)
    requires a.Shaped() && |sig| == SIG_SZ
    requires i < a.nbits <= MAX_SIGNERS && !a.IsSigner(i)
    ensures Add(a, i, sig).Signers() == a.Signers() + {i}
  {
    hide AggregateSignature.IsSigner;
    var r := Add(a, i, sig);
    forall j: nat
      ensures r.IsSigner(j) <==> j == i || a.IsSigner(j)
    {
      AddSigner(a, i, sig, j);
    }
  }

  /** `Add` adds exactly its index to the signers and keeps the count in step. */
  lemma AddValid(a: AggregateSignature, i: nat, sig: seq<Byte>)
    requires a.Valid() && |sig| == SIG_SZ
    requires i < a.nbits && !a.IsSigner(i)
    ensures Add(a, i, sig).Valid()
    ensures Add(a, i, sig).Signers() == a.Signers() + {i}
  {
    AddSigners(a, i, sig);
    assert i !in a.Signers();
    hide AggregateSignature.Signers, SetBit, CountOnes;
    var r := Add(a, i, sig);
    var w, k := i / 64, i % 64;
    SetBitBound(a.bitmask[w], k, 64);
    forall k': nat
      ensures Bit(r.bitmask[w], k') <==> k' == k || Bit(a.bitmask[w], k')
    {
      SetBitBits(a.bitmask[w], k, k');
    }
    SetBitCount(a.bitmask[w], k);
    OnesUpToUpdate(a, r, w, |a.bitmask|);
  }

  // ---- wire form ----

  function LittleEndian(x: nat, n: nat): (bytes: seq<Byte>)
    ensures |bytes| == n
  {
    if n == 0 then [] else [x % 256] + LittleEndian(x / 256, n - 1)
  }

  function FromLittleEndian(bytes: seq<Byte>): nat {
    if bytes == [] then 0 else bytes[0] + 256 * FromLittleEndian(bytes[1..])
  }

  lemma {:induction false} LittleEndianRoundTrip(x: nat, n: nat)
    requires x < Pow2(8 * n)
    ensures FromLittleEndian(LittleEndian(x, n)) == x
    decreases n
  {
    if n > 0 {
      Pow2Byte(n);
      LittleEndianRoundTrip(x / 256, n - 1);
      assert LittleEndian(x, n)[1..] == LittleEndian(x / 256, n - 1);
    }
  }

  lemma Pow2Step(n: nat)
    ensures Pow2(n + 1) == 2 * Pow2(n)
  {
  }

  lemma Pow2Byte(n: nat)
    requires n > 0
    ensures Pow2(8 * n) == 256 * Pow2(8 * (n - 1))
  {
    hide Pow2;
    var m := 8 * (n - 1);
    Pow2Step(m);
    Pow2Step(m + 1);
    Pow2Step(m + 2);
    Pow2Step(m + 3);
    Pow2Step(m + 4);
    Pow2Step(m + 5);
    Pow2Step(m + 6);
    Pow2Step(m + 7);
  }

  /** The words as consecutive 8-byte groups. */
  function EncodeWords(words: seq<nat>): (bytes: seq<Byte>)
    ensures |bytes| == 8 * |words|
  {
    if words == [] then [] else EncodeWords(words[..|words| - 1]) + LittleEndian(words[|words| - 1], 8)
  }

  function Encode(a: AggregateSignature): (bytes: seq<Byte>)
    requires a.Shaped() && a.nbits <= MAX_SIGNERS
    ensures |bytes| == SerializedSize(a.nbits)
  {
    a.sig + LittleEndian(a.nbits, 8) + LittleEndian(WordsForBits(a.nbits), 8)
    + EncodeWords(a.bitmask[..WordsForBits(a.nbits)])
  }

  lemma {:induction false} EncodeWordsAt(words: seq<nat>, k: nat)
    requires k < |words|
    ensures EncodeWords(words)[8 * k..8 * k + 8] == LittleEndian(words[k], 8)
    decreases |words|
  {
    var front := words[..|words| - 1];
    if k < |front| {
      EncodeWordsAt(front, k);
      assert EncodeWords(words)[8 * k..8 * k + 8] == EncodeWords(front)[8 * k..8 * k + 8];
    }
  }

  /** Writes the wire form at the front of `out`; false when it does not fit. */
  method Serialize(a: AggregateSignature, out: array<Byte>) returns (written: Option<nat>)
    requires a.Shaped() && a.nbits <= MAX_SIGNERS
    modifies out
    ensures written.None? <==> out.Length < SerializedSize(a.nbits)
    ensures written.None? ==> out[..] == old(out[..])
    ensures written.Some? ==> written.value == SerializedSize(a.nbits)
    ensures written.Some? ==> out[..written.value] == Encode(a)
    ensures written.Some? ==> out[written.value..] == old(out[written.value..])
  {
    hide LittleEndian;
    var numWords := WordsForBits(a.nbits);
    var size := SerializedSize(a.nbits);
    if out.Length < size {
      return None;
    }
    var header := a.sig + LittleEndian(a.nbits, 8) + LittleEndian(numWords, 8);
    CopyInto(out, 0, header);
    var o := |header|;
    for w := 0 to numWords
      invariant o == |header| + 8 * w
      invariant out[..o] == header + EncodeWords(a.bitmask[..w])
      invariant out[o..] == old(out[o..])
    {
      ghost var before, rest := out[..o], out[o..];
      CopyInto(out, o, LittleEndian(a.bitmask[w], 8));
      assert out[..o + 8] == before + LittleEndian(a.bitmask[w], 8);
      assert a.bitmask[..w + 1][..w] == a.bitmask[..w];
      assert out[o + 8..] == rest[8..];
      assert old(out[o + 8..]) == old(out[o..])[8..];
      o := o + 8;
    }
    return Some(size);
  }

  method CopyInto(out: array<Byte>, at: nat, bytes: seq<Byte>)
    requires at + |bytes| <= out.Length
    modifies out
    ensures out[..at] == old(out[..at])
    ensures out[at..at + |bytes|] == bytes
    ensures out[at + |bytes|..] == old(out[at + |bytes|..])
  {
    for i := 0 to |bytes|
      invariant forall j :: 0 <= j < i ==> out[at + j] == bytes[j]
      invariant forall j :: 0 <= j < out.Length && !(at <= j < at + i) ==> out[j] == old(out[j])
    {
      out[at + i] := bytes[i];
    }
  }

  /** Reads a wire form; None on truncation, an over-long mask, or more bits than words hold. */
  method Deserialize(input: seq<Byte>) returns (r: Option<(AggregateSignature, nat)>)
    ensures r == Decode(input)
  {
    if |input| < SIG_SZ + 16 {
      return None;
    }
    var numBits := FromLittleEndian(input[SIG_SZ..SIG_SZ + 8]);
    var numWords := FromLittleEndian(input[SIG_SZ + 8..SIG_SZ + 16]);
    var o := SIG_SZ + 16;
    if numWords > WordsForBits(MAX_SIGNERS) || numBits > numWords * 64 || |input| < o + numWords * 8 {
      return None;
    }
    var bitmask := seq(BITMASK_WORDS, i => 0);
    for w := 0 to numWords
      invariant o == SIG_SZ + 16 + 8 * w
      invariant |bitmask| == BITMASK_WORDS
      invariant forall i :: 0 <= i < BITMASK_WORDS ==> bitmask[i] == if i < w then WordAt(input, i) else 0
    {
      bitmask := bitmask[w := FromLittleEndian(input[o..o + 8])];
      o := o + 8;
    }
    assert bitmask == seq(BITMASK_WORDS, i requires 0 <= i < BITMASK_WORDS =>
      if i < numWords then WordAt(input, i) else 0);
    return Some((AggregateSignature(input[..SIG_SZ], numBits, bitmask), o));
  }

  function WordAt(input: seq<Byte>, i: nat): nat
    requires SIG_SZ + 16 + 8 * i + 8 <= |input|
  {
    FromLittleEndian(input[SIG_SZ + 16 + 8 * i..SIG_SZ + 16 + 8 * i + 8])
  }

  function Decode(input: seq<Byte>): (r: Option<(AggregateSignature, nat)>)
    ensures r.Some? ==> r.value.0.Shaped() && r.value.1 <= |input|
  {
    if |input| < SIG_SZ + 16 then None else
      var numBits := FromLittleEndian(input[SIG_SZ..SIG_SZ + 8]);
      var numWords := FromLittleEndian(input[SIG_SZ + 8..SIG_SZ + 16]);
      if numWords > WordsForBits(MAX_SIGNERS) || numBits > numWords * 64
         || |input| < SIG_SZ + 16 + numWords * 8 then None
      else
        Some((AggregateSignature(input[..SIG_SZ], numBits,
                                 seq(BITMASK_WORDS, i requires 0 <= i < BITMASK_WORDS =>
                                   if i < numWords then WordAt(input, i) else 0)),
              SIG_SZ + 16 + 8 * numWords))
  }

  /** Words past the encoded ones carry no signer, so they are zero. */
  lemma HighWordsZero(a: AggregateSignature, w: nat)
    requires a.Valid() && WordsForBits(a.nbits) <= w < BITMASK_WORDS
    ensures a.bitmask[w] == 0
  {
    forall k: nat
      ensures !Bit(a.bitmask[w], k)
    {
      assert 64 * w >= a.nbits;
    }
    NoBitsIsZero(a.bitmask[w]);
  }

  lemma SmallFits(x: nat)
    requires x <= 4096
    ensures x < Pow2(64)
  {
  }

  lemma DecodedWord(a: AggregateSignature, rest: seq<Byte>, w: nat)
    requires a.Valid() && w < WordsForBits(a.nbits)
    ensures SIG_SZ + 16 + 8 * w + 8 <= |Encode(a) + rest|
    ensures WordAt(Encode(a) + rest, w) == a.bitmask[w]
  {
    var words := a.bitmask[..WordsForBits(a.nbits)];
    EncodeWordsAt(words, w);
    var at := SIG_SZ + 16 + 8 * w;
    assert (Encode(a) + rest)[at..at + 8] == EncodeWords(words)[8 * w..8 * w + 8];
    LittleEndianRoundTrip(a.bitmask[w], 8);
  }

  lemma ThreeFields(a: seq<Byte>, b: seq<Byte>, c: seq<Byte>, d: seq<Byte>)
    requires |a| == SIG_SZ && |b| == 8 && |c| == 8
    ensures var input := a + b + c + d;
      && |input| >= SIG_SZ + 16 && input[..SIG_SZ] == a && input[SIG_SZ..SIG_SZ + 8] == b
      && input[SIG_SZ + 8..SIG_SZ + 16] == c
  {
  }

  /** The three header fields of an encoded aggregate, as the decoder slices them. */
  lemma EncodedHeader(a: AggregateSignature, rest: seq<Byte>)
    requires a.Valid()
    ensures |Encode(a) + rest| >= SIG_SZ + 16
    ensures (Encode(a) + rest)[..SIG_SZ] == a.sig
    ensures FromLittleEndian((Encode(a) + rest)[SIG_SZ..SIG_SZ + 8]) == a.nbits
    ensures FromLittleEndian((Encode(a) + rest)[SIG_SZ + 8..SIG_SZ + 16]) == WordsForBits(a.nbits)
  {
    hide LittleEndian, FromLittleEndian, EncodeWords, Pow2, Bit, AggregateSignature.Signers,
         AggregateSignature.SignerCount;
    var words := EncodeWords(a.bitmask[..WordsForBits(a.nbits)]);
    ThreeFields(a.sig, LittleEndian(a.nbits, 8), LittleEndian(WordsForBits(a.nbits), 8), words + rest);
    assert Encode(a) + rest ==
      a.sig + LittleEndian(a.nbits, 8) + LittleEndian(WordsForBits(a.nbits), 8) + (words + rest);
    SmallFits(a.nbits);
    SmallFits(WordsForBits(a.nbits));
    LittleEndianRoundTrip(a.nbits, 8);
    LittleEndianRoundTrip(WordsForBits(a.nbits), 8);
  }

  /** Decoding what was encoded returns the aggregate and consumes exactly its bytes. */
  lemma RoundTrip(a: AggregateSignature, rest: seq<Byte>)
    requires a.Valid()
    ensures Decode(Encode(a) + rest) == Some((a, SerializedSize(a.nbits)))
  {
    EncodedHeader(a, rest);
    var input := Encode(a) + rest;
    var decoded := Decode(input).value.0;
    forall w | 0 <= w < BITMASK_WORDS
      ensures decoded.bitmask[w] == a.bitmask[w]
    {
      if w < WordsForBits(a.nbits) {
        DecodedWord(a, rest, w);
      } else {
        HighWordsZero(a, w);
      }
    }
    assert decoded.bitmask == a.bitmask;
  }

  // ---- where each bit goes ----

  lemma Quotients(x: nat, a: nat, b: nat)
    requires a > 0 && b > 0
    ensures a * b > 0 && x / a / b == x / (a * b)
  {
    var q, r := x / a / b, x / a % b;
    assert x / a == q * b + r;
    assert x == (q * b + r) * a + x % a;
    assert r * a + x % a < a * b by {
      assert r * a <= (b - 1) * a;
    }
    assert x == q * (a * b) + (r * a + x % a);
    UniqueQuotient(x, a * b, q, r * a + x % a);
  }

  lemma AtLeastOnce(e: int, d: nat)
    requires d > 0
    ensures e >= 1 ==> e * d >= d
    ensures e <= -1 ==> e * d + d <= 0
  {
  }

  lemma UniqueQuotient(x: nat, d: nat, q: nat, r: nat)
    requires d > 0 && r < d && x == q * d + r
    ensures x / d == q
  {
    var p := x / d;
    var e := p - q;
    assert p * d + x % d == x;
    assert e * d == p * d - q * d;
    AtLeastOnce(e, d);
  }

  /** The bytes of a number are written from the lowest up. */
  lemma {:induction false} LittleEndianByte(x: nat, n: nat, i: nat)
    requires i < n
    ensures LittleEndian(x, n)[i] == x / Pow2(8 * i) % 256
    decreases n
  {
    if i > 0 {
      LittleEndianByte(x / 256, n - 1, i - 1);
      Pow2Byte(i);
      Quotients(x, 256, Pow2(8 * (i - 1)));
      assert LittleEndian(x, n)[i] == LittleEndian(x / 256, n - 1)[i - 1];
    } else {
      assert Pow2(0) == 1;
    }
  }

  lemma {:induction false} LowBits(x: nat, m: nat, j: nat)
    requires j < m
    ensures Bit(x % Pow2(m), j) <==> Bit(x, j)
    decreases m
  {
    var p := Pow2(m - 1);
    HalfOfRest(x, p);
    if j > 0 {
      LowBits(x / 2, m - 1, j - 1);
    }
  }

  lemma HalfOfRest(x: nat, p: nat)
    requires p > 0
    ensures x % (2 * p) % 2 == x % 2 && x % (2 * p) / 2 == x / 2 % p
  {
    var q, r := x / 2 / p, x / 2 % p;
    assert x / 2 == q * p + r;
    assert x == q * (2 * p) + (2 * r + x % 2);
    UniqueQuotient(x, 2 * p, q, 2 * r + x % 2);
    assert x % (2 * p) == 2 * r + x % 2;
  }

  lemma HighBits(x: nat, k: nat)
    ensures Bit(x, k + 8) <==> Bit(x / 256, k)
  {
    assert Bit(x, k + 8) == Bit(x / 2, k + 7) == Bit(x / 2 / 2, k + 6) == Bit(x / 2 / 2 / 2, k + 5);
    var y := x / 2 / 2 / 2;
    assert Bit(y, k + 5) == Bit(y / 2, k + 4) == Bit(y / 2 / 2, k + 3) == Bit(y / 2 / 2 / 2, k + 2);
    var z := y / 2 / 2 / 2;
    assert Bit(z, k + 2) == Bit(z / 2, k + 1) == Bit(z / 2 / 2, k);
    assert z / 2 / 2 == x / 256;
  }

  lemma {:induction false} LittleEndianBit(x: nat, n: nat, i: nat, j: nat)
    requires i < n && j < 8
    ensures Bit(LittleEndian(x, n)[i], j) <==> Bit(x, 8 * i + j)
    decreases n
  {
    if i == 0 {
      ByteIsPower();
      LowBits(x, 8, j);
    } else {
      LittleEndianBit(x / 256, n - 1, i - 1, j);
      HighBits(x, 8 * (i - 1) + j);
    }
  }

  /** On the wire the signature comes first, then two numbers of eight bytes, lowest byte first, and
      validator `i` has bit `i % 8` of byte `i / 8` of what follows. */
  lemma WireLayout(a: AggregateSignature, i: nat)
    requires a.Shaped() && a.nbits <= MAX_SIGNERS
    ensures i < 192 ==> Encode(a)[i] == a.sig[i]
    ensures i < 8 ==> Encode(a)[192 + i] == a.nbits / Pow2(8 * i) % 256
    ensures i < 8 ==> Encode(a)[200 + i] == (a.nbits + 63) / 64 / Pow2(8 * i) % 256
    ensures i < a.nbits ==> (Bit(Encode(a)[208 + i / 8], i % 8) <==> a.IsSigner(i))
  {
    hide LittleEndian;
    if i < 8 {
      LittleEndianByte(a.nbits, 8, i);
      LittleEndianByte((a.nbits + 63) / 64, 8, i);
    }
    if i < a.nbits {
      var words, w := a.bitmask[..WordsForBits(a.nbits)], i / 64;
      EncodeWordsAt(words, w);
      var k := i % 64 / 8;
      assert EncodeWords(words)[8 * w + k] == EncodeWords(words)[8 * w..8 * w + 8][k];
      assert Encode(a)[208 + i / 8] == LittleEndian(a.bitmask[w], 8)[k];
      LittleEndianBit(a.bitmask[w], 8, k, i % 8);
    }
  }
}
