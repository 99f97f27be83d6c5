/** The internet checksum (RFC 1071): sixteen-bit words summed, carries folded back
  * in, the result complemented. */
module InternetChecksum {
  import opened Basics

  type Bytes = seq<byte>

  const WORD: nat := 0x1_0000
  const ONES: nat := 0xFFFF
  const UINT32: nat := 0x1_0000_0000

  /** Big-endian words; an odd last byte is a high byte. */
  function WordSum(b: Bytes): nat {
    if |b| == 0 then 0
    else if |b| == 1 then b[0] as nat * 256
    else b[0] as nat * 256 + b[1] as nat + WordSum(b[2..])
  }

  /** Add the carries back in until there are none. */
  function Fold(n: nat): (r: nat)
    ensures r <= ONES
    decreases n
  {
    if n < WORD then n else Fold(n % WORD + n / WORD)
  }

  function Checksum(b: Bytes): (ck: nat)
    ensures ck <= ONES
  {
    ONES - Fold(WordSum(b))
  }

  /** A receiver's check: the ones'-complement sum is all ones. */
  predicate Verifies(b: Bytes) { Fold(WordSum(b)) == ONES }

  // ---- what folding computes -------------------------------------------------------------

  lemma SameModulo(n: nat)
    ensures (n % WORD + n / WORD) % ONES == n % ONES
  {
    var q, r := n / WORD, n % WORD;
    assert n == (q + r) + ONES * q;
    AddMultiple(q + r, q);
  }

  lemma AddMultiple(x: nat, q: nat)
    ensures (x + ONES * q) % ONES == x % ONES
  {
    var k := x / ONES;
    assert x + ONES * q == ONES * (k + q) + x % ONES;
  }

  /** Folding keeps the sum modulo 65535, and only zero folds to zero. */
  lemma {:induction false} FoldModulo(n: nat)
    ensures Fold(n) % ONES == n % ONES && (Fold(n) == 0 <==> n == 0)
    decreases n
  {
    if n >= WORD {
      SameModulo(n);
      FoldModulo(n % WORD + n / WORD);
    }
  }

  // ---- sums of pieces -------------------------------------------------------------------------

  lemma {:induction false} WordSumSplit(a: Bytes, b: Bytes)
    requires |a| % 2 == 0
    ensures WordSum(a + b) == WordSum(a) + WordSum(b)
    decreases |a|
  {
    if a == [] {
      assert a + b == b;
    } else {
      assert (a + b)[2..] == a[2..] + b;
      WordSumSplit(a[2..], b);
    }
  }

  lemma WordSumPair(h: byte, l: byte)
    ensures WordSum([h, l]) == h as nat * 256 + l as nat
  {
    assert [h, l][2..] == [];
  }

  lemma {:induction false} WordSumBound(b: Bytes)
    ensures WordSum(b) <= ONES * ((|b| + 1) / 2)
    decreases |b|
  {
    if |b| >= 2 { WordSumBound(b[2..]); }
  }

  /** Bytes `k` and `k + 1` of `b` replaced by the word `w`. */
  function Store(b: Bytes, k: nat, w: nat): Bytes
    requires k + 2 <= |b| && w <= ONES
  {
    b[k := (w / 256) as byte][k + 1 := (w % 256) as byte]
  }

  lemma Pieces(b: Bytes, k: nat)
    requires k + 2 <= |b| && k % 2 == 0
    ensures WordSum(b) == WordSum(b[..k]) + (b[k] as nat * 256 + b[k + 1] as nat) + WordSum(b[k + 2..])
  {
    hide WordSum;
    assert b == b[..k] + ([b[k], b[k + 1]] + b[k + 2..]);
    WordSumSplit(b[..k], [b[k], b[k + 1]] + b[k + 2..]);
    WordSumSplit([b[k], b[k + 1]], b[k + 2..]);
    WordSumPair(b[k], b[k + 1]);
  }

  lemma StoreParts(b: Bytes, k: nat, w: nat)
    requires k + 2 <= |b| && w <= ONES
    ensures var c := Store(b, k, w);
            && |c| == |b| && c[..k] == b[..k] && c[k + 2..] == b[k + 2..]
            && c[k] as nat * 256 + c[k + 1] as nat == w
  {
  }

  lemma StoreSum(b: Bytes, k: nat, w: nat)
    requires k + 2 <= |b| && k % 2 == 0 && w <= ONES && b[k] == 0 && b[k + 1] == 0
    ensures WordSum(Store(b, k, w)) == WordSum(b) + w
  {
    hide WordSum, Store;
    StoreParts(b, k, w);
    Pieces(b, k);
    Pieces(Store(b, k, w), k);
  }

  /** Storing the checksum where a zero word was makes the whole verify. */
  lemma StoredVerifies(b: Bytes, k: nat)
    requires k + 2 <= |b| && k % 2 == 0 && b[k] == 0 && b[k + 1] == 0
    ensures Verifies(Store(b, k, Checksum(b)))
  {
    hide Fold, WordSum, Store;
    var s, ck := WordSum(b), Checksum(b);
    StoreSum(b, k, ck);
    FoldModulo(s);
    FoldModulo(s + ck);
    Complement(s, Fold(s));
    OnlyOnes(Fold(s + ck), s + ck);
  }

  lemma OnlyOnes(f: nat, n: nat)
    requires f <= ONES && f % ONES == n % ONES == 0 && (f == 0 <==> n == 0) && n > 0
    ensures f == ONES
  {
  }

  lemma Complement(s: nat, f: nat)
    requires f % ONES == s % ONES && f <= ONES
    ensures (s + (ONES - f)) % ONES == 0
  {
    var k := s / ONES;
    if f == ONES {
      assert s == ONES * k;
    } else {
      assert s == ONES * k + f;
      assert s + (ONES - f) == ONES * (k + 1);
    }
  }

  /** A stored checksum catches every change of one word but the swap of the two
    * zeros of ones'-complement arithmetic. */
  lemma OneWordChanged(rest: nat, w: nat, v: nat)
    requires w <= ONES && v <= ONES && Fold(rest + w) == ONES
    ensures Fold(rest + v) == ONES <==> v == w || (v == 0 && w == ONES && rest > 0) || (v == ONES && w == 0)
  {
    FoldModulo(rest + w);
    FoldModulo(rest + v);
    SameResidue(rest, w, v);
  }

  lemma SameResidue(rest: nat, w: nat, v: nat)
    requires w <= ONES && v <= ONES && (rest + w) % ONES == 0
    ensures (rest + v) % ONES == 0 <==> v == w || (v == 0 && w == ONES) || (v == ONES && w == 0)
  {
    var q := (rest + w) / ONES;
    assert rest == ONES * q - w;
    if v < w {
      var d := w - v;
      assert rest + v == ONES * (q - 1) + (ONES - d);
      if d < ONES { assert (rest + v) % ONES == ONES - d; } else { assert rest + v == ONES * (q - 1); }
    } else if v > w {
      var d := v - w;
      assert rest + v == ONES * q + d;
      if d < ONES { assert (rest + v) % ONES == d; } else { assert rest + v == ONES * (q + 1); }
    }
  }

  // ---- the loops --------------------------------------------------------------------------------

  /** What a 32-bit accumulator keeps. */
  function Low32(n: nat): (r: nat)
    ensures r < UINT32 && (n < UINT32 ==> r == n)
  {
    n % UINT32
  }

  method Accumulate(b: Bytes) returns (sum: nat)
    ensures sum == Low32(WordSum(b))
  {
    hide Low32, WordSum;
    sum := 0;
    var i := 0;
    assert b[..0] == [] && WordSum([]) == 0 by { NoWords(); }
    while i + 1 < |b|
      invariant 0 <= i <= |b| && i % 2 == 0
      invariant sum == Low32(WordSum(b[..i]))
    {
      Extend(b, i);
      WrapAdd(WordSum(b[..i]), b[i] as nat * 256 + b[i + 1] as nat);
      sum := Low32(sum + (b[i] as nat * 256 + b[i + 1] as nat));
      i := i + 2;
    }
    Tail(b, i);
    if |b| % 2 == 1 {
      WrapAdd(WordSum(b[..i]), b[|b| - 1] as nat * 256);
      sum := Low32(sum + b[|b| - 1] as nat * 256);
    }
  }

  lemma NoWords()
    ensures WordSum([]) == 0
  {
  }

  /** The carry loop terminates for every value the accumulator can hold. */
  method FoldDown(n: nat) returns (r: nat)
    ensures r == Fold(n)
  {
    r := n;
    while r / WORD != 0
      invariant Fold(r) == Fold(n)
      decreases r
    {
      r := r % WORD + r / WORD;
    }
  }

  /** The accumulator is 32 bits wide and would wrap; for any data whose word sum
    * fits, which every frame's does, the result is the checksum. */
  method Compute(b: Bytes) returns (ck: nat)
    ensures WordSum(b) < UINT32 ==> ck == Checksum(b)
    ensures |b| <= 0x2_0000 ==> ck == Checksum(b)
    ensures ck == ONES - Fold(Low32(WordSum(b)))
  {
    hide Fold, WordSum, Low32;
    WordSumBound(b);
    var sum := Accumulate(b);
    var r := FoldDown(sum);
    ck := ONES - r;
  }

  lemma WrapAdd(a: nat, b: nat)
    ensures Low32(Low32(a) + b) == Low32(a + b)
  {
    var k := a / UINT32;
    assert a + b == UINT32 * k + (a % UINT32 + b);
    var j := (a % UINT32 + b) / UINT32;
    assert a + b == UINT32 * (k + j) + (a % UINT32 + b) % UINT32;
  }

  lemma Extend(b: Bytes, i: nat)
    requires i + 1 < |b| && i % 2 == 0
    ensures WordSum(b[..i + 2]) == WordSum(b[..i]) + (b[i] as nat * 256 + b[i + 1] as nat)
  {
    assert b[..i + 2] == b[..i] + [b[i], b[i + 1]];
    WordSumSplit(b[..i], [b[i], b[i + 1]]);
    WordSumPair(b[i], b[i + 1]);
  }

  lemma Tail(b: Bytes, i: nat)
    requires i <= |b| <= i + 1 && i % 2 == 0
    ensures |b| % 2 == 0 ==> b[..i] == b
    ensures |b| % 2 == 1 ==> i == |b| - 1 && WordSum(b) == WordSum(b[..i]) + b[|b| - 1] as nat * 256
  {
    if |b| % 2 == 1 {
      assert b == b[..i] + [b[i]];
      WordSumSplit(b[..i], [b[i]]);
    }
  }
}
