/** internal/cryptoops: hex rendering and the leading-zeros proof of work.
    SHA-256 is an arbitrary function from text to 32-byte digests. */
module CryptoOps {
  import opened Text

  type Byte = b: int | 0 <= b < 256
  type Digest = d: seq<Byte> | |d| == 32 witness seq(32, i => 0)
  type Hash = string -> Digest

  /** The hash, the identity a public key stands for, and whether a key's signature fits a text. */
  datatype Crypto = Crypto(hash: Hash, identify: string -> Option<string>, verify: (string, string, string) -> bool)

  /** A signature check that the relay carries out. */
  datatype Check = Check(pubkey: string, signature: string, text: string)

  predicate Passes(c: Crypto, k: Check) {
    c.verify(k.pubkey, k.signature, k.text)
  }

  /** Among these checks no signature string passes for two texts. */
  predicate Binding(c: Crypto, checks: set<Check>) {
    forall a, b :: a in checks && b in checks && a.signature == b.signature && Passes(c, a) && Passes(c, b) ==> a.text == b.text
  }

  const HEX_DIGITS := "0123456789abcdef"

  function HexText(b: seq<Byte>): (s: string)
    ensures |s| == 2 * |b|
  {
    if |b| == 0 then "" else [HEX_DIGITS[b[0] / 16], HEX_DIGITS[b[0] % 16]] + HexText(b[1..])
  }

  lemma {:induction false} HexTextAt(b: seq<Byte>, i: nat)
    requires i < |b|
    ensures HexText(b)[2 * i] == HEX_DIGITS[b[i] / 16]
    ensures HexText(b)[2 * i + 1] == HEX_DIGITS[b[i] % 16]
  {
    if i > 0 {
      HexTextAt(b[1..], i - 1);
    }
  }

  /** hexEncode fills its output buffer two digits at a time. */
  method HexEncode(b: seq<Byte>) returns (out: array<char>)
    ensures fresh(out) && out[..] == HexText(b)
  {
    out := new char[2 * |b|](i => '0');
    for i := 0 to |b|
      invariant forall j :: 0 <= j < i ==>
        out[2 * j] == HEX_DIGITS[b[j] / 16] && out[2 * j + 1] == HEX_DIGITS[b[j] % 16]
    {
      out[i * 2] := HEX_DIGITS[b[i] / 16];
      out[i * 2 + 1] := HEX_DIGITS[b[i] % 16];
    }
    forall k | 0 <= k < out.Length ensures out[k] == HexText(b)[k] {
      HexTextAt(b, k / 2);
      assert k == 2 * (k / 2) || k == 2 * (k / 2) + 1;
    }
  }

  function Zeros(n: nat): (s: string)
    ensures |s| == n && forall i :: 0 <= i < n ==> s[i] == '0'
  {
    seq(n, i => '0')
  }

  function HashedText(challenge: string, nonce: int, payload: string): string {
    challenge + FormatInt(nonce) + payload
  }

  predicate VerifyPoW(h: Hash, challenge: string, nonce: int, payload: string, difficulty: nat) {
    HasPrefix(HexText(h(HashedText(challenge, nonce, payload))), Zeros(difficulty))
  }

  // ---- The numeric reading of a digest ------------------------------------

  function Pow(b: nat, e: nat): (p: nat)
    ensures b > 0 ==> p > 0
  {
    if e == 0 then 1 else b * Pow(b, e - 1)
  }

  /** A byte string read as a big-endian integer. */
  function BigEndian(b: seq<Byte>): nat {
    if |b| == 0 then 0 else b[0] * Pow(256, |b| - 1) + BigEndian(b[1..])
  }

  lemma Associates(x: nat, y: nat, z: nat)
    ensures x * (y * z) == (x * y) * z
  {}

  lemma {:induction false} PowSplit(b: nat, m: nat, n: nat)
    ensures Pow(b, m + n) == Pow(b, m) * Pow(b, n)
  {
    if m > 0 {
      PowSplit(b, m - 1, n);
      assert m - 1 + n == m + n - 1;
      Associates(b, Pow(b, m - 1), Pow(b, n));
    }
  }

  lemma {:induction false} BytePower(n: nat)
    ensures Pow(256, n) == Pow(16, 2 * n)
  {
    if n > 0 {
      BytePower(n - 1);
      assert Pow(16, 2 * n) == 16 * Pow(16, 2 * n - 1) == 16 * (16 * Pow(16, 2 * n - 2));
    }
  }

  lemma MulMono(a: nat, b: nat, p: nat)
    requires a <= b
    ensures a * p <= b * p
  {}

  lemma {:induction false} BigEndianBound(b: seq<Byte>)
    ensures BigEndian(b) < Pow(256, |b|)
  {
    if |b| > 0 {
      BigEndianBound(b[1..]);
      var p := Pow(256, |b| - 1);
      assert b[0] * p <= 255 * p by { MulMono(b[0], 255, p); }
    }
  }

  /** One leading byte: its two hex digits decide how far below the bound the whole lies. */
  lemma LeadingByte(hi: nat, rest: nat, p: nat)
    requires hi < 256 && rest < p
    ensures hi * p + rest < 16 * p <==> hi < 16
    ensures hi * p + rest < p <==> hi == 0
  {
    if hi < 16 {
      MulMono(hi, 15, p);
    } else {
      MulMono(16, hi, p);
    }
    if hi >= 1 {
      MulMono(1, hi, p);
    }
  }

  lemma OnlyZeroIsZero(digit: nat)
    requires digit < 16
    ensures HEX_DIGITS[digit] == '0' <==> digit == 0
  {}

  lemma ByteDigits(x: Byte)
    ensures x / 16 < 16 && x % 16 < 16
    ensures x / 16 == 0 <==> x < 16
    ensures x / 16 == 0 && x % 16 == 0 <==> x == 0
  {}

  lemma FirstByte(b: seq<Byte>)
    requires |b| > 0
    ensures HexText(b) == [HexText(b)[0], HexText(b)[1]] + HexText(b[1..])
    ensures HexText(b)[0] == '0' <==> b[0] < 16
    ensures HexText(b)[0] == '0' && HexText(b)[1] == '0' <==> b[0] == 0
  {
    ByteDigits(b[0]);
    OnlyZeroIsZero(b[0] / 16);
    OnlyZeroIsZero(b[0] % 16);
  }

  lemma FirstCharIs(s: string)
    requires |s| > 0
    ensures HasPrefix(s, Zeros(1)) <==> s[0] == '0'
  {
    assert s[..1] == [s[0]] && Zeros(1) == ['0'];
  }

  lemma OneZeroText(b: seq<Byte>)
    requires |b| > 0
    ensures HasPrefix(HexText(b), Zeros(1)) <==> b[0] < 16
  {
    FirstByte(b);
    FirstCharIs(HexText(b));
  }

  lemma SixteenTimes(n: nat)
    ensures Pow(16, n + 1) == 16 * Pow(16, n)
  {}

  lemma OneDigitIn(hi: Byte, rest: nat, n: nat)
    requires rest < Pow(256, n)
    ensures hi * Pow(256, n) + rest < Pow(16, 2 * n + 1) <==> hi < 16
  {
    BytePower(n);
    SixteenTimes(2 * n);
    LeadingByte(hi, rest, Pow(256, n));
  }

  lemma OneZeroNumber(b: seq<Byte>)
    requires |b| > 0
    ensures BigEndian(b) < Pow(16, 2 * |b| - 1) <==> b[0] < 16
  {
    var n := |b| - 1;
    var rest := BigEndian(b[1..]);
    BigEndianBound(b[1..]);
    OneDigitIn(b[0], rest, n);
    assert 2 * |b| - 1 == 2 * n + 1;
  }

  /** Past the first byte the bound only leaves room for a zero byte. */
  lemma TwoDigitsIn(hi: Byte, rest: nat, n: nat, d: nat)
    requires 2 <= d <= 2 * n + 2 && rest < Pow(256, n)
    ensures hi * Pow(256, n) + rest < Pow(16, 2 * n + 2 - d) <==> hi == 0 && rest < Pow(16, 2 * n - (d - 2))
  {
    var p, bound := Pow(256, n), Pow(16, 2 * n - (d - 2));
    BytePower(n);
    PowSplit(16, 2 * n - (d - 2), d - 2);
    MulMono(1, Pow(16, d - 2), bound);
    assert bound <= p;
    if hi != 0 {
      MulMono(1, hi, p);
    }
  }

  lemma PrefixOfPair(x: char, y: char, rest: string, d: nat)
    requires 2 <= d <= 2 + |rest|
    ensures HasPrefix([x, y] + rest, Zeros(d)) <==> x == '0' && y == '0' && HasPrefix(rest, Zeros(d - 2))
  {
    var s := [x, y] + rest;
    assert s[..d] == [x, y] + rest[..d - 2];
    assert Zeros(d) == ['0', '0'] + Zeros(d - 2);
    if s[..d] == Zeros(d) {
      assert x == Zeros(d)[0] && y == Zeros(d)[1];
      assert rest[..d - 2] == s[..d][2..] == Zeros(d)[2..] == Zeros(d - 2);
    }
  }

  /** d leading zero digits of the rendering bound the number by 16^(digits - d), and back. */
  lemma {:induction false} LeadingZerosAreABound(b: seq<Byte>, d: nat)
    requires d <= 2 * |b|
    ensures HasPrefix(HexText(b), Zeros(d)) <==> BigEndian(b) < Pow(16, 2 * |b| - d)
  {
    if d == 0 {
      BytePower(|b|);
      BigEndianBound(b);
      assert HexText(b)[..0] == Zeros(0);
    } else if d == 1 {
      OneZeroText(b);
      OneZeroNumber(b);
    } else {
      var n := |b| - 1;
      FirstByte(b);
      BigEndianBound(b[1..]);
      LeadingZerosAreABound(b[1..], d - 2);
      PrefixOfPair(HexText(b)[0], HexText(b)[1], HexText(b[1..]), d);
      TwoDigitsIn(b[0], BigEndian(b[1..]), n, d);
    }
  }

  /** Main result: difficulty d accepts exactly the digests below 16^(64-d), and none beyond 64. */
  lemma VerifyPoWIsABound(h: Hash, challenge: string, nonce: int, payload: string, d: nat)
    ensures VerifyPoW(h, challenge, nonce, payload, d) <==>
            d <= 64 && BigEndian(h(HashedText(challenge, nonce, payload))) < Pow(16, 64 - d)
  {
    if d <= 64 {
      LeadingZerosAreABound(h(HashedText(challenge, nonce, payload)), d);
    }
  }

  /** A solution for a difficulty is a solution for every lower one. */
  lemma VerifyPoWDownwardClosed(h: Hash, challenge: string, nonce: int, payload: string, d: nat, lower: nat)
    requires lower <= d && VerifyPoW(h, challenge, nonce, payload, d)
    ensures VerifyPoW(h, challenge, nonce, payload, lower)
  {
    VerifyPoWIsABound(h, challenge, nonce, payload, d);
    VerifyPoWIsABound(h, challenge, nonce, payload, lower);
    PowSplit(16, 64 - d, d - lower);
    MulMono(1, Pow(16, d - lower), Pow(16, 64 - d));
  }

  /** With the lengths fixed, no two inputs share a hashed text, negative nonces included. */
  lemma HashedTextDetermines(c1: string, n1: int, p1: string, c2: string, n2: int, p2: string)
    requires |c1| == |c2| && |p1| == |p2|
    requires HashedText(c1, n1, p1) == HashedText(c2, n2, p2)
    ensures c1 == c2 && n1 == n2 && p1 == p2
  {
    var t := HashedText(c1, n1, p1);
    assert t[..|c1|] == c1 && t[..|c2|] == c2;
    assert t[|t| - |p1|..] == p1 && t[|t| - |p2|..] == p2;
    assert t[|c1|..|t| - |p1|] == FormatInt(n1) && t[|c2|..|t| - |p2|] == FormatInt(n2);
    FormatIntInjective(n1, n2);
  }
}
