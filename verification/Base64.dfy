/** base64url without padding (section 5 of RFC 4648), decoded strictly (section 3.5: canonical
    form only). The codecs run over a 32-bit register that keeps shifting in bytes and wraps. */
module Base64 {
  import opened Wrappers
  import opened PowersOfTwo

  type byte = x: int | 0 <= x < 256
  type digit = x: int | 0 <= x < 64
  type bits = seq<bool>

  const WORD: int := 0x1_0000_0000

  // ---- The alphabet --------------------------------------------------------------------------

  function Alpha(v: digit): char {
    if v < 26 then ('A' as int + v) as char
    else if v < 52 then ('a' as int + v - 26) as char
    else if v < 62 then ('0' as int + v - 52) as char
    else if v == 62 then '-' else '_'
  }

  /** The decoding table: the digit of a character, or -1. */
  function Value(c: char): (v: int)
    ensures -1 <= v < 64
  {
    if 'A' <= c <= 'Z' then c as int - 'A' as int
    else if 'a' <= c <= 'z' then c as int - 'a' as int + 26
    else if '0' <= c <= '9' then c as int - '0' as int + 52
    else if c == '-' then 62
    else if c == '_' then 63
    else -1
  }

  lemma AlphabetIsBijective(v: digit, c: char)
    ensures Value(Alpha(v)) == v
    ensures Value(c) >= 0 ==> Alpha(Value(c)) == c
    ensures !Ignored(Alpha(v)) && Alpha(v) != '.'
  {}

  const UPPER := "ABCDEFGHIJKLMNOPQRSTUVWXYZ"
  const LOWER := "abcdefghijklmnopqrstuvwxyz"
  const OTHERS := "0123456789-_"
  const ALPHABET := UPPER + LOWER + OTHERS

  predicate UrlSafe(c: char) { 'A' <= c <= 'Z' || 'a' <= c <= 'z' || '0' <= c <= '9' || c == '-' || c == '_' }

  /** The digits in the order of the alphabet of section 5 of RFC 4648, every one safe in a URL. */
  lemma DigitsAreOfTheAlphabet(v: digit)
    ensures |ALPHABET| == 64 && Alpha(v) == ALPHABET[v] && UrlSafe(Alpha(v))
  {
    assert |UPPER| == 26 && |LOWER| == 26 && |OTHERS| == 12;
    UpperDigits(v);
    LowerDigits(v);
    OtherDigits(v);
    hide UPPER, LOWER, OTHERS;
  }

  lemma UpperDigits(v: digit)
    ensures v < 26 ==> Alpha(v) == UPPER[v]
  {}

  lemma LowerDigits(v: digit)
    ensures 26 <= v < 52 ==> Alpha(v) == LOWER[v - 26]
  {}

  lemma OtherDigits(v: digit)
    ensures 52 <= v ==> Alpha(v) == OTHERS[v - 52]
  {}

  // ---- Bits ----------------------------------------------------------------------------------

  /** The number that a string of bits spells, the first bit the highest. */
  function Num(s: bits): (v: int)
    ensures 0 <= v < Pow2(|s|)
  { if s == [] then 0 else 2 * Num(s[..|s| - 1]) + if s[|s| - 1] then 1 else 0 }

  /** The low n bits of a number. */
  function Bin(v: nat, n: nat): (s: bits)
    ensures |s| == n
  { if n == 0 then [] else Bin(v / 2, n - 1) + [v % 2 == 1] }

  function Zeros(n: nat): bits { seq(n, i => false) }

  lemma {:induction false} NumOfBin(v: nat, n: nat)
    requires v < Pow2(n)
    ensures Num(Bin(v, n)) == v
  {
    if n > 0 {
      NumOfBin(v / 2, n - 1);
      assert Bin(v, n)[..n - 1] == Bin(v / 2, n - 1);
    }
  }

  lemma {:induction false} BinOfNum(s: bits)
    ensures Bin(Num(s), |s|) == s
  {
    if s != [] {
      BinOfNum(s[..|s| - 1]);
      assert s == s[..|s| - 1] + [s[|s| - 1]];
    }
  }

  lemma Doubled(x: int, p: int, y: int)
    ensures 2 * (x * p + y) == x * (2 * p) + 2 * y
  {}

  lemma {:induction false} NumAppend(a: bits, b: bits)
    ensures Num(a + b) == Num(a) * Pow2(|b|) + Num(b)
    decreases |b|
  {
    if b == [] {
      assert a + b == a;
    } else {
      assert (a + b)[..|a + b| - 1] == a + b[..|b| - 1];
      NumAppend(a, b[..|b| - 1]);
      Doubled(Num(a), Pow2(|b| - 1), Num(b[..|b| - 1]));
    }
  }

  lemma {:induction false} NumIsZero(s: bits)
    ensures Num(s) == 0 <==> s == Zeros(|s|)
  {
    if s != [] {
      NumIsZero(s[..|s| - 1]);
      assert s == s[..|s| - 1] + [s[|s| - 1]];
    }
  }

  lemma Powers()
    ensures Pow2(6) == 64 && Pow2(8) == 256 && Pow2(32) == WORD
  {
    assert Pow2(6) == 64;
    PowersAdd(8, 8);
    PowersAdd(16, 16);
  }

  // ---- The register --------------------------------------------------------------------------

  /** A quotient and a remainder in range are the quotient and the remainder. */
  lemma Division(x: int, m: int, q: int, r: int)
    requires m > 0 && 0 <= r < m && x == q * m + r
    ensures x / m == q && x % m == r
  {
    var d := x / m - q;
    assert x == x / m * m + x % m;
    assert d * m == r - x % m by { assert d * m == x / m * m - q * m; }
    Multiple(d, m);
  }

  lemma Multiple(d: int, m: int)
    requires m > 0
    ensures d >= 1 ==> d * m >= m
    ensures d <= -1 ==> d * m <= -m
  {}

  /** Wrapping at m * k leaves a remainder mod m alone. */
  lemma WrapKeepsRemainder(x: int, m: int, k: int)
    requires m > 0 && k > 0
    ensures m * k > 0 && x % (m * k) % m == x % m
  {
    assert m * k > 0;
    var q, y := x / (m * k), x % (m * k);
    assert q * (m * k) == q * k * m;
    assert y == (x / m - q * k) * m + x % m by {
      assert x == q * (m * k) + y && x == x / m * m + x % m;
      assert (x / m - q * k) * m == x / m * m - q * k * m;
    }
    Division(y, m, x / m - q * k, x % m);
  }

  lemma Shifted(buf: int, v: int, p: int, m: int)
    requires buf >= 0 && p > 0 && m > 0 && 0 <= v < m
    ensures p * m > 0 && (buf * m + v) % (p * m) == buf % p * m + v
  {
    var q, r := buf / p, buf % p;
    assert p * m > 0;
    assert r * m + v < p * m by { Multiple(p - r, m); assert (p - r) * m == p * m - r * m; }
    assert r * m >= 0;
    assert buf * m + v == q * (p * m) + (r * m + v) by {
      assert buf == q * p + r;
      assert (q * p + r) * m == q * p * m + r * m;
      assert q * p * m == q * (p * m);
    }
    Division(buf * m + v, p * m, q, r * m + v);
  }

  /** The digits in the middle of a number, in whatever wider number they are read. */
  lemma TopBits(x: int, p: int, m: int)
    requires x >= 0 && p > 0 && m > 0
    ensures p * m > 0 && x / p % m == x % (p * m) / p && x % (p * m) % p == x % p
  {
    assert p * m > 0;
    var q, r := x / (p * m), x % (p * m);
    var a, b := r / p, r % p;
    QuotientIsBelow(r, p, m);
    Regrouped(q, p, m, a, b);
    Division(x, p, q * m + a, b);
    Division(q * m + a, m, q, a);
  }

  lemma QuotientIsBelow(r: int, p: int, m: int)
    requires p > 0 && 0 <= r < p * m
    ensures 0 <= r / p < m
  {
    Multiple(r / p - m + 1, p);
    assert (r / p - m + 1) * p == r / p * p - m * p + p;
  }

  lemma Regrouped(q: int, p: int, m: int, a: int, b: int)
    ensures q * (p * m) + (a * p + b) == (q * m + a) * p + b
  {
    assert q * (p * m) == q * m * p;
    assert (q * m + a) * p == q * m * p + a * p;
  }

  /** The low bits of the register are s. */
  predicate Holds(buf: int, s: bits) { 0 <= buf < WORD && buf % Pow2(|s|) == Num(s) }

  lemma WrappedShift(buf: int, v: int, p: int, m: int, k: int)
    requires buf >= 0 && p > 0 && m > 0 && k > 0 && p * m * k == WORD && 0 <= v < m
    ensures (buf * m + v) % WORD % (p * m) == buf % p * m + v
  {
    Shifted(buf, v, p, m);
    WrapKeepsRemainder(buf * m + v, p * m, k);
  }

  /** Shifting w bits in: whatever wraps out at the top, the low bits are the old ones and then
      the new ones. */
  method ShiftIn(buf: int, v: int, w: nat, ghost held: bits) returns (r: int)
    requires Holds(buf, held) && |held| + w <= 32 && 0 <= v < Pow2(w)
    ensures Holds(r, held + Bin(v, w))
  {
    r := (buf * Pow2(w) + v) % WORD;
    LowBitsStay(buf, v, w, held);
  }

  lemma LowBitsStay(buf: int, v: int, w: nat, held: bits)
    requires Holds(buf, held) && |held| + w <= 32 && 0 <= v < Pow2(w)
    ensures Holds((buf * Pow2(w) + v) % WORD, held + Bin(v, w))
  {
    hide Pow2, Num, Bin;
    PowersAdd(|held|, w);
    PowersAdd(|held| + w, 32 - |held| - w);
    Powers();
    WrappedShift(buf, v, Pow2(|held|), Pow2(w), Pow2(32 - |held| - w));
    NumOfBin(v, w);
    NumAppend(held, Bin(v, w));
  }

  /** Reading w bits above the lowest n: the first of the bits held. The lowest n stay. */
  method TakeOut(buf: int, n: nat, w: nat, ghost held: bits) returns (v: int)
    requires Holds(buf, held) && |held| == n + w
    ensures v == Num(held[..w]) && Holds(buf, held[w..])
  {
    v := buf / Pow2(n) % Pow2(w);
    PowersAdd(n, w);
    TopBits(buf, Pow2(n), Pow2(w));
    assert held == held[..w] + held[w..];
    NumAppend(held[..w], held[w..]);
    Division(Num(held), Pow2(n), Num(held[..w]), Num(held[w..]));
  }

  // ---- The standard --------------------------------------------------------------------------

  /** The bits of a byte string. */
  function Bits(b: seq<byte>): (s: bits)
    ensures |s| == 8 * |b|
  { if b == [] then [] else Bin(b[0], 8) + Bits(b[1..]) }

  /** Groups of six bits, the last one filled up with zeros. */
  function Digits(s: bits): seq<digit>
    decreases |s|
  {
    Powers();
    if s == [] then []
    else if |s| < 6 then [Num(s + Zeros(6 - |s|))]
    else [Num(s[..6])] + Digits(s[6..])
  }

  function Text(d: seq<digit>): (t: string)
    ensures |t| == |d|
    ensures forall i :: 0 <= i < |d| ==> t[i] == Alpha(d[i])
  { if d == [] then [] else [Alpha(d[0])] + Text(d[1..]) }

  /** The canonical text of a byte string. */
  function Encoded(b: seq<byte>): string { Text(Digits(Bits(b))) }

  // ---- url_encode ----------------------------------------------------------------------------

  /** What is out already and the bits still ahead make the whole text. */
  predicate Emitting(b: seq<byte>, out: string, ahead: bits) { out + Text(Digits(ahead)) == Encoded(b) }

  /** The first six bits of what is ahead make the next character. */
  lemma NextCharacter(b: seq<byte>, out: string, held: bits, rest: bits)
    requires |held| >= 6 && Emitting(b, out, held + rest)
    ensures Num(held[..6]) < 64
    ensures Emitting(b, out + [Alpha(Num(held[..6]))], held[6..] + rest)
  {
    Powers();
    assert (held + rest)[..6] == held[..6] && (held + rest)[6..] == held[6..] + rest;
  }

  lemma PaddedCharacter(held: bits, k: nat)
    requires 0 < |held| < 6 && k == 6 - |held|
    ensures 0 <= Num((held + Bin(0, k))[..6]) < 64
    ensures Text(Digits(held)) == [Alpha(Num((held + Bin(0, k))[..6]))]
  {
    Powers();
    NumOfBin(0, k);
    NumIsZero(Bin(0, k));
    assert (held + Bin(0, k))[..6] == held + Zeros(k);
  }

  /** What is left in the register at the end, filled up with zeros. */
  method Flush(buf: int, n: nat, ghost held: bits) returns (tail: string)
    requires n == |held| < 6 && Holds(buf, held)
    ensures tail == Text(Digits(held))
  {
    if n == 0 { return []; }
    PaddedCharacter(held, 6 - n);
    var shifted := ShiftIn(buf, 0, 6 - n, held);
    Powers();
    var v := TakeOut(shifted, 0, 6, held + Bin(0, 6 - n));
    return [Alpha(v)];
  }

  lemma TakeByte(b: seq<byte>, i: nat, held: bits)
    requires i < |b|
    ensures held + Bits(b[i..]) == held + Bin(b[i], 8) + Bits(b[i + 1..])
  { assert b[i..][1..] == b[i + 1..]; }

  method UrlEncode(b: seq<byte>) returns (out: string)
    ensures out == Encoded(b)
  {
    assert 256 == Pow2(8) && 64 == Pow2(6) by { Powers(); }
    out := "";
    var n, buf := 0, 0;
    ghost var held: bits, ahead := [], Bits(b);
    assert b[0..] == b;
    for i := 0 to |b|
      invariant n == |held| < 6 && Holds(buf, held)
      invariant ahead == held + Bits(b[i..])
      invariant Emitting(b, out, ahead)
    {
      TakeByte(b, i, held);
      ghost var rest := Bits(b[i + 1..]);
      buf := ShiftIn(buf, b[i], 8, held);
      n := n + 8;
      held := held + Bin(b[i], 8);
      while n >= 6
        invariant n == |held| && Holds(buf, held)
        invariant ahead == held + rest
        invariant Emitting(b, out, ahead)
      {
        NextCharacter(b, out, held, rest);
        n := n - 6;
        var v := TakeOut(buf, n, 6, held);
        out := out + [Alpha(v)];
        held := held[6..];
        ahead := held + rest;
      }
    }
    assert ahead == held;
    var tail := Flush(buf, n, held);
    out := out + tail;
  }

  // ---- url_decode ----------------------------------------------------------------------------

  datatype Error = InvalidCharacter | InvalidLength | InvalidPaddingBits

  predicate Ignored(c: char) { c == '=' || c == '\n' || c == '\r' }

  function Strip(s: string): string {
    if s == [] then [] else (if Ignored(s[0]) then [] else [s[0]]) + Strip(s[1..])
  }

  predicate InAlphabet(t: string) { forall c :: c in t ==> Value(c) >= 0 }

  /** The bits that a text spells, six to a character. */
  function Spelled(t: string): (s: bits)
    ensures |s| == 6 * |t|
  { if t == [] then [] else Bin(if Value(t[0]) >= 0 then Value(t[0]) else 0, 6) + Spelled(t[1..]) }

  /** The whole bytes in a string of bits, and the bits that are left over. */
  function Bytes(s: bits): seq<byte>
    decreases |s|
  {
    Powers();
    if |s| < 8 then [] else [Num(s[..8])] + Bytes(s[8..])
  }

  function LeftOver(s: bits): (r: bits)
    ensures |r| == |s| % 8
    decreases |s|
  { if |s| < 8 then s else LeftOver(s[8..]) }

  function Read(t: string): Result<seq<byte>, Error> {
    if !InAlphabet(t) then Err(InvalidCharacter)
    else if |t| % 4 == 1 then Err(InvalidLength)
    else if LeftOver(Spelled(t)) != Zeros(|LeftOver(Spelled(t))|) then Err(InvalidPaddingBits)
    else Ok(Bytes(Spelled(t)))
  }

  function Decoded(s: string): Result<seq<byte>, Error> { Read(Strip(s)) }

  lemma StripStep(s: string, i: nat, held: bits)
    requires i < |s|
    ensures Ignored(s[i]) ==> Strip(s[i..]) == Strip(s[i + 1..])
    ensures !Ignored(s[i]) ==> Strip(s[i..]) == [s[i]] + Strip(s[i + 1..])
    ensures !Ignored(s[i]) && Value(s[i]) >= 0 ==>
      held + Spelled(Strip(s[i..])) == held + Bin(Value(s[i]), 6) + Spelled(Strip(s[i + 1..]))
  {
    assert s[i..][1..] == s[i + 1..];
    assert ([s[i]] + Strip(s[i + 1..]))[1..] == Strip(s[i + 1..]);
  }

  /** The first eight bits of what is ahead make the next byte. */
  lemma NextByte(held: bits, rest: bits, out: seq<byte>)
    requires |held| >= 8
    ensures Num(held[..8]) < 256
    ensures out + Bytes(held + rest) == out + [Num(held[..8])] + Bytes(held[8..] + rest)
    ensures LeftOver(held + rest) == LeftOver(held[8..] + rest)
  {
    Powers();
    assert (held + rest)[..8] == held[..8] && (held + rest)[8..] == held[8..] + rest;
  }

  /** What is out already and the bits still ahead are together what t means. */
  predicate Progress(t: string, out: seq<byte>, ahead: bits) {
    out + Bytes(ahead) == Bytes(Spelled(t)) && LeftOver(ahead) == LeftOver(Spelled(t))
  }

  lemma PaddingTest(t: string, out: seq<byte>, buf: int, held: bits)
    requires InAlphabet(t) && Progress(t, out, held) && |held| < 8 && Holds(buf, held)
    ensures |t| % 4 != 1 ==>
      Read(t) == if |held| > 0 && buf % Pow2(|held|) != 0 then Err(InvalidPaddingBits) else Ok(out)
  {
    NumIsZero(held);
    assert out + [] == out;
  }

  method UrlDecode(s: string) returns (r: Result<seq<byte>, Error>)
    ensures r == Decoded(s)
  {
    ghost var t := Strip(s);
    var out: seq<byte> := [];
    var buf, n, ndigits := 0, 0, 0;
    ghost var held: bits, ahead := [], Spelled(t);
    assert s[0..] == s && 256 == Pow2(8) && 64 == Pow2(6) by { Powers(); }
    for i := 0 to |s|
      invariant n == |held| < 8 && Holds(buf, held)
      invariant ndigits + |Strip(s[i..])| == |t|
      invariant InAlphabet(t) <==> InAlphabet(Strip(s[i..]))
      invariant ahead == held + Spelled(Strip(s[i..]))
      invariant Progress(t, out, ahead)
    {
      StripStep(s, i, held);
      if Ignored(s[i]) { continue; }
      var v := Value(s[i]);
      if v < 0 {
        assert s[i] in Strip(s[i..]);
        return Err(InvalidCharacter);
      }
      ghost var rest := Spelled(Strip(s[i + 1..]));
      ndigits := ndigits + 1;
      buf := ShiftIn(buf, v, 6, held);
      n := n + 6;
      held := held + Bin(v, 6);
      if n >= 8 {
        NextByte(held, rest, out);
        n := n - 8;
        var o: byte := TakeOut(buf, n, 8, held);
        out := out + [o];
        held := held[8..];
        ahead := held + rest;
      }
    }
    assert ahead == held;
    PaddingTest(t, out, buf, held);
    if ndigits % 4 == 1 { return Err(InvalidLength); }
    if n > 0 && buf % Pow2(n) != 0 { return Err(InvalidPaddingBits); }
    return Ok(out);
  }

  // ---- Encoding and decoding undo each other -------------------------------------------------

  lemma {:induction false} DigitsSpell(d: seq<digit>)
    ensures InAlphabet(Text(d)) && '.' !in Text(d) && forall c :: c in Text(d) ==> !Ignored(c)
    ensures |d| > 0 ==> Spelled(Text(d)) == Bin(d[0], 6) + Spelled(Text(d[1..]))
  {
    if |d| > 0 {
      AlphabetIsBijective(d[0], 'A');
      DigitsSpell(d[1..]);
      assert Text(d) == [Alpha(d[0])] + Text(d[1..]);
      assert Text(d)[1..] == Text(d[1..]);
    }
  }

  lemma ShortBits(s: bits)
    requires 0 < |s| < 6
    ensures Spelled(Text(Digits(s))) == s + Zeros(6 - |s|)
  {
    var d := Digits(s);
    DigitsSpell(d);
    BinOfNum(s + Zeros(6 - |s|));
    assert d[1..] == [];
  }

  lemma LongBits(s: bits)
    requires |s| >= 6
    ensures Spelled(Text(Digits(s))) == s[..6] + Spelled(Text(Digits(s[6..])))
  {
    var d := Digits(s);
    DigitsSpell(d);
    BinOfNum(s[..6]);
    assert d[1..] == Digits(s[6..]);
  }

  /** The digits of a string of bits spell it, with fewer than six zeros after it. */
  lemma {:induction false} DigitsKeepBits(s: bits) returns (k: nat)
    ensures k < 6 && Spelled(Text(Digits(s))) == s + Zeros(k)
    decreases |s|
  {
    if s == [] {
      k := 0;
    } else if |s| < 6 {
      k := 6 - |s|;
      ShortBits(s);
    } else {
      LongBits(s);
      k := DigitsKeepBits(s[6..]);
      assert s == s[..6] + s[6..];
    }
  }

  lemma FirstByte(b: seq<byte>, r: bits)
    requires b != []
    ensures var s := Bits(b) + r;
      |s| >= 8 && Num(s[..8]) == b[0] && s[8..] == Bits(b[1..]) + r
  {
    var o, t := Bin(b[0], 8), Bits(b[1..]) + r;
    assert Bits(b) + r == o + t;
    assert (o + t)[..8] == o && (o + t)[8..] == t;
    assert Pow2(8) == 256 by { Powers(); }
    NumOfBin(b[0], 8);
  }

  lemma {:induction false} BytesOfBits(b: seq<byte>, r: bits)
    requires |r| < 8
    ensures Bytes(Bits(b) + r) == b && LeftOver(Bits(b) + r) == r
    decreases |b|
  {
    if b == [] {
      assert Bits(b) + r == r;
    } else {
      FirstByte(b, r);
      BytesOfBits(b[1..], r);
      assert b == [b[0]] + b[1..];
    }
  }

  lemma BytesOnce(s: bits)
    requires |s| >= 8
    ensures Bits(Bytes(s)) == s[..8] + Bits(Bytes(s[8..]))
  {
    BinOfNum(s[..8]);
    assert Bytes(s)[1..] == Bytes(s[8..]);
  }

  lemma {:induction false} BitsOfBytes(s: bits)
    ensures Bits(Bytes(s)) + LeftOver(s) == s
    decreases |s|
  {
    if |s| >= 8 {
      BitsOfBytes(s[8..]);
      BytesOnce(s);
      assert s == s[..8] + s[8..];
    } else {
      assert [] + s == s;
    }
  }

  lemma FirstDigit(t: string, s: bits, k: nat)
    requires t != [] && InAlphabet(t) && k < 6 && Spelled(t) == s + Zeros(k)
    ensures |s| < 6 ==> Num(s + Zeros(6 - |s|)) == Value(t[0]) && |t| == 1 && s != []
    ensures |s| >= 6 ==> Num(s[..6]) == Value(t[0]) && Spelled(t[1..]) == s[6..] + Zeros(k)
  {
    Powers();
    NumOfBin(Value(t[0]), 6);
    var z := s + Zeros(k);
    assert z[..6] == Bin(Value(t[0]), 6) && z[6..] == Spelled(t[1..]);
    if |s| < 6 {
      assert z[..6] == s + Zeros(6 - |s|);
    } else {
      assert z[6..] == s[6..] + Zeros(k) && z[..6] == s[..6];
    }
  }

  /** Fewer than six zeros cut off the end: the digits are still those of the text. */
  lemma {:induction false} TextOfDigits(t: string, s: bits, k: nat)
    requires InAlphabet(t) && k < 6 && Spelled(t) == s + Zeros(k)
    ensures Text(Digits(s)) == t
    decreases |t|
  {
    if t != [] {
      AlphabetIsBijective(0, t[0]);
      FirstDigit(t, s, k);
      if |s| < 6 {
        assert t == [t[0]];
      } else {
        TextOfDigits(t[1..], s[6..], k);
        assert t == [t[0]] + t[1..];
      }
    }
  }

  lemma {:induction false} StripsToItself(s: string)
    ensures Strip(s) == s <==> forall c :: c in s ==> !Ignored(c)
    ensures |Strip(s)| <= |s| && forall c :: c in Strip(s) ==> !Ignored(c)
  {
    if s != [] {
      var r := s[1..];
      StripsToItself(r);
      assert s == [s[0]] + r;
      if Strip(s) == s {
        assert s[0] in Strip(s);
        assert Strip(s)[1..] == Strip(r);
      }
    }
  }

  lemma EncodedReads(x: seq<byte>)
    ensures Read(Encoded(x)) == Ok(x)
  {
    var k := DigitsKeepBits(Bits(x));
    DigitsSpell(Digits(Bits(x)));
    BytesOfBits(x, Zeros(k));
    LengthOfSix(|Encoded(x)|, |x|, k);
  }

  lemma LengthOfSix(t: nat, x: nat, k: nat)
    requires 6 * t == 8 * x + k && k < 6
    ensures t % 4 != 1
  {}

  lemma ReadIsEncoded(t: string)
    requires Read(t).Ok?
    ensures t == Encoded(Read(t).value)
  {
    BitsOfBytes(Spelled(t));
    LengthOfRest(|t|);
    TextOfDigits(t, Bits(Read(t).value), |LeftOver(Spelled(t))|);
  }

  lemma LengthOfRest(t: nat)
    requires t % 4 != 1
    ensures 6 * t % 8 < 6
  {}

  /** Exactly the canonical text decodes: with the ignored characters taken out, s decodes to x
      if and only if s is what x encodes to. Every other string is refused. */
  lemma DecodesExactlyTheCanonicalText(s: string, x: seq<byte>)
    ensures Decoded(s) == Ok(x) <==> Strip(s) == Encoded(x)
  {
    EncodedReads(x);
    if Decoded(s) == Ok(x) { ReadIsEncoded(Strip(s)); }
  }

  lemma RoundTrip(b: seq<byte>)
    ensures Decoded(Encoded(b)) == Ok(b) && '.' !in Encoded(b)
  {
    DigitsSpell(Digits(Bits(b)));
    StripsToItself(Encoded(b));
    DecodesExactlyTheCanonicalText(Encoded(b), b);
  }

  /** No malleability: two accepted strings without '=', CR and LF that mean the same bytes are
      the same string, and encoding what was decoded gives that string back. */
  lemma DecodingIsInjective(s: string, t: string)
    requires forall c :: c in s + t ==> !Ignored(c)
    requires Decoded(s).Ok? && Decoded(s) == Decoded(t)
    ensures s == t && s == Encoded(Decoded(s).value)
  {
    forall c | c in s ensures !Ignored(c) { assert c in s + t; }
    forall c | c in t ensures !Ignored(c) { assert c in s + t; }
    StripsToItself(s);
    StripsToItself(t);
    DecodesExactlyTheCanonicalText(s, Decoded(s).value);
    DecodesExactlyTheCanonicalText(t, Decoded(s).value);
  }

  // ---- Characters from bytes -----------------------------------------------------------------

  /** The high bits of a number, and the low ones. */
  lemma BinOfSum(q: nat, m: nat, r: nat, n: nat)
    requires q < Pow2(m) && r < Pow2(n)
    ensures q * Pow2(n) + r >= 0 && Bin(q * Pow2(n) + r, m + n) == Bin(q, m) + Bin(r, n)
  {
    var s := Bin(q, m) + Bin(r, n);
    hide Bin, Num, Pow2;
    NumOfBin(q, m);
    NumOfBin(r, n);
    NumAppend(Bin(q, m), Bin(r, n));
    BinOfNum(s);
  }

  lemma SplitByte(v: byte)
    ensures Bin(v, 8) == Bin(v / 4, 6) + Bin(v % 4, 2)
    ensures Bin(v, 8) == Bin(v / 16, 4) + Bin(v % 16, 4)
    ensures Bin(v, 8) == Bin(v / 64, 2) + Bin(v % 64, 6)
  {
    SmallPowers();
    hide Bin, Pow2;
    BinOfSum(v / 4, 6, v % 4, 2);
    BinOfSum(v / 16, 4, v % 16, 4);
    BinOfSum(v / 64, 2, v % 64, 6);
  }

  lemma SmallPowers()
    ensures Pow2(2) == 4 && Pow2(4) == 16 && Pow2(6) == 64
  { assert Pow2(0) == 1 && Pow2(1) == 2 && Pow2(2) == 4 && Pow2(3) == 8 && Pow2(4) == 16; }

  /** Six bits in front, whole or in two pieces. */
  lemma OneDigit(a: digit, rest: bits)
    ensures Digits(Bin(a, 6) + rest) == [a] + Digits(rest)
  {
    SmallPowers();
    NumOfBin(a, 6);
    var s := Bin(a, 6);
    assert (s + rest)[..6] == s && (s + rest)[6..] == rest;
  }

  lemma TwoPieces(a: nat, m: nat, b: nat, n: nat, rest: bits)
    requires m + n == 6 && a < Pow2(m) && b < Pow2(n)
    ensures 0 <= a * Pow2(n) + b < 64
    ensures Digits(Bin(a, m) + (Bin(b, n) + rest)) == [a * Pow2(n) + b] + Digits(rest)
  {
    hide Bin, Num, Pow2, Digits;
    var s := Bin(a, m) + Bin(b, n);
    BinOfSum(a, m, b, n);
    SmallPowers();
    NumOfBin(a, m);
    NumOfBin(b, n);
    NumAppend(Bin(a, m), Bin(b, n));
    assert Num(s) == a * Pow2(n) + b && 0 <= Num(s) < 64;
    OneDigit(Num(s), rest);
    assert Bin(a, m) + (Bin(b, n) + rest) == s + rest;
  }

  lemma DigitsOfThree(x: byte, y: byte, z: byte, r: bits)
    ensures Digits(Bin(x, 8) + (Bin(y, 8) + (Bin(z, 8) + r))) ==
      [x / 4] + ([x % 4 * 16 + y / 16] + ([y % 16 * 4 + z / 64] + ([z % 64] + Digits(r))))
  {
    hide Bin, Digits, Pow2;
    SplitByte(x);
    SplitByte(y);
    SplitByte(z);
    SmallPowers();
    var r3 := Bin(z % 64, 6) + r;
    var r2 := Bin(y % 16, 4) + (Bin(z / 64, 2) + r3);
    var r1 := Bin(x % 4, 2) + (Bin(y / 16, 4) + r2);
    OneDigit(x / 4, r1);
    TwoPieces(x % 4, 2, y / 16, 4, r2);
    TwoPieces(y % 16, 4, z / 64, 2, r3);
    OneDigit(z % 64, r);
    Regroup(Bin(x / 4, 6), Bin(x % 4, 2), Bin(y / 16, 4), Bin(y % 16, 4), Bin(z / 64, 2), Bin(z % 64, 6), r);
  }

  lemma Regroup(a: bits, b: bits, c: bits, d: bits, e: bits, f: bits, r: bits)
    ensures (a + b) + ((c + d) + ((e + f) + r)) == a + (b + (c + (d + (e + (f + r)))))
  {
    assert (e + f) + r == e + (f + r);
    assert (c + d) + (e + (f + r)) == c + (d + (e + (f + r)));
    assert (a + b) + (c + (d + (e + (f + r)))) == a + (b + (c + (d + (e + (f + r)))));
  }

  lemma TextAppend(d: digit, ds: seq<digit>)
    ensures Text([d] + ds) == [Alpha(d)] + Text(ds)
  { assert ([d] + ds)[1..] == ds; }

  lemma BitsAppend(b: byte, bs: seq<byte>)
    ensures Bits([b] + bs) == Bin(b, 8) + Bits(bs)
  { assert ([b] + bs)[1..] == bs; }

  /** Encoded text holds letters, digits, '-' and '_' alone. */
  lemma EncodedIsUrlSafe(b: seq<byte>)
    ensures forall c :: c in Encoded(b) ==> UrlSafe(c)
  {
    var ds := Digits(Bits(b));
    forall c | c in Encoded(b) ensures UrlSafe(c) {
      var i :| 0 <= i < |ds| && Text(ds)[i] == c;
      DigitsAreOfTheAlphabet(ds[i]);
    }
  }

  /** The bits at the end, filled up. */
  lemma LastDigit(a: nat, m: nat)
    requires 0 < m < 6 && a < Pow2(m)
    ensures 0 <= a * Pow2(6 - m) < 64 && Digits(Bin(a, m)) == [a * Pow2(6 - m)]
  {
    var s, z := Bin(a, m), Zeros(6 - m);
    NumOfBin(a, m);
    NumIsZero(z);
    NumAppend(s, z);
    SmallPowers();
    assert |s + z| == 6;
  }

  lemma DigitsOfOneOrTwo(x: byte, y: byte)
    ensures Digits(Bin(x, 8)) == [x / 4] + [x % 4 * 16]
    ensures Digits(Bin(x, 8) + Bin(y, 8)) == [x / 4] + ([x % 4 * 16 + y / 16] + [y % 16 * 4])
  {
    hide Bin, Digits, Pow2;
    SplitByte(x);
    SplitByte(y);
    SmallPowers();
    var r2 := Bin(y % 16, 4);
    var r1 := Bin(x % 4, 2) + (Bin(y / 16, 4) + r2);
    OneDigit(x / 4, Bin(x % 4, 2));
    LastDigit(x % 4, 2);
    OneDigit(x / 4, r1);
    TwoPieces(x % 4, 2, y / 16, 4, r2);
    LastDigit(y % 16, 4);
    assert (Bin(x / 4, 6) + Bin(x % 4, 2)) + (Bin(y / 16, 4) + r2) == Bin(x / 4, 6) + r1;
  }

  lemma TextOfOne(d: digit)
    ensures Text([d]) == [Alpha(d)]
  {
    TextAppend(d, []);
    assert [d] + [] == [d];
  }

  /** One or two bytes at the end make two or three characters. */
  lemma TheLastBytes(x: byte, y: byte)
    ensures Encoded([]) == "" && Encoded([x]) == [ALPHABET[x / 4], ALPHABET[x % 4 * 16]]
    ensures Encoded([x, y]) == [ALPHABET[x / 4], ALPHABET[x % 4 * 16 + y / 16], ALPHABET[y % 16 * 4]]
  {
    BitsAppend(y, []);
    BitsAppend(x, []);
    BitsAppend(x, [y]);
    assert [x] == [x] + [] && [y] == [y] + [] && [x, y] == [x] + [y];
    assert Bin(x, 8) + [] == Bin(x, 8) && Bin(y, 8) + [] == Bin(y, 8);
    DigitsOfOneOrTwo(x, y);
    hide Bin, Digits, Alpha, Text, ALPHABET, Bits;
    var a, b, c, d := x / 4, x % 4 * 16, x % 4 * 16 + y / 16, y % 16 * 4;
    TextOfOne(b);
    TextAppend(a, [b]);
    TextOfOne(d);
    TextAppend(c, [d]);
    TextAppend(a, [c] + [d]);
    DigitsAreOfTheAlphabet(a);
    DigitsAreOfTheAlphabet(b);
    DigitsAreOfTheAlphabet(c);
    DigitsAreOfTheAlphabet(d);
  }

  /** Three bytes make four characters, told by the arithmetic of section 4 of RFC 4648. */
  lemma ThreeBytesAreFourCharacters(x: byte, y: byte, z: byte, rest: seq<byte>)
    ensures Encoded([x, y, z] + rest) ==
      [ALPHABET[x / 4], ALPHABET[x % 4 * 16 + y / 16], ALPHABET[y % 16 * 4 + z / 64], ALPHABET[z % 64]] + Encoded(rest)
  {
    hide Bin, Digits, Alpha, Text, ALPHABET;
    BitsAppend(z, rest);
    BitsAppend(y, [z] + rest);
    BitsAppend(x, [y] + ([z] + rest));
    assert [x, y, z] + rest == [x] + ([y] + ([z] + rest));
    DigitsOfThree(x, y, z, Bits(rest));
    var ds := Digits(Bits(rest));
    var a, b, c, d := x / 4, x % 4 * 16 + y / 16, y % 16 * 4 + z / 64, z % 64;
    TextAppend(d, ds);
    TextAppend(c, [d] + ds);
    TextAppend(b, [c] + ([d] + ds));
    TextAppend(a, [b] + ([c] + ([d] + ds)));
    DigitsAreOfTheAlphabet(a);
    DigitsAreOfTheAlphabet(b);
    DigitsAreOfTheAlphabet(c);
    DigitsAreOfTheAlphabet(d);
  }
}
