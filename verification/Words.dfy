/** Bytes, Rust's fixed-width integers with their big-endian form, and UTF-8 text. */
module Words {

  type byte = n: nat | n < 256

  type u16 = n: nat | n < 0x1_0000

  type u32 = n: nat | n < 0x1_0000_0000

  type u64 = n: nat | n < 0x1_0000_0000_0000_0000

  // --- Big-endian numbers --------------------------------------------------------------------------------------------

  function Power256(width: nat): nat {
    if width == 0 then 1 else 256 * Power256(width - 1)
  }

  lemma Widths()
    ensures Power256(1) == 0x100 && Power256(2) == 0x1_0000 && Power256(4) == 0x1_0000_0000
    ensures Power256(8) == 0x1_0000_0000_0000_0000
  {
    assert Power256(2) == 256 * Power256(1);
    assert Power256(4) == 256 * (256 * Power256(2));
    assert Power256(6) == 256 * (256 * Power256(4));
    assert Power256(8) == 256 * (256 * Power256(6));
  }

  /** The last `width` bytes of `n`, most significant first. */
  function Put(n: nat, width: nat): (b: seq<byte>)
    ensures |b| == width
  {
    if width == 0 then [] else Put(n / 256, width - 1) + [n % 256]
  }

  function Get(b: seq<byte>): nat {
    if b == [] then 0 else 256 * Get(b[..|b| - 1]) + b[|b| - 1]
  }

  /** Reading what was written gives the number back, if it fits the width. */
  lemma {:induction false} GetPut(n: nat, width: nat)
    requires n < Power256(width)
    ensures Get(Put(n, width)) == n
  {
    if width > 0 {
      var b := Put(n, width);
      assert b[..|b| - 1] == Put(n / 256, width - 1);
      GetPut(n / 256, width - 1);
    }
  }

  lemma {:induction false} GetBound(b: seq<byte>)
    ensures Get(b) < Power256(|b|)
  {
    if b != [] {
      GetBound(b[..|b| - 1]);
    }
  }

  /** Writing what was read gives the bytes back. */
  lemma {:induction false} PutGet(b: seq<byte>)
    ensures Put(Get(b), |b|) == b
  {
    if b != [] {
      PutGet(b[..|b| - 1]);
      var n := Get(b);
      assert n / 256 == Get(b[..|b| - 1]) && n % 256 == b[|b| - 1];
    }
  }

  /** The first byte weighs most. */
  lemma {:induction false} MostSignificantFirst(b: seq<byte>)
    requires b != []
    ensures Get(b) == b[0] * Power256(|b| - 1) + Get(b[1..])
  {
    var n := |b| - 1;
    if n == 0 {
      assert b[..0] == [] && b[1..] == [] && Power256(0) == 1;
    } else {
      var p, g := Power256(n - 1), Get(b[..n][1..]);
      MostSignificantFirst(b[..n]);
      assert b[1..][..n - 1] == b[..n][1..] && b[1..][n - 1] == b[n];
      Weigh(b[0], p, g, b[n]);
      assert Power256(n) == 256 * p;
    }
  }

  lemma Weigh(x: int, p: int, g: int, last: int)
    ensures 256 * (x * p + g) + last == x * (256 * p) + (256 * g + last)
  {
  }

  // --- UTF-8 ---------------------------------------------------------------------------------------------------------

  predicate Tail(b: byte) {
    0x80 <= b <= 0xBF
  }

  /** How many bytes the character at the front takes, or 0 if there is no well-formed one (section 4 of RFC 3629). */
  function Width(s: seq<byte>): (n: nat)
    ensures n <= |s| && n <= 4
  {
    if s == [] then 0
    else if s[0] <= 0x7F then 1
    else if |s| >= 2 && 0xC2 <= s[0] <= 0xDF && Tail(s[1]) then 2
    else if |s| >= 3 && Tail(s[2]) &&
            ((s[0] == 0xE0 && 0xA0 <= s[1] <= 0xBF) || (0xE1 <= s[0] <= 0xEC && Tail(s[1]))
             || (s[0] == 0xED && 0x80 <= s[1] <= 0x9F) || (0xEE <= s[0] <= 0xEF && Tail(s[1]))) then 3
    else if |s| >= 4 && Tail(s[2]) && Tail(s[3]) &&
            ((s[0] == 0xF0 && 0x90 <= s[1] <= 0xBF) || (0xF1 <= s[0] <= 0xF3 && Tail(s[1]))
             || (s[0] == 0xF4 && 0x80 <= s[1] <= 0x8F)) then 4
    else 0
  }

  predicate Utf8(s: seq<byte>)
    decreases |s|
  {
    s == [] || (Width(s) > 0 && Utf8(s[Width(s)..]))
  }

  /** A Rust string: bytes that are valid UTF-8. */
  type Text = s: seq<byte> | Utf8(s)

  lemma WidthExtends(a: seq<byte>, b: seq<byte>)
    requires Width(a) > 0
    ensures Width(a + b) == Width(a)
  {
  }

  lemma {:induction false} Utf8Concat(a: seq<byte>, b: seq<byte>)
    requires Utf8(a) && Utf8(b)
    ensures Utf8(a + b)
    decreases |a|
  {
    if a == [] {
      assert a + b == b;
    } else {
      var w := Width(a);
      WidthExtends(a, b);
      assert (a + b)[w..] == a[w..] + b;
      Utf8Concat(a[w..], b);
    }
  }

  lemma {:induction false} Ascii(s: seq<byte>)
    requires forall i :: 0 <= i < |s| ==> s[i] <= 0x7F
    ensures Utf8(s)
  {
    if s != [] {
      Ascii(s[1..]);
    }
  }

  /** The numbers that stand for characters (section 3 of RFC 3629): no surrogates, and none beyond the last plane. */
  predicate Scalar(c: nat) {
    c < 0xD800 || 0xE000 <= c < 0x11_0000
  }

  /** The bytes of a character. */
  function Utf8Of(c: nat): (b: seq<byte>)
    requires Scalar(c)
    ensures 1 <= |b| <= 4
  {
    if c < 0x80 then [c]
    else if c < 0x800 then [0xC0 + c / 0x40, 0x80 + c % 0x40]
    else if c < 0x1_0000 then [0xE0 + c / 0x1000, 0x80 + c / 0x40 % 0x40, 0x80 + c % 0x40]
    else [0xF0 + c / 0x4_0000, 0x80 + c / 0x1000 % 0x40, 0x80 + c / 0x40 % 0x40, 0x80 + c % 0x40]
  }

  /** Exactly the bytes of some character are taken off the front. */
  lemma WidthExactlyWhen(s: seq<byte>, w: nat)
    requires 0 < w <= |s|
    ensures Width(s) == w <==> exists c: nat :: Scalar(c) && Utf8Of(c) == s[..w]
  {
    if Width(s) == w {
      var c := CharacterAt(s);
    }
    forall c: nat | Scalar(c) && Utf8Of(c) == s[..w] ensures Width(s) == w {
      WidthOfCharacter(c, s[w..]);
      assert s == s[..w] + s[w..];
    }
  }

  lemma WidthOfCharacter(c: nat, rest: seq<byte>)
    requires Scalar(c)
    ensures Width(Utf8Of(c) + rest) == |Utf8Of(c)|
  {
  }

  lemma CharacterAt(s: seq<byte>) returns (c: nat)
    requires Width(s) > 0
    ensures Scalar(c) && Utf8Of(c) == s[..Width(s)]
  {
    match Width(s)
    case 1 => c := s[0];
    case 2 => c := OfTwo(s[0], s[1]);
    case 3 => c := OfThree(s[0], s[1], s[2]);
    case _ => c := OfFour(s[0], s[1], s[2], s[3]);
  }

  lemma OfTwo(b0: int, b1: int) returns (c: nat)
    requires 0xC2 <= b0 <= 0xDF && 0x80 <= b1 <= 0xBF
    ensures Scalar(c) && Utf8Of(c) == [b0, b1]
  {
    c := (b0 - 0xC0) * 0x40 + (b1 - 0x80);
  }

  lemma OfThree(b0: int, b1: int, b2: int) returns (c: nat)
    requires 0xE0 <= b0 <= 0xEF && 0x80 <= b1 <= 0xBF && 0x80 <= b2 <= 0xBF
    requires (b0 == 0xE0 ==> b1 >= 0xA0) && (b0 == 0xED ==> b1 <= 0x9F)
    ensures Scalar(c) && Utf8Of(c) == [b0, b1, b2]
  {
    var high := (b0 - 0xE0) * 0x40 + (b1 - 0x80);
    c := high * 0x40 + (b2 - 0x80);
    assert c / 0x40 == high && c / 0x1000 == high / 0x40;
  }

  lemma OfFour(b0: int, b1: int, b2: int, b3: int) returns (c: nat)
    requires 0xF0 <= b0 <= 0xF4 && 0x80 <= b1 <= 0xBF && 0x80 <= b2 <= 0xBF && 0x80 <= b3 <= 0xBF
    requires (b0 == 0xF0 ==> b1 >= 0x90) && (b0 == 0xF4 ==> b1 <= 0x8F)
    ensures Scalar(c) && Utf8Of(c) == [b0, b1, b2, b3]
  {
    var top := (b0 - 0xF0) * 0x40 + (b1 - 0x80);
    var high := top * 0x40 + (b2 - 0x80);
    c := high * 0x40 + (b3 - 0x80);
    assert c / 0x40 == high && c / 0x1000 == high / 0x40 == top && c / 0x4_0000 == top / 0x40;
  }

  function Utf8All(cs: seq<nat>): seq<byte>
    requires forall i :: 0 <= i < |cs| ==> Scalar(cs[i])
  {
    if cs == [] then [] else Utf8Of(cs[0]) + Utf8All(cs[1..])
  }

  predicate Characters(cs: seq<nat>, s: seq<byte>) {
    (forall i :: 0 <= i < |cs| ==> Scalar(cs[i])) && Utf8All(cs) == s
  }

  /** Text is exactly what some characters are written as, one after the other. */
  lemma TextExactlyWhen(s: seq<byte>)
    ensures Utf8(s) <==> exists cs :: Characters(cs, s)
  {
    if Utf8(s) {
      var cs := CharactersOf(s);
    }
    forall cs | Characters(cs, s) ensures Utf8(s) {
      CharactersAreText(cs);
    }
  }

  lemma {:induction false} CharactersOf(s: seq<byte>) returns (cs: seq<nat>)
    requires Utf8(s)
    ensures Characters(cs, s)
    decreases |s|
  {
    hide Width;
    if s == [] {
      cs := [];
    } else {
      var w := Width(s);
      var c := CharacterAt(s);
      var more := CharactersOf(s[w..]);
      cs := [c] + more;
      assert cs[1..] == more && s == s[..w] + s[w..];
    }
  }

  lemma {:induction false} CharactersAreText(cs: seq<nat>)
    requires forall i :: 0 <= i < |cs| ==> Scalar(cs[i])
    ensures Utf8(Utf8All(cs))
  {
    hide Width, Utf8Of;
    if cs != [] {
      var rest := Utf8All(cs[1..]);
      CharactersAreText(cs[1..]);
      WidthOfCharacter(cs[0], rest);
      assert (Utf8Of(cs[0]) + rest)[|Utf8Of(cs[0])|..] == rest;
    }
  }
}
