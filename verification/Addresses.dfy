/**
 Addresses as text: local names, `name@host:port`, and the tags of incoming connections (src/remote/client.rs,
 src/remote/server.rs).
 */
module Addresses {
  import opened Words

  const AT: byte := 0x40
  const COLON: byte := 0x3A
  const HASH: byte := 0x23
  const ZERO: byte := 0x30

  // --- Splitting -----------------------------------------------------------------------------------------------------

  lemma WidthOfPrefix(a: seq<byte>, b: seq<byte>)
    requires 0 < Width(a + b) <= |a|
    ensures Width(a) == Width(a + b)
  {
  }

  /** Only the first byte of a character can be below 0x80. */
  lemma AsciiIsNoTail(s: seq<byte>, i: nat)
    requires 0 < i < |s| && s[i] <= 0x7F
    ensures Width(s) <= i
  {
  }

  lemma PrefixExtends(s: seq<byte>, i: nat, w: nat)
    requires 0 < Width(s) == w <= i <= |s|
    requires Utf8(s[w..][..i - w])
    ensures Utf8(s[..i])
  {
    assert s == s[..i] + s[i..];
    WidthOfPrefix(s[..i], s[i..]);
    assert s[..i][w..] == s[w..][..i - w];
  }

  /** Cutting at such a byte cuts between characters. */
  lemma {:induction false} CutAtAscii(s: seq<byte>, i: nat)
    requires Utf8(s) && i < |s| && s[i] <= 0x7F
    ensures Utf8(s[..i]) && Utf8(s[i + 1..])
    decreases |s|
  {
    hide Width;
    var w := Width(s);
    if i == 0 {
      FirstAscii(s);
    } else {
      AsciiIsNoTail(s, i);
      CutAtAscii(s[w..], i - w);
      assert s[w..][i - w + 1..] == s[i + 1..];
      PrefixExtends(s, i, w);
    }
  }

  lemma FirstAscii(s: seq<byte>)
    requires s != [] && s[0] <= 0x7F
    ensures Width(s) == 1
  {
  }

  function Index(s: seq<byte>, b: byte): (i: nat)
    requires b in s
    ensures i < |s| && s[i] == b && b !in s[..i]
  {
    if s[0] == b then 0
    else
      assert s == [s[0]] + s[1..];
      var i := Index(s[1..], b);
      assert s[..i + 1] == [s[0]] + s[1..][..i];
      i + 1
  }

  /** `str::split('@')`. */
  function Parts(s: Text): (parts: seq<Text>)
    ensures |parts| >= 1
    ensures AT in s ==> |parts| >= 2
    decreases |s|
  {
    if AT in s then
      var i := Index(s, AT);
      CutAtAscii(s, i);
      [s[..i]] + Parts(s[i + 1..])
    else
      [s]
  }

  /** `split_address`. */
  function Split(address: Text): (Text, Text) {
    if AT in address then (Parts(address)[0], Parts(address)[1]) else (address, [])
  }

  function Rejoined(parts: seq<Text>): seq<byte>
    requires parts != []
  {
    if |parts| == 1 then parts[0] else parts[0] + [AT] + Rejoined(parts[1..])
  }

  /** The parts are what the address is made of, and no part can be split further. */
  lemma {:induction false} PartsRejoin(s: Text)
    ensures Rejoined(Parts(s)) == s
    ensures forall i :: 0 <= i < |Parts(s)| ==> AT !in Parts(s)[i]
    decreases |s|
  {
    hide Utf8, Index;
    if AT in s {
      var i := Index(s, AT);
      CutAtAscii(s, i);
      PartsRejoin(s[i + 1..]);
      assert Parts(s)[1..] == Parts(s[i + 1..]);
      assert s == s[..i] + [AT] + s[i + 1..];
    }
  }

  lemma JoinIsText(name: Text, host: Text)
    ensures Utf8(name + [AT] + host)
  {
    Ascii([AT]);
    Utf8Concat(name, [AT]);
    Utf8Concat(name + [AT], host);
  }

  /** `format!("{}@{}", name, host)`. */
  function Join(name: Text, host: Text): (t: Text)
    ensures AT in t
  {
    JoinIsText(name, host);
    assert (name + [AT] + host)[|name|] == AT;
    name + [AT] + host
  }

  lemma {:induction false} OnlyIndex(s: seq<byte>, b: byte, k: nat)
    requires k < |s| && s[k] == b && b !in s[..k]
    ensures Index(s, b) == k
  {
    if k > 0 {
      assert s[0] == s[..k][0];
      assert s[1..][..k - 1] == s[..k][1..];
      OnlyIndex(s[1..], b, k - 1);
    }
  }

  lemma IndexInJoin(name: Text, host: Text)
    ensures Index(Join(name, host), AT) == if AT in name then Index(name, AT) else |name|
  {
    hide Utf8, Index;
    var t := Join(name, host);
    if AT in name {
      assert t[..Index(name, AT)] == name[..Index(name, AT)];
      OnlyIndex(t, AT, Index(name, AT));
    } else {
      assert t[..|name|] == name;
      OnlyIndex(t, AT, |name|);
    }
  }

  /** Splitting gives back what was joined exactly when neither half holds an `@` of its own. */
  lemma SplitJoinExactlyWhen(name: Text, host: Text)
    ensures Split(Join(name, host)) == (name, host) <==> AT !in name && AT !in host
  {
    hide Utf8, Join;
    var t := Join(name, host);
    IndexInJoin(name, host);
    PartsRejoin(t);
    if AT !in name {
      JoinParts(name, host);
      CutAtAscii(t, |name|);
      assert Parts(t)[1] == Parts(host)[0];
      PartsRejoin(host);
    }
  }

  /** An address without an `@` is a name only; of one with more than one, what follows the second is dropped. */
  lemma SplitTakesTwo(name: Text, host: Text, more: Text)
    requires AT !in name && AT !in host
    ensures Split(name) == (name, [])
    ensures Split(Join(name, host)) == Split(Join(name, Join(host, more))) == (name, host)
  {
    hide Utf8, Join, Index;
    SplitJoinExactlyWhen(name, host);
    PartsOfJoin(host, more);
    PartsOfJoin(name, Join(host, more));
  }

  lemma PartsOfJoin(name: Text, host: Text)
    requires AT !in name
    ensures Parts(Join(name, host)) == [name] + Parts(host)
  {
    hide Utf8, Join, Index;
    IndexInJoin(name, host);
    JoinParts(name, host);
  }

  lemma JoinParts(name: Text, host: Text)
    ensures Join(name, host)[..|name|] == name && Join(name, host)[|name| + 1..] == host
    ensures |name| < |Join(name, host)| && Join(name, host)[|name|] == AT
  {
  }

  // --- Decimal numbers -----------------------------------------------------------------------------------------------

  predicate Digit(b: byte) {
    ZERO <= b <= ZERO + 9
  }

  /** `format!("{}", n)`. */
  function Digits(n: nat): (d: seq<byte>)
    ensures d != [] && forall i :: 0 <= i < |d| ==> Digit(d[i])
  {
    if n < 10 then [ZERO + n] else Digits(n / 10) + [ZERO + n % 10]
  }

  /** `format!("{:012}", n)`: zeros on the left up to twelve places, more places if the number needs them. */
  function Padded(n: nat): (d: seq<byte>)
    ensures |d| >= 12 && forall i :: 0 <= i < |d| ==> Digit(d[i])
  {
    var d := Digits(n);
    if |d| < 12 then seq(12 - |d|, _ => ZERO) + d else d
  }

  function Value(d: seq<byte>): nat
    requires forall i :: 0 <= i < |d| ==> Digit(d[i])
  {
    if d == [] then 0
    else
      assert Digit(d[|d| - 1]);
      10 * Value(d[..|d| - 1]) + (d[|d| - 1] - ZERO)
  }

  lemma {:induction false} ValueOfDigits(n: nat)
    ensures Value(Digits(n)) == n
  {
    var d := Digits(n);
    if n < 10 {
      assert d[..|d| - 1] == [];
    } else {
      ValueOfDigits(n / 10);
      assert d[..|d| - 1] == Digits(n / 10);
    }
  }

  lemma {:induction false} ZerosInFront(zeros: seq<byte>, d: seq<byte>)
    requires forall i :: 0 <= i < |zeros| ==> zeros[i] == ZERO
    requires forall i :: 0 <= i < |d| ==> Digit(d[i])
    ensures Value(zeros + d) == Value(d)
    decreases |zeros| + |d|
  {
    if d != [] {
      assert (zeros + d)[..|zeros + d| - 1] == zeros + d[..|d| - 1];
      ZerosInFront(zeros, d[..|d| - 1]);
    } else if zeros != [] {
      assert (zeros + d)[..|zeros + d| - 1] == zeros[..|zeros| - 1] + [];
      ZerosInFront(zeros[..|zeros| - 1], []);
    }
  }

  /** Whatever the padding, the number can be read back. */
  lemma ValueOfPadded(n: nat)
    ensures Value(Padded(n)) == n
  {
    hide Value;
    var d := Digits(n);
    ValueOfDigits(n);
    if |d| < 12 {
      ZerosInFront(seq(12 - |d|, _ => ZERO), d);
    }
  }

  /** Twelve places, or as many as the number needs, and zeros in front of what it prints as. */
  lemma PaddedIs(n: nat)
    ensures var d, p := Digits(n), Padded(n);
            && |p| == (if |d| < 12 then 12 else |d|)
            && p[|p| - |d|..] == d && forall i :: 0 <= i < |p| - |d| ==> p[i] == ZERO
  {
  }

  /** A number under ten to the twelfth takes exactly twelve places, and a greater one more. */
  lemma TwelvePlacesExactlyWhen(n: nat)
    ensures |Padded(n)| == 12 <==> n < 1_000_000_000_000
  {
    PlacesOf(n, 12);
    Tens();
  }

  function Ten(k: nat): nat {
    if k == 0 then 1 else 10 * Ten(k - 1)
  }

  lemma Tens()
    ensures Ten(12) == 1_000_000_000_000
  {
    assert Ten(4) == 10 * (10 * (10 * (10 * Ten(0))));
    assert Ten(8) == 10 * (10 * (10 * (10 * Ten(4))));
    assert Ten(12) == 10 * (10 * (10 * (10 * Ten(8))));
  }

  lemma {:induction false} PlacesOf(n: nat, k: nat)
    requires k > 0
    ensures |Digits(n)| <= k <==> n < Ten(k)
  {
    if n >= 10 && k > 1 {
      PlacesOf(n / 10, k - 1);
    } else if k > 1 {
      TenGrows(k);
    } else {
      assert Ten(1) == 10 * Ten(0);
    }
  }

  lemma {:induction false} TenGrows(k: nat)
    requires k > 0
    ensures Ten(k) >= 10
  {
    if k > 1 {
      TenGrows(k - 1);
    }
  }

  /** A number as it may be written: digits, and any number of zeros in front. */
  predicate Numeral(d: seq<byte>) {
    d != [] && forall i :: 0 <= i < |d| ==> Digit(d[i])
  }

  lemma {:induction false} NoLeadingZero(n: nat)
    ensures |Digits(n)| > 1 ==> Digits(n)[0] != ZERO
    ensures Digits(n)[0] == ZERO ==> n == 0
  {
    if n >= 10 {
      NoLeadingZero(n / 10);
      assert Digits(n)[0] == Digits(n / 10)[0];
    }
  }

  /** A numeral is how its number prints exactly when it has no zero in front. */
  lemma {:induction false} PrintsAlikeExactlyWhen(d: seq<byte>)
    requires Numeral(d)
    ensures Digits(Value(d)) == d <==> |d| == 1 || d[0] != ZERO
  {
    var n := |d| - 1;
    assert Digit(d[n]);
    if n == 0 {
      assert d[..0] == [];
    } else {
      NoLeadingZero(Value(d));
      if d[0] != ZERO {
        var rest := d[..n];
        assert rest[0] == d[0];
        PrintsAlikeExactlyWhen(rest);
        FirstDigitCounts(rest);
        assert Value(d) / 10 == Value(rest) && Value(d) % 10 == d[n] - ZERO;
      }
    }
  }

  lemma {:induction false} FirstDigitCounts(d: seq<byte>)
    requires Numeral(d) && d[0] != ZERO
    ensures Value(d) > 0
  {
    var n := |d| - 1;
    assert Digit(d[n]);
    if n == 0 {
      assert d[..0] == [];
    } else {
      assert d[..n][0] == d[0];
      FirstDigitCounts(d[..n]);
    }
  }

  // --- Tags of connections -------------------------------------------------------------------------------------------

  /** `Server::tag`. */
  function ConnectionTag(me: seq<byte>, id: nat): seq<byte> {
    me + [HASH] + Padded(id)
  }

  /** A tag has no `#` after the one that was put in. */
  lemma LastHash(me: seq<byte>, id: nat, i: nat)
    requires i < |ConnectionTag(me, id)|
    ensures ConnectionTag(me, id)[i] == HASH ==> i <= |me|
  {
    hide Padded;
    var d := Padded(id);
    if |me| < i {
      assert ConnectionTag(me, id)[i] == d[i - |me| - 1];
    }
  }

  /** The tag tells both the server and the connection. */
  lemma TagsAreDistinct(me: seq<byte>, id: nat, you: seq<byte>, other: nat)
    ensures ConnectionTag(me, id) == ConnectionTag(you, other) <==> me == you && id == other
  {
    hide Padded, Value;
    var t := ConnectionTag(me, id);
    if t == ConnectionTag(you, other) {
      assert t[|me|] == HASH && t[|you|] == HASH;
      LastHash(me, id, |you|);
      LastHash(you, other, |me|);
      assert t[..|me|] == me && t[..|you|] == you;
      assert t[|me| + 1..] == Padded(id) && t[|you| + 1..] == Padded(other);
      ValueOfPadded(id);
      ValueOfPadded(other);
    }
  }

  // --- Hosts ---------------------------------------------------------------------------------------------------------

  lemma SocketIsText(ip: Text, port: nat)
    ensures Utf8(ip + [COLON] + Digits(port))
  {
    Ascii([COLON]);
    Ascii(Digits(port));
    Utf8Concat(ip, [COLON]);
    Utf8Concat(ip + [COLON], Digits(port));
  }

  /** How a `SocketAddr` prints; `ip` is the printed address, with its brackets if it has them. */
  function Socket(ip: Text, port: nat): (t: Text)
    ensures AT in t <==> AT in ip
  {
    SocketIsText(ip, port);
    var t := ip + [COLON] + Digits(port);
    assert AT in ip ==> AT in t by {
      if AT in ip {
        assert t[Index(ip, AT)] == AT;
      }
    }
    t
  }

  /** A host as it may be written in an address: an IP address, and any numeral for the port. */
  function Written(ip: Text, port: seq<byte>): (t: Text)
    requires Numeral(port)
  {
    WrittenIsText(ip, port);
    ip + [COLON] + port
  }

  lemma WrittenIsText(ip: Text, port: seq<byte>)
    requires Numeral(port)
    ensures Utf8(ip + [COLON] + port)
  {
    Ascii([COLON]);
    forall i | 0 <= i < |port| ensures port[i] <= 0x7F {
      assert Digit(port[i]);
    }
    Ascii(port);
    Utf8Concat(ip, [COLON]);
    Utf8Concat(ip + [COLON], port);
  }

  /** A host is written as it prints exactly when its port has no zero in front. */
  lemma WrittenAsPrintedExactlyWhen(ip: Text, port: seq<byte>)
    requires Numeral(port)
    ensures Written(ip, port) == Socket(ip, Value(port)) <==> |port| == 1 || port[0] != ZERO
  {
    hide Utf8, Value, Digits;
    PrintsAlikeExactlyWhen(port);
    assert Written(ip, port)[|ip| + 1..] == port;
    assert Socket(ip, Value(port))[|ip| + 1..] == Digits(Value(port));
  }

  /** The port can be told from the printed address. */
  lemma PortsAreDistinct(ip: Text, port: nat, other: nat)
    ensures Socket(ip, port) == Socket(ip, other) <==> port == other
  {
    if Socket(ip, port) == Socket(ip, other) {
      assert Socket(ip, port)[|ip| + 1..] == Digits(port);
      assert Socket(ip, other)[|ip| + 1..] == Digits(other);
      ValueOfDigits(port);
      ValueOfDigits(other);
    }
  }
}
