/** The bytes of the membership messages (examples/gossip.rs). */
module GossipCodec {
  import opened Wrappers
  import opened Words
  import opened Buffers
  import opened GossipMessages

  type Pair = (Text, u64)

  type Message = Content<Text, u64>

  /** A length is cut down to its last byte, as `as u8` does. */
  function EncodedText(t: Text): seq<byte> {
    Put(|t| % 256, 1) + t
  }

  function EncodedPair(p: Pair): seq<byte> {
    EncodedText(p.0) + Put(p.1, 8)
  }

  function EncodedPairs(ps: seq<Pair>): seq<byte> {
    if ps == [] then [] else EncodedPair(ps[0]) + EncodedPairs(ps[1..])
  }

  /** `From<Message> for Vec<u8>`. */
  function Encoded(m: Message): seq<byte> {
    match m
    case Ping(t, b) => Put(1, 1) + EncodedPair((t, b))
    case Pong(t, b) => Put(2, 1) + EncodedPair((t, b))
    case Spread(ps) => Put(3, 1) + Put(|ps| % 256, 1) + EncodedPairs(ps)
    case Stop => Put(4, 1)
    case _ => Put(0, 1)
  }

  /** A pair and the bytes behind it; `None` stands for a panic, on too few bytes or on invalid UTF-8. */
  function DecodedPair(b: seq<byte>): (r: Option<(Pair, seq<byte>)>)
    ensures r.Some? ==> |r.value.1| < |b| && |r.value.0.0| < 256
  {
    var n := Number(b, 1);
    if n.None? || |b| < 1 + n.value then None
    else
      Widths();
      var text, rest := b[1..1 + n.value], b[1 + n.value..];
      var beat := Number(rest, 8);
      if beat.None? || !Utf8(text) then None else Some(((text, beat.value), rest[8..]))
  }

  function DecodedPairs(b: seq<byte>, k: nat): (r: Option<(seq<Pair>, seq<byte>)>)
    ensures r.Some? ==> |r.value.0| == k && forall i :: 0 <= i < k ==> |r.value.0[i].0| < 256
  {
    if k == 0 then Some(([], b))
    else
      var first := DecodedPair(b);
      if first.None? then None
      else
        var others := DecodedPairs(first.value.1, k - 1);
        if others.None? then None else Some(([first.value.0] + others.value.0, others.value.1))
  }

  /** `From<Vec<u8>> for Message`. */
  function Decoded(b: seq<byte>): Option<Message> {
    var op := Number(b, 1);
    if op.None? then None
    else
      match op.value
      case 1 => (var p := DecodedPair(b[1..]); if p.None? then None else Some(Ping(p.value.0.0, p.value.0.1)))
      case 2 => (var p := DecodedPair(b[1..]); if p.None? then None else Some(Pong(p.value.0.0, p.value.0.1)))
      case 3 =>
        (var k := Number(b[1..], 1);
         if k.None? then None
         else var ps := DecodedPairs(b[2..], k.value); if ps.None? then None else Some(Spread(ps.value.0)))
      case 4 => Some(Stop)
      case _ => Some(Tick)
  }

  // --- The loops of the codec ----------------------------------------------------------------------------------------

  method WriteText(buf: Writer, t: Text)
    modifies buf
    ensures buf.bytes == old(buf.bytes) + EncodedText(t)
  {
    buf.PutNumber(|t| % 256, 1);
    buf.PutSlice(t);
  }

  method WritePair(buf: Writer, p: Pair)
    modifies buf
    ensures buf.bytes == old(buf.bytes) + EncodedPair(p)
  {
    hide Put, EncodedText;
    WriteText(buf, p.0);
    buf.PutNumber(p.1, 8);
  }

  lemma {:induction false} PairsAppend(ps: seq<Pair>, p: Pair)
    ensures EncodedPairs(ps + [p]) == EncodedPairs(ps) + EncodedPair(p)
  {
    if ps == [] {
      assert ps + [p] == [p];
    } else {
      assert (ps + [p])[1..] == ps[1..] + [p];
      PairsAppend(ps[1..], p);
    }
  }

  method Encode(m: Message) returns (b: seq<byte>)
    ensures b == Encoded(m)
  {
    hide Put, EncodedPair;
    var buf := new Writer();
    match m {
      case Ping(t, beat) =>
        buf.PutNumber(1, 1);
        WritePair(buf, (t, beat));
      case Pong(t, beat) =>
        buf.PutNumber(2, 1);
        WritePair(buf, (t, beat));
      case Spread(ps) =>
        buf.PutNumber(3, 1);
        buf.PutNumber(|ps| % 256, 1);
        for i := 0 to |ps|
          invariant buf.bytes == Put(3, 1) + Put(|ps| % 256, 1) + EncodedPairs(ps[..i])
        {
          assert ps[..i + 1] == ps[..i] + [ps[i]];
          PairsAppend(ps[..i], ps[i]);
          WritePair(buf, ps[i]);
        }
        assert ps[..|ps|] == ps;
      case Stop => buf.PutNumber(4, 1);
      case _ => buf.PutNumber(0, 1);
    }
    b := buf.bytes;
  }

  method ReadPair(buf: Reader) returns (p: Option<Pair>)
    modifies buf
    ensures p.Some? <==> DecodedPair(old(buf.bytes)).Some?
    ensures p.Some? ==> DecodedPair(old(buf.bytes)) == Some((p.value, buf.bytes))
  {
    hide Get;
    Widths();
    ghost var b := buf.bytes;
    var n := buf.GetNumber(1);
    if n.None? {
      return None;
    }
    if 1 + n.value <= |b| {
      assert b[1..][..n.value] == b[1..1 + n.value];
      assert b[1..][n.value..] == b[1 + n.value..];
    }
    var text := buf.GetSlice(n.value);
    if text.None? {
      return None;
    }
    var beat := buf.GetNumber(8);
    if beat.None? || !Utf8(text.value) {
      return None;
    }
    p := Some((text.value, beat.value));
  }

  /** `pairs` after `done`, if any more could be read. */
  function Following(done: seq<Pair>, more: Option<(seq<Pair>, seq<byte>)>): Option<seq<Pair>> {
    if more.None? then None else Some(done + more.value.0)
  }

  method ReadPairs(buf: Reader, k: nat) returns (ps: Option<seq<Pair>>)
    modifies buf
    ensures ps == Following([], DecodedPairs(old(buf.bytes), k))
  {
    hide DecodedPair;
    var done := [];
    for i := 0 to k
      invariant Following([], DecodedPairs(old(buf.bytes), k)) == Following(done, DecodedPairs(buf.bytes, k - i))
    {
      ghost var sofar, b := done, buf.bytes;
      var p := ReadPair(buf);
      if p.None? {
        return None;
      }
      done := done + [p.value];
      assert DecodedPairs(b, k - i).Some? ==>
          sofar + ([p.value] + DecodedPairs(buf.bytes, k - i - 1).value.0)
            == done + DecodedPairs(buf.bytes, k - i - 1).value.0;
    }
    assert done + [] == done;
    ps := Some(done);
  }

  method Decode(b: seq<byte>) returns (m: Option<Message>)
    ensures m == Decoded(b)
  {
    hide DecodedPair, DecodedPairs, Get;
    var buf := new Reader(b);
    var op := buf.GetNumber(1);
    if op.None? {
      return None;
    }
    match op.value {
      case 1 =>
        var p := ReadPair(buf);
        return if p.None? then None else Some(Ping(p.value.0, p.value.1));
      case 2 =>
        var p := ReadPair(buf);
        return if p.None? then None else Some(Pong(p.value.0, p.value.1));
      case 3 =>
        var k := buf.GetNumber(1);
        if k.None? {
          return None;
        }
        assert b[1..][1..] == b[2..];
        var ps := ReadPairs(buf, k.value);
        if ps.None? {
          return None;
        }
        ghost var pairs := DecodedPairs(b[2..], k.value).value.0;
        assert [] + pairs == pairs;
        return Some(Spread(ps.value));
      case 4 => return Some(Stop);
      case _ => return Some(Tick);
    }
  }

  // --- Round trip ----------------------------------------------------------------------------------------------------

  /** What the lengths in one byte leave room for. */
  predicate Fits(m: Message) {
    match m
    case Ping(t, _) => |t| <= 255
    case Pong(t, _) => |t| <= 255
    case Spread(ps) => |ps| <= 255 && forall i :: 0 <= i < |ps| ==> |ps[i].0| <= 255
    case Stop => true
    case Tick => true
    case Init(_, _, _, _, _) => false
  }

  lemma DecodePair(p: Pair, rest: seq<byte>)
    requires |p.0| <= 255
    ensures DecodedPair(EncodedPair(p) + rest) == Some((p, rest))
  {
    hide Put, Number, Utf8;
    var n, b := |p.0|, EncodedPair(p) + rest;
    Widths();
    assert b == Put(n, 1) + (p.0 + (Put(p.1, 8) + rest));
    NumberFirst(n, 1, p.0 + (Put(p.1, 8) + rest));
    assert b[1..1 + n] == b[1..][..n] == p.0;
    assert b[1 + n..] == b[1..][n..] == Put(p.1, 8) + rest;
    NumberFirst(p.1, 8, rest);
  }

  lemma {:induction false} DecodePairs(ps: seq<Pair>, rest: seq<byte>)
    requires forall i :: 0 <= i < |ps| ==> |ps[i].0| <= 255
    ensures DecodedPairs(EncodedPairs(ps) + rest, |ps|) == Some((ps, rest))
  {
    if ps == [] {
      assert EncodedPairs(ps) + rest == rest;
    } else {
      hide EncodedPair, DecodedPair;
      var more := EncodedPairs(ps[1..]) + rest;
      assert EncodedPairs(ps) + rest == EncodedPair(ps[0]) + more;
      DecodePair(ps[0], more);
      DecodePairs(ps[1..], rest);
      assert [ps[0]] + ps[1..] == ps;
    }
  }

  lemma OpFirst(op: nat, rest: seq<byte>)
    requires op < 256
    ensures Number(Put(op, 1) + rest, 1) == Some(op) && (Put(op, 1) + rest)[1..] == rest
  {
    Widths();
    NumberFirst(op, 1, rest);
  }

  lemma DecodeGossip(ps: seq<Pair>, rest: seq<byte>)
    requires Fits(Spread(ps))
    ensures Decoded(Encoded(Spread(ps)) + rest) == Some(Spread(ps))
  {
    hide Put, Number, EncodedPairs, DecodedPairs, DecodedPair;
    var b, body := Encoded(Spread(ps)) + rest, EncodedPairs(ps) + rest;
    DecodePairs(ps, rest);
    OpFirst(|ps|, body);
    OpFirst(3, Put(|ps|, 1) + body);
    assert b == Put(3, 1) + (Put(|ps|, 1) + body);
    assert b[2..] == b[1..][1..];
  }

  lemma DecodePing(op: nat, p: Pair, rest: seq<byte>)
    requires |p.0| <= 255 && op < 256
    ensures var b := Put(op, 1) + EncodedPair(p) + rest;
            Number(b, 1) == Some(op) && DecodedPair(b[1..]) == Some((p, rest))
  {
    hide EncodedPair, DecodedPair;
    DecodePair(p, rest);
    OpFirst(op, EncodedPair(p) + rest);
    assert Put(op, 1) + EncodedPair(p) + rest == Put(op, 1) + (EncodedPair(p) + rest);
  }

  /** Decoding undoes encoding, for every message that fits, whatever follows it. */
  lemma DecodeEncoded(m: Message, rest: seq<byte>)
    requires Fits(m)
    ensures Decoded(Encoded(m) + rest) == Some(m)
  {
    hide Put, Number, EncodedPair, DecodedPair, EncodedPairs, DecodedPairs;
    match m
    case Ping(t, b) => DecodePing(1, (t, b), rest);
    case Pong(t, b) => DecodePing(2, (t, b), rest);
    case Spread(ps) => DecodeGossip(ps, rest);
    case Stop => OpFirst(4, rest);
    case Tick => OpFirst(0, rest);
  }

  /** Whatever is decoded fits, so what does not fit cannot come back. */
  lemma DecodedFits(b: seq<byte>)
    requires Decoded(b).Some?
    ensures Fits(Decoded(b).value)
  {
    Widths();
  }

  /** A message survives its encoding exactly when its lengths fit into a byte and it is not an Init. */
  lemma RoundTripExactlyWhenFits(m: Message)
    ensures Decoded(Encoded(m)) == Some(m) <==> Fits(m)
  {
    hide Decoded, Encoded, Fits;
    if Fits(m) {
      DecodeEncoded(m, []);
      assert Encoded(m) + [] == Encoded(m);
    }
    if Decoded(Encoded(m)) == Some(m) {
      DecodedFits(Encoded(m));
    }
  }

  /** Of two messages that fit, neither encoding is the beginning of the other. */
  lemma NoPrefix(m: Message, m': Message)
    requires Fits(m) && Fits(m') && Encoded(m) <= Encoded(m')
    ensures m == m'
  {
    hide Decoded, Encoded, Fits;
    var rest := Encoded(m')[|Encoded(m)|..];
    assert Encoded(m') == Encoded(m) + rest;
    DecodeEncoded(m, rest);
    DecodeEncoded(m', []);
    assert Encoded(m') + [] == Encoded(m');
  }

  // --- Where everything is -------------------------------------------------------------------------------------------

  lemma OneByte(n: nat)
    requires n < 256
    ensures Put(n, 1) == [n]
  {
    assert Put(n / 256, 0) == [];
  }

  /** A name and a beat: the length of the name in one byte, the name, and the beat in eight. */
  lemma PairLayout(p: Pair)
    ensures var b := EncodedPair(p);
            && |b| == 9 + |p.0| && b[0] == |p.0| % 256 && b[1..1 + |p.0|] == p.0 && Get(b[1 + |p.0|..]) == p.1
  {
    hide Put, Get, Utf8;
    OneByte(|p.0| % 256);
    Widths();
    GetPut(p.1, 8);
    assert EncodedPair(p)[1 + |p.0|..] == Put(p.1, 8);
  }

  function PairsSize(ps: seq<Pair>): nat {
    if ps == [] then 0 else PairsSize(ps[..|ps| - 1]) + 9 + |ps[|ps| - 1].0|
  }

  lemma {:induction false} PairsSizeIs(ps: seq<Pair>)
    ensures |EncodedPairs(ps)| == PairsSize(ps)
  {
    hide EncodedPair;
    if ps != [] {
      var k := |ps| - 1;
      PairsSizeIs(ps[..k]);
      PairLayout(ps[k]);
      PairsAppend(ps[..k], ps[k]);
      assert ps[..k] + [ps[k]] == ps;
    }
  }

  lemma {:induction false} PairsPrefix(ps: seq<Pair>, n: nat)
    requires n <= |ps|
    ensures EncodedPairs(ps[..n]) <= EncodedPairs(ps)
  {
    hide EncodedPair, EncodedPairs;
    if n < |ps| {
      var k := |ps| - 1;
      PairsPrefix(ps[..k], n);
      PairsAppend(ps[..k], ps[k]);
      assert ps[..k] + [ps[k]] == ps && ps[..k][..n] == ps[..n];
    } else {
      assert ps[..n] == ps;
    }
  }

  /** Pairs follow each other in order and without a gap. */
  lemma PairsLayout(ps: seq<Pair>, i: nat)
    requires i < |ps|
    ensures |EncodedPairs(ps)| == PairsSize(ps)
    ensures var from, to := PairsSize(ps[..i]), PairsSize(ps[..i + 1]);
            from <= to <= |EncodedPairs(ps)| && EncodedPairs(ps)[from..to] == EncodedPair(ps[i])
  {
    hide EncodedPair, EncodedPairs, PairsSize;
    var first, next := EncodedPairs(ps[..i]), EncodedPairs(ps[..i + 1]);
    PairsSizeIs(ps);
    PairsSizeIs(ps[..i]);
    PairsSizeIs(ps[..i + 1]);
    PairsPrefix(ps, i + 1);
    PairsAppend(ps[..i], ps[i]);
    assert ps[..i] + [ps[i]] == ps[..i + 1];
    assert EncodedPairs(ps)[..|next|] == next == first + EncodedPair(ps[i]);
  }

  /** The kind of the message, then its pair, or the number of its pairs and the pairs. */
  lemma Layout(m: Message)
    ensures var b := Encoded(m);
            match m
            case Ping(t, beat) => b == [1] + EncodedPair((t, beat))
            case Pong(t, beat) => b == [2] + EncodedPair((t, beat))
            case Spread(ps) => b == [3, |ps| % 256] + EncodedPairs(ps)
            case Stop => b == [4]
            case _ => b == [0]
  {
    hide Put, EncodedPair, EncodedPairs;
    forall n | 0 <= n < 256 ensures Put(n, 1) == [n] {
      OneByte(n);
    }
  }

  // --- Bytes that are no message -------------------------------------------------------------------------------------

  lemma FirstByte(b: seq<byte>)
    requires b != []
    ensures Number(b, 1) == Some(b[0])
  {
    assert b[..1] == [b[0]];
    assert [b[0]][..0] == [];
    assert Get([b[0]]) == b[0];
  }

  /** An unknown first byte is read as a Tick, whatever follows. */
  lemma UnknownIsTick(b: seq<byte>)
    requires b != [] && (b[0] == 0 || b[0] > 4)
    ensures Decoded(b) == Some(Content.Tick)
  {
    hide Get;
    FirstByte(b);
  }

  lemma CutPair(p: Pair, k: nat)
    requires |p.0| <= 255 && k < |EncodedPair(p)|
    ensures DecodedPair(EncodedPair(p)[..k]) == None
  {
    hide Put, Get, Utf8, EncodedPair;
    PairLayout(p);
    var b := EncodedPair(p)[..k];
    if k > 0 {
      FirstByte(b);
    }
  }

  lemma {:induction false} CutPairs(ps: seq<Pair>, k: nat)
    requires (forall i :: 0 <= i < |ps| ==> |ps[i].0| <= 255) && k < |EncodedPairs(ps)|
    ensures DecodedPairs(EncodedPairs(ps)[..k], |ps|) == None
  {
    hide EncodedPair, DecodedPair;
    var first, b := EncodedPair(ps[0]), EncodedPairs(ps)[..k];
    if k < |first| {
      assert b == first[..k];
      CutPair(ps[0], k);
    } else {
      var rest := EncodedPairs(ps[1..])[..k - |first|];
      assert b == first + rest;
      DecodePair(ps[0], rest);
      CutPairs(ps[1..], k - |first|);
    }
  }

  /** A message that is cut short anywhere does not decode: reading it panics. */
  lemma CutShort(m: Message, k: nat)
    requires Fits(m) && k < |Encoded(m)|
    ensures Decoded(Encoded(m)[..k]) == None
  {
    hide Put, Get, EncodedPair, EncodedPairs, DecodedPair, DecodedPairs, Encoded;
    Layout(m);
    var b := Encoded(m)[..k];
    if k > 0 {
      FirstByte(b);
      match m
      case Ping(t, beat) => CutOne((t, beat), k, b);
      case Pong(t, beat) => CutOne((t, beat), k, b);
      case Spread(ps) => CutMany(ps, k, b);
      case _ =>
    }
  }

  lemma CutOne(p: Pair, k: nat, b: seq<byte>)
    requires |p.0| <= 255 && b != [] && 0 < k <= |EncodedPair(p)| && b[1..] == EncodedPair(p)[..k - 1]
    ensures DecodedPair(b[1..]) == None
  {
    hide DecodedPair, EncodedPair;
    CutPair(p, k - 1);
  }

  lemma CutMany(ps: seq<Pair>, k: nat, b: seq<byte>)
    requires |ps| <= 255 && forall i :: 0 <= i < |ps| ==> |ps[i].0| <= 255
    requires 0 < k < 2 + |EncodedPairs(ps)| && b == ([3, |ps| % 256] + EncodedPairs(ps))[..k]
    ensures k > 1 ==> Number(b[1..], 1) == Some(|ps|) && DecodedPairs(b[2..], |ps|) == None
    ensures k == 1 ==> Number(b[1..], 1) == None
  {
    hide DecodedPairs, EncodedPairs, Get;
    if k > 1 {
      FirstByte(b[1..]);
      assert b[2..] == EncodedPairs(ps)[..k - 2];
      CutPairs(ps, k - 2);
    }
  }
}
