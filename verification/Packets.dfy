/**
 The wire format between two runtimes, and what repeated parsing makes of a buffer (src/remote/packet.rs,
 src/remote/server.rs).
 */
module Packets {
  import opened Wrappers
  import opened Words
  import opened Buffers

  datatype Packet = Packet(to: Text, from: Text, payload: seq<byte>, port: u16)

  const HEADER: nat := 14

  /** `PACKET_SIZE_LIMIT`. */
  const LIMIT: nat := 4096 + 12

  function Size(p: Packet): nat {
    HEADER + |p.to| + |p.from| + |p.payload|
  }

  /** Lengths are cut down to 32 bits, as `as u32` does. */
  function Header(p: Packet): seq<byte> {
    Put(|p.to| % 0x1_0000_0000, 4) + Put(|p.from| % 0x1_0000_0000, 4) + Put(|p.payload| % 0x1_0000_0000, 4)
    + Put(p.port, 2)
  }

  /** `Packet::to_bytes`. */
  function Encoded(p: Packet): (b: seq<byte>)
    ensures |b| == Size(p)
  {
    Header(p) + p.to + p.from + p.payload
  }

  method ToBytes(p: Packet) returns (b: seq<byte>)
    ensures b == Encoded(p)
  {
    hide Put;
    var bytes := new Writer();
    bytes.PutNumber(|p.to| % 0x1_0000_0000, 4);
    bytes.PutNumber(|p.from| % 0x1_0000_0000, 4);
    bytes.PutNumber(|p.payload| % 0x1_0000_0000, 4);
    bytes.PutNumber(p.port, 2);
    bytes.PutSlice(p.to);
    bytes.PutSlice(p.from);
    bytes.PutSlice(p.payload);
    b := bytes.bytes;
  }

  // --- Reading -------------------------------------------------------------------------------------------------------

  /** `Ok(None)`, `Err(())`, `Ok(Some(packet))`, and the panic of an `unwrap`. */
  datatype Outcome = Nothing | TooLong | Got(packet: Packet) | Panic

  /**
   A `ByteStream`: a buffer with a read cursor.  `len` counts what has not been pulled, reading moves the cursor, and
   `pull` drops what was read.
   */
  datatype Stream = Stream(data: seq<byte>, cursor: nat)

  /** `Packet::from_bytes` on a stream: the outcome and what is left of the stream. */
  function Parsed(s: Stream, limit: nat): (r: (Outcome, Stream))
    requires s.cursor <= |s.data|
    ensures r.0.Got? ==> |r.1.data| < |s.data| && r.1.cursor == 0
  {
    if |s.data| <= HEADER then (Nothing, s)
    else if |s.data| - s.cursor < HEADER then (Panic, s)
    else
      var h := s.data[s.cursor..];
      var to, from, payload, port := Get(h[..4]), Get(h[4..8]), Get(h[8..12]), Get(h[12..14]);
      var total, read := HEADER + to + from + payload, s.cursor + HEADER;
      if total > limit then (TooLong, s.(cursor := read))
      else if |s.data| < total then (Nothing, s.(cursor := read))
      else if |s.data| - s.cursor < total then (Panic, s)
      else
        var a, b := s.data[read..read + to], s.data[read + to..read + to + from];
        var c := s.data[read + to + from..s.cursor + total];
        GetBound(h[12..14]);
        Widths();
        if !Utf8(a) || !Utf8(b) then (Panic, s)
        else (Got(Packet(a, b, c, port)), Stream(s.data[s.cursor + total..], 0))
  }

  class ByteStream {
    var data: seq<byte>
    var cursor: nat

    function View(): Stream
      reads this
    {
      Stream(data, cursor)
    }

    constructor (data: seq<byte>)
      ensures View() == Stream(data, 0)
    {
      this.data, cursor := data, 0;
    }

    method Put(b: seq<byte>)
      modifies this`data
      ensures data == old(data) + b
    {
      data := data + b;
    }

    /** `get`, and the fixed-width reads: the next bytes, if there are so many. */
    method Take(n: nat) returns (b: Option<seq<byte>>)
      requires cursor <= |data|
      modifies this`cursor
      ensures b.Some? <==> old(cursor) + n <= |data|
      ensures b.Some? ==> b.value == data[old(cursor)..old(cursor) + n] && cursor == old(cursor) + n
      ensures b.None? ==> cursor == old(cursor)
    {
      if cursor + n > |data| {
        return None;
      }
      b := Some(data[cursor..cursor + n]);
      cursor := cursor + n;
    }

    method Pull()
      requires cursor <= |data|
      modifies this
      ensures data == old(data)[old(cursor)..] && cursor == 0
    {
      data, cursor := data[cursor..], 0;
    }

    method TakeNumber(width: nat) returns (n: nat)
      requires cursor + width <= |data|
      modifies this`cursor
      ensures n == Get(data[old(cursor)..old(cursor) + width]) && cursor == old(cursor) + width
    {
      var b := Take(width);
      n := Get(b.value);
    }

    method FromBytes(limit: nat) returns (r: Outcome)
      requires cursor <= |data|
      modifies this
      ensures r == Parsed(old(View()), limit).0
      ensures r != Panic ==> View() == Parsed(old(View()), limit).1
      ensures cursor <= |data|
    {
      hide Get, Utf8, Width, Power256;
      ghost var start, h := cursor, data[cursor..];
      if |data| <= HEADER {
        return Nothing;
      }
      if |data| - cursor < HEADER {
        return Panic;
      }
      HeaderSlices(data, cursor);
      var toLen := TakeNumber(4);
      var fromLen := TakeNumber(4);
      var payloadLen := TakeNumber(4);
      var port := TakeNumber(2);
      var total := HEADER + toLen + fromLen + payloadLen;
      if total > limit {
        return TooLong;
      }
      if |data| < total {
        return Nothing;
      }
      if |data| - (cursor - HEADER) < total {
        return Panic;
      }
      var to := Take(toLen);
      var from := Take(fromLen);
      var payload := Take(payloadLen);
      if !Utf8(to.value) || !Utf8(from.value) {
        return Panic;
      }
      Pull();
      GetBound(h[12..14]);
      Widths();
      r := Got(Packet(to.value, from.value, payload.value, port));
    }
  }

  lemma HeaderSlices(data: seq<byte>, c: nat)
    requires c + HEADER <= |data|
    ensures var h := data[c..];
            h[..4] == data[c..c + 4] && h[4..8] == data[c + 4..c + 8] && h[8..12] == data[c + 8..c + 12]
            && h[12..14] == data[c + 12..c + 14]
  {
  }

  // --- A stream of whole packets -------------------------------------------------------------------------------------

  /** Everything that can be read from a stream: the packets, why reading ended, and what is left. */
  function Drained(s: Stream, limit: nat): (seq<Packet>, Outcome, Stream)
    requires s.cursor <= |s.data|
    decreases |s.data|
  {
    var (r, rest) := Parsed(s, limit);
    if r.Got? then
      var (ps, end, left) := Drained(rest, limit);
      ([r.packet] + ps, end, left)
    else
      ([], r, rest)
  }

  function Joined(ps: seq<Packet>): seq<byte> {
    if ps == [] then [] else Encoded(ps[0]) + Joined(ps[1..])
  }

  predicate Fits(p: Packet, limit: nat) {
    Size(p) <= limit && |p.to| < 0x1_0000_0000 && |p.from| < 0x1_0000_0000 && |p.payload| < 0x1_0000_0000
  }

  /** A packet with nothing in it is a bare header. */
  predicate Bare(p: Packet) {
    p.to == [] && p.from == [] && p.payload == []
  }

  lemma ReadHeader(p: Packet, rest: seq<byte>)
    requires |p.to| < 0x1_0000_0000 && |p.from| < 0x1_0000_0000 && |p.payload| < 0x1_0000_0000
    ensures var h := Encoded(p) + rest;
            && Get(h[..4]) == |p.to| && Get(h[4..8]) == |p.from|
            && Get(h[8..12]) == |p.payload| && Get(h[12..14]) == p.port
  {
    hide Put;
    Widths();
    var h := Encoded(p) + rest;
    GetPut(|p.to|, 4);
    GetPut(|p.from|, 4);
    GetPut(|p.payload|, 4);
    GetPut(p.port, 2);
    assert h[..4] == Put(|p.to|, 4);
    assert h[4..8] == Put(|p.from|, 4);
    assert h[8..12] == Put(|p.payload|, 4);
    assert h[12..14] == Put(p.port, 2);
  }

  lemma ReadFields(p: Packet, rest: seq<byte>)
    ensures var h := Encoded(p) + rest;
            && h[14..14 + |p.to|] == p.to
            && h[14 + |p.to|..14 + |p.to| + |p.from|] == p.from
            && h[14 + |p.to| + |p.from|..Size(p)] == p.payload
            && h[Size(p)..] == rest
  {
  }

  /** A packet that fits is read back, and what follows it is left, unless the buffer is no longer than a header. */
  lemma ParseEncoded(p: Packet, rest: seq<byte>, limit: nat)
    requires Fits(p, limit) && !(Bare(p) && rest == [])
    ensures Parsed(Stream(Encoded(p) + rest, 0), limit) == (Got(p), Stream(rest, 0))
  {
    hide Encoded, Get, Utf8;
    var h := Encoded(p) + rest;
    ReadHeader(p, rest);
    ReadFields(p, rest);
    assert h[0..] == h;
  }

  /** A packet that is too long is refused as soon as its header is read. */
  lemma TooLongIsRefused(p: Packet, rest: seq<byte>, limit: nat)
    requires Size(p) > limit && Fits(p, Size(p)) && !(Bare(p) && rest == [])
    ensures Parsed(Stream(Encoded(p) + rest, 0), limit).0 == TooLong
  {
    hide Encoded, Get, Utf8;
    var h := Encoded(p) + rest;
    ReadHeader(p, rest);
    assert h[0..] == h;
  }

  lemma BareStays(p: Packet, limit: nat)
    requires Bare(p)
    ensures Drained(Stream(Encoded(p), 0), limit) == ([], Nothing, Stream(Encoded(p), 0))
  {
  }

  lemma NothingStays(limit: nat)
    ensures Drained(Stream([], 0), limit) == ([], Nothing, Stream([], 0))
  {
  }

  lemma OneDrained(p: Packet, rest: seq<byte>, limit: nat)
    requires Fits(p, limit) && !(Bare(p) && rest == [])
    ensures var (ps, end, left) := Drained(Stream(rest, 0), limit);
            Drained(Stream(Encoded(p) + rest, 0), limit) == ([p] + ps, end, left)
  {
    hide Parsed, Encoded, Bare, Fits;
    ParseEncoded(p, rest, limit);
  }

  /** What arrives of a list of packets: all of them, but for a bare one at the very end, which stays in the buffer. */
  function Arriving(ps: seq<Packet>): (seq<Packet>, Outcome, Stream) {
    if ps != [] && Bare(ps[|ps| - 1]) then (ps[..|ps| - 1], Nothing, Stream(Encoded(ps[|ps| - 1]), 0))
    else (ps, Nothing, Stream([], 0))
  }

  lemma ArrivingOne(p: Packet, ps: seq<Packet>)
    requires ps != [] || !Bare(p)
    ensures var (qs, end, left) := Arriving(ps); Arriving([p] + ps) == ([p] + qs, end, left)
  {
    if ps != [] {
      assert ([p] + ps)[..|ps|] == [p] + ps[..|ps| - 1];
    }
  }

  lemma {:induction false} JoinedMore(ps: seq<Packet>, p: Packet)
    ensures Joined(ps + [p]) == Joined(ps) + Encoded(p)
  {
    hide Encoded;
    if ps != [] {
      assert (ps + [p])[1..] == ps[1..] + [p];
      JoinedMore(ps[1..], p);
    }
  }

  lemma JoinedEmpty(ps: seq<Packet>)
    ensures Joined(ps) == [] <==> ps == []
  {
  }

  lemma {:induction false} StreamOfPackets(ps: seq<Packet>, limit: nat)
    requires forall i :: 0 <= i < |ps| ==> Fits(ps[i], limit)
    ensures Drained(Stream(Joined(ps), 0), limit) == Arriving(ps)
  {
    hide Drained, Encoded, Arriving, Bare, Fits;
    if ps == [] {
      NothingStays(limit);
      ArrivingNothing();
    } else if Bare(ps[0]) && |ps| == 1 {
      assert Joined(ps) == Encoded(ps[0]) + Joined([]) == Encoded(ps[0]);
      BareStays(ps[0], limit);
      ArrivingBare(ps);
    } else {
      JoinedEmpty(ps[1..]);
      OneDrained(ps[0], Joined(ps[1..]), limit);
      StreamOfPackets(ps[1..], limit);
      ArrivingOne(ps[0], ps[1..]);
      assert [ps[0]] + ps[1..] == ps;
    }
  }

  lemma ArrivingNothing()
    ensures Arriving([]) == ([], Nothing, Stream([], 0))
  {
  }

  lemma ArrivingBare(ps: seq<Packet>)
    requires |ps| == 1 && Bare(ps[0])
    ensures Arriving(ps) == ([], Nothing, Stream(Encoded(ps[0]), 0))
  {
  }

  /** The stream round trip holds exactly when the last packet is not bare. */
  lemma RoundTripExactlyWhen(ps: seq<Packet>, limit: nat)
    requires forall i :: 0 <= i < |ps| ==> Fits(ps[i], limit)
    ensures Drained(Stream(Joined(ps), 0), limit) == (ps, Nothing, Stream([], 0)) <==> ps == [] || !Bare(ps[|ps| - 1])
  {
    hide Drained, Joined, Fits;
    StreamOfPackets(ps, limit);
    if ps != [] && Bare(ps[|ps| - 1]) {
      assert |ps[..|ps| - 1]| != |ps|;
    }
  }

  // --- A packet that has not all arrived -----------------------------------------------------------------------------

  /** However much of a packet that fits has arrived, short of all of it, there is nothing yet and no harm done. */
  lemma IncompleteIsNothing(p: Packet, k: nat, limit: nat)
    requires Fits(p, limit) && k < Size(p)
    ensures Parsed(Stream(Encoded(p)[..k], 0), limit).0 == Nothing
    ensures Parsed(Stream(Encoded(p)[..k], 0), limit).1.data == Encoded(p)[..k]
  {
    hide Encoded, Get, Utf8;
    var whole, part := Encoded(p), Encoded(p)[..k];
    if k > HEADER {
      ReadHeader(p, []);
      assert whole + [] == whole && part[0..] == part;
      assert part[..4] == whole[..4] && part[4..8] == whole[4..8];
      assert part[8..12] == whole[8..12] && part[12..14] == whole[12..14];
    }
  }

  lemma PartDrained(p: Packet, k: nat, limit: nat)
    requires Fits(p, limit) && k < Size(p)
    ensures var (ps, end, left) := Drained(Stream(Encoded(p)[..k], 0), limit);
            ps == [] && end == Nothing && left.data == Encoded(p)[..k]
  {
    hide Encoded, Parsed, Fits;
    IncompleteIsNothing(p, k, limit);
  }

  /** Whole packets with a part of one more behind them: the whole ones are read, and all of the part is kept. */
  lemma {:induction false} StreamWithPart(ps: seq<Packet>, p: Packet, k: nat, limit: nat)
    requires (forall i :: 0 <= i < |ps| ==> Fits(ps[i], limit)) && Fits(p, limit) && 0 < k < Size(p)
    ensures var (qs, end, left) := Drained(Stream(Joined(ps) + Encoded(p)[..k], 0), limit);
            qs == ps && end == Nothing && left.data == Encoded(p)[..k]
  {
    hide Drained, Encoded, Bare, Fits;
    var part := Encoded(p)[..k];
    if ps == [] {
      assert Joined(ps) + part == part;
      PartDrained(p, k, limit);
    } else {
      var rest := Joined(ps[1..]) + part;
      assert Joined(ps) + part == Encoded(ps[0]) + rest;
      OneDrained(ps[0], rest, limit);
      StreamWithPart(ps[1..], p, k, limit);
      assert [ps[0]] + ps[1..] == ps;
    }
  }

  /** What the header of a buffer says of the packet behind it. */
  function Announced(h: seq<byte>): (nat, nat, nat)
    requires |h| >= HEADER
  {
    (Get(h[..4]), Get(h[4..8]), Get(h[8..12]))
  }

  /**
   Every answer of the parser to a buffer that is read from its start: too long when the header says so, a panic exactly
   when a packet is all there and one of its names is no text, a packet exactly when its names are, and else nothing.
   */
  lemma AnswersExactly(data: seq<byte>, limit: nat)
    ensures var r := Parsed(Stream(data, 0), limit).0;
            if |data| <= HEADER then r == Nothing
            else
              var (to, from, payload) := Announced(data);
              var total := HEADER + to + from + payload;
              var texts := total <= |data| && Utf8(data[HEADER..HEADER + to])
                           && Utf8(data[HEADER + to..HEADER + to + from]);
              && (r == TooLong <==> total > limit)
              && (r == Nothing <==> |data| < total <= limit)
              && (r == Panic <==> total <= limit && total <= |data| && !texts)
              && (r.Got? <==> total <= limit && texts)
  {
    hide Get, Utf8;
    assert data[0..] == data;
  }
}
