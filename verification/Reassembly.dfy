/** What becomes of a stream of packets that arrives in pieces (src/remote/packet.rs, src/remote/server.rs). */
module Reassembly {
  import opened Words
  import opened Packets

  function Whole(chunks: seq<seq<byte>>): seq<byte> {
    if chunks == [] then [] else Whole(chunks[..|chunks| - 1]) + chunks[|chunks| - 1]
  }

  /** Everything that is read when pieces arrive one after the other and the buffer is drained after each. */
  function Fed(chunks: seq<seq<byte>>, limit: nat): (r: (seq<Packet>, Outcome, Stream))
    ensures r.2.cursor <= |r.2.data|
  {
    if chunks == [] then ([], Nothing, Stream([], 0))
    else
      var (ps, end, left) := Fed(chunks[..|chunks| - 1], limit);
      if end != Nothing then (ps, end, left)
      else
        var (qs, end', left') := Drained(left.(data := left.data + chunks[|chunks| - 1]), limit);
        DrainedKeepsCursor(left.(data := left.data + chunks[|chunks| - 1]), limit);
        (ps + qs, end', left')
  }

  lemma {:induction false} DrainedKeepsCursor(s: Stream, limit: nat)
    requires s.cursor <= |s.data|
    ensures var left := Drained(s, limit).2; left.cursor <= |left.data|
    decreases |s.data|
  {
    var (r, rest) := Parsed(s, limit);
    if r.Got? {
      hide Parsed;
      DrainedKeepsCursor(rest, limit);
    }
  }

  /** One more piece, and that nothing is read any more when the reading has failed. */
  lemma FedOne(chunks: seq<seq<byte>>, n: nat, limit: nat)
    requires n < |chunks| && Fed(chunks[..n], limit).1 == Nothing
    ensures var (ps, _, left) := Fed(chunks[..n], limit);
            var (qs, end, left') := Drained(left.(data := left.data + chunks[n]), limit);
            Fed(chunks[..n + 1], limit) == (ps + qs, end, left') && !end.Got?
  {
    hide Drained;
    assert chunks[..n + 1][..n] == chunks[..n];
    var left := Fed(chunks[..n], limit).2;
    EndIsNoPacket(left.(data := left.data + chunks[n]), limit);
  }

  lemma {:induction false} EndIsNoPacket(s: Stream, limit: nat)
    requires s.cursor <= |s.data|
    ensures !Drained(s, limit).1.Got?
    decreases |s.data|
  {
    hide Parsed;
    var (r, rest) := Parsed(s, limit);
    if r.Got? {
      EndIsNoPacket(rest, limit);
    }
  }

  lemma {:induction false} FedEnds(chunks: seq<seq<byte>>, n: nat, limit: nat)
    requires n <= |chunks| && Fed(chunks[..n], limit).1 != Nothing
    ensures Fed(chunks, limit) == Fed(chunks[..n], limit)
  {
    hide Drained;
    if n < |chunks| {
      assert chunks[..|chunks| - 1][..n] == chunks[..n];
      FedEnds(chunks[..|chunks| - 1], n, limit);
    } else {
      assert chunks[..n] == chunks;
    }
  }

  // --- Going on after a drain ----------------------------------------------------------------------------------------

  /** A packet that is read is read in the same way whatever more has arrived behind it. */
  lemma ParsedMore(d: seq<byte>, more: seq<byte>, limit: nat)
    requires Parsed(Stream(d, 0), limit).0.Got?
    ensures var (r, rest) := Parsed(Stream(d, 0), limit);
            Parsed(Stream(d + more, 0), limit) == (r, Stream(rest.data + more, 0))
  {
    hide Get, Utf8;
    var all := d + more;
    assert d[0..] == d && all[0..] == all;
    assert all[..4] == d[..4] && all[4..8] == d[4..8] && all[8..12] == d[8..12] && all[12..14] == d[12..14];
    var to, from, payload := Get(d[..4]), Get(d[4..8]), Get(d[8..12]);
    var total := HEADER + to + from + payload;
    assert all[HEADER..HEADER + to] == d[HEADER..HEADER + to];
    assert all[HEADER + to..HEADER + to + from] == d[HEADER + to..HEADER + to + from];
    assert all[HEADER + to + from..total] == d[HEADER + to + from..total];
    assert all[total..] == d[total..] + more;
  }

  /** What waits is a part of a packet, of which the header has been passed over exactly when it was all there. */
  lemma {:induction false} WaitingFor(d: seq<byte>, limit: nat)
    requires Drained(Stream(d, 0), limit).1 == Nothing
    ensures var left := Drained(Stream(d, 0), limit).2; left.cursor == if |left.data| <= HEADER then 0 else HEADER
    decreases |d|
  {
    var (r, rest) := Parsed(Stream(d, 0), limit);
    if r.Got? {
      hide Parsed;
      WaitingFor(rest.data, limit);
    }
  }

  /** For any bytes: as long as no more than a header waits, going on later is the same as having had it all at once. */
  lemma {:induction false} Resumes(d: seq<byte>, more: seq<byte>, limit: nat)
    requires var (ps, end, left) := Drained(Stream(d, 0), limit); end == Nothing && |left.data| <= HEADER
    ensures var (ps, end, left) := Drained(Stream(d, 0), limit);
            var (qs, end', left') := Drained(Stream(left.data + more, 0), limit);
            left.cursor == 0 && Drained(Stream(d + more, 0), limit) == (ps + qs, end', left')
    decreases |d|
  {
    hide Parsed, Drained;
    var (r, rest) := Parsed(Stream(d, 0), limit);
    WaitingFor(d, limit);
    DrainedStep(Stream(d, 0), limit);
    if r.Got? {
      ParsedMore(d, more, limit);
      DrainedStep(Stream(d + more, 0), limit);
      Resumes(rest.data, more, limit);
      var (ps, _, left) := Drained(rest, limit);
      var qs := Drained(Stream(left.data + more, 0), limit).0;
      assert [r.packet] + (ps + qs) == [r.packet] + ps + qs;
    } else {
      NothingMoves(d, limit);
      var qs := Drained(Stream(d + more, 0), limit).0;
      assert [] + qs == qs;
    }
  }

  lemma DrainedStep(s: Stream, limit: nat)
    requires s.cursor <= |s.data|
    ensures var (r, rest) := Parsed(s, limit);
            if r.Got? then
              var (ps, end, left) := Drained(rest, limit);
              Drained(s, limit) == ([r.packet] + ps, end, left)
            else
              Drained(s, limit) == ([], r, rest)
  {
  }

  lemma NothingMoves(d: seq<byte>, limit: nat)
    requires Parsed(Stream(d, 0), limit).0 == Nothing
    ensures Parsed(Stream(d, 0), limit).1.data == d
  {
  }

  // --- Where a stream may be cut -------------------------------------------------------------------------------------

  /** After `n` bytes at most a header of a packet that is not complete has come. */
  predicate CleanCut(ps: seq<Packet>, n: nat) {
    n <= HEADER || (ps != [] && n >= Size(ps[0]) && CleanCut(ps[1..], n - Size(ps[0])))
  }

  lemma {:induction false} CutDrained(ps: seq<Packet>, n: nat, limit: nat)
    requires (forall i :: 0 <= i < |ps| ==> Fits(ps[i], limit)) && n <= |Joined(ps)|
    ensures var (qs, end, left) := Drained(Stream(Joined(ps)[..n], 0), limit);
            end == Nothing && (|left.data| <= HEADER <==> CleanCut(ps, n))
  {
    hide Drained, Encoded, Fits;
    if ps == [] {
      NothingStays(limit);
    } else if n < Size(ps[0]) {
      assert Joined(ps)[..n] == Encoded(ps[0])[..n];
      PartDrained(ps[0], n, limit);
    } else {
      var m := n - Size(ps[0]);
      var rest := Joined(ps[1..])[..m];
      assert Joined(ps)[..n] == Encoded(ps[0]) + rest;
      if Bare(ps[0]) && m == 0 {
        assert Encoded(ps[0]) + rest == Encoded(ps[0]);
        BareStays(ps[0], limit);
      } else {
        OneDrained(ps[0], rest, limit);
        CutDrained(ps[1..], m, limit);
      }
    }
  }

  // --- Pieces --------------------------------------------------------------------------------------------------------

  predicate CleanCuts(ps: seq<Packet>, chunks: seq<seq<byte>>, n: nat)
    requires n <= |chunks|
  {
    forall j :: 0 <= j < n ==> CleanCut(ps, |Whole(chunks[..j])|)
  }

  lemma {:induction false} WholePrefix(chunks: seq<seq<byte>>, n: nat)
    requires n <= |chunks|
    ensures Whole(chunks[..n]) <= Whole(chunks)
  {
    if n < |chunks| {
      WholePrefix(chunks[..|chunks| - 1], n);
      assert chunks[..|chunks| - 1][..n] == chunks[..n];
    } else {
      assert chunks[..n] == chunks;
    }
  }

  /** With clean cuts so far, the pieces are read as the whole is. */
  lemma {:induction false} CleanIsWhole(ps: seq<Packet>, chunks: seq<seq<byte>>, n: nat, limit: nat)
    requires (forall i :: 0 <= i < |ps| ==> Fits(ps[i], limit)) && n <= |chunks|
    requires Whole(chunks) == Joined(ps) && CleanCuts(ps, chunks, n)
    ensures Fed(chunks[..n], limit) == Drained(Stream(Whole(chunks[..n]), 0), limit)
  {
    hide Drained, Joined, CleanCut, Fits;
    if n == 0 {
      NothingStays(limit);
    } else {
      var past := chunks[..n - 1];
      CleanIsWhole(ps, chunks, n - 1, limit);
      WholePrefix(chunks, n - 1);
      assert Joined(ps)[..|Whole(past)|] == Whole(past);
      CutDrained(ps, |Whole(past)|, limit);
      assert chunks[..n][..n - 1] == past;
      Resumes(Whole(past), chunks[n - 1], limit);
    }
  }

  // --- What a bad cut costs ------------------------------------------------------------------------------------------

  /** A drain makes nothing out of nothing, and what the cursor has passed over is lost with the next packet read. */
  lemma {:induction false} DrainCosts(s: Stream, limit: nat)
    requires s.cursor <= |s.data|
    ensures var (ps, end, left) := Drained(s, limit);
            && |Joined(ps)| + |left.data| + (if ps != [] then s.cursor else 0) <= |s.data|
            && (ps == [] ==> left.cursor >= s.cursor)
    decreases |s.data|
  {
    var (r, rest) := Parsed(s, limit);
    ParseCosts(s, limit);
    hide Parsed, Encoded;
    if r.Got? {
      DrainCosts(rest, limit);
      var ps := Drained(rest, limit).0;
      assert ([r.packet] + ps)[1..] == ps;
    }
  }

  lemma ParseCosts(s: Stream, limit: nat)
    requires s.cursor <= |s.data|
    ensures var (r, rest) := Parsed(s, limit);
            if r.Got? then Size(r.packet) + |rest.data| + s.cursor <= |s.data|
            else rest.data == s.data && rest.cursor >= s.cursor
  {
    hide Get, Utf8;
  }

  /** Bytes have been lost, or are about to be. */
  predicate Hurt(chunks: seq<seq<byte>>, limit: nat) {
    var (ps, _, left) := Fed(chunks, limit);
    |Joined(ps)| + |left.data| < |Whole(chunks)| || left.cursor > 0
  }

  lemma {:induction false} JoinedSplits(ps: seq<Packet>, qs: seq<Packet>)
    ensures Joined(ps + qs) == Joined(ps) + Joined(qs)
  {
    hide Encoded;
    if ps == [] {
      assert ps + qs == qs;
    } else {
      assert (ps + qs)[1..] == ps[1..] + qs;
      JoinedSplits(ps[1..], qs);
    }
  }

  lemma {:induction false} FedCosts(chunks: seq<seq<byte>>, limit: nat)
    ensures var (ps, _, left) := Fed(chunks, limit); |Joined(ps)| + |left.data| <= |Whole(chunks)|
  {
    hide Drained, Encoded;
    if chunks != [] {
      var past := chunks[..|chunks| - 1];
      FedCosts(past, limit);
      var (ps, end, left) := Fed(past, limit);
      var s := left.(data := left.data + chunks[|chunks| - 1]);
      DrainCosts(s, limit);
      JoinedSplits(ps, Drained(s, limit).0);
    }
  }

  lemma {:induction false} StaysHurt(chunks: seq<seq<byte>>, n: nat, limit: nat)
    requires n <= |chunks| && Hurt(chunks[..n], limit)
    ensures Hurt(chunks, limit)
  {
    hide Drained, Encoded, Joined;
    if n == |chunks| {
      assert chunks[..n] == chunks;
    } else {
      var past := chunks[..|chunks| - 1];
      assert past[..n] == chunks[..n];
      StaysHurt(past, n, limit);
      FedCosts(past, limit);
      var (ps, end, left) := Fed(past, limit);
      var s := left.(data := left.data + chunks[|chunks| - 1]);
      DrainCosts(s, limit);
      JoinedSplits(ps, Drained(s, limit).0);
    }
  }

  /** The first of the cuts that is not clean. */
  lemma {:induction false} FirstBadCut(ps: seq<Packet>, chunks: seq<seq<byte>>, n: nat) returns (j: nat)
    requires n <= |chunks| && !CleanCuts(ps, chunks, n)
    ensures j < n && CleanCuts(ps, chunks, j) && !CleanCut(ps, |Whole(chunks[..j])|)
  {
    hide CleanCut;
    j := n - 1;
    if !CleanCuts(ps, chunks, n - 1) {
      j := FirstBadCut(ps, chunks, n - 1);
    }
  }

  lemma BadCutHurts(ps: seq<Packet>, chunks: seq<seq<byte>>, n: nat, limit: nat)
    requires (forall i :: 0 <= i < |ps| ==> Fits(ps[i], limit)) && n <= |chunks|
    requires Whole(chunks) == Joined(ps) && CleanCuts(ps, chunks, n) && !CleanCut(ps, |Whole(chunks[..n])|)
    ensures Hurt(chunks[..n], limit)
  {
    hide Drained, Joined, CleanCut, Fits;
    var part := Whole(chunks[..n]);
    CleanIsWhole(ps, chunks, n, limit);
    WholePrefix(chunks, n);
    assert Joined(ps)[..|part|] == part;
    CutDrained(ps, |part|, limit);
    WaitingFor(part, limit);
  }

  /**
   However a stream of packets is cut into pieces: all packets are read, in order, and nothing is left, exactly when no
   cut comes after the header of a packet and before its end.  The parser passes over such a header for good, and takes
   what follows it for the next one.
   */
  lemma ArrivesExactlyWhen(ps: seq<Packet>, chunks: seq<seq<byte>>, limit: nat)
    requires forall i :: 0 <= i < |ps| ==> Fits(ps[i], limit)
    requires Whole(chunks) == Joined(ps) && (ps != [] ==> !Bare(ps[|ps| - 1]))
    ensures Fed(chunks, limit) == (ps, Nothing, Stream([], 0)) <==> CleanCuts(ps, chunks, |chunks|)
  {
    hide Drained, Joined, CleanCut, Fits, Fed, Bare;
    assert chunks[..|chunks|] == chunks;
    if CleanCuts(ps, chunks, |chunks|) {
      CleanIsWhole(ps, chunks, |chunks|, limit);
      RoundTripExactlyWhen(ps, limit);
    } else {
      var j := FirstBadCut(ps, chunks, |chunks|);
      BadCutHurts(ps, chunks, j, limit);
      StaysHurt(chunks, j, limit);
    }
  }

  /** From `a` to `b`, 30 bytes in all. */
  const SAMPLE: Packet :=
    Packet([0x62], [0x61], [0x21, 0x21, 0x21, 0x21, 0x21, 0x21, 0x21, 0x21, 0x21, 0x21, 0x21, 0x21, 0x21, 0x21], 9000)

  /** A packet of 30 bytes in two pieces of 20 and 10: the rest of it is taken for a header and refused. */
  lemma CutPacketIsLost()
    ensures var b := Encoded(SAMPLE);
            && Fits(SAMPLE, LIMIT) && Fed([b], LIMIT) == ([SAMPLE], Nothing, Stream([], 0))
            && Fed([b[..20], b[20..]], LIMIT).0 == [] && Fed([b[..20], b[20..]], LIMIT).1 == TooLong
  {
    hide Put, Encoded, Fed, Drained, Parsed, Get;
    var p := SAMPLE;
    var b := Encoded(p);
    var first, second := b[..20], b[20..];
    PartDrained(p, 20, LIMIT);
    WaitingFor(first, LIMIT);
    FedFirst(first, LIMIT);
    assert [first, second][..1] == [first] && [first, second][..2] == [first, second];
    FedOne([first, second], 1, LIMIT);
    assert first + second == b;
    ReadFields(p, []);
    assert b + [] == b && b[14..15][0] == b[14];
    MisreadHeader(b);
    FedFirst(b, LIMIT);
    JoinedOne(p);
    RoundTripExactlyWhen([p], LIMIT);
    DrainedStep(Stream(b, HEADER), LIMIT);
  }

  lemma FedFirst(d: seq<byte>, limit: nat)
    ensures Fed([d], limit) == Drained(Stream(d, 0), limit)
  {
    hide Drained;
    assert [d][..0] == [] && [d][0] == d && [] + d == d;
    var ps := Drained(Stream(d, 0), limit).0;
    assert [] + ps == ps;
  }

  lemma JoinedOne(p: Packet)
    ensures Joined([p]) == Encoded(p)
  {
  }

  lemma MisreadHeader(b: seq<byte>)
    requires |b| == 30 && b[14] == 0x62
    ensures Parsed(Stream(b, HEADER), LIMIT).0 == TooLong
  {
    hide Utf8;
    var h := b[HEADER..];
    MostSignificantFirst(h[..4]);
    Widths();
  }
}
