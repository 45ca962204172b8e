/**
 Which peers an agent passes on.

 It gossips when its beat is a multiple of the period, and relays the peer at position beat modulo the number of live
 peers.  So in round k the position is k * period modulo that number, and whether everybody's turn comes is a question
 of common divisors.
 */
module RelayCoverage {
  import opened Api
  import opened GossipMessages
  import opened Gossip

  /** The position relayed in round `k`, that is at beat `k * period`, out of `n` live peers. */
  function Position(k: nat, period: nat, n: nat): nat
    requires n > 0
  {
    (k * period) % n
  }

  /** What is relayed is the live peer at that position, followed by the agent itself. */
  lemma RelayedInRound(self: Tag, k: nat, period: nat, peers: seq<Peer>, horizon: nat, time: nat)
    requires period >= 1 && |Fresh(peers, horizon, time)| >= 2
    ensures IsMultiple(k * period, period)
    ensures var live := Fresh(peers, horizon, time);
            Relay(self, k * period, peers, horizon, time) == [live[Position(k, period, |live|)], (self, k * period)]
  {
    ModOf(k * period, k, period, 0);
  }

  // --- Arithmetic ----------------------------------------------------------------------------------------------------

  lemma {:induction false} AtLeast(n: nat, d: nat)
    requires d >= 1
    ensures n * d >= n
  {
    if d > 1 {
      AtLeast(n, d - 1);
      assert n * d == n * (d - 1) + n;
    }
  }

  lemma Less(a: int, b: int, n: nat)
    requires a < b
    ensures n * a + n <= n * b
  {
    AtLeast(n, b - a);
    assert n * (b - a) == n * b - n * a;
  }

  /** Quotient and remainder are unique. */
  lemma ModOf(a: int, q: int, n: int, r: int)
    requires n > 0 && a == q * n + r && 0 <= r < n
    ensures a % n == r && a / n == q
  {
    var q', r' := a / n, a % n;
    assert a == q' * n + r';
    if q < q' {
      Less(q, q', n);
    } else if q' < q {
      Less(q', q, n);
    }
  }

  function Gcd(a: nat, b: nat): nat
    decreases b
  {
    if b == 0 then a else Gcd(b, a % b)
  }

  ghost predicate Divides(d: nat, a: int) {
    exists k: int :: a == d * k
  }

  lemma Cofactor(d: nat, a: int) returns (k: int)
    requires Divides(d, a)
    ensures a == d * k
  {
    k :| a == d * k;
  }

  /** The divisor Euclid's algorithm finds is common, and a combination of both numbers. */
  lemma {:induction false} Bezout(a: nat, b: nat) returns (x: int, y: int)
    requires a > 0 || b > 0
    ensures Gcd(a, b) > 0 && Divides(Gcd(a, b), a) && Divides(Gcd(a, b), b)
    ensures x * a + y * b == Gcd(a, b)
    decreases b
  {
    var g := Gcd(a, b);
    if b == 0 {
      x, y := 1, 0;
      assert a == g * 1 && b == g * 0;
    } else {
      var q, r := a / b, a % b;
      var u, v := Bezout(b, r);
      x, y := v, u - v * q;
      var k := Cofactor(g, b);
      var l := Cofactor(g, r);
      Combine(a, b, q, r, g, k, l);
      assert a == b * q + r;
      Recombine(a, b, q, r, u, v);
    }
  }

  lemma Combine(a: int, b: int, q: int, r: int, g: nat, k: int, l: int)
    requires a == b * q + r && b == g * k && r == g * l
    ensures Divides(g, a)
  {
    assert g * k * q + g * l == g * (k * q + l) by {
      assert g * k * q == g * (k * q);
    }
    assert a == g * (k * q + l);
  }

  lemma Recombine(a: int, b: int, q: int, r: int, u: int, v: int)
    requires a == b * q + r
    ensures u * b + v * r == v * a + (u - v * q) * b
  {
    assert v * a == v * (b * q) + v * r;
    assert (u - v * q) * b == u * b - v * q * b;
    assert v * (b * q) == v * q * b;
  }

  // --- Coverage ------------------------------------------------------------------------------------------------------

  predicate RelayedWithin(start: nat, period: nat, n: nat, m: nat)
    requires n > 0
  {
    exists k :: start <= k < start + n && Position(k, period, n) == m
  }

  lemma RemainderDivides(a: int, q: int, r: int, n: int, g: nat, k: int, l: int)
    requires a == q * n + r && a == g * k && n == g * l
    ensures r == g * (k - q * l)
  {
    assert q * (g * l) == g * (q * l);
    assert g * (k - q * l) == g * k - g * (q * l);
  }

  /** Every position relayed is a multiple of the greatest common divisor. */
  lemma PositionIsMultiple(k: nat, period: nat, n: nat)
    requires n > 0
    ensures Divides(Gcd(period, n), Position(k, period, n))
  {
    var x, y := Bezout(period, n);
    var g := Gcd(period, n);
    var p := Cofactor(g, period);
    var l := Cofactor(g, n);
    var a := k * period;
    assert a == g * (k * p) by { assert k * (g * p) == g * (k * p); }
    Division(a, n);
    RemainderDivides(a, a / n, a % n, n, g, k * p, l);
  }

  lemma Division(a: int, n: int)
    requires n > 0
    ensures a == (a / n) * n + a % n && 0 <= a % n < n
  {
  }

  /** Every multiple of it comes up within as many rounds as there are peers, whenever one starts to look. */
  lemma MultipleIsRelayed(start: nat, period: nat, n: nat, m: nat)
    requires n > 0 && m < n && Divides(Gcd(period, n), m)
    ensures RelayedWithin(start, period, n, m)
  {
    var x, y := Bezout(period, n);
    var g := Gcd(period, n);
    var t := Cofactor(g, m);
    var k := t * x;
    var c, i := (k - start) / n, (k - start) % n;
    Division(k - start, n);
    var z := -(t * y) - c * period;
    InRound(start, i, k, c, t, x, y, g, period, n, m, z);
  }

  lemma InRound(start: nat, i: nat, k: int, c: int, t: int, x: int, y: int, g: int, period: nat, n: nat, m: nat, z: int)
    requires 0 <= i < n && m < n && k - start == c * n + i
    requires k == t * x && m == g * t && x * period + y * n == g && z == -(t * y) - c * period
    ensures RelayedWithin(start, period, n, m)
  {
    Rearranged(start + i, k, c, t, x, y, g, period, n, m, z);
    ModOf((start + i) * period, z, n, m);
    assert Position(start + i, period, n) == m;
  }

  lemma Rearranged(j: int, k: int, c: int, t: int, x: int, y: int, g: int, period: int, n: int, m: int, z: int)
    requires j == k - c * n && k == t * x && m == g * t && x * period + y * n == g && z == -(t * y) - c * period
    ensures j * period == z * n + m
  {
    assert j * period == t * x * period - c * n * period;
    assert t * x * period == t * (x * period);
    assert t * (x * period) == t * (g - y * n);
    assert t * (g - y * n) == g * t - t * y * n;
    assert z * n == -(t * y) * n - c * period * n;
    assert c * n * period == c * period * n;
  }

  /** In any `n` consecutive rounds, exactly the multiples of gcd(period, n) below `n` are relayed. */
  lemma RelayedPositions(start: nat, period: nat, n: nat, m: nat)
    requires n > 0 && m < n
    ensures RelayedWithin(start, period, n, m) <==> Divides(Gcd(period, n), m)
  {
    if RelayedWithin(start, period, n, m) {
      var k :| start <= k < start + n && Position(k, period, n) == m;
      PositionIsMultiple(k, period, n);
    }
    if Divides(Gcd(period, n), m) {
      MultipleIsRelayed(start, period, n, m);
    }
  }

  /** Everybody's turn comes exactly when the period and the number of live peers have no common divisor. */
  lemma AllRelayedExactlyWhenCoprime(start: nat, period: nat, n: nat)
    requires n >= 2
    ensures (forall m :: 0 <= m < n ==> RelayedWithin(start, period, n, m)) <==> Gcd(period, n) == 1
  {
    var g := Gcd(period, n);
    if g == 1 {
      forall m | 0 <= m < n ensures RelayedWithin(start, period, n, m) {
        assert m == 1 * m;
        RelayedPositions(start, period, n, m);
      }
    }
    if forall m :: 0 <= m < n ==> RelayedWithin(start, period, n, m) {
      assert RelayedWithin(start, period, n, 1);
      RelayedPositions(start, period, n, 1);
      var k := Cofactor(g, 1);
      OnlyOneDividesOne(g, k);
    }
  }

  lemma AtMostZero(g: nat, k: int)
    requires k <= 0
    ensures g * k <= 0
  {
    AtLeast(g, 1 - k);
    assert g * (1 - k) == g - g * k;
  }

  lemma OnlyOneDividesOne(g: nat, k: int)
    requires 1 == g * k
    ensures g == 1
  {
    if k >= 1 {
      AtLeast(g, k);
    } else {
      AtMostZero(g, k);
    }
  }

  // --- What a ticking agent sends ------------------------------------------------------------------------------------

  /** The agent after so many ticks, and all it did on them. */
  function Ticks(n: Node, times: seq<nat>): (Node, seq<Effect>) {
    if times == [] then (n, [])
    else
      var (before, out) := Ticks(n, times[..|times| - 1]);
      var (after, more) := Ticked(before, times[|times| - 1]);
      (after, out + more)
  }

  /** Whoever is told of `r` is told of it first in a list of rumors. */
  predicate Tells(e: Effect, r: Rumor) {
    e.Letter? && e.message.Spread? && e.message.rumors != [] && e.message.rumors[0] == r
  }

  predicate Relays(out: seq<Effect>, r: Rumor) {
    exists i :: 0 <= i < |out| && Tells(out[i], r)
  }

  /** Tick `i` starts a round that relays `r`. */
  predicate RoundRelays(n: Node, i: nat, live: seq<Rumor>, r: Rumor)
    requires live != []
  {
    IsMultiple(n.beat + i + 1, n.period) && live[(n.beat + i + 1) % |live|] == r
  }

  lemma RelaysSplits(a: seq<Effect>, b: seq<Effect>, r: Rumor)
    ensures Relays(a + b, r) <==> Relays(a, r) || Relays(b, r)
  {
    if Relays(a, r) {
      var i :| 0 <= i < |a| && Tells(a[i], r);
      assert Tells((a + b)[i], r);
    }
    if Relays(b, r) {
      var i :| 0 <= i < |b| && Tells(b[i], r);
      assert Tells((a + b)[|a| + i], r);
    }
  }

  /** One tick, for an agent with at least two live peers. */
  lemma TickRelays(n: Node, time: nat, r: Rumor)
    requires |Fresh(n.peers, n.horizon, time)| >= 2
    ensures Relays(Ticked(n, time).1, r) <==> RoundRelays(n, 0, Fresh(n.peers, n.horizon, time), r)
  {
    hide Fresh;
    var live, beat := Fresh(n.peers, n.horizon, time), n.beat + 1;
    var m := Spread(Relay(n.tag, beat, n.peers, n.horizon, time));
    RelaysSplits(ToAll(n.peers, m), [Wake(n.tick)], r);
    assert m.rumors[0] == live[beat % |live|];
    assert n.peers != [] by {
      SomebodyLives(n.peers, n.horizon, time);
    }
    assert ToAll(n.peers, m)[0] == Letter(n.peers[0].tag, m);
    assert !Tells(Wake(n.tick), r);
  }

  lemma SomebodyLives(peers: seq<Peer>, horizon: nat, time: nat)
    requires Fresh(peers, horizon, time) != []
    ensures peers != []
  {
  }

  /** The live peers are the same at all these times. */
  predicate Steady(n: Node, times: seq<nat>, live: seq<Rumor>) {
    forall i :: 0 <= i < |times| ==> Fresh(n.peers, n.horizon, times[i]) == live
  }

  /** Whoever is relayed over any number of ticks is relayed in one of them. */
  lemma {:induction false} TicksRelay(n: Node, times: seq<nat>, live: seq<Rumor>, r: Rumor)
    requires Steady(n, times, live) && |live| >= 2
    ensures var (after, out) := Ticks(n, times);
            && after.peers == n.peers && after.horizon == n.horizon && after.period == n.period && after.tag == n.tag
            && after.beat == n.beat + |times|
            && (Relays(out, r) <==> exists i: nat :: i < |times| && RoundRelays(n, i, live, r))
  {
    hide Fresh, Relays, DownAfter;
    if times == [] {
      NoRelays(r);
    } else {
      var k := |times| - 1;
      var (before, out) := Ticks(n, times[..k]);
      TicksRelay(n, times[..k], live, r);
      TickRelays(before, times[k], r);
      RelaysSplits(out, Ticked(before, times[k]).1, r);
      assert RoundRelays(before, 0, live, r) == RoundRelays(n, k, live, r);
    }
  }

  lemma NoRelays(r: Rumor)
    ensures !Relays([], r)
  {
  }

  /** The rounds among `n * period` ticks, whatever the beat before them, are `n` in a row. */
  lemma RoundsInARow(beat: nat, period: nat, n: nat, i: nat)
    requires period >= 1 && i < n * period && IsMultiple(beat + i + 1, period)
    ensures var k := (beat + i + 1) / period;
            beat / period + 1 <= k < beat / period + 1 + n && beat + i + 1 == k * period
  {
    var q, k := beat / period, (beat + i + 1) / period;
    Division(beat, period);
    Division(beat + i + 1, period);
    if k <= q {
      Most(k, q, period);
    }
    assert (q + n + 1) * period == q * period + n * period + period;
    if k > q + n {
      Most(q + n + 1, k, period);
    }
  }

  lemma RoundComesUp(beat: nat, period: nat, n: nat, k: nat) returns (i: nat)
    requires period >= 1 && beat / period + 1 <= k < beat / period + 1 + n
    ensures i < n * period && beat + i + 1 == k * period && IsMultiple(beat + i + 1, period)
  {
    var q := beat / period;
    Division(beat, period);
    Most(q + 1, k, period);
    Most(k, q + n, period);
    assert (q + 1) * period == q * period + period;
    assert (q + n) * period == q * period + n * period;
    i := k * period - beat - 1;
    ModOf(k * period, k, period, 0);
  }

  lemma Most(a: int, b: int, n: nat)
    requires a <= b
    ensures a * n <= b * n
  {
    if a < b {
      Less(a, b, n);
      assert n * a == a * n && n * b == b * n;
    }
  }

  lemma {:induction false} LiveAreDistinct(peers: seq<Peer>, horizon: nat, time: nat, i: nat, j: nat)
    requires Unique(peers) && i < j < |Fresh(peers, horizon, time)|
    ensures Fresh(peers, horizon, time)[i] != Fresh(peers, horizon, time)[j]
  {
    var live, rest := Fresh(peers, horizon, time), Fresh(peers[1..], horizon, time);
    if peers[0].seen + horizon >= time {
      assert live == [(peers[0].tag, peers[0].beat)] + rest;
      if i > 0 {
        LiveAreDistinct(peers[1..], horizon, time, i - 1, j - 1);
      } else {
        FreshAreKnown(peers[1..], horizon, time, rest[j - 1]);
        var k: nat :| LiveAt(peers[1..], k, horizon, time, rest[j - 1]);
        assert peers[1..][k] == peers[k + 1];
      }
    } else {
      LiveAreDistinct(peers[1..], horizon, time, i, j);
    }
  }

  lemma RelayedIsRound(n: Node, times: seq<nat>, live: seq<Rumor>, m: nat, i: nat)
    requires Unique(n.peers) && Steady(n, times, live) && |live| >= 2 && n.period >= 1
    requires |times| == |live| * n.period && m < |live| && i < |times| && RoundRelays(n, i, live, live[m])
    ensures RelayedWithin(n.beat / n.period + 1, n.period, |live|, m)
  {
    hide Unique, Steady;
    RoundsInARow(n.beat, n.period, |live|, i);
    var k := (n.beat + i + 1) / n.period;
    SamePosition(n, times, live, Position(k, n.period, |live|), m);
    assert Position(k, n.period, |live|) == m;
  }

  lemma RoundIsRelayed(n: Node, live: seq<Rumor>, m: nat) returns (i: nat)
    requires |live| >= 2 && n.period >= 1 && m < |live| && RelayedWithin(n.beat / n.period + 1, n.period, |live|, m)
    ensures i < |live| * n.period && RoundRelays(n, i, live, live[m])
  {
    var start := n.beat / n.period + 1;
    var k :| start <= k < start + |live| && Position(k, n.period, |live|) == m;
    i := RoundComesUp(n.beat, n.period, |live|, k);
  }

  /** Over as many rounds as there are live peers, a position is relayed exactly when a round comes to it. */
  lemma RelayedIsReached(n: Node, times: seq<nat>, live: seq<Rumor>, m: nat)
    requires Unique(n.peers) && Steady(n, times, live) && |live| >= 2 && n.period >= 1
    requires |times| == |live| * n.period && m < |live|
    ensures Relays(Ticks(n, times).1, live[m]) <==> RelayedWithin(n.beat / n.period + 1, n.period, |live|, m)
  {
    hide *;
    TicksRelay(n, times, live, live[m]);
    if exists i: nat :: i < |times| && RoundRelays(n, i, live, live[m]) {
      var i: nat :| i < |times| && RoundRelays(n, i, live, live[m]);
      RelayedIsRound(n, times, live, m, i);
    }
    if RelayedWithin(n.beat / n.period + 1, n.period, |live|, m) {
      var i := RoundIsRelayed(n, live, m);
    }
  }

  lemma SamePosition(n: Node, times: seq<nat>, live: seq<Rumor>, i: nat, j: nat)
    requires Unique(n.peers) && Steady(n, times, live) && times != [] && i < |live| && j < |live| && live[i] == live[j]
    ensures i == j
  {
    assert Fresh(n.peers, n.horizon, times[0]) == live;
    if i < j {
      LiveAreDistinct(n.peers, n.horizon, times[0], i, j);
    } else if j < i {
      LiveAreDistinct(n.peers, n.horizon, times[0], j, i);
    }
  }

  /**
   What an agent with a fixed list of live peers relays over as many rounds as there are live peers, from any beat on:
   exactly the peers at the multiples of gcd(period, peers).
   */
  lemma TickingRelays(n: Node, times: seq<nat>, live: seq<Rumor>, m: nat)
    requires Unique(n.peers) && Steady(n, times, live) && |live| >= 2 && n.period >= 1
    requires |times| == |live| * n.period && m < |live|
    ensures Relays(Ticks(n, times).1, live[m]) <==> Divides(Gcd(n.period, |live|), m)
  {
    hide *;
    RelayedIsReached(n, times, live, m);
    RelayedPositions(n.beat / n.period + 1, n.period, |live|, m);
  }

  /** So it relays all of them exactly when the period and their number are coprime. */
  lemma TickingRelaysAllExactlyWhenCoprime(n: Node, times: seq<nat>, live: seq<Rumor>)
    requires Unique(n.peers) && Steady(n, times, live) && |live| >= 2 && n.period >= 1
    requires |times| == |live| * n.period
    ensures (forall r :: r in live ==> Relays(Ticks(n, times).1, r)) <==> Gcd(n.period, |live|) == 1
  {
    hide *;
    var out, start := Ticks(n, times).1, n.beat / n.period + 1;
    forall m: nat | m < |live| ensures Relays(out, live[m]) <==> RelayedWithin(start, n.period, |live|, m) {
      RelayedIsReached(n, times, live, m);
    }
    AllRelayedExactlyWhenCoprime(start, n.period, |live|);
    forall m: nat | m < |live| ensures live[m] in live {}
    assert (forall r :: r in live ==> Relays(out, r)) <==> (forall m: nat :: m < |live| ==> Relays(out, live[m]));
  }
}
