/** What one agent reports about its peers over its whole life. */
module GossipHistory {
  import opened Api
  import opened GossipMessages
  import opened Gossip
  import opened GossipMerge

  /** What can happen to an agent. */
  datatype Act =
    | Hears(from: Tag, message: Message, time: nat)
    | Wakes(time: nat)
    | Begins(horizon: nat, tick: nat, period: nat, pings: seq<Tag>, countdown: Tag)

  /** The agent after it, and the notices it gives. */
  function Do(n: Node, act: Act): (Node, seq<Notice>) {
    match act
    case Hears(from, m, time) => (Received(n, from, m, time).0, Noticed(n, from, m, time))
    case Wakes(time) => (Ticked(n, time).0, TickNotices(n, time))
    case Begins(h, k, p, pings, c) => (Begun(n, h, k, p, pings, c).0, [])
  }

  function Life(n: Node, acts: seq<Act>): (Node, seq<Notice>) {
    if acts == [] then (n, [])
    else
      var (before, log) := Life(n, acts[..|acts| - 1]);
      var (after, more) := Do(before, acts[|acts| - 1]);
      (after, log + more)
  }

  function About(log: seq<Notice>, t: Tag): seq<Notice> {
    if log == [] then []
    else About(log[..|log| - 1], t) + if log[|log| - 1].tag == t then [log[|log| - 1]] else []
  }

  lemma {:induction false} AboutSplits(a: seq<Notice>, b: seq<Notice>, t: Tag)
    ensures About(a + b, t) == About(a, t) + About(b, t)
  {
    if b == [] {
      assert a + b == a;
    } else {
      assert (a + b)[..|a + b| - 1] == a + b[..|b| - 1];
      AboutSplits(a, b[..|b| - 1], t);
    }
  }

  lemma {:induction false} NoticesAboutOne(self: Tag, peers: seq<Peer>, gossip: seq<Rumor>, time: nat, t: Tag)
    requires Unique(peers)
    ensures Unique(AcceptAll(self, peers, gossip, time))
    ensures TagsOf(peers) <= TagsOf(AcceptAll(self, peers, gossip, time))
    ensures About(NoticesAll(self, peers, gossip, time), t) ==
            if t !in TagsOf(peers) && t in TagsOf(AcceptAll(self, peers, gossip, time)) then [New(t)] else []
  {
    if gossip != [] {
      hide AcceptOne, Unique, TagsOf;
      var past, r := gossip[..|gossip| - 1], gossip[|gossip| - 1];
      var before := AcceptAll(self, peers, past, time);
      NoticesAboutOne(self, peers, past, time, t);
      AcceptOneUnique(self, before, r, time);
      FindTag(before, r.0);
      AboutSplits(NoticesAll(self, peers, past, time), NoticesOne(self, before, r), t);
      AboutNotice(self, before, r, t);
    }
  }

  lemma AboutNotice(self: Tag, peers: seq<Peer>, r: Rumor, t: Tag)
    ensures About(NoticesOne(self, peers, r), t) ==
            if r.0 == t && t != self && Find(peers, t) == |peers| then [New(t)] else []
  {
    assert [New(r.0)][..0] == [];
  }

  lemma {:induction false} OutsAboutOne(peers: seq<Peer>, down: set<Tag>, horizon: nat, time: nat, t: Tag)
    ensures down <= DownAfter(peers, down, horizon, time)
    ensures About(Outs(peers, down, horizon, time), t) ==
            if t !in down && t in DownAfter(peers, down, horizon, time) then [Out(t)] else []
  {
    if peers != [] {
      var init, last := peers[..|peers| - 1], peers[|peers| - 1];
      var before := DownAfter(init, down, horizon, time);
      OutsAboutOne(init, down, horizon, time, t);
      var more := if Stale(last, horizon, time) && last.tag !in before then [Out(last.tag)] else [];
      AboutSplits(Outs(init, down, horizon, time), more, t);
      assert [Out(last.tag)][..0] == [];
    }
  }

  predicate InOrder(n: Node) {
    Unique(n.peers) && n.down <= TagsOf(n.peers)
  }

  lemma StaleIsKnown(peers: seq<Peer>, down: set<Tag>, horizon: nat, time: nat)
    ensures DownAfter(peers, down, horizon, time) <= down + TagsOf(peers)
  {
    forall t | t in DownAfter(peers, down, horizon, time) ensures t in down + TagsOf(peers) {
      DetectFindsStale(peers, down, horizon, time, t);
    }
  }

  /** The notices about a peer: none while it is unknown, then that it is new, then, once, that it is out. */
  function Expected(n: Node, t: Tag): seq<Notice> {
    if t in n.down then [New(t), Out(t)] else if t in TagsOf(n.peers) then [New(t)] else []
  }

  /** `after` and what was noticed on the way to it fit together for `t`. */
  predicate Told(n: Node, after: Node, notices: seq<Notice>, t: Tag) {
    InOrder(after) && Expected(after, t) == Expected(n, t) + About(notices, t)
  }

  lemma NothingTold(n: Node, after: Node, t: Tag)
    requires InOrder(n) && after.peers == n.peers && after.down == n.down
    ensures Told(n, after, [], t)
  {
  }

  lemma AcceptTold(n: Node, time: nat, gossip: seq<Rumor>, t: Tag)
    requires InOrder(n)
    ensures Told(n, Accepting(n, time, gossip), AcceptNotices(n, time, gossip), t)
  {
    hide Unique, TagsOf, AcceptAll, DownAfter, About;
    var peers := AcceptAll(n.tag, n.peers, gossip, time);
    NoticesAboutOne(n.tag, n.peers, gossip, time, t);
    StaleIsKnown(peers, n.down, n.horizon, time);
    OutsAboutOne(peers, n.down, n.horizon, time, t);
    AboutSplits(NoticesAll(n.tag, n.peers, gossip, time), Outs(peers, n.down, n.horizon, time), t);
  }

  lemma DetectTold(n: Node, time: nat, after: Node, t: Tag)
    requires InOrder(n) && after.peers == n.peers && after.down == DownAfter(n.peers, n.down, n.horizon, time)
    ensures Told(n, after, Outs(n.peers, n.down, n.horizon, time), t)
  {
    hide Unique, TagsOf, DownAfter, About;
    StaleIsKnown(n.peers, n.down, n.horizon, time);
    OutsAboutOne(n.peers, n.down, n.horizon, time, t);
  }

  lemma DoTold(n: Node, act: Act, t: Tag)
    requires InOrder(n)
    ensures Told(n, Do(n, act).0, Do(n, act).1, t)
  {
    hide InOrder, Expected, About, Accepting, AcceptNotices, Deaf, Told;
    match act
    case Hears(from, m, time) => HearTold(n, from, m, time, t);
    case Wakes(time) =>
      if IsMultiple(n.beat + 1, n.period) {
        DetectTold(n, time, Do(n, act).0, t);
      } else {
        NothingTold(n, Do(n, act).0, t);
      }
    case Begins(_, _, _, _, _) => NothingTold(n, Do(n, act).0, t);
  }

  lemma HearTold(n: Node, from: Tag, m: Message, time: nat, t: Tag)
    requires InOrder(n)
    ensures Told(n, Received(n, from, m, time).0, Noticed(n, from, m, time), t)
  {
    hide Accepting, AcceptNotices, Deaf, About;
    match m
    case Spread(rumors) => AcceptTold(n, time, rumors, t);
    case Ping(name, beat) =>
      NothingTold(n, n.(tag := name), t);
      AcceptTold(n.(tag := name), time, [(from, beat)], t);
    case Pong(name, beat) =>
      NothingTold(n, n.(tag := name), t);
      AcceptTold(n.(tag := name), time, [(from, beat)], t);
    case _ => NothingTold(n, n, t);
  }

  lemma {:induction false} HistoryOfOne(n: Node, acts: seq<Act>, t: Tag)
    requires n.peers == [] && n.down == {}
    ensures InOrder(Life(n, acts).0) && About(Life(n, acts).1, t) == Expected(Life(n, acts).0, t)
  {
    if acts != [] {
      hide InOrder, Expected, Do;
      var (before, log) := Life(n, acts[..|acts| - 1]);
      HistoryOfOne(n, acts[..|acts| - 1], t);
      DoTold(before, acts[|acts| - 1], t);
      AboutSplits(log, Do(before, acts[|acts| - 1]).1, t);
    }
  }

  /** Over any life of an agent, the history of each peer is a prefix of [New, Out], and says exactly how it stands. */
  lemma PeerHistory(n: Node, acts: seq<Act>, t: Tag)
    requires n.peers == [] && n.down == {}
    ensures var (now, log) := Life(n, acts);
            && About(log, t) <= [New(t), Out(t)]
            && (New(t) in About(log, t) <==> t in TagsOf(now.peers))
            && (Out(t) in About(log, t) <==> t in now.down)
  {
    HistoryOfOne(n, acts, t);
  }

  /** An agent only reports a peer it knows and has not heard of for longer than the horizon. */
  lemma OnlyStaleGoOut(n: Node, act: Act, t: Tag)
    requires t in Do(n, act).0.down && t !in n.down
    ensures !act.Begins? && StaleAt(Do(n, act).0.peers, t, n.horizon, act.time)
  {
    hide AcceptAll, StaleAt;
    DetectFindsStale(Do(n, act).0.peers, n.down, n.horizon, if act.Begins? then 0 else act.time, t);
  }
}
