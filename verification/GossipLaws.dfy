/** What an agent does, said without the functions that compute it (examples/gossip.rs). */
module GossipLaws {
  import opened Api
  import opened GossipMessages
  import opened Gossip
  import opened GossipMerge
  import opened GossipHistory

  // --- When a peer was last heard of ---------------------------------------------------------------------------------

  function SeenAt(peers: seq<Peer>, t: Tag): nat {
    if Find(peers, t) < |peers| then peers[Find(peers, t)].seen else 0
  }

  /** The peer is new, or its beat goes up. */
  predicate Rises(before: seq<Peer>, after: seq<Peer>, t: Tag) {
    t in Beats(after) && (t in Beats(before) ==> Beats(before)[t] < Beats(after)[t])
  }

  lemma BeatOf(peers: seq<Peer>, t: Tag)
    requires Unique(peers)
    ensures t in Beats(peers) <==> Find(peers, t) < |peers|
    ensures Find(peers, t) < |peers| ==> Beats(peers)[t] == peers[Find(peers, t)].beat
  {
    FindTag(peers, t);
    BeatsKeys(peers);
    if Find(peers, t) < |peers| {
      BeatAt(peers, Find(peers, t));
    }
  }

  lemma FindAt(peers: seq<Peer>, t: Tag, i: nat)
    requires i < |peers| && peers[i].tag == t && forall j :: 0 <= j < i ==> peers[j].tag != t
    ensures Find(peers, t) == i
  {
  }

  lemma FindNowhere(peers: seq<Peer>, t: Tag)
    requires forall j :: 0 <= j < |peers| ==> peers[j].tag != t
    ensures Find(peers, t) == |peers|
  {
  }

  lemma SeenAfterOne(self: Tag, peers: seq<Peer>, r: Rumor, time: nat, t: Tag)
    requires Unique(peers)
    ensures var after := AcceptOne(self, peers, r, time);
            && Unique(after)
            && SeenAt(after, t) == (if Rises(peers, after, t) then time else SeenAt(peers, t))
            && (t in Beats(peers) ==> t in Beats(after) && Beats(peers)[t] <= Beats(after)[t])
  {
    hide Beats;
    var after, i := AcceptOne(self, peers, r, time), Find(peers, r.0);
    AcceptOneUnique(self, peers, r, time);
    BeatOf(peers, t);
    BeatOf(after, t);
    var k := Find(peers, t);
    if k < |peers| {
      FindAt(after, t, k);
    } else if r.0 == t && t != self {
      FindAt(after, t, |peers|);
    } else {
      FindNowhere(after, t);
    }
  }

  /**
   An accept at `time` notes exactly that time for every peer that is new to it or whose beat it raises, and leaves the
   time of every other peer alone.
   */
  lemma {:induction false} SeenAfterAccept(self: Tag, peers: seq<Peer>, gossip: seq<Rumor>, time: nat, t: Tag)
    requires Unique(peers)
    ensures var after := AcceptAll(self, peers, gossip, time);
            && Unique(after)
            && SeenAt(after, t) == (if Rises(peers, after, t) then time else SeenAt(peers, t))
            && (t in Beats(peers) ==> t in Beats(after) && Beats(peers)[t] <= Beats(after)[t])
  {
    hide Beats, Unique, AcceptOne, SeenAt;
    if gossip != [] {
      var past := gossip[..|gossip| - 1];
      SeenAfterAccept(self, peers, past, time, t);
      SeenAfterOne(self, AcceptAll(self, peers, past, time), gossip[|gossip| - 1], time, t);
    }
  }

  // --- When a peer is reported out -----------------------------------------------------------------------------------

  /** The message comes from somebody else, and the agent does not list itself among its peers. */
  predicate Stranger(n: Node, from: Tag) {
    from != n.me && forall i :: 0 <= i < |n.peers| ==> n.peers[i].tag != n.me
  }

  lemma StrangerIsNotDeaf(n: Node, from: Tag)
    ensures Stranger(n, from) <==> !Deaf(n, from)
  {
  }

  /** What makes an agent look for peers that have gone silent. */
  predicate Looks(n: Node, act: Act) {
    match act
    case Hears(from, m, _) => m.Spread? || ((m.Ping? || m.Pong?) && Stranger(n, from))
    case Wakes(_) => n.period > 0 && (n.beat + 1) % n.period == 0
    case Begins(_, _, _, _, _) => false
  }

  lemma SilentIsStale(peers: seq<Peer>, t: Tag, horizon: nat, time: nat)
    requires Unique(peers)
    ensures StaleAt(peers, t, horizon, time) <==> t in TagsOf(peers) && SeenAt(peers, t) + horizon < time
  {
    FindTag(peers, t);
    if StaleAt(peers, t, horizon, time) {
      var i :| 0 <= i < |peers| && peers[i].tag == t && Stale(peers[i], horizon, time);
      FindUnique(peers, i);
    }
  }

  lemma OutsExactly(peers: seq<Peer>, down: set<Tag>, horizon: nat, time: nat, t: Tag)
    requires Unique(peers)
    ensures Out(t) in Outs(peers, down, horizon, time)
       <==> t !in down && t in TagsOf(peers) && SeenAt(peers, t) + horizon < time
  {
    hide StaleAt, Unique, TagsOf, SeenAt;
    OutsAboutOne(peers, down, horizon, time, t);
    DetectFindsStale(peers, down, horizon, time, t);
    SilentIsStale(peers, t, horizon, time);
    AboutIn(Outs(peers, down, horizon, time), Out(t));
  }

  lemma {:induction false} AboutIn(log: seq<Notice>, x: Notice)
    ensures x in log <==> x in About(log, x.tag)
  {
    if log != [] {
      AboutIn(log[..|log| - 1], x);
      assert log == log[..|log| - 1] + [log[|log| - 1]];
    }
  }

  lemma NoOutsAmongNew(self: Tag, peers: seq<Peer>, gossip: seq<Rumor>, time: nat, t: Tag)
    requires Unique(peers)
    ensures Out(t) !in NoticesAll(self, peers, gossip, time)
  {
    NoticesAboutOne(self, peers, gossip, time, t);
    AboutIn(NoticesAll(self, peers, gossip, time), Out(t));
  }

  lemma AcceptOuts(n: Node, time: nat, gossip: seq<Rumor>, t: Tag)
    requires Unique(n.peers)
    ensures var after := Accepting(n, time, gossip).peers;
            Out(t) in AcceptNotices(n, time, gossip) <==>
              t !in n.down && t in TagsOf(after) && SeenAt(after, t) + n.horizon < time
  {
    hide Unique, TagsOf, SeenAt, AcceptAll, NoticesAll, Outs;
    var after := Accepting(n, time, gossip).peers;
    NoticesAboutOne(n.tag, n.peers, gossip, time, t);
    NoOutsAmongNew(n.tag, n.peers, gossip, time, t);
    OutsExactly(after, n.down, n.horizon, time, t);
  }

  /**
   A peer is reported out exactly when the agent looks, knows the peer, does not hold it for down already, and what it
   noted as the peer's time lies more than the horizon back.
   */
  lemma OutExactlyWhen(n: Node, act: Act, t: Tag)
    requires Unique(n.peers)
    ensures var (after, notices) := Do(n, act);
            Out(t) in notices <==>
              && Looks(n, act) && t !in n.down && t in TagsOf(after.peers)
              && SeenAt(after.peers, t) + n.horizon < if act.Begins? then 0 else act.time
  {
    hide Unique, TagsOf, SeenAt, AcceptNotices, Accepting, Outs, Stranger, Deaf;
    match act
    case Hears(from, m, time) =>
      StrangerIsNotDeaf(n, from);
      HearOuts(n, from, m, time, t);
    case Wakes(time) => OutsExactly(n.peers, n.down, n.horizon, time, t);
    case Begins(_, _, _, _, _) =>
  }

  lemma HearOuts(n: Node, from: Tag, m: Message, time: nat, t: Tag)
    requires Unique(n.peers)
    ensures var after := Received(n, from, m, time).0.peers;
            Out(t) in Noticed(n, from, m, time) <==>
              && (m.Spread? || ((m.Ping? || m.Pong?) && !Deaf(n, from)))
              && t !in n.down && t in TagsOf(after) && SeenAt(after, t) + n.horizon < time
  {
    hide Unique, TagsOf, SeenAt, AcceptNotices, Accepting, Deaf;
    match m
    case Spread(rumors) => AcceptOuts(n, time, rumors, t);
    case Ping(name, beat) => AcceptOuts(n.(tag := name), time, [(from, beat)], t);
    case Pong(name, beat) => AcceptOuts(n.(tag := name), time, [(from, beat)], t);
    case _ =>
  }

  // --- Over a life ---------------------------------------------------------------------------------------------------

  function TimeOf(act: Act): nat {
    if act.Begins? then 0 else act.time
  }

  /** Act `i` of a life made a rumor of `t` known: the peer was new then, or its beat went up. */
  predicate RaisedIn(n: Node, acts: seq<Act>, i: nat, t: Tag)
    requires i < |acts|
  {
    Rises(Life(n, acts[..i]).0.peers, Life(n, acts[..i + 1]).0.peers, t)
  }

  /** The clock does not go back. */
  predicate Clock(acts: seq<Act>) {
    forall i, j :: 0 <= i < j < |acts| && !acts[i].Begins? && !acts[j].Begins? ==> acts[i].time <= acts[j].time
  }

  lemma SeenAfterAct(n: Node, act: Act, t: Tag)
    requires Unique(n.peers)
    ensures var after := Do(n, act).0;
            && Unique(after.peers)
            && SeenAt(after.peers, t) == (if Rises(n.peers, after.peers, t) then TimeOf(act) else SeenAt(n.peers, t))
            && (Rises(n.peers, after.peers, t) ==> !act.Begins?)
  {
    hide Unique, SeenAt, AcceptAll, DownAfter, Deaf, Beats;
    match act
    case Hears(from, m, time) =>
      match m {
        case Spread(rumors) => SeenAfterAccept(n.tag, n.peers, rumors, time, t);
        case Ping(name, beat) => SeenAfterAccept(name, n.peers, [(from, beat)], time, t);
        case Pong(name, beat) => SeenAfterAccept(name, n.peers, [(from, beat)], time, t);
        case _ =>
      }
    case _ =>
  }

  lemma LifeOne(n: Node, acts: seq<Act>)
    requires acts != []
    ensures Life(n, acts).0 == Do(Life(n, acts[..|acts| - 1]).0, acts[|acts| - 1]).0
  {
    hide Do;
  }

  /** What is noted for a peer is no earlier than any moment a rumor raised it. */
  lemma {:induction false} SeenIsLatest(n: Node, acts: seq<Act>, t: Tag)
    requires n.peers == [] && Clock(acts)
    ensures var now := Life(n, acts).0.peers;
            && Unique(now)
            && forall i :: 0 <= i < |acts| && RaisedIn(n, acts, i, t) ==>
                 !acts[i].Begins? && TimeOf(acts[i]) <= SeenAt(now, t)
  {
    hide Unique, SeenAt, Rises, Do, Life;
    if acts == [] {
      NothingYet(n);
    } else {
      var k := |acts| - 1;
      var past := acts[..k];
      SeenIsLatest(n, past, t);
      SeenAfterAct(Life(n, past).0, acts[k], t);
      LifeOne(n, acts);
      assert acts[..k + 1] == acts;
      forall i | 0 <= i < |acts| && RaisedIn(n, acts, i, t)
        ensures !acts[i].Begins? && TimeOf(acts[i]) <= SeenAt(Life(n, acts).0.peers, t)
      {
        if i < k {
          assert past[..i] == acts[..i] && past[..i + 1] == acts[..i + 1];
          assert RaisedIn(n, past, i, t);
        }
      }
    }
  }

  lemma NothingYet(n: Node)
    requires n.peers == []
    ensures Life(n, []).0 == n && Unique(n.peers)
  {
  }

  /**
   A peer that is reported out at some time has been silent for longer than the horizon: no rumor raised it at any
   moment from which the horizon would reach that time.
   */
  lemma OutMeansSilent(n: Node, acts: seq<Act>, act: Act, t: Tag, i: nat)
    requires n.peers == [] && n.down == {} && Clock(acts + [act])
    requires Out(t) in Do(Life(n, acts).0, act).1
    requires i <= |acts| && RaisedIn(n, acts + [act], i, t)
    ensures TimeOf((acts + [act])[i]) + Life(n, acts).0.horizon < TimeOf(act)
  {
    hide Unique, SeenAt, Rises, Do, Life, Looks, TagsOf;
    var all := acts + [act];
    SeenIsLatest(n, all, t);
    forall j, k | 0 <= j < k < |acts| && !acts[j].Begins? && !acts[k].Begins? ensures acts[j].time <= acts[k].time {
      assert all[j] == acts[j] && all[k] == acts[k];
    }
    SeenIsLatest(n, acts, t);
    LifeOne(n, all);
    assert all[..|all| - 1] == acts;
    OutExactlyWhen(Life(n, acts).0, act, t);
  }

  // --- What is sent --------------------------------------------------------------------------------------------------

  /**
   Of all messages that come as bytes only a Ping from a stranger is answered, to its sender and with the beat the agent
   has; a Stop makes the agent ask for its end and report it; everything else is taken in silence.
   */
  lemma OnlyStrangersPingsAreAnswered(n: Node, from: Tag, m: Message, time: nat)
    ensures var out := Received(n, from, m, time).1;
            && (forall i :: 0 <= i < |out| && out[i].Letter? ==>
                  m.Ping? && Stranger(n, from) && out[i] == Letter(from, Pong(from, n.beat)))
            && (m.Ping? && Stranger(n, from) ==> |out| == 1 && out[0].Letter?)
            && (m.Stop? ==> |out| == 2 && out[0].Halt? && out[1] == Report(n.countdown))
            && (!m.Stop? && !(m.Ping? && Stranger(n, from)) ==> |out| == 0)
  {
    hide Accepting;
    StrangerIsNotDeaf(n, from);
  }

  /** A message never changes what an agent is set to, its own beat included; only a Ping or Pong names it. */
  lemma MessagesKeepSettings(n: Node, from: Tag, m: Message, time: nat)
    ensures var after := Received(n, from, m, time).0;
            && after.me == n.me && after.beat == n.beat && after.horizon == n.horizon && after.period == n.period
            && after.tick == n.tick && after.countdown == n.countdown
            && after.tag == (if m.Ping? || m.Pong? then m.tag else n.tag)
            && (m.Stop? || m.Tick? || m.Init? ==> after == n)
  {
  }

  /** A Ping or Pong makes its sender known exactly when it is a stranger, and not the agent under its new name. */
  lemma StrangersBecomeKnown(n: Node, from: Tag, m: Message, time: nat, t: Tag)
    requires Unique(n.peers) && (m.Ping? || m.Pong?)
    ensures t in TagsOf(Received(n, from, m, time).0.peers)
       <==> t in TagsOf(n.peers) || (t == from && Stranger(n, from) && from != m.tag)
  {
    hide Unique, TagsOf, AcceptOne;
    StrangerIsNotDeaf(n, from);
    AcceptOneUnique(m.tag, n.peers, (from, m.beat), time);
    assert [(from, m.beat)][..0] == [];
    AcceptAllOfOne(m.tag, n.peers, (from, m.beat), time);
  }

  lemma AcceptAllOfOne(self: Tag, peers: seq<Peer>, r: Rumor, time: nat)
    ensures AcceptAll(self, peers, [r], time) == AcceptOne(self, peers, r, time)
  {
    assert [r][..0] == [];
    assert AcceptAll(self, peers, [], time) == peers;
  }

  /** With fewer than two live peers an agent passes on nobody but itself; it always comes last, with its own beat. */
  lemma RelayEndsWithSelf(self: Tag, beat: nat, peers: seq<Peer>, horizon: nat, time: nat)
    ensures var live, rumors := Fresh(peers, horizon, time), Relay(self, beat, peers, horizon, time);
            && rumors != [] && rumors[|rumors| - 1] == (self, beat)
            && |rumors| == (if |live| < 2 then 1 else 2)
            && (|live| >= 2 ==> rumors[0] in live)
  {
    hide Fresh;
  }

  /** A letter with gossip that ends with the agent itself. */
  predicate Gossips(e: Effect, to: Tag, self: Tag, beat: nat) {
    && e.Letter? && e.to == to && e.message.Spread?
    && e.message.rumors != [] && e.message.rumors[|e.message.rumors| - 1] == (self, beat)
  }

  /**
   A Tick raises the beat by one and always asks for the next Tick, last and once.  On every `period`-th beat, and on no
   other, it writes to each peer on record, live or not, once and in order, and to all the same.
   */
  lemma TickWritesToAll(n: Node, time: nat)
    ensures var (after, out) := Ticked(n, time);
            && after == n.(beat := n.beat + 1, down := after.down)
            && (!(n.period > 0 && (n.beat + 1) % n.period == 0) ==> after.down == n.down)
            && out != [] && out[|out| - 1] == Wake(n.tick)
            && |out| == 1 + (if n.period > 0 && (n.beat + 1) % n.period == 0 then |n.peers| else 0)
            && forall i, j :: 0 <= i < |out| - 1 && 0 <= j < |out| - 1 ==>
                 Gossips(out[i], n.peers[i].tag, n.tag, n.beat + 1) && out[i].message == out[j].message
  {
    hide DownAfter, Relay;
    RelayEndsWithSelf(n.tag, n.beat + 1, n.peers, n.horizon, time);
  }

  /** Each setting of an Init takes effect where it is meant to. */
  lemma SettingsTakeEffect(n: Node, horizon: nat, tick: nat, period: nat, pings: seq<Tag>, countdown: Tag, time: nat)
    ensures var (after, out) := Begun(n, horizon, tick, period, pings, countdown);
            && after.peers == n.peers && after.down == n.down && after.tag == n.tag && after.beat == n.beat
            && |out| == 1 + |pings| && out[0] == Nudge
            && (forall i :: 0 <= i < |pings| ==> out[i + 1] == Letter(pings[i], Ping(pings[i], n.beat)))
            && (var next := Ticked(after, time).1;
                && next[|next| - 1] == Wake(tick)
                && (|next| > 1 <==> n.peers != [] && period > 0 && (n.beat + 1) % period == 0))
            && Received(after, n.me, Content.Stop, time).1 == [Halt, Report(countdown)]
  {
    hide DownAfter, Relay;
    TickWritesToAll(Begun(n, horizon, tick, period, pings, countdown).0, time);
  }

  /** And the horizon of an Init decides who is out. */
  lemma HorizonTakesEffect(n: Node, horizon: nat, tick: nat, period: nat, pings: seq<Tag>, countdown: Tag, time: nat,
                           t: Tag)
    requires Unique(n.peers)
    ensures var after := Begun(n, horizon, tick, period, pings, countdown).0;
            Out(t) in TickNotices(after, time) <==>
              && period > 0 && (n.beat + 1) % period == 0
              && t !in n.down && t in TagsOf(n.peers) && SeenAt(n.peers, t) + horizon < time
  {
    hide Unique, TagsOf, SeenAt;
    OutExactlyWhen(Begun(n, horizon, tick, period, pings, countdown).0, Wakes(time), t);
  }
}
