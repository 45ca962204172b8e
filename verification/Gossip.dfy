/** One agent of the membership example: heartbeat merge, failure detection and relay (examples/gossip.rs). */
module Gossip {
  import opened Api
  import opened GossipMessages

  datatype Peer = Peer(tag: Tag, beat: nat, seen: nat)

  datatype Notice = New(tag: Tag) | Out(tag: Tag)

  type Rumor = (Tag, nat)

  function TagsOf(peers: seq<Peer>): set<Tag> {
    set i | 0 <= i < |peers| :: peers[i].tag
  }

  predicate Unique(peers: seq<Peer>) {
    forall i, j :: 0 <= i < j < |peers| ==> peers[i].tag != peers[j].tag
  }

  // --- accept --------------------------------------------------------------------------------------------------------

  /** The position of the first peer with this tag, or the length. */
  function Find(peers: seq<Peer>, t: Tag): (i: nat)
    ensures i <= |peers|
    ensures i < |peers| ==> peers[i].tag == t
    ensures forall j :: 0 <= j < i ==> peers[j].tag != t
  {
    if peers == [] || peers[0].tag == t then 0
    else
      var i := 1 + Find(peers[1..], t);
      assert forall j :: 0 < j < |peers| ==> peers[j] == peers[1..][j - 1];
      i
  }

  function AcceptOne(self: Tag, peers: seq<Peer>, rumor: Rumor, time: nat): seq<Peer> {
    var (t, b) := rumor;
    if t == self then peers
    else
      var i := Find(peers, t);
      if i == |peers| then peers + [Peer(t, b, time)]
      else if b > peers[i].beat then peers[i := Peer(t, b, time)]
      else peers
  }

  function NoticesOne(self: Tag, peers: seq<Peer>, rumor: Rumor): seq<Notice> {
    if rumor.0 != self && Find(peers, rumor.0) == |peers| then [New(rumor.0)] else []
  }

  function AcceptAll(self: Tag, peers: seq<Peer>, gossip: seq<Rumor>, time: nat): seq<Peer> {
    if gossip == [] then peers
    else AcceptOne(self, AcceptAll(self, peers, gossip[..|gossip| - 1], time), gossip[|gossip| - 1], time)
  }

  function NoticesAll(self: Tag, peers: seq<Peer>, gossip: seq<Rumor>, time: nat): seq<Notice> {
    if gossip == [] then []
    else
      NoticesAll(self, peers, gossip[..|gossip| - 1], time)
      + NoticesOne(self, AcceptAll(self, peers, gossip[..|gossip| - 1], time), gossip[|gossip| - 1])
  }

  // --- detect --------------------------------------------------------------------------------------------------------

  predicate Stale(p: Peer, horizon: nat, time: nat) {
    p.seen + horizon < time
  }

  function DownAfter(peers: seq<Peer>, down: set<Tag>, horizon: nat, time: nat): set<Tag> {
    if peers == [] then down
    else
      var before, last := DownAfter(peers[..|peers| - 1], down, horizon, time), peers[|peers| - 1];
      if Stale(last, horizon, time) && last.tag !in before then before + {last.tag} else before
  }

  function Outs(peers: seq<Peer>, down: set<Tag>, horizon: nat, time: nat): seq<Notice> {
    if peers == [] then []
    else
      var before, last := DownAfter(peers[..|peers| - 1], down, horizon, time), peers[|peers| - 1];
      Outs(peers[..|peers| - 1], down, horizon, time)
      + if Stale(last, horizon, time) && last.tag !in before then [Out(last.tag)] else []
  }

  predicate StaleAt(peers: seq<Peer>, t: Tag, horizon: nat, time: nat) {
    exists i :: 0 <= i < |peers| && peers[i].tag == t && Stale(peers[i], horizon, time)
  }

  lemma StaleAtSplits(peers: seq<Peer>, t: Tag, horizon: nat, time: nat)
    requires peers != []
    ensures var init, last := peers[..|peers| - 1], peers[|peers| - 1];
            StaleAt(peers, t, horizon, time) <==>
            StaleAt(init, t, horizon, time) || (last.tag == t && Stale(last, horizon, time))
  {
    var init := peers[..|peers| - 1];
    assert forall i :: 0 <= i < |init| ==> init[i] == peers[i];
    if StaleAt(init, t, horizon, time) {
      var i :| 0 <= i < |init| && init[i].tag == t && Stale(init[i], horizon, time);
      assert peers[i].tag == t && Stale(peers[i], horizon, time);
    }
  }

  /** Whoever has not been heard of for longer than the horizon is down, and nobody else becomes so. */
  lemma {:induction false} DetectFindsStale(peers: seq<Peer>, down: set<Tag>, horizon: nat, time: nat, t: Tag)
    ensures t in DownAfter(peers, down, horizon, time) <==> t in down || StaleAt(peers, t, horizon, time)
  {
    if peers != [] {
      DetectFindsStale(peers[..|peers| - 1], down, horizon, time, t);
      StaleAtSplits(peers, t, horizon, time);
    }
  }

  // --- gossip --------------------------------------------------------------------------------------------------------

  function Fresh(peers: seq<Peer>, horizon: nat, time: nat): seq<Rumor> {
    if peers == [] then []
    else
      (if peers[0].seen + horizon >= time then [(peers[0].tag, peers[0].beat)] else [])
      + Fresh(peers[1..], horizon, time)
  }

  function Relay(self: Tag, beat: nat, peers: seq<Peer>, horizon: nat, time: nat): seq<Rumor> {
    var live := Fresh(peers, horizon, time);
    if |live| < 2 then [(self, beat)] else [live[beat % |live|], (self, beat)]
  }

  predicate LiveAt(peers: seq<Peer>, i: nat, horizon: nat, time: nat, r: Rumor) {
    i < |peers| && peers[i].tag == r.0 && peers[i].beat == r.1 && peers[i].seen + horizon >= time
  }

  /** The live peers are exactly those heard of within the horizon, with the beat on record. */
  lemma {:induction false} FreshAreKnown(peers: seq<Peer>, horizon: nat, time: nat, r: Rumor)
    ensures r in Fresh(peers, horizon, time) <==> exists i: nat :: LiveAt(peers, i, horizon, time, r)
  {
    if peers != [] {
      FreshAreKnown(peers[1..], horizon, time, r);
      forall i: nat | LiveAt(peers[1..], i, horizon, time, r) ensures LiveAt(peers, i + 1, horizon, time, r) {}
      forall i: nat | i > 0 && LiveAt(peers, i, horizon, time, r) ensures LiveAt(peers[1..], i - 1, horizon, time, r) {}
      assert LiveAt(peers, 0, horizon, time, r) ==> r == (peers[0].tag, peers[0].beat);
    }
  }

  // --- receive -------------------------------------------------------------------------------------------------------

  type Message = Content<Tag, nat>

  /** The fields of `Agent`, and the name its own runtime knows it by. */
  datatype Node = Node(
    me: Tag, tag: Tag, beat: nat, peers: seq<Peer>, down: set<Tag>, horizon: nat, period: nat, tick: nat, countdown: Tag
  )

  /** What an agent does with its sender. */
  datatype Effect =
    | Letter(to: Tag, message: Message)  // as bytes, with its own name as the sender
    | Nudge                              // a Tick to itself, at once
    | Wake(delay: nat)                   // a Tick to itself, later
    | Halt                               // it asks to be stopped
    | Report(to: Tag)                    // it tells the countdown that it is down

  /** `is_multiple_of`: zero is the only multiple of zero. */
  predicate IsMultiple(n: nat, k: nat) {
    if k == 0 then n == 0 else n % k == 0
  }

  function Accepting(n: Node, time: nat, gossip: seq<Rumor>): Node {
    var peers := AcceptAll(n.tag, n.peers, gossip, time);
    n.(peers := peers, down := DownAfter(peers, n.down, n.horizon, time))
  }

  /** The events `accept` returns: the new peers in the order of the list, then the ones that are out. */
  function AcceptNotices(n: Node, time: nat, gossip: seq<Rumor>): seq<Notice> {
    NoticesAll(n.tag, n.peers, gossip, time) + Outs(Accepting(n, time, gossip).peers, n.down, n.horizon, time)
  }

  /** Whether the agent knows a peer by the name its own runtime gives it, or was written to by itself. */
  predicate Deaf(n: Node, from: Tag) {
    n.me == from || n.me in TagsOf(n.peers)
  }

  /** A message that came as bytes. */
  function Received(n: Node, from: Tag, m: Message, time: nat): (Node, seq<Effect>) {
    match m
    case Spread(rumors) => (Accepting(n, time, rumors), [])
    case Ping(name, beat) =>
      if Deaf(n, from) then (n.(tag := name), [])
      else (Accepting(n.(tag := name), time, [(from, beat)]), [Letter(from, Pong(from, n.beat))])
    case Pong(name, beat) =>
      if Deaf(n, from) then (n.(tag := name), [])
      else (Accepting(n.(tag := name), time, [(from, beat)]), [])
    case Stop => (n, [Halt, Report(n.countdown)])
    case _ => (n, [])
  }

  /** What the agent notices about its peers on such a message. */
  function Noticed(n: Node, from: Tag, m: Message, time: nat): seq<Notice> {
    match m
    case Spread(rumors) => AcceptNotices(n, time, rumors)
    case Ping(name, beat) => if Deaf(n, from) then [] else AcceptNotices(n.(tag := name), time, [(from, beat)])
    case Pong(name, beat) => if Deaf(n, from) then [] else AcceptNotices(n.(tag := name), time, [(from, beat)])
    case _ => []
  }

  function ToAll(peers: seq<Peer>, m: Message): seq<Effect> {
    seq(|peers|, i requires 0 <= i < |peers| => Letter(peers[i].tag, m))
  }

  /** A Tick: the heartbeat, and every so many of them a round of gossip. */
  function Ticked(n: Node, time: nat): (Node, seq<Effect>) {
    var n' := n.(beat := n.beat + 1);
    if IsMultiple(n'.beat, n.period) then
      (n'.(down := DownAfter(n.peers, n.down, n.horizon, time)),
       ToAll(n.peers, Spread(Relay(n.tag, n'.beat, n.peers, n.horizon, time))) + [Wake(n.tick)])
    else
      (n', [Wake(n.tick)])
  }

  function TickNotices(n: Node, time: nat): seq<Notice> {
    if IsMultiple(n.beat + 1, n.period) then Outs(n.peers, n.down, n.horizon, time) else []
  }

  function Pings(pings: seq<Tag>, beat: nat): seq<Effect> {
    seq(|pings|, i requires 0 <= i < |pings| => Letter(pings[i], Ping(pings[i], beat)))
  }

  /** An Init: the settings, a first Tick, and a ping to each address given. */
  function Begun(n: Node, horizon: nat, tick: nat, period: nat, pings: seq<Tag>, countdown: Tag): (Node, seq<Effect>) {
    (n.(horizon := horizon, tick := tick, period := period, countdown := countdown), [Nudge] + Pings(pings, n.beat))
  }

  // --- The agent itself ----------------------------------------------------------------------------------------------

  class Agent {
    const me: Tag
    var tag: Tag
    var beat: nat
    var peers: seq<Peer>
    var down: set<Tag>
    var horizon: nat
    var period: nat
    var tick: nat
    var countdown: Tag

    function View(): Node
      reads this
    {
      Node(me, tag, beat, peers, down, horizon, period, tick, countdown)
    }

    constructor (me: Tag)
      ensures View() == Node(me, Tag(""), 0, [], {}, 0, 0, 0, Tag(""))
    {
      this.me := me;
      tag, beat, peers, down, horizon, period, tick, countdown := Tag(""), 0, [], {}, 0, 0, 0, Tag("");
    }

    method Detect(time: nat) returns (events: seq<Notice>)
      modifies this`down
      ensures down == DownAfter(peers, old(down), horizon, time)
      ensures events == Outs(peers, old(down), horizon, time)
    {
      events := [];
      for i := 0 to |peers|
        invariant down == DownAfter(peers[..i], old(down), horizon, time)
        invariant events == Outs(peers[..i], old(down), horizon, time)
      {
        assert peers[..i + 1][..i] == peers[..i];
        if peers[i].seen + horizon < time && peers[i].tag !in down {
          down := down + {peers[i].tag};
          events := events + [Out(peers[i].tag)];
        }
      }
      assert peers[..|peers|] == peers;
    }

    method Accept(time: nat, gossip: seq<Rumor>) returns (events: seq<Notice>)
      modifies this`peers, this`down
      ensures View() == Accepting(old(View()), time, gossip)
      ensures events == AcceptNotices(old(View()), time, gossip)
    {
      events := [];
      for n := 0 to |gossip|
        invariant peers == AcceptAll(tag, old(peers), gossip[..n], time)
        invariant events == NoticesAll(tag, old(peers), gossip[..n], time)
        invariant down == old(down)
      {
        assert gossip[..n + 1][..n] == gossip[..n];
        var (t, b) := gossip[n];
        if t == tag {
          continue;
        }
        var i := Find(peers, t);
        if i < |peers| {
          if b > peers[i].beat {
            peers := peers[i := peers[i].(beat := b, seen := time)];
          }
        } else {
          events := events + [New(t)];
          peers := peers + [Peer(t, b, time)];
        }
      }
      assert gossip[..|gossip|] == gossip;
      var outs := Detect(time);
      events := events + outs;
    }

    /** A message that came as bytes; `events` is what is logged. */
    method Receive(from: Tag, m: Message, time: nat) returns (out: seq<Effect>, events: seq<Notice>)
      modifies this`tag, this`peers, this`down
      ensures (View(), out) == Received(old(View()), from, m, time)
      ensures events == Noticed(old(View()), from, m, time)
    {
      out, events := [], [];
      match m {
        case Spread(rumors) =>
          events := Accept(time, rumors);
        case Ping(name, beat) =>
          tag := name;
          var known := exists i :: 0 <= i < |peers| && peers[i].tag == me;
          if me != from && !known {
            out := [Letter(from, Pong(from, this.beat))];
            events := Accept(time, [(from, beat)]);
          }
        case Pong(name, beat) =>
          tag := name;
          var known := exists i :: 0 <= i < |peers| && peers[i].tag == me;
          if me != from && !known {
            events := Accept(time, [(from, beat)]);
          }
        case Stop =>
          out := [Halt, Report(countdown)];
        case _ =>
      }
    }

    method OnTick(time: nat) returns (out: seq<Effect>, events: seq<Notice>)
      modifies this`beat, this`down
      ensures (View(), out) == Ticked(old(View()), time)
      ensures events == TickNotices(old(View()), time)
    {
      out, events := [], [];
      beat := beat + 1;
      if IsMultiple(beat, period) {
        events := Detect(time);
        var m := Spread(Relay(tag, beat, peers, horizon, time));
        for i := 0 to |peers|
          invariant out == ToAll(peers, m)[..i]
        {
          out := out + [Letter(peers[i].tag, m)];
        }
        assert out == ToAll(peers, m);
      }
      out := out + [Wake(tick)];
      assert [] + [Wake(tick)] == [Wake(tick)];
    }

    method OnInit(horizon: nat, tick: nat, period: nat, pings: seq<Tag>, countdown: Tag) returns (out: seq<Effect>)
      modifies this`horizon, this`tick, this`period, this`countdown
      ensures (View(), out) == Begun(old(View()), horizon, tick, period, pings, countdown)
    {
      this.horizon, this.tick, this.period, this.countdown := horizon, tick, period, countdown;
      out := [Nudge];
      for i := 0 to |pings|
        invariant out == [Nudge] + Pings(pings, beat)[..i]
      {
        out := out + [Letter(pings[i], Ping(pings[i], beat))];
      }
      assert Pings(pings, beat)[..|pings|] == Pings(pings, beat);
    }
  }
}
