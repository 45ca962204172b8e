/** Any number of agents on a network that may lose, repeat and reorder their messages. */
module GossipNet {
  import opened Api
  import opened GossipMessages
  import opened Gossip
  import opened GossipMerge

  datatype Packet = Packet(from: Tag, to: Tag, message: Message)

  /** The agents by their public addresses, and every message ever sent. */
  datatype Net = Net(nodes: map<Tag, Node>, sent: set<Packet>)

  datatype Step =
    | Setup(n: Tag, horizon: nat, tick: nat, period: nat, pings: seq<Tag>, countdown: Tag)
    | Tock(n: Tag, time: nat)
    | Deliver(packet: Packet, time: nat)

  /** Agents start knowing nothing; the empty tag is nobody's address. */
  predicate Init(net: Net) {
    && net.sent == {} && Tag("") !in net.nodes
    && forall n :: n in net.nodes ==>
         net.nodes[n].tag == Tag("") && net.nodes[n].beat == 0 && net.nodes[n].peers == [] && net.nodes[n].down == {}
  }

  predicate Enabled(net: Net, step: Step) {
    match step
    case Setup(n, _, _, _, _, _) => n in net.nodes
    case Tock(n, _) => n in net.nodes
    case Deliver(p, _) => p in net.sent && p.to in net.nodes
  }

  /** What goes out on the network.  Ticks stay at home, and so does what concerns the end of an agent. */
  function Mailed(from: Tag, out: seq<Effect>): set<Packet> {
    set l | l in out && l.Letter? :: Packet(from, l.to, l.message)
  }

  function Apply(net: Net, step: Step): Net
    requires Enabled(net, step)
  {
    match step
    case Setup(n, h, k, p, pings, c) =>
      var (node, out) := Begun(net.nodes[n], h, k, p, pings, c);
      Net(net.nodes[n := node], net.sent + Mailed(n, out))
    case Tock(n, time) =>
      var (node, out) := Ticked(net.nodes[n], time);
      Net(net.nodes[n := node], net.sent + Mailed(n, out))
    case Deliver(p, time) =>
      var (node, out) := Received(net.nodes[p.to], p.from, p.message, time);
      Net(net.nodes[p.to := node], net.sent + Mailed(p.to, out))
  }

  predicate Runs(net: Net, steps: seq<Step>)
    decreases |steps|
  {
    steps == [] || (Enabled(net, steps[0]) && Runs(Apply(net, steps[0]), steps[1..]))
  }

  function End(net: Net, steps: seq<Step>): Net
    requires Runs(net, steps)
    decreases |steps|
  {
    if steps == [] then net else End(Apply(net, steps[0]), steps[1..])
  }

  // --- Truth ---------------------------------------------------------------------------------------------------------

  /** Nobody is ahead of itself. */
  predicate True(net: Net, t: Tag, b: nat) {
    t in net.nodes ==> b <= net.nodes[t].beat
  }

  predicate TrueRumors(net: Net, rumors: seq<Rumor>) {
    forall i :: 0 <= i < |rumors| ==> True(net, rumors[i].0, rumors[i].1)
  }

  predicate TruePeers(net: Net, peers: seq<Peer>) {
    forall i :: 0 <= i < |peers| ==> True(net, peers[i].tag, peers[i].beat)
  }

  /** What is said in a message is true, and a message that tells its receiver its name tells it right. */
  predicate TruePacket(net: Net, p: Packet) {
    p.from in net.nodes &&
    match p.message
    case Ping(name, b) => name == p.to && True(net, p.from, b)
    case Pong(name, b) => name == p.to && True(net, p.from, b)
    case Spread(rumors) => TrueRumors(net, rumors)
    case _ => true
  }

  predicate TrueNode(net: Net, n: Tag)
    requires n in net.nodes
  {
    && Unique(net.nodes[n].peers)
    && TruePeers(net, net.nodes[n].peers)
    && (net.nodes[n].tag == n || net.nodes[n].tag !in net.nodes)
  }

  ghost predicate Truthful(net: Net) {
    && (forall p :: p in net.sent ==> TruePacket(net, p))
    && (forall n :: n in net.nodes ==> TrueNode(net, n))
    && Tag("") !in net.nodes
  }

  /** Beats only grow, so what was true stays true. */
  predicate Grown(net: Net, net': Net) {
    net.nodes.Keys == net'.nodes.Keys && forall n :: n in net.nodes ==> net.nodes[n].beat <= net'.nodes[n].beat
  }

  lemma TruePacketGrows(net: Net, net': Net, p: Packet)
    requires Grown(net, net') && TruePacket(net, p)
    ensures TruePacket(net', p)
  {
    if p.message.Spread? {
      forall i | 0 <= i < |p.message.rumors| ensures True(net', p.message.rumors[i].0, p.message.rumors[i].1) {
        assert True(net, p.message.rumors[i].0, p.message.rumors[i].1);
      }
    }
  }

  lemma TruePeersGrow(net: Net, net': Net, peers: seq<Peer>)
    requires Grown(net, net') && TruePeers(net, peers)
    ensures TruePeers(net', peers)
  {
    forall i | 0 <= i < |peers| ensures True(net', peers[i].tag, peers[i].beat) {
      assert True(net, peers[i].tag, peers[i].beat);
    }
  }

  lemma {:induction false} AcceptTrue(net: Net, self: Tag, peers: seq<Peer>, rumors: seq<Rumor>, time: nat)
    requires TruePeers(net, peers) && TrueRumors(net, rumors) && Unique(peers)
    ensures TruePeers(net, AcceptAll(self, peers, rumors, time)) && Unique(AcceptAll(self, peers, rumors, time))
  {
    if rumors != [] {
      var past, r := rumors[..|rumors| - 1], rumors[|rumors| - 1];
      assert forall i :: 0 <= i < |past| ==> past[i] == rumors[i];
      var before := AcceptAll(self, peers, past, time);
      AcceptTrue(net, self, peers, past, time);
      AcceptOneUnique(self, before, r, time);
      var after := AcceptAll(self, peers, rumors, time);
      forall i | 0 <= i < |after| ensures True(net, after[i].tag, after[i].beat) {
        assert True(net, r.0, r.1);
        if i < |before| {
          assert True(net, before[i].tag, before[i].beat);
        }
      }
    }
  }

  lemma RelayTrue(net: Net, self: Tag, beat: nat, peers: seq<Peer>, horizon: nat, time: nat)
    requires TruePeers(net, peers) && True(net, self, beat)
    ensures TrueRumors(net, Relay(self, beat, peers, horizon, time))
  {
    var live := Fresh(peers, horizon, time);
    forall r | r in live ensures True(net, r.0, r.1) {
      FreshAreKnown(peers, horizon, time, r);
    }
  }

  lemma SetupTrue(net: Net, step: Step)
    requires Enabled(net, step) && step.Setup? && Truthful(net)
    ensures Truthful(Apply(net, step))
  {
    var net' := Apply(net, step);
    forall q | q in net'.sent ensures TruePacket(net', q) {
      if q in net.sent {
        TruePacketGrows(net, net', q);
      }
    }
    forall m | m in net'.nodes ensures TrueNode(net', m) {
      assert TrueNode(net, m);
      TruePeersGrow(net, net', net.nodes[m].peers);
    }
  }

  lemma TickTrue(net: Net, n: Tag, time: nat)
    requires n in net.nodes && Truthful(net)
    ensures Truthful(Apply(net, Tock(n, time)))
  {
    var net' := Apply(net, Tock(n, time));
    var node := net.nodes[n];
    assert TrueNode(net, n);
    TruePeersGrow(net, net', node.peers);
    RelayTrue(net', node.tag, node.beat + 1, node.peers, node.horizon, time);
    forall q | q in net'.sent ensures TruePacket(net', q) {
      if q in net.sent {
        TruePacketGrows(net, net', q);
      }
    }
    forall m | m in net'.nodes ensures TrueNode(net', m) {
      assert TrueNode(net, m);
      TruePeersGrow(net, net', net.nodes[m].peers);
    }
  }

  lemma ReceivedTrue(net: Net, p: Packet, time: nat)
    requires p in net.sent && p.to in net.nodes && TruePacket(net, p) && TrueNode(net, p.to)
    ensures var (node, out) := Received(net.nodes[p.to], p.from, p.message, time);
            && TruePeers(net, node.peers) && Unique(node.peers)
            && node.beat == net.nodes[p.to].beat && (node.tag == p.to || node.tag == net.nodes[p.to].tag)
            && forall l :: l in out && l.Letter? ==> TruePacket(net, Packet(p.to, l.to, l.message))
  {
    hide AcceptAll, Unique, TruePeers, DownAfter;
    var node := net.nodes[p.to];
    match p.message
    case Spread(rumors) => AcceptTrue(net, node.tag, node.peers, rumors, time);
    case Ping(name, b) => AcceptTrue(net, name, node.peers, [(p.from, b)], time);
    case Pong(name, b) => AcceptTrue(net, name, node.peers, [(p.from, b)], time);
    case _ =>
  }

  lemma DeliverTrue(net: Net, p: Packet, time: nat)
    requires Enabled(net, Deliver(p, time)) && Truthful(net)
    ensures Truthful(Apply(net, Deliver(p, time)))
  {
    hide Received, Unique, TruePeers, TruePacket;
    var net' := Apply(net, Deliver(p, time));
    assert TrueNode(net, p.to);
    ReceivedTrue(net, p, time);
    forall q | q in net'.sent ensures TruePacket(net', q) {
      TruePacketGrows(net, net', q);
    }
    forall m | m in net'.nodes ensures TrueNode(net', m) {
      assert TrueNode(net, m);
      TruePeersGrow(net, net', net'.nodes[m].peers);
    }
  }

  lemma StepTruthful(net: Net, step: Step)
    requires Enabled(net, step) && Truthful(net)
    ensures Truthful(Apply(net, step))
  {
    hide Truthful, Received, Ticked, Begun, Mailed, Pings;
    match step
    case Setup(_, _, _, _, _, _) => SetupTrue(net, step);
    case Tock(n, time) => TickTrue(net, n, time);
    case Deliver(p, time) => DeliverTrue(net, p, time);
  }

  lemma {:induction false} RunTruthful(net: Net, steps: seq<Step>)
    requires Runs(net, steps) && Truthful(net)
    ensures Truthful(End(net, steps))
    decreases |steps|
  {
    if steps != [] {
      hide Truthful, Enabled, Apply;
      StepTruthful(net, steps[0]);
      RunTruthful(Apply(net, steps[0]), steps[1..]);
    }
  }

  /** At every reachable state no record of a beat, kept or on its way, is ahead of the agent it is about. */
  lemma NobodyIsAhead(net: Net, steps: seq<Step>, n: Tag, i: nat)
    requires Init(net) && Runs(net, steps)
    requires n in End(net, steps).nodes && i < |End(net, steps).nodes[n].peers|
    ensures var e := End(net, steps);
            var p := e.nodes[n].peers[i];
            (p.tag in e.nodes ==> p.beat <= e.nodes[p.tag].beat) && forall q :: q in e.sent ==> TruePacket(e, q)
  {
    forall m | m in net.nodes ensures TrueNode(net, m) {}
    RunTruthful(net, steps);
    assert TrueNode(End(net, steps), n);
    assert True(End(net, steps), End(net, steps).nodes[n].peers[i].tag, End(net, steps).nodes[n].peers[i].beat);
  }

  // --- Records never go back -----------------------------------------------------------------------------------------

  predicate NoLess(m: map<Tag, nat>, m': map<Tag, nat>) {
    forall t :: t in m ==> t in m' && m[t] <= m'[t]
  }

  lemma AcceptNoLess(self: Tag, peers: seq<Peer>, rumors: seq<Rumor>, time: nat)
    requires Unique(peers)
    ensures NoLess(Beats(peers), Beats(AcceptAll(self, peers, rumors, time)))
  {
    hide Beats, AcceptAll;
    AcceptIsJoin(self, peers, rumors, time);
  }

  lemma ReceivedNoLess(n: Node, from: Tag, m: Message, time: nat)
    requires Unique(n.peers)
    ensures NoLess(Beats(n.peers), Beats(Received(n, from, m, time).0.peers))
  {
    hide Beats, AcceptAll, DownAfter, Unique, Deaf;
    match m
    case Spread(rumors) => AcceptNoLess(n.tag, n.peers, rumors, time);
    case Ping(name, b) => AcceptNoLess(name, n.peers, [(from, b)], time);
    case Pong(name, b) => AcceptNoLess(name, n.peers, [(from, b)], time);
    case _ =>
  }

  lemma StepNoLess(net: Net, step: Step, n: Tag)
    requires Enabled(net, step) && Truthful(net) && n in net.nodes
    ensures n in Apply(net, step).nodes
    ensures NoLess(Beats(net.nodes[n].peers), Beats(Apply(net, step).nodes[n].peers))
  {
    hide Received, Beats;
    assert TrueNode(net, n);
    if step.Deliver? && step.packet.to == n {
      ReceivedNoLess(net.nodes[n], step.packet.from, step.packet.message, step.time);
    }
  }

  /** Over any run, whoever is known stays known, and with no lower beat. */
  lemma {:induction false} RecordsNeverDecrease(net: Net, steps: seq<Step>, n: Tag)
    requires Runs(net, steps) && Truthful(net) && n in net.nodes
    ensures n in End(net, steps).nodes
    ensures NoLess(Beats(net.nodes[n].peers), Beats(End(net, steps).nodes[n].peers))
    decreases |steps|
  {
    if steps != [] {
      hide Truthful, Enabled, Apply, Beats;
      StepNoLess(net, steps[0], n);
      StepTruthful(net, steps[0]);
      RecordsNeverDecrease(Apply(net, steps[0]), steps[1..], n);
    }
  }
}
