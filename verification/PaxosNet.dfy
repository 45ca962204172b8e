/**
 Any number of nodes on a network that may lose, repeat and reorder messages.

 A message once sent can be delivered at any later time, any number of times, or never.
 */
module PaxosNet {
  import opened Words
  import opened Paxos

  datatype Packet = Packet(from: Address, to: Address, message: Message)

  datatype Net = Net(
    nodes: map<Address, State>,
    sent: set<Packet>,
    asked: set<u64>,              // the values clients have requested
    latest: map<Address, u64>     // the number of each node's latest Prepare
  )

  datatype Step =
    | Ask(client: Address, to: Address, val: u64)
    | Deliver(packet: Packet)

  predicate Init(net: Net, peers: seq<Address>) {
    && peers != []
    && (forall i, j :: 0 <= i < j < |peers| ==> peers[i] != peers[j])
    && net == Net(map p | p in peers :: Start(peers), {}, {}, map[])
  }

  predicate Enabled(net: Net, step: Step) {
    match step
    case Ask(client, to, _) => client !in net.nodes && to in net.nodes
    case Deliver(p) => p in net.sent && p.to in net.nodes
  }

  function Replies(n: Address, s: State, reply: Reply): set<Packet> {
    match reply
    case Nothing => {}
    case Answer(to, m) => {Packet(n, to, m)}
    case ToPeers(m) => set p | p in s.peers :: Packet(n, p, m)
    case ToClients(m) => set c | c in s.clients :: Packet(n, c, m)
  }

  function Apply(net: Net, step: Step): Net
    requires Enabled(net, step)
  {
    match step
    case Ask(client, to, val) =>
      net.(sent := net.sent + {Packet(client, to, Request(val))}, asked := net.asked + {val})
    case Deliver(p) =>
      var n, s := p.to, net.nodes[p.to];
      var (s', reply) := Handle(s, p.message, p.from);
      net.(nodes := net.nodes[n := s'], sent := net.sent + Replies(n, s', reply),
           latest := if p.message.Request? then net.latest[n := Successor(s.number)] else net.latest)
  }

  predicate Runs(net: Net, steps: seq<Step>)
    decreases |steps|
  {
    steps == [] || (Enabled(net, steps[0]) && Runs(Apply(net, steps[0]), steps[1..]))
  }

  function End(net: Net, steps: seq<Step>): Net
    requires Runs(net, steps)
    decreases |steps|
  {
    if steps == [] then net else End(Apply(net, steps[0]), steps[1..])
  }

  // --- Membership ----------------------------------------------------------------------------------------------------

  /** All nodes know the same peers, which are all nodes; clients are elsewhere. */
  ghost predicate Members(net: Net, peers: seq<Address>) {
    && (forall i, j :: 0 <= i < j < |peers| ==> peers[i] != peers[j])
    && (forall p :: p in peers <==> p in net.nodes)
    && (forall n :: n in net.nodes ==> net.nodes[n].peers == peers)
    && (forall n :: n in net.nodes ==> net.nodes[n].clients !! net.nodes.Keys)
    && (forall p :: p in net.sent && p.message.Request? ==> p.from !in net.nodes && p.message.val in net.asked)
  }

  /** Only nodes send anything but requests. */
  ghost predicate FromNodes(net: Net) {
    forall p :: p in net.sent && !p.message.Request? ==> p.from in net.nodes
  }

  /** What a delivered message makes its receiver send. */
  predicate Caused(s: State, p: Packet, q: Packet) {
    q.from == p.to &&
    match p.message
    case Request(_) => q.to in s.peers && q.message == Prepare(Successor(s.number))
    case Prepare(n) => q.to == p.from && q.message == if n > s.number then Promise(n) else Ignored(n)
    case Promise(n) =>
      q.to in s.peers && n > s.promisedNumber && Quorum(s, |s.promised + {p.from}|) && q.message == Accept(n, s.val)
    case Accept(n, v) => q.to == p.from && q.message == if n >= s.number then Accepted(n, v) else Rejected(n)
    case Accepted(n, v) =>
      q.to in s.peers && n > s.acceptedNumber && Quorum(s, |s.accepted + {p.from}|) && q.message == Selected(n, v)
    case Selected(_, _) => q.to in s.clients && q.message == p.message
    case _ => false
  }

  lemma SentByDelivery(net: Net, p: Packet, q: Packet)
    requires Enabled(net, Deliver(p))
    ensures q in Apply(net, Deliver(p)).sent <==> q in net.sent || Caused(net.nodes[p.to], p, q)
  {
  }

  lemma HandleKeepsMembers(s: State, m: Message, from: Address)
    ensures Handle(s, m, from).0.peers == s.peers
    ensures Handle(s, m, from).0.clients == if m.Request? then s.clients + {from} else s.clients
  {
  }

  lemma StepMembers(net: Net, step: Step, peers: seq<Address>)
    requires Enabled(net, step) && Members(net, peers) && FromNodes(net)
    ensures Members(Apply(net, step), peers) && FromNodes(Apply(net, step))
    ensures Apply(net, step).nodes.Keys == net.nodes.Keys
    ensures net.sent <= Apply(net, step).sent && net.asked <= Apply(net, step).asked
  {
    hide Handle, Replies;
    var net' := Apply(net, step);
    if step.Deliver? {
      HandleKeepsMembers(net.nodes[step.packet.to], step.packet.message, step.packet.from);
      forall q | q in net'.sent ensures q in net.sent || (q.from in net.nodes && !q.message.Request?) {
        SentByDelivery(net, step.packet, q);
      }
    }
  }

  // --- Where messages come from: no assumption on delivery -----------------------------------------------------------

  /** `n` has asked some node to accept this choice. */
  ghost predicate Proposed(net: Net, n: Address, m: Message)
    requires m.Selected?
  {
    exists a :: Packet(n, a, Accept(m.number, m.val)) in net.sent
  }

  /** `n` has been told of this choice by a node. */
  ghost predicate Learned(net: Net, n: Address, m: Message) {
    n in net.nodes && exists q :: q in net.nodes && Packet(q, n, m) in net.sent
  }

  /** What must have happened before a message could be sent. */
  ghost predicate TracedPacket(net: Net, p: Packet) {
    match p.message
    case Prepare(_) => p.from in net.latest
    case Promise(n) => Packet(p.to, p.from, Prepare(n)) in net.sent
    case Accept(_, v) => v in net.asked
    case Accepted(n, v) => Packet(p.to, p.from, Accept(n, v)) in net.sent
    case Selected(_, _) =>
      if p.to in net.nodes then Proposed(net, p.from, p.message) else Learned(net, p.from, p.message)
    case _ => true
  }

  ghost predicate TracedNode(net: Net, n: Address)
    requires n in net.nodes
  {
    && (n in net.latest ==> net.nodes[n].val in net.asked)
    && (forall e :: e in net.nodes[n].storage ==> Learned(net, n, Selected(e.0, e.1)))
  }

  ghost predicate Traced(net: Net) {
    && (forall p :: p in net.sent ==> TracedPacket(net, p))
    && (forall n :: n in net.nodes ==> TracedNode(net, n))
    && net.latest.Keys <= net.nodes.Keys
  }

  predicate Grown(net: Net, net': Net) {
    && net.sent <= net'.sent && net.asked <= net'.asked
    && net.nodes.Keys == net'.nodes.Keys && net.latest.Keys <= net'.latest.Keys
  }

  lemma LearnedGrows(net: Net, net': Net, n: Address, m: Message)
    requires Grown(net, net') && Learned(net, n, m)
    ensures Learned(net', n, m)
  {
  }

  lemma TracedPacketGrows(net: Net, net': Net, p: Packet)
    requires Grown(net, net') && TracedPacket(net, p)
    ensures TracedPacket(net', p)
  {
    if p.message.Selected? && p.to !in net.nodes {
      LearnedGrows(net, net', p.from, p.message);
    }
  }

  lemma CausedTraced(net: Net, p: Packet, q: Packet, peers: seq<Address>)
    requires Enabled(net, Deliver(p)) && Members(net, peers) && FromNodes(net) && Traced(net)
    requires Caused(net.nodes[p.to], p, q)
    ensures TracedPacket(Apply(net, Deliver(p)), q)
  {
    hide Handle, Replies;
    var net' := Apply(net, Deliver(p));
    assert TracedPacket(net, p);
    match p.message
    case Promise(n) =>
      assert TracedPacket(net, Packet(p.to, p.from, Prepare(n)));
      assert TracedNode(net, p.to);
    case Accepted(n, v) =>
      assert Packet(p.to, p.from, Accept(n, v)) in net'.sent;
    case Selected(_, _) =>
      assert Learned(net', p.to, p.message);
    case _ =>
  }

  lemma HandleStorage(s: State, m: Message, from: Address)
    ensures Handle(s, m, from).0.val == if m.Request? then m.val else s.val
    ensures Handle(s, m, from).0.storage == s.storage + if m.Selected? then [(m.number, m.val)] else []
  {
  }

  lemma NodeTraced(net: Net, p: Packet, peers: seq<Address>, n: Address)
    requires Enabled(net, Deliver(p)) && Members(net, peers) && FromNodes(net) && Traced(net) && n in net.nodes
    requires Grown(net, Apply(net, Deliver(p)))
    ensures TracedNode(Apply(net, Deliver(p)), n)
  {
    hide Handle, Replies;
    var net' := Apply(net, Deliver(p));
    assert TracedNode(net, n);
    HandleStorage(net.nodes[p.to], p.message, p.from);
    forall e | e in net'.nodes[n].storage ensures Learned(net', n, Selected(e.0, e.1)) {
      if e in net.nodes[n].storage {
        LearnedGrows(net, net', n, Selected(e.0, e.1));
      } else {
        assert Learned(net', p.to, p.message);
      }
    }
  }

  lemma StepTraced(net: Net, step: Step, peers: seq<Address>)
    requires Enabled(net, step) && Members(net, peers) && FromNodes(net) && Traced(net)
    ensures Traced(Apply(net, step))
  {
    hide Handle, Replies, Caused, TracedPacket, TracedNode, Members, FromNodes;
    var net' := Apply(net, step);
    StepMembers(net, step, peers);
    forall q | q in net'.sent ensures TracedPacket(net', q) {
      if q in net.sent {
        TracedPacketGrows(net, net', q);
      } else if step.Deliver? {
        SentByDelivery(net, step.packet, q);
        CausedTraced(net, step.packet, q, peers);
      } else {
        RequestTraced(net', q);
      }
    }
    forall n | n in net'.nodes ensures TracedNode(net', n) {
      if step.Deliver? {
        NodeTraced(net, step.packet, peers, n);
      } else {
        AskTraced(net, net', n);
      }
    }
  }

  lemma RequestTraced(net: Net, q: Packet)
    requires q.message.Request?
    ensures TracedPacket(net, q)
  {
  }

  lemma AskTraced(net: Net, net': Net, n: Address)
    requires Grown(net, net') && net.nodes == net'.nodes && net.latest == net'.latest
    requires n in net.nodes && TracedNode(net, n)
    ensures TracedNode(net', n)
  {
    forall e | e in net'.nodes[n].storage ensures Learned(net', n, Selected(e.0, e.1)) {
      LearnedGrows(net, net', n, Selected(e.0, e.1));
    }
  }

  ghost predicate Sound(net: Net, peers: seq<Address>) {
    Members(net, peers) && FromNodes(net) && Traced(net)
  }

  lemma {:induction false} RunSound(net: Net, steps: seq<Step>, peers: seq<Address>)
    requires Runs(net, steps) && Sound(net, peers)
    ensures Sound(End(net, steps), peers)
    decreases |steps|
  {
    if steps != [] {
      hide Enabled, Apply, Members, FromNodes, Traced;
      StepMembers(net, steps[0], peers);
      StepTraced(net, steps[0], peers);
      RunSound(Apply(net, steps[0]), steps[1..], peers);
    }
  }

  /**
   Validity, whatever the network does: a choice that is announced to a node was proposed by whoever announces it, and
   its value was asked for by a client; a choice that is stored, or announced to a client, was announced to that node.
   */
  lemma Validity(net: Net, peers: seq<Address>, steps: seq<Step>, p: Packet)
    requires Init(net, peers) && Runs(net, steps) && p in End(net, steps).sent && p.message.Selected?
    ensures var e := End(net, steps);
            && p.message.val in e.asked
            && (p.to in e.nodes ==> Proposed(e, p.from, p.message))
            && (p.to !in e.nodes ==> Learned(e, p.from, p.message))
  {
    RunSound(net, steps, peers);
    SelectedTraced(End(net, steps), peers, p);
  }

  lemma SelectedTraced(net: Net, peers: seq<Address>, p: Packet)
    requires Sound(net, peers) && p in net.sent && p.message.Selected?
    ensures p.message.val in net.asked
    ensures if p.to in net.nodes then Proposed(net, p.from, p.message) else Learned(net, p.from, p.message)
  {
    assert TracedPacket(net, p);
    if p.to in net.nodes {
      AnnouncedTraced(net, peers, p);
    } else {
      var q :| q in net.nodes && Packet(q, p.from, p.message) in net.sent;
      AnnouncedTraced(net, peers, Packet(q, p.from, p.message));
    }
  }

  lemma AnnouncedTraced(net: Net, peers: seq<Address>, p: Packet)
    requires Sound(net, peers) && p in net.sent && p.message.Selected? && p.to in net.nodes
    ensures p.message.val in net.asked && Proposed(net, p.from, p.message)
  {
    assert TracedPacket(net, p);
    var a :| Packet(p.from, a, Accept(p.message.number, p.message.val)) in net.sent;
    assert TracedPacket(net, Packet(p.from, a, Accept(p.message.number, p.message.val)));
  }

  /** The same for what a node has stored. */
  lemma StoredValidity(net: Net, peers: seq<Address>, steps: seq<Step>, n: Address, e: (u64, u64))
    requires Init(net, peers) && Runs(net, steps) && n in End(net, steps).nodes && e in End(net, steps).nodes[n].storage
    ensures e.1 in End(net, steps).asked && Learned(End(net, steps), n, Selected(e.0, e.1))
  {
    RunSound(net, steps, peers);
    var last := End(net, steps);
    assert TracedNode(last, n);
    var q :| q in last.nodes && Packet(q, n, Selected(e.0, e.1)) in last.sent;
    AnnouncedTraced(last, peers, Packet(q, n, Selected(e.0, e.1)));
  }
}
