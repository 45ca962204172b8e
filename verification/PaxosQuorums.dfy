/** Who stands behind what a node broadcasts, in any run and with no assumption on delivery (examples/paxos.rs). */
module PaxosQuorums {
  import opened Words
  import opened Paxos
  import opened PaxosNet
  import opened PaxosAgreement

  /** `a` has promised `n` some number above the last that `n` settled. */
  predicate HasPromised(net: Net, a: Address, n: Address, above: nat) {
    exists p :: p in net.sent && p.from == a && p.to == n && p.message.Promise? && p.message.number > above
  }

  /** `a` has told `n` that it accepted some number above the last that `n` settled. */
  predicate HasAccepted(net: Net, a: Address, n: Address, above: nat) {
    exists p :: p in net.sent && p.from == a && p.to == n && p.message.Accepted? && p.message.number > above
  }

  ghost predicate CountedPromises(net: Net, n: Address, s: State) {
    forall a :: a in s.promised ==> a in net.nodes && HasPromised(net, a, n, s.promisedNumber)
  }

  ghost predicate CountedAcceptances(net: Net, n: Address, s: State) {
    forall a :: a in s.accepted ==> a in net.nodes && HasAccepted(net, a, n, s.acceptedNumber)
  }

  /** Whoever a node counts has said so, and is a node. */
  ghost predicate CountedNode(net: Net, n: Address)
    requires n in net.nodes
  {
    CountedPromises(net, n, net.nodes[n]) && CountedAcceptances(net, n, net.nodes[n])
  }

  ghost predicate Counted(net: Net) {
    forall n :: n in net.nodes ==> CountedNode(net, n)
  }

  lemma SaidStays(net: Net, net': Net, a: Address, n: Address, above: nat)
    requires net.sent <= net'.sent
    ensures HasPromised(net, a, n, above) ==> HasPromised(net', a, n, above)
    ensures HasAccepted(net, a, n, above) ==> HasAccepted(net', a, n, above)
  {
    if HasPromised(net, a, n, above) {
      var p :| p in net.sent && p.from == a && p.to == n && p.message.Promise? && p.message.number > above;
      assert p in net'.sent;
    }
    if HasAccepted(net, a, n, above) {
      var p :| p in net.sent && p.from == a && p.to == n && p.message.Accepted? && p.message.number > above;
      assert p in net'.sent;
    }
  }

  lemma CountedStays(net: Net, net': Net, n: Address, s: State)
    requires net.sent <= net'.sent && net.nodes.Keys == net'.nodes.Keys
    ensures CountedPromises(net, n, s) ==> CountedPromises(net', n, s)
    ensures CountedAcceptances(net, n, s) ==> CountedAcceptances(net', n, s)
  {
    hide HasPromised, HasAccepted;
    forall a ensures HasPromised(net, a, n, s.promisedNumber) ==> HasPromised(net', a, n, s.promisedNumber) {
      SaidStays(net, net', a, n, s.promisedNumber);
    }
    forall a ensures HasAccepted(net, a, n, s.acceptedNumber) ==> HasAccepted(net', a, n, s.acceptedNumber) {
      SaidStays(net, net', a, n, s.acceptedNumber);
    }
  }

  lemma HandledPromises(net: Net, p: Packet, s: State)
    requires p in net.sent && CountedPromises(net, p.to, s) && (p.message.Promise? ==> p.from in net.nodes)
    ensures CountedPromises(net, p.to, Handle(s, p.message, p.from).0)
  {
    hide Handle, HasPromised;
    FieldsChangeOnlyWhen(s, p.message, p.from);
    GatheringSettlesAtMajority(s, p.message, p.from);
    SaidItself(net, p, s);
  }

  lemma HandledAcceptances(net: Net, p: Packet, s: State)
    requires p in net.sent && CountedAcceptances(net, p.to, s) && (p.message.Accepted? ==> p.from in net.nodes)
    ensures CountedAcceptances(net, p.to, Handle(s, p.message, p.from).0)
  {
    hide Handle, HasAccepted;
    FieldsChangeOnlyWhen(s, p.message, p.from);
    GatheringSettlesAtMajority(s, p.message, p.from);
    SaidItself(net, p, s);
  }

  /** The node that handles a message still counts only whom it may. */
  lemma DeliveredCounted(net: Net, p: Packet, peers: seq<Address>)
    requires Enabled(net, Deliver(p)) && Members(net, peers) && FromNodes(net) && CountedNode(net, p.to)
    ensures CountedNode(Apply(net, Deliver(p)), p.to)
  {
    hide Handle, Replies, CountedPromises, CountedAcceptances;
    var s := net.nodes[p.to];
    StepMembers(net, Deliver(p), peers);
    HandledPromises(net, p, s);
    HandledAcceptances(net, p, s);
    CountedStays(net, Apply(net, Deliver(p)), p.to, Handle(s, p.message, p.from).0);
  }

  lemma SaidItself(net: Net, p: Packet, s: State)
    requires p in net.sent
    ensures CountsPromise(s, p.message) ==> HasPromised(net, p.from, p.to, s.promisedNumber)
    ensures CountsAcceptance(s, p.message) ==> HasAccepted(net, p.from, p.to, s.acceptedNumber)
  {
  }

  lemma StepCounted(net: Net, step: Step, peers: seq<Address>)
    requires Enabled(net, step) && Members(net, peers) && FromNodes(net) && Counted(net)
    ensures Counted(Apply(net, step))
  {
    hide Handle, Replies, CountedPromises, CountedAcceptances;
    var net' := Apply(net, step);
    StepMembers(net, step, peers);
    forall n | n in net'.nodes ensures CountedNode(net', n) {
      if step.Deliver? && n == step.packet.to {
        DeliveredCounted(net, step.packet, peers);
      } else {
        CountedStays(net, net', n, net.nodes[n]);
      }
    }
  }

  lemma {:induction false} RunCounted(net: Net, steps: seq<Step>, peers: seq<Address>)
    requires Runs(net, steps) && Sound(net, peers) && Counted(net)
    ensures Sound(End(net, steps), peers) && Counted(End(net, steps))
    decreases |steps|
  {
    if steps != [] {
      hide Enabled, Apply, Members, FromNodes, Traced, Counted;
      StepMembers(net, steps[0], peers);
      StepTraced(net, steps[0], peers);
      StepCounted(net, steps[0], peers);
      RunCounted(Apply(net, steps[0]), steps[1..], peers);
    }
  }

  lemma InitCounted(net: Net, peers: seq<Address>)
    requires Init(net, peers)
    ensures Counted(net)
  {
  }

  /** At every reachable state, whoever a node counts has told it so, with a number above the last it settled. */
  lemma CountedSaidSo(net: Net, peers: seq<Address>, steps: seq<Step>, n: Address, a: Address)
    requires Init(net, peers) && Runs(net, steps) && n in End(net, steps).nodes
    ensures var e := End(net, steps);
            && (a in e.nodes[n].promised ==> a in e.nodes && HasPromised(e, a, n, e.nodes[n].promisedNumber))
            && (a in e.nodes[n].accepted ==> a in e.nodes && HasAccepted(e, a, n, e.nodes[n].acceptedNumber))
  {
    hide Traced, Members, FromNodes, Init, HasPromised, HasAccepted, Ballots;
    InitBallots(net, peers);
    InitCounted(net, peers);
    RunCounted(net, steps, peers);
    assert CountedNode(End(net, steps), n);
  }

  /** All of `voices` are nodes, and they are a majority. */
  predicate Majority(net: Net, voices: set<Address>) {
    voices <= net.nodes.Keys && 2 * |voices| > |net.nodes|
  }

  lemma PeersCount(net: Net, peers: seq<Address>, n: Address)
    requires Members(net, peers) && n in net.nodes
    ensures |net.nodes[n].peers| == |net.nodes|
  {
    DistinctCount(peers, net.nodes.Keys);
    assert |net.nodes| == |net.nodes.Keys|;
  }

  /**
   Whenever a node announces a choice to the nodes, a majority of all nodes has each told it that it accepted a number
   above every choice the node announced to a node before.
   */
  lemma AnnouncedByMajority(net: Net, peers: seq<Address>, steps: seq<Step>, p: Packet, q: Packet)
      returns (voices: set<Address>)
    requires Init(net, peers) && Runs(net, steps) && Enabled(End(net, steps), Deliver(p))
    requires Caused(End(net, steps).nodes[p.to], p, q) && q.message.Selected? && q.to in net.nodes
    ensures var e := End(net, steps);
            && Majority(e, voices)
            && forall a, earlier ::
                 a in voices && earlier in e.sent && earlier.from == q.from && earlier.message.Selected?
                 && earlier.to in e.nodes ==>
                   HasAccepted(e, a, q.from, earlier.message.number)
  {
    hide Traced, Members, FromNodes, Init, HasPromised, HasAccepted, Ballots;
    var e := End(net, steps);
    InitBallots(net, peers);
    InitCounted(net, peers);
    RunNumbered(net, steps, peers);
    RunCounted(net, steps, peers);
    RunKeepsNodes(net, steps, peers);
    ClientsAreElsewhere(e, peers, p.to);
    PeersCount(e, peers, p.to);
    FromIsNode(e, p);
    assert CountedNode(e, p.to);
    voices := AnnouncingVoices(e, p, q);
  }

  lemma AnnouncingVoices(e: Net, p: Packet, q: Packet) returns (voices: set<Address>)
    requires Enabled(e, Deliver(p)) && Numbered(e) && CountedNode(e, p.to) && p.from in e.nodes
    requires |e.nodes[p.to].peers| == |e.nodes| && e.nodes[p.to].clients !! e.nodes.Keys
    requires Caused(e.nodes[p.to], p, q) && q.message.Selected? && q.to in e.nodes
    ensures Majority(e, voices)
    ensures forall a, earlier ::
              a in voices && earlier in e.sent && earlier.from == q.from && earlier.message.Selected?
              && earlier.to in e.nodes ==>
                HasAccepted(e, a, q.from, earlier.message.number)
  {
    hide HasAccepted, HasPromised;
    var s := e.nodes[p.to];
    voices := s.accepted + {p.from};
    SaidItself(e, p, s);
    forall a, earlier | a in voices && earlier in e.sent && earlier.from == q.from && earlier.message.Selected?
                        && earlier.to in e.nodes
      ensures HasAccepted(e, a, q.from, earlier.message.number)
    {
      assert NumberedPacket(e, earlier);
      AcceptedAbove(e, a, q.from, s.acceptedNumber, earlier.message.number);
    }
  }

  lemma FromIsNode(net: Net, p: Packet)
    requires FromNodes(net) && p in net.sent && !p.message.Request?
    ensures p.from in net.nodes
  {
  }

  lemma AcceptedAbove(net: Net, a: Address, n: Address, above: nat, lower: nat)
    requires HasAccepted(net, a, n, above) && lower <= above
    ensures HasAccepted(net, a, n, lower)
  {
  }

  lemma PromisedAbove(net: Net, a: Address, n: Address, above: nat, lower: nat)
    requires HasPromised(net, a, n, above) && lower <= above
    ensures HasPromised(net, a, n, lower)
  {
  }

  /** And whenever a node proposes, a majority has each promised it a number above everything it proposed before. */
  lemma ProposedByMajority(net: Net, peers: seq<Address>, steps: seq<Step>, p: Packet, q: Packet)
      returns (voices: set<Address>)
    requires Init(net, peers) && Runs(net, steps) && Enabled(End(net, steps), Deliver(p))
    requires Caused(End(net, steps).nodes[p.to], p, q) && q.message.Accept?
    ensures var e := End(net, steps);
            && Majority(e, voices)
            && forall a, earlier ::
                 a in voices && earlier in e.sent && earlier.from == q.from && earlier.message.Accept? ==>
                   HasPromised(e, a, q.from, earlier.message.number)
  {
    hide Traced, Members, FromNodes, Init, HasPromised, HasAccepted, Ballots;
    var e := End(net, steps);
    InitBallots(net, peers);
    InitCounted(net, peers);
    RunNumbered(net, steps, peers);
    RunCounted(net, steps, peers);
    PeersCount(e, peers, p.to);
    var s := e.nodes[p.to];
    voices := s.promised + {p.from};
    FromIsNode(e, p);
    assert CountedNode(e, p.to);
    SaidItself(e, p, s);
    forall a, earlier | a in voices && earlier in e.sent && earlier.from == q.from && earlier.message.Accept?
      ensures HasPromised(e, a, q.from, earlier.message.number)
    {
      assert NumberedPacket(e, earlier);
      PromisedAbove(e, a, q.from, s.promisedNumber, earlier.message.number);
    }
  }

  // --- Clients -------------------------------------------------------------------------------------------------------

  lemma {:induction false} RunKeepsClients(net: Net, steps: seq<Step>, peers: seq<Address>, n: Address)
    requires Runs(net, steps) && Sound(net, peers) && n in net.nodes
    ensures n in End(net, steps).nodes && net.nodes[n].clients <= End(net, steps).nodes[n].clients
    decreases |steps|
  {
    if steps != [] {
      hide Enabled, Members, FromNodes, Traced, Handle, Replies;
      StepMembers(net, steps[0], peers);
      StepTraced(net, steps[0], peers);
      if steps[0].Deliver? {
        HandleKeepsMembers(net.nodes[steps[0].packet.to], steps[0].packet.message, steps[0].packet.from);
      }
      RunKeepsClients(Apply(net, steps[0]), steps[1..], peers, n);
    }
  }

  /** Whoever has asked a node for a value is told by it of every choice it hears of afterwards. */
  lemma ClientsAreTold(net: Net, peers: seq<Address>, before: seq<Step>, asked: Packet, after: seq<Step>, told: Packet)
    requires Init(net, peers) && Runs(net, before) && asked.message.Request?
    requires Enabled(End(net, before), Deliver(asked))
    requires Runs(Apply(End(net, before), Deliver(asked)), after)
    requires Enabled(End(Apply(End(net, before), Deliver(asked)), after), Deliver(told))
    requires told.message.Selected? && told.to == asked.to
    ensures var e := End(Apply(End(net, before), Deliver(asked)), after);
            Packet(told.to, asked.from, told.message) in Apply(e, Deliver(told)).sent
  {
    hide Members, FromNodes, Traced, Handle, Init, Ballots, Numbered;
    InitBallots(net, peers);
    RunSound(net, before, peers);
    var middle := End(net, before);
    HandleKeepsMembers(middle.nodes[asked.to], asked.message, asked.from);
    StepMembers(middle, Deliver(asked), peers);
    StepTraced(middle, Deliver(asked), peers);
    RunKeepsClients(Apply(middle, Deliver(asked)), after, peers, asked.to);
    SentByDelivery(End(Apply(middle, Deliver(asked)), after), told, Packet(told.to, asked.from, told.message));
  }
}
