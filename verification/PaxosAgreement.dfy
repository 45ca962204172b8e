/** When the nodes agree: one value per number, and what has to be asked of delivery for that. */
module PaxosAgreement {
  import opened Words
  import opened Paxos
  import opened PaxosNet

  // --- Numbers only grow: no assumption on delivery ------------------------------------------------------------------

  ghost predicate NumberedPacket(net: Net, p: Packet) {
    p.from in net.nodes ==>
      && (p.message.Accept? ==> p.message.number <= net.nodes[p.from].promisedNumber)
      && (p.message.Selected? && p.to in net.nodes ==> p.message.number <= net.nodes[p.from].acceptedNumber)
  }

  ghost predicate Numbered(net: Net) {
    forall p :: p in net.sent ==> NumberedPacket(net, p)
  }

  lemma HandleNumbers(s: State, m: Message, from: Address)
    ensures Handle(s, m, from).0.promisedNumber >= s.promisedNumber
    ensures Handle(s, m, from).0.acceptedNumber >= s.acceptedNumber
    ensures m.Promise? && m.number > s.promisedNumber && Quorum(s, |s.promised + {from}|) ==>
              Handle(s, m, from).0.promisedNumber == m.number
    ensures m.Accepted? && m.number > s.acceptedNumber && Quorum(s, |s.accepted + {from}|) ==>
              Handle(s, m, from).0.acceptedNumber == m.number
  {
  }

  lemma StepNumbered(net: Net, step: Step, peers: seq<Address>)
    requires Enabled(net, step) && Members(net, peers) && FromNodes(net) && Numbered(net)
    ensures Numbered(Apply(net, step))
  {
    hide Handle, Replies;
    var net' := Apply(net, step);
    if step.Deliver? {
      var p := step.packet;
      HandleNumbers(net.nodes[p.to], p.message, p.from);
      forall q | q in net'.sent ensures NumberedPacket(net', q) {
        SentByDelivery(net, p, q);
        if q in net.sent {
          assert NumberedPacket(net, q);
        }
      }
    } else {
      forall q | q in net'.sent ensures NumberedPacket(net', q) {
        if q in net.sent {
          assert NumberedPacket(net, q);
        }
      }
    }
  }

  lemma {:induction false} RunNumbered(net: Net, steps: seq<Step>, peers: seq<Address>)
    requires Runs(net, steps) && Sound(net, peers) && Numbered(net)
    ensures Sound(End(net, steps), peers) && Numbered(End(net, steps))
    decreases |steps|
  {
    if steps != [] {
      hide Enabled, Apply, Members, FromNodes, Traced, Numbered;
      StepMembers(net, steps[0], peers);
      StepTraced(net, steps[0], peers);
      StepNumbered(net, steps[0], peers);
      RunNumbered(Apply(net, steps[0]), steps[1..], peers);
    }
  }

  /**
   What a proposer asks to accept, and what it announces to the nodes, carries ever higher numbers: in any run, whatever
   was delivered and in whatever order, a delivery that makes a node broadcast makes it broadcast a higher number than
   any broadcast of that kind before.
   */
  lemma BroadcastsIncrease(net: Net, peers: seq<Address>, steps: seq<Step>, p: Packet, q: Packet, earlier: Packet)
    requires Init(net, peers) && Runs(net, steps) && Enabled(End(net, steps), Deliver(p))
    requires Caused(End(net, steps).nodes[p.to], p, q) && q.to in net.nodes
    requires earlier in End(net, steps).sent && earlier.from == q.from
    requires (q.message.Accept? && earlier.message.Accept?) ||
             (q.message.Selected? && earlier.message.Selected? && earlier.to in net.nodes)
    ensures earlier.message.number < q.message.number
  {
    hide Traced, Members, FromNodes, Init, Ballots;
    InitBallots(net, peers);
    RunNumbered(net, steps, peers);
    RunKeepsNodes(net, steps, peers);
    ClientsAreElsewhere(End(net, steps), peers, p.to);
    assert NumberedPacket(End(net, steps), earlier);
  }

  lemma ClientsAreElsewhere(net: Net, peers: seq<Address>, n: Address)
    requires Sound(net, peers) && n in net.nodes
    ensures net.nodes[n].clients !! net.nodes.Keys
  {
  }

  lemma {:induction false} RunKeepsNodes(net: Net, steps: seq<Step>, peers: seq<Address>)
    requires Runs(net, steps) && Sound(net, peers)
    ensures End(net, steps).nodes.Keys == net.nodes.Keys
    decreases |steps|
  {
    if steps != [] {
      hide Enabled, Apply, Members, FromNodes, Traced;
      StepMembers(net, steps[0], peers);
      StepTraced(net, steps[0], peers);
      RunKeepsNodes(Apply(net, steps[0]), steps[1..], peers);
    }
  }

  // --- Counting ------------------------------------------------------------------------------------------------------

  lemma {:induction false} Subset<T>(a: set<T>, b: set<T>)
    requires a <= b
    ensures |a| <= |b|
  {
    if a != {} {
      var x :| x in a;
      Subset(a - {x}, b - {x});
    }
  }

  lemma MajoritiesMeet<T>(a: set<T>, b: set<T>, all: set<T>) returns (x: T)
    requires a <= all && b <= all && |a| > |all| / 2 && |b| > |all| / 2
    ensures x in a && x in b
  {
    Subset(a + b, all);
    assert |a + b| + |a * b| == |a| + |b|;
    x :| x in a * b;
  }

  lemma {:induction false} DistinctCount<T>(q: seq<T>, s: set<T>)
    requires forall i, j :: 0 <= i < j < |q| ==> q[i] != q[j]
    requires forall x :: x in q <==> x in s
    ensures |s| == |q|
  {
    if q == [] {
      assert s == {};
    } else {
      var rest := s - {q[0]};
      forall x ensures x in q[1..] <==> x in rest {
        if x in rest {
          var i :| 0 <= i < |q| && q[i] == x;
          assert q[1..][i - 1] == x;
        }
      }
      DistinctCount(q[1..], rest);
    }
  }

  // --- Agreement -----------------------------------------------------------------------------------------------------

  /**
   What agreement needs of delivery: no late Selected lowers a number; a request that comes while promises are being
   gathered asks for the same number again; and a promise that counts is for the latest Prepare.
   */
  datatype Clause = NoLateSelected | NoRequestMeanwhile | NoOldPromise

  predicate Obeys(net: Net, step: Step, clause: Clause)
    requires Enabled(net, step)
  {
    step.Deliver? ==>
      var p, s := step.packet, net.nodes[step.packet.to];
      match clause
      case NoLateSelected => p.message.Selected? ==> p.message.number >= s.number
      case NoRequestMeanwhile =>
        p.message.Request? ==> s.promised == {} || (p.to in net.latest && net.latest[p.to] == Successor(s.number))
      case NoOldPromise =>
        p.message.Promise? && p.message.number > s.promisedNumber ==>
          p.to in net.latest && net.latest[p.to] == p.message.number
  }

  predicate Orderly(net: Net, step: Step)
    requires Enabled(net, step)
  {
    Obeys(net, step, NoLateSelected) && Obeys(net, step, NoRequestMeanwhile) && Obeys(net, step, NoOldPromise)
  }

  function Promisers(net: Net, p: Address, n: u64): set<Address> {
    set a | a in net.nodes && Packet(a, p, Promise(n)) in net.sent
  }

  ghost predicate Backed(net: Net, p: Address, n: u64) {
    |Promisers(net, p, n)| > |net.nodes| / 2
  }

  ghost predicate BallotPacket(net: Net, p: Packet) {
    && (p.message.Promise? && p.from in net.nodes ==> p.message.number <= net.nodes[p.from].number)
    && (p.message.Accept? ==> Backed(net, p.from, p.message.number))
  }

  /** Whoever a node counts has promised it the number it asked for last. */
  ghost predicate BallotNode(net: Net, n: Address)
    requires n in net.nodes
  {
    forall a :: a in net.nodes[n].promised ==> n in net.latest && a in Promisers(net, n, net.latest[n])
  }

  /** No number is promised to two nodes by the same node. */
  ghost predicate PromisedOnce(net: Net) {
    forall p, q ::
      p in net.sent && q in net.sent && p.message.Promise? && q.message == p.message && q.from == p.from ==> p == q
  }

  /** No number is proposed with two values. */
  ghost predicate ProposedOnce(net: Net) {
    forall p, q ::
      && p in net.sent && q in net.sent && p.message.Accept? && q.message.Accept?
      && p.message.number == q.message.number ==>
        p.from == q.from && p.message == q.message
  }

  ghost predicate Ballots(net: Net) {
    && (forall p :: p in net.sent ==> BallotPacket(net, p))
    && (forall n :: n in net.nodes ==> BallotNode(net, n))
    && PromisedOnce(net)
    && ProposedOnce(net)
  }

  lemma HandleOrderly(s: State, m: Message, from: Address)
    ensures m.Selected? || Handle(s, m, from).0.number >= s.number
    ensures m.Selected? && m.number >= s.number ==> Handle(s, m, from).0.number >= s.number
    ensures m.Prepare? && m.number > s.number ==> Handle(s, m, from).0.number == m.number
    ensures Handle(s, m, from).0.promised
         <= if m.Promise? && m.number > s.promisedNumber then s.promised + {from} else s.promised
  {
  }

  lemma PromisersGrow(net: Net, net': Net, p: Address, n: u64)
    requires net.sent <= net'.sent && net.nodes.Keys == net'.nodes.Keys
    ensures Promisers(net, p, n) <= Promisers(net', p, n)
    ensures Backed(net, p, n) ==> Backed(net', p, n)
  {
    Subset(Promisers(net, p, n), Promisers(net', p, n));
    assert |net.nodes| == |net.nodes.Keys| && |net'.nodes| == |net'.nodes.Keys|;
  }

  /** A proposer that moves on to Accept has a majority of promises for that very number. */
  lemma QuorumBacks(net: Net, p: Packet, peers: seq<Address>)
    requires Enabled(net, Deliver(p)) && Sound(net, peers) && Ballots(net) && Orderly(net, Deliver(p))
    requires p.message.Promise? && p.message.number > net.nodes[p.to].promisedNumber
    requires Quorum(net.nodes[p.to], |net.nodes[p.to].promised + {p.from}|)
    ensures Backed(net, p.to, p.message.number)
  {
    hide Handle, Traced;
    var s := net.nodes[p.to];
    assert BallotNode(net, p.to);
    var promised, promisers := s.promised + {p.from}, Promisers(net, p.to, p.message.number);
    assert promised <= promisers;
    Subset(promised, promisers);
    DistinctCount(peers, net.nodes.Keys);
    assert |net.nodes| == |net.nodes.Keys|;
  }

  lemma StepBallotPacket(net: Net, p: Packet, q: Packet, peers: seq<Address>)
    requires Enabled(net, Deliver(p)) && Sound(net, peers) && Ballots(net) && Orderly(net, Deliver(p))
    requires q in Apply(net, Deliver(p)).sent
    ensures BallotPacket(Apply(net, Deliver(p)), q)
  {
    hide Handle, Replies, Traced, Backed, BallotNode, PromisedOnce, ProposedOnce, Quorum;
    var net' := Apply(net, Deliver(p));
    StepMembers(net, Deliver(p), peers);
    HandleOrderly(net.nodes[p.to], p.message, p.from);
    SentByDelivery(net, p, q);
    if q in net.sent {
      assert BallotPacket(net, q);
    } else if q.message.Accept? {
      QuorumBacks(net, p, peers);
    }
    if q.message.Accept? {
      PromisersGrow(net, net', q.from, q.message.number);
    }
  }

  lemma StepBallotNode(net: Net, p: Packet, n: Address, peers: seq<Address>)
    requires Enabled(net, Deliver(p)) && Sound(net, peers) && Ballots(net) && Orderly(net, Deliver(p)) && n in net.nodes
    ensures BallotNode(Apply(net, Deliver(p)), n)
  {
    hide Handle, Replies, Traced, Backed, BallotPacket, PromisedOnce, ProposedOnce;
    var net' := Apply(net, Deliver(p));
    StepMembers(net, Deliver(p), peers);
    HandleOrderly(net.nodes[p.to], p.message, p.from);
    assert BallotNode(net, n);
    forall a | a in net'.nodes[n].promised ensures n in net'.latest && a in Promisers(net', n, net'.latest[n]) {
      if n in net'.latest {
        PromisersGrow(net, net', n, net'.latest[n]);
      }
    }
  }

  lemma StepPromisedOnce(net: Net, p: Packet, peers: seq<Address>)
    requires Enabled(net, Deliver(p)) && Sound(net, peers) && Ballots(net)
    ensures PromisedOnce(Apply(net, Deliver(p)))
  {
    hide Handle, Replies, Traced, Backed, BallotNode, ProposedOnce;
    var net' := Apply(net, Deliver(p));
    forall q, r | q in net'.sent && r in net'.sent && q.message.Promise? && r.message == q.message && r.from == q.from
      ensures q == r
    {
      SentByDelivery(net, p, q);
      SentByDelivery(net, p, r);
      if q in net.sent { assert BallotPacket(net, q); }
      if r in net.sent { assert BallotPacket(net, r); }
    }
  }

  lemma StepProposedOnce(net: Net, p: Packet, peers: seq<Address>)
    requires Enabled(net, Deliver(p)) && Sound(net, peers) && Ballots(net) && Numbered(net) && Orderly(net, Deliver(p))
    ensures ProposedOnce(Apply(net, Deliver(p)))
  {
    hide Handle, Replies, Traced, Backed, BallotNode, BallotPacket, PromisedOnce, Quorum;
    var net' := Apply(net, Deliver(p));
    forall q, r | q in net'.sent && r in net'.sent && q.message.Accept? && r.message.Accept?
                  && q.message.number == r.message.number
      ensures q.from == r.from && q.message == r.message
    {
      SentByDelivery(net, p, q);
      SentByDelivery(net, p, r);
      if q !in net.sent && r in net.sent {
        NewProposalIsFirst(net, p, q, r, peers);
      }
      if r !in net.sent && q in net.sent {
        NewProposalIsFirst(net, p, r, q, peers);
      }
    }
  }

  /** Two majorities share a node, and that node has promised the number only once. */
  lemma OneProposerPerNumber(net: Net, p: Address, q: Address, n: u64)
    requires PromisedOnce(net) && Backed(net, p, n) && Backed(net, q, n)
    ensures p == q
  {
    assert |net.nodes| == |net.nodes.Keys|;
    var a := MajoritiesMeet(Promisers(net, p, n), Promisers(net, q, n), net.nodes.Keys);
    assert Packet(a, p, Promise(n)) == Packet(a, q, Promise(n));
  }

  lemma NewProposalIsFirst(net: Net, p: Packet, q: Packet, earlier: Packet, peers: seq<Address>)
    requires Enabled(net, Deliver(p)) && Sound(net, peers) && Ballots(net) && Numbered(net) && Orderly(net, Deliver(p))
    requires Caused(net.nodes[p.to], p, q) && q.message.Accept?
    requires earlier in net.sent && earlier.message.Accept?
    ensures earlier.message.number != q.message.number
  {
    hide Handle, Traced, BallotNode, PromisedOnce, ProposedOnce, Quorum, Members, FromNodes, Backed;
    QuorumBacks(net, p, peers);
    assert BallotPacket(net, earlier);
    assert NumberedPacket(net, earlier);
    if earlier.message.number == q.message.number {
      OneProposerPerNumber(net, p.to, earlier.from, q.message.number);
    }
  }

  lemma StepBallots(net: Net, step: Step, peers: seq<Address>)
    requires Enabled(net, step) && Sound(net, peers) && Ballots(net) && Numbered(net) && Orderly(net, step)
    ensures Ballots(Apply(net, step))
  {
    hide Handle, Replies, Sound, BallotPacket, BallotNode, PromisedOnce, ProposedOnce, Numbered, Orderly;
    var net' := Apply(net, step);
    if step.Deliver? {
      forall q | q in net'.sent ensures BallotPacket(net', q) {
        StepBallotPacket(net, step.packet, q, peers);
      }
      forall n | n in net'.nodes ensures BallotNode(net', n) {
        StepBallotNode(net, step.packet, n, peers);
      }
      StepPromisedOnce(net, step.packet, peers);
      StepProposedOnce(net, step.packet, peers);
    } else {
      AskBallots(net, step);
    }
  }

  lemma AskBallots(net: Net, step: Step)
    requires Enabled(net, step) && step.Ask? && Ballots(net)
    ensures Ballots(Apply(net, step))
  {
    var net' := Apply(net, step);
    forall p, n ensures Promisers(net', p, n) == Promisers(net, p, n) {}
    forall q | q in net'.sent ensures BallotPacket(net', q) {
      if q in net.sent {
        assert BallotPacket(net, q);
      }
    }
    forall n | n in net'.nodes ensures BallotNode(net', n) {
      assert BallotNode(net, n);
    }
  }

  predicate AlwaysOrderly(net: Net, steps: seq<Step>)
    requires Runs(net, steps)
    decreases |steps|
  {
    steps == [] || (Orderly(net, steps[0]) && AlwaysOrderly(Apply(net, steps[0]), steps[1..]))
  }

  lemma {:induction false} RunBallots(net: Net, steps: seq<Step>, peers: seq<Address>)
    requires Runs(net, steps) && AlwaysOrderly(net, steps) && Sound(net, peers) && Ballots(net) && Numbered(net)
    ensures Sound(End(net, steps), peers) && Ballots(End(net, steps))
    decreases |steps|
  {
    if steps != [] {
      hide Enabled, Apply, Members, FromNodes, Traced, Ballots, Numbered, Orderly;
      StepMembers(net, steps[0], peers);
      StepTraced(net, steps[0], peers);
      StepNumbered(net, steps[0], peers);
      StepBallots(net, steps[0], peers);
      RunBallots(Apply(net, steps[0]), steps[1..], peers);
    }
  }

  /** Every announcement goes back to a proposal with the same number and value. */
  lemma AnnouncedWasProposed(net: Net, peers: seq<Address>, p: Packet) returns (q: Packet)
    requires Sound(net, peers) && p in net.sent && p.message.Selected?
    ensures q in net.sent && q.message == Accept(p.message.number, p.message.val)
  {
    assert TracedPacket(net, p);
    var n := p.from;
    if p.to !in net.nodes {
      var m :| m in net.nodes && Packet(m, p.from, p.message) in net.sent;
      assert TracedPacket(net, Packet(m, p.from, p.message));
      n := m;
    }
    var a :| Packet(n, a, Accept(p.message.number, p.message.val)) in net.sent;
    q := Packet(n, a, Accept(p.message.number, p.message.val));
  }

  lemma InitBallots(net: Net, peers: seq<Address>)
    requires Init(net, peers)
    ensures Sound(net, peers) && Ballots(net) && Numbered(net)
  {
  }

  /** Agreement: under orderly delivery, whatever is announced for one number carries one value. */
  lemma Agreement(net: Net, peers: seq<Address>, steps: seq<Step>, p: Packet, q: Packet)
    requires Init(net, peers) && Runs(net, steps) && AlwaysOrderly(net, steps)
    requires p in End(net, steps).sent && p.message.Selected? && q in End(net, steps).sent && q.message.Selected?
    requires p.message.number == q.message.number
    ensures p.message.val == q.message.val
  {
    hide Members, FromNodes, Traced, Handle, Init, Numbered, BallotPacket, BallotNode, PromisedOnce;
    InitBallots(net, peers);
    RunBallots(net, steps, peers);
    var a := AnnouncedWasProposed(End(net, steps), peers, p);
    var b := AnnouncedWasProposed(End(net, steps), peers, q);
  }

  /** And so do the logs of any two nodes. */
  lemma LogsAgree(net: Net, peers: seq<Address>, steps: seq<Step>, n: Address, m: Address, d: (u64, u64), e: (u64, u64))
    requires Init(net, peers) && Runs(net, steps) && AlwaysOrderly(net, steps)
    requires n in End(net, steps).nodes && d in End(net, steps).nodes[n].storage
    requires m in End(net, steps).nodes && e in End(net, steps).nodes[m].storage
    requires d.0 == e.0
    ensures d.1 == e.1
  {
    StoredValidity(net, peers, steps, n, d);
    StoredValidity(net, peers, steps, m, e);
    var last := End(net, steps);
    var a :| a in last.nodes && Packet(a, n, Selected(d.0, d.1)) in last.sent;
    var b :| b in last.nodes && Packet(b, m, Selected(e.0, e.1)) in last.sent;
    Agreement(net, peers, steps, Packet(a, n, Selected(d.0, d.1)), Packet(b, m, Selected(e.0, e.1)));
  }
}
