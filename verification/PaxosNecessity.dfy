/**
 Each of the three conditions on delivery is needed: with any one of them dropped, any three nodes can be brought to
 announce two values for one number, by a run that keeps to the other two.
 */
module PaxosNecessity {
  import opened Words
  import opened Paxos
  import opened PaxosNet
  import opened PaxosAgreement

  /** A run so far, and the condition it need not meet. */
  datatype Run = Run(start: Net, steps: seq<Step>, net: Net, dropped: Clause)

  predicate ObeysOthers(net: Net, step: Step, dropped: Clause)
    requires Enabled(net, step)
  {
    && (dropped == NoLateSelected || Obeys(net, step, NoLateSelected))
    && (dropped == NoRequestMeanwhile || Obeys(net, step, NoRequestMeanwhile))
    && (dropped == NoOldPromise || Obeys(net, step, NoOldPromise))
  }

  predicate AlwaysObeysOthers(net: Net, steps: seq<Step>, dropped: Clause)
    requires Runs(net, steps)
    decreases |steps|
  {
    steps == [] || (ObeysOthers(net, steps[0], dropped) && AlwaysObeysOthers(Apply(net, steps[0]), steps[1..], dropped))
  }

  predicate Good(r: Run) {
    Runs(r.start, r.steps) && End(r.start, r.steps) == r.net && AlwaysObeysOthers(r.start, r.steps, r.dropped)
  }

  function Then(r: Run, step: Step): Run
    requires Enabled(r.net, step)
  {
    Run(r.start, r.steps + [step], Apply(r.net, step), r.dropped)
  }

  lemma FirstStep(net: Net, step: Step, dropped: Clause)
    requires Enabled(net, step) && ObeysOthers(net, step, dropped)
    ensures Good(Run(net, [step], Apply(net, step), dropped))
  {
    hide Enabled, Apply, ObeysOthers;
    var steps := [step];
    assert steps[0] == step && steps[1..] == [];
    assert Runs(Apply(net, steps[0]), steps[1..]);
    assert Runs(net, steps);
    assert End(net, steps) == Apply(net, step);
    assert AlwaysObeysOthers(net, steps, dropped);
  }

  lemma {:induction false} ThenGood(r: Run, step: Step)
    requires Good(r) && Enabled(r.net, step) && ObeysOthers(r.net, step, r.dropped)
    ensures Good(Then(r, step))
    decreases |r.steps|
  {
    hide Enabled, Apply, ObeysOthers;
    if r.steps == [] {
      FirstStep(r.net, step, r.dropped);
      assert [] + [step] == [step];
    } else {
      assert (r.steps + [step])[1..] == r.steps[1..] + [step];
      ThenGood(Run(Apply(r.start, r.steps[0]), r.steps[1..], r.net, r.dropped), step);
    }
  }

  // --- Pieces of a run -----------------------------------------------------------------------------------------------

  predicate Nodes(r: Run, a: Address, b: Address, c: Address) {
    && Good(r) && a != b && b != c && a != c
    && r.net.nodes.Keys == {a, b, c}
    && forall n :: n in r.net.nodes ==> r.net.nodes[n].peers == [a, b, c]
  }

  function At(r: Run, n: Address): State {
    if n in r.net.nodes then r.net.nodes[n] else Start([])
  }

  predicate Sent(r: Run, from: Address, to: Address, m: Message) {
    Packet(from, to, m) in r.net.sent
  }

  predicate ToAll(r: Run, from: Address, m: Message, a: Address, b: Address, c: Address) {
    Sent(r, from, a, m) && Sent(r, from, b, m) && Sent(r, from, c, m)
  }

  /** `to` is now in state `s`; the other nodes are as before, and nothing that was sent is gone. */
  ghost predicate Onwards(r: Run, r': Run, to: Address, s: State) {
    && r'.start == r.start && r'.dropped == r.dropped
    && At(r', to) == s
    && (forall n :: n != to ==> At(r', n) == At(r, n))
    && (forall p, q, m :: Sent(r, p, q, m) ==> Sent(r', p, q, m))
  }

  /** A client may ask at any time. */
  lemma Asked(r: Run, a: Address, b: Address, c: Address, k: Address, p: Address, v: u64) returns (r': Run)
    requires Nodes(r, a, b, c) && k !in {a, b, c} && p in {a, b, c}
    ensures Nodes(r', a, b, c) && Onwards(r, r', p, At(r, p))
    ensures Sent(r', k, p, Request(v)) && r'.net.latest == r.net.latest
  {
    hide Good;
    ThenGood(r, Ask(k, p, v));
    r' := Then(r, Ask(k, p, v));
  }

  /** Any message that was sent can be delivered, if the conditions that are kept to allow it. */
  lemma Delivered(r: Run, a: Address, b: Address, c: Address, p: Packet) returns (r': Run)
    requires Nodes(r, a, b, c) && p.to in {a, b, c} && Sent(r, p.from, p.to, p.message)
    requires ObeysOthers(r.net, Deliver(p), r.dropped)
    ensures var s, reply := Handle(At(r, p.to), p.message, p.from).0, Handle(At(r, p.to), p.message, p.from).1;
            && Nodes(r', a, b, c) && Onwards(r, r', p.to, s)
            && (forall q :: q in Replies(p.to, s, reply) ==> Sent(r', q.from, q.to, q.message))
            && r'.net.latest
               == if p.message.Request? then r.net.latest[p.to := Successor(At(r, p.to).number)] else r.net.latest
  {
    hide Good, Handle, Replies, ObeysOthers;
    assert Packet(p.from, p.to, p.message) == p;
    ThenGood(r, Deliver(p));
    HandleKeepsMembers(r.net.nodes[p.to], p.message, p.from);
    r' := Then(r, Deliver(p));
  }

  /** A client asks `p`, which prepares its next number. */
  lemma Requested(r: Run, a: Address, b: Address, c: Address, k: Address, p: Address, v: u64) returns (r': Run)
    requires Nodes(r, a, b, c) && k !in {a, b, c} && p in {a, b, c}
    requires r.dropped == NoRequestMeanwhile || At(r, p).promised == {}
    ensures Nodes(r', a, b, c) && Onwards(r, r', p, At(r, p).(val := v, clients := At(r, p).clients + {k}))
    ensures ToAll(r', p, Prepare(Successor(At(r, p).number)), a, b, c)
    ensures r'.net.latest == r.net.latest[p := Successor(At(r, p).number)]
  {
    hide Good;
    r' := Asked(r, a, b, c, k, p, v);
    r' := Delivered(r', a, b, c, Packet(k, p, Request(v)));
    ReplyToAll(r', p, Prepare(Successor(At(r, p).number)), a, b, c);
  }

  lemma ReplyToAll(r: Run, p: Address, m: Message, a: Address, b: Address, c: Address)
    requires Nodes(r, a, b, c) && p in {a, b, c}
    requires forall q :: q in Replies(p, At(r, p), ToPeers(m)) ==> Sent(r, q.from, q.to, q.message)
    ensures ToAll(r, p, m, a, b, c)
  {
    hide Good, Sent;
    var peers := At(r, p).peers;
    assert peers == [a, b, c];
    assert a in peers && b in peers && c in peers;
    forall n | n in peers ensures Sent(r, p, n, m) {
      assert Packet(p, n, m) in Replies(p, At(r, p), ToPeers(m));
    }
  }

  /** `n` handles a Prepare with a higher number and promises. */
  lemma Promised(r: Run, a: Address, b: Address, c: Address, p: Address, n: Address, number: u64) returns (r': Run)
    requires Nodes(r, a, b, c) && p in {a, b, c} && n in {a, b, c}
    requires Sent(r, p, n, Prepare(number)) && number > At(r, n).number
    ensures Nodes(r', a, b, c) && Onwards(r, r', n, At(r, n).(number := number))
    ensures Sent(r', n, p, Promise(number)) && r'.net.latest == r.net.latest
  {
    hide Good;
    r' := Delivered(r, a, b, c, Packet(p, n, Prepare(number)));
    assert Packet(n, p, Promise(number)) in Replies(n, At(r', n), Answer(p, Promise(number)));
  }

  predicate Current(r: Run, p: Address, number: u64) {
    r.dropped == NoOldPromise || (p in r.net.latest && r.net.latest[p] == number)
  }

  lemma CurrentObeys(r: Run, a: Address, b: Address, c: Address, p: Address, n: Address, number: u64)
    requires Nodes(r, a, b, c) && p in {a, b, c} && Current(r, p, number) && Sent(r, n, p, Promise(number))
    ensures ObeysOthers(r.net, Deliver(Packet(n, p, Promise(number))), r.dropped)
  {
    hide Good;
  }

  /** `p` counts a first promise. */
  lemma CountedFirst(r: Run, a: Address, b: Address, c: Address, p: Address, n: Address, number: u64) returns (r': Run)
    requires Nodes(r, a, b, c) && p in {a, b, c} && n in {a, b, c} && Current(r, p, number)
    requires Sent(r, n, p, Promise(number))
    requires At(r, p).promised == {} && number > At(r, p).promisedNumber
    ensures Nodes(r', a, b, c) && Onwards(r, r', p, At(r, p).(promised := {n}))
    ensures r'.net.latest == r.net.latest
  {
    hide Good, ObeysOthers;
    CurrentObeys(r, a, b, c, p, n, number);
    r' := Delivered(r, a, b, c, Packet(n, p, Promise(number)));
    assert {} + {n} == {n};
  }

  /** `p` counts a second promise and proposes its value. */
  lemma CountedSecond(r: Run, a: Address, b: Address, c: Address, p: Address, m: Address, n: Address, number: u64)
      returns (r': Run)
    requires Nodes(r, a, b, c) && p in {a, b, c} && n in {a, b, c} && Current(r, p, number)
    requires Sent(r, n, p, Promise(number)) && m != n
    requires At(r, p).promised == {m} && number > At(r, p).promisedNumber
    ensures Nodes(r', a, b, c) && Onwards(r, r', p, At(r, p).(promisedNumber := number, promised := {}))
    ensures ToAll(r', p, Accept(number, At(r, p).val), a, b, c) && r'.net.latest == r.net.latest
  {
    hide Good, ObeysOthers, Sent, Replies;
    CurrentObeys(r, a, b, c, p, n, number);
    r' := Delivered(r, a, b, c, Packet(n, p, Promise(number)));
    assert |{m} + {n}| == 2;
    ReplyToAll(r', p, Accept(number, At(r, p).val), a, b, c);
  }

  /** `n` accepts what `p` proposes. */
  lemma AcceptedBy(r: Run, a: Address, b: Address, c: Address, p: Address, n: Address, number: u64, v: u64)
      returns (r': Run)
    requires Nodes(r, a, b, c) && p in {a, b, c} && n in {a, b, c}
    requires Sent(r, p, n, Accept(number, v)) && number >= At(r, n).number
    ensures Nodes(r', a, b, c) && Onwards(r, r', n, At(r, n))
    ensures Sent(r', n, p, Accepted(number, v)) && r'.net.latest == r.net.latest
  {
    hide Good;
    r' := Delivered(r, a, b, c, Packet(p, n, Accept(number, v)));
    assert Packet(n, p, Accepted(number, v)) in Replies(n, At(r', n), Answer(p, Accepted(number, v)));
  }

  lemma CountAcceptance(r: Run, a: Address, b: Address, c: Address, p: Address, n: Address, number: u64, v: u64)
      returns (r': Run)
    requires Nodes(r, a, b, c) && p in {a, b, c} && n in {a, b, c}
    requires Sent(r, n, p, Accepted(number, v))
    requires At(r, p).accepted == {} && number > At(r, p).acceptedNumber
    ensures Nodes(r', a, b, c) && Onwards(r, r', p, At(r, p).(accepted := {n})) && r'.net.latest == r.net.latest
  {
    hide Good, Replies;
    r' := Delivered(r, a, b, c, Packet(n, p, Accepted(number, v)));
    assert {} + {n} == {n};
  }

  lemma Announced(r: Run, a: Address, b: Address, c: Address, p: Address, m: Address, n: Address, number: u64, v: u64)
      returns (r': Run)
    requires Nodes(r, a, b, c) && p in {a, b, c} && n in {a, b, c} && m != n
    requires Sent(r, n, p, Accepted(number, v))
    requires At(r, p).accepted == {m} && number > At(r, p).acceptedNumber
    ensures Nodes(r', a, b, c) && Onwards(r, r', p, At(r, p).(acceptedNumber := number, accepted := {}))
    ensures ToAll(r', p, Selected(number, v), a, b, c) && r'.net.latest == r.net.latest
  {
    hide Good, Replies;
    r' := Delivered(r, a, b, c, Packet(n, p, Accepted(number, v)));
    assert |{m} + {n}| == 2;
    ReplyToAll(r', p, Selected(number, v), a, b, c);
  }

  /** What `p` proposes is accepted by itself and by `n`, and `p` announces it. */
  lemma Decided(r: Run, a: Address, b: Address, c: Address, p: Address, n: Address, number: u64, v: u64)
      returns (r': Run)
    requires Nodes(r, a, b, c) && p in {a, b, c} && n in {a, b, c} && n != p
    requires ToAll(r, p, Accept(number, v), a, b, c)
    requires At(r, p).number <= number && At(r, n).number <= number
    requires At(r, p).accepted == {} && number > At(r, p).acceptedNumber
    ensures Nodes(r', a, b, c) && Onwards(r, r', p, At(r, p).(acceptedNumber := number, accepted := {}))
    ensures ToAll(r', p, Selected(number, v), a, b, c) && r'.net.latest == r.net.latest
  {
    hide Nodes, At, Sent;
    r' := AcceptedBy(r, a, b, c, p, p, number, v);
    r' := AcceptedBy(r', a, b, c, p, n, number, v);
    r' := CountAcceptance(r', a, b, c, p, p, number, v);
    r' := Announced(r', a, b, c, p, p, n, number, v);
  }

  /** A node hears of a choice. */
  lemma Heard(r: Run, a: Address, b: Address, c: Address, p: Address, n: Address, number: u64, v: u64) returns (r': Run)
    requires Nodes(r, a, b, c) && p in {a, b, c} && n in {a, b, c}
    requires Sent(r, p, n, Selected(number, v))
    requires r.dropped == NoLateSelected || number >= At(r, n).number
    ensures Nodes(r', a, b, c)
    ensures Onwards(r, r', n, At(r, n).(storage := At(r, n).storage + [(number, v)], number := number, promised := {}))
    ensures r'.net.latest == r.net.latest
  {
    hide Good, Replies;
    r' := Delivered(r, a, b, c, Packet(p, n, Selected(number, v)));
  }

  // --- The three runs ------------------------------------------------------------------------------------------------

  predicate Disagrees(r: Run, number: u64, v: u64, w: u64) {
    && (exists p :: p in r.net.sent && p.message == Selected(number, v))
    && (exists p :: p in r.net.sent && p.message == Selected(number, w))
  }

  lemma DisagreesBy(r: Run, p: Address, q: Address, n: Address, number: u64, v: u64, w: u64)
    requires Sent(r, p, n, Selected(number, v)) && Sent(r, q, n, Selected(number, w))
    ensures Disagrees(r, number, v, w)
  {
    assert Packet(p, n, Selected(number, v)) in r.net.sent && Packet(q, n, Selected(number, w)) in r.net.sent;
  }

  lemma Begun(a: Address, b: Address, c: Address, dropped: Clause) returns (r: Run)
    requires a != b && b != c && a != c
    ensures Nodes(r, a, b, c) && Init(r.start, [a, b, c]) && r.dropped == dropped
    ensures At(r, a) == At(r, b) == At(r, c) == Start([a, b, c])
  {
    var peers := [a, b, c];
    var net := Net(map p | p in peers :: Start(peers), {}, {}, map[]);
    r := Run(net, [], net, dropped);
  }

  lemma NodesAreGood(r: Run, a: Address, b: Address, c: Address)
    requires Nodes(r, a, b, c)
    ensures Good(r)
  {
    hide Good;
  }

  /** Both proposals with one number go through. */
  lemma BothDecided(r: Run, a: Address, b: Address, c: Address, number: u64, v: u64, w: u64) returns (r': Run)
    requires Nodes(r, a, b, c) && a != b && b != c && a != c
    requires ToAll(r, a, Accept(number, v), a, b, c) && ToAll(r, b, Accept(number, w), a, b, c)
    requires At(r, a).number <= number && At(r, b).number <= number && At(r, c).number <= number
    requires At(r, a).accepted == {} && number > At(r, a).acceptedNumber
    requires At(r, b).accepted == {} && number > At(r, b).acceptedNumber
    ensures Good(r') && r'.start == r.start && r'.dropped == r.dropped && Disagrees(r', number, v, w)
  {
    hide Nodes, At, Sent, Good;
    r' := Decided(r, a, b, c, a, c, number, v);
    r' := Decided(r', a, b, c, b, c, number, w);
    DisagreesBy(r', a, b, a, number, v, w);
    NodesAreGood(r', a, b, c);
  }

  /** `b`, on number 1, prepares 2, which `b` itself and `c` promise. */
  lemma SecondProposer(r: Run, a: Address, b: Address, c: Address, k: Address, w: u64) returns (r': Run)
    requires Nodes(r, a, b, c) && k !in {a, b, c} && a != b && b != c && a != c
    requires At(r, b).number == 1 && At(r, b).promised == {} && At(r, b).promisedNumber < 2
    requires At(r, c).number < 2
    ensures Nodes(r', a, b, c) && r'.start == r.start && r'.dropped == r.dropped
    ensures forall p, q, m :: Sent(r, p, q, m) ==> Sent(r', p, q, m)
    ensures At(r', a) == At(r, a)
    ensures At(r', b).number == 2 && At(r', c).number == 2
    ensures At(r', b).accepted == At(r, b).accepted
    ensures At(r', b).acceptedNumber == At(r, b).acceptedNumber
    ensures ToAll(r', b, Accept(2, w), a, b, c)
  {
    hide Nodes, At, Sent, Good;
    r' := Requested(r, a, b, c, k, b, w);
    r' := Promised(r', a, b, c, b, b, 2);
    r' := Promised(r', a, b, c, b, c, 2);
    r' := CountedFirst(r', a, b, c, b, b, 2);
    r' := CountedSecond(r', a, b, c, b, b, c, 2);
  }

  /**
   `a` counts a promise of `b` for number 1 and one of its own for number 2, because a request came in between, and
   proposes 2 with one promise where two are needed.
   */
  lemma RequestMeanwhileBreaksAgreement(a: Address, b: Address, c: Address, k: Address, v: u64, w: u64) returns (r: Run)
    requires a != b && b != c && a != c && k !in {a, b, c}
    ensures Init(r.start, [a, b, c]) && Good(r) && r.dropped == NoRequestMeanwhile && Disagrees(r, 2, v, w)
  {
    hide Nodes, At, Sent, Good;
    r := Begun(a, b, c, NoRequestMeanwhile);
    r := Requested(r, a, b, c, k, a, v);
    r := Promised(r, a, b, c, a, b, 1);
    r := Promised(r, a, b, c, a, a, 1);
    r := CountedFirst(r, a, b, c, a, b, 1);
    r := Requested(r, a, b, c, k, a, v);
    r := Promised(r, a, b, c, a, a, 2);
    r := CountedSecond(r, a, b, c, a, b, a, 2);
    r := SecondProposer(r, a, b, c, k, w);
    r := BothDecided(r, a, b, c, 2, v, w);
  }

  /** The same, because the promise for number 1 comes after number 2 was prepared. */
  lemma OldPromiseBreaksAgreement(a: Address, b: Address, c: Address, k: Address, v: u64, w: u64) returns (r: Run)
    requires a != b && b != c && a != c && k !in {a, b, c}
    ensures Init(r.start, [a, b, c]) && Good(r) && r.dropped == NoOldPromise && Disagrees(r, 2, v, w)
  {
    hide Nodes, At, Sent, Good;
    r := Begun(a, b, c, NoOldPromise);
    r := Requested(r, a, b, c, k, a, v);
    r := Promised(r, a, b, c, a, b, 1);
    r := Promised(r, a, b, c, a, a, 1);
    r := Requested(r, a, b, c, k, a, v);
    r := CountedFirst(r, a, b, c, a, b, 1);
    r := Promised(r, a, b, c, a, a, 2);
    r := CountedSecond(r, a, b, c, a, b, a, 2);
    r := SecondProposer(r, a, b, c, k, w);
    r := BothDecided(r, a, b, c, 2, v, w);
  }

  /** Number 1 is chosen and announced, and `c` has not heard of it yet. */
  lemma FirstRound(a: Address, b: Address, c: Address, k: Address, u: u64) returns (r: Run)
    requires a != b && b != c && a != c && k !in {a, b, c}
    ensures Nodes(r, a, b, c) && Init(r.start, [a, b, c]) && r.dropped == NoLateSelected
    ensures ToAll(r, a, Selected(1, u), a, b, c)
    ensures At(r, a).number == 1 && At(r, b).number == 1 && At(r, c) == Start([a, b, c])
    ensures At(r, a).promised == {} && At(r, a).promisedNumber == 1
    ensures At(r, a).accepted == {} && At(r, a).acceptedNumber == 1
    ensures At(r, b) == Start([a, b, c]).(number := 1)
  {
    hide Nodes, At, Sent, Good;
    r := Begun(a, b, c, NoLateSelected);
    r := Requested(r, a, b, c, k, a, u);
    r := Promised(r, a, b, c, a, a, 1);
    r := Promised(r, a, b, c, a, b, 1);
    r := CountedFirst(r, a, b, c, a, a, 1);
    r := CountedSecond(r, a, b, c, a, a, b, 1);
    r := Decided(r, a, b, c, a, b, 1, u);
  }

  /** `c` promises number 2 to `a`, then hears of the choice of number 1 and so promises 2 to `b` as well. */
  lemma LateSelectedBreaksAgreement(a: Address, b: Address, c: Address, k: Address, v: u64, w: u64) returns (r: Run)
    requires a != b && b != c && a != c && k !in {a, b, c}
    ensures Init(r.start, [a, b, c]) && Good(r) && r.dropped == NoLateSelected && Disagrees(r, 2, v, w)
  {
    hide Nodes, At, Sent, Good;
    r := FirstRound(a, b, c, k, v);
    r := Requested(r, a, b, c, k, a, v);
    r := Promised(r, a, b, c, a, a, 2);
    r := Promised(r, a, b, c, a, c, 2);
    r := CountedFirst(r, a, b, c, a, a, 2);
    r := CountedSecond(r, a, b, c, a, a, c, 2);
    r := Heard(r, a, b, c, a, c, 1, v);
    r := SecondProposer(r, a, b, c, k, w);
    r := BothDecided(r, a, b, c, 2, v, w);
  }
}
