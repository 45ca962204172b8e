/** One node of the consensus example: proposer, acceptor and learner in one (examples/paxos.rs). */
module Paxos {
  import opened Words

  /** The address of a node or of a client. */
  datatype Address = Address(name: string)

  datatype Message =
    | Request(val: u64)
    | Prepare(number: u64)
    | Promise(number: u64)
    | Ignored(number: u64)
    | Accept(number: u64, val: u64)
    | Accepted(number: u64, val: u64)
    | Rejected(number: u64)
    | Selected(number: u64, val: u64)
    | Empty

  /** The fields of `Agent`; `number` is its `seq`. */
  datatype State = State(
    peers: seq<Address>,
    clients: set<Address>,
    val: u64,
    number: u64,
    promisedNumber: u64,
    acceptedNumber: u64,
    promised: set<Address>,
    accepted: set<Address>,
    storage: seq<(u64, u64)>
  )

  /** Whom the messages returned by `handle` are for. */
  datatype Reply =
    | Nothing
    | Answer(to: Address, message: Message)
    | ToPeers(message: Message)
    | ToClients(message: Message)

  function Start(peers: seq<Address>): State {
    State(peers, {}, 0, 0, 0, 0, {}, {}, [])
  }

  /** 64-bit addition, as it wraps without overflow checks. */
  function Successor(n: u64): u64 {
    if n == 0xFFFF_FFFF_FFFF_FFFF then 0 else n + 1
  }

  predicate Quorum(s: State, n: nat) {
    n > |s.peers| / 2
  }

  function Handle(s: State, m: Message, from: Address): (State, Reply) {
    match m
    case Request(val) =>
      (s.(val := val, clients := s.clients + {from}), ToPeers(Prepare(Successor(s.number))))
    case Prepare(n) =>
      if n > s.number then (s.(number := n), Answer(from, Promise(n))) else (s, Answer(from, Ignored(n)))
    case Promise(n) =>
      if n <= s.promisedNumber then (s, Nothing)
      else
        var promised := s.promised + {from};
        if Quorum(s, |promised|) then
          (s.(promisedNumber := n, promised := {}), ToPeers(Accept(n, s.val)))
        else
          (s.(promised := promised), Nothing)
    case Accept(n, val) =>
      (s, Answer(from, if n >= s.number then Accepted(n, val) else Rejected(n)))
    case Accepted(n, val) =>
      if n <= s.acceptedNumber then (s, Nothing)
      else
        var accepted := s.accepted + {from};
        if Quorum(s, |accepted|) then
          (s.(acceptedNumber := n, accepted := {}), ToPeers(Selected(n, val)))
        else
          (s.(accepted := accepted), Nothing)
    case Selected(n, val) =>
      (s.(storage := s.storage + [(n, val)], number := n, promised := {}), ToClients(Selected(n, val)))
    case Ignored(_) => (s, Nothing)
    case Rejected(_) => (s, Nothing)
    case Empty => (s, Nothing)
  }

  /** The message list that stands for a reply.  Clients come in the order of a hash set, which is any order. */
  predicate Spelled(reply: Reply, peers: seq<Address>, clients: set<Address>, out: seq<(Address, Message)>) {
    match reply
    case Nothing => out == []
    case Answer(to, m) => out == [(to, m)]
    case ToPeers(m) => |out| == |peers| && forall i :: 0 <= i < |out| ==> out[i] == (peers[i], m)
    case ToClients(m) =>
      && (forall i :: 0 <= i < |out| ==> out[i].0 in clients && out[i].1 == m)
      && (forall i, j :: 0 <= i < j < |out| ==> out[i].0 != out[j].0)
      && (forall c :: c in clients ==> (c, m) in out)
  }

  /** The highest number seen never goes down, except where a late Selected carries a lower one. */
  lemma NumberGoesDownExactlyWhen(s: State, m: Message, from: Address)
    ensures Handle(s, m, from).0.number < s.number <==> m.Selected? && m.number < s.number
  {
  }

  /** The messages that make a node gather: one more promise, or one more acceptance, above what it settled last. */
  predicate CountsPromise(s: State, m: Message) {
    m.Promise? && m.number > s.promisedNumber
  }

  predicate CountsAcceptance(s: State, m: Message) {
    m.Accepted? && m.number > s.acceptedNumber
  }

  /** Which message touches which field, and that every other message leaves it alone. */
  lemma FieldsChangeOnlyWhen(s: State, m: Message, from: Address)
    ensures var s' := Handle(s, m, from).0;
            && s'.peers == s.peers
            && (s'.clients != s.clients ==> m.Request?) && (m.Request? ==> s'.clients == s.clients + {from})
            && (s'.val != s.val ==> m.Request?) && (m.Request? ==> s'.val == m.val)
            && (s'.number != s.number ==> s'.number == m.number && (m.Selected? || (m.Prepare? && m.number > s.number)))
            && (m.Selected? || (m.Prepare? && m.number > s.number) ==> s'.number == m.number)
            && (s'.storage != s.storage <==> m.Selected?)
            && (m.Selected? ==> s'.storage == s.storage + [(m.number, m.val)])
            && (s'.promised != s.promised ==> m.Selected? || CountsPromise(s, m)) && (m.Selected? ==> s'.promised == {})
            && (s'.accepted != s.accepted ==> CountsAcceptance(s, m))
            && (s'.promisedNumber != s.promisedNumber ==> CountsPromise(s, m))
            && (s'.acceptedNumber != s.acceptedNumber ==> CountsAcceptance(s, m))
  {
  }

  /** One more voice makes the majority, and then the number is settled and the gathering starts over, or it is kept. */
  lemma GatheringSettlesAtMajority(s: State, m: Message, from: Address)
    ensures var s' := Handle(s, m, from).0;
            && (CountsPromise(s, m) ==>
                  if 2 * |s.promised + {from}| > |s.peers| then s'.promisedNumber == m.number && s'.promised == {}
                  else s'.promisedNumber == s.promisedNumber && s'.promised == s.promised + {from})
            && (CountsAcceptance(s, m) ==>
                  if 2 * |s.accepted + {from}| > |s.peers| then s'.acceptedNumber == m.number && s'.accepted == {}
                  else s'.acceptedNumber == s.acceptedNumber && s'.accepted == s.accepted + {from})
  {
  }

  /**
   Every proposal is answered once, to whoever made it and for its own number: a Prepare with a Promise exactly when its
   number is news, an Accept with an acceptance, value included, exactly when it is not outdated.
   */
  lemma ProposalsAreAnswered(s: State, m: Message, from: Address)
    ensures var reply := Handle(s, m, from).1;
            && (reply.Answer? <==> m.Prepare? || m.Accept?)
            && (reply.Answer? ==> reply.to == from)
            && (m.Prepare? ==> reply.message == if s.number < m.number then Promise(m.number) else Ignored(m.number))
            && (m.Accept? ==> reply.message == if m.number < s.number then Rejected(m.number)
                                               else Accepted(m.number, m.val))
  {
  }

  /** A request starts a proposal above every number the node has seen, unless that was the last one there is. */
  lemma ProposalIsNewExactlyWhen(s: State, v: u64, from: Address)
    ensures var reply := Handle(s, Request(v), from).1;
            && reply.ToPeers? && reply.message.Prepare?
            && (reply.message.number > s.number <==> s.number < 0xFFFF_FFFF_FFFF_FFFF)
            && (reply.message.number > s.number ==> reply.message.number == s.number + 1)
            && (reply.message.number <= s.number ==> reply.message.number == 0)
  {
  }

  class Agent {
    var peers: seq<Address>
    var clients: set<Address>
    var val: u64
    var number: u64
    var promisedNumber: u64
    var acceptedNumber: u64
    var promised: set<Address>
    var accepted: set<Address>
    var storage: seq<(u64, u64)>

    function View(): State
      reads this
    {
      State(peers, clients, val, number, promisedNumber, acceptedNumber, promised, accepted, storage)
    }

    constructor (peers: seq<Address>)
      ensures View() == Start(peers)
    {
      this.peers := peers;
      clients, val, number, promisedNumber, acceptedNumber := {}, 0, 0, 0, 0;
      promised, accepted, storage := {}, {}, [];
    }

    method Broadcast(m: Message) returns (out: seq<(Address, Message)>)
      ensures Spelled(ToPeers(m), peers, clients, out)
    {
      out := [];
      for i := 0 to |peers|
        invariant |out| == i
        invariant forall k :: 0 <= k < i ==> out[k] == (peers[k], m)
      {
        out := out + [(peers[i], m)];
      }
    }

    method TellClients(m: Message) returns (out: seq<(Address, Message)>)
      ensures Spelled(ToClients(m), peers, clients, out)
    {
      out := [];
      var left := clients;
      while left != {}
        invariant left <= clients
        invariant forall i :: 0 <= i < |out| ==> out[i].0 in clients - left && out[i].1 == m
        invariant forall i, j :: 0 <= i < j < |out| ==> out[i].0 != out[j].0
        invariant forall c :: c in clients - left ==> (c, m) in out
        decreases left
      {
        var c :| c in left;
        left := left - {c};
        out := out + [(c, m)];
      }
    }

    method HandleMessage(m: Message, from: Address) returns (out: seq<(Address, Message)>)
      modifies this
      ensures View() == Handle(old(View()), m, from).0
      ensures Spelled(Handle(old(View()), m, from).1, peers, clients, out)
    {
      out := [];
      match m {
        case Request(v) =>
          val := v;
          clients := clients + {from};
          out := Broadcast(Prepare(Successor(number)));
        case Prepare(n) =>
          if n > number {
            number := n;
            out := [(from, Promise(number))];
          } else {
            out := [(from, Ignored(n))];
          }
        case Promise(n) =>
          if n > promisedNumber {
            promised := promised + {from};
            if Quorum(View(), |promised|) {
              promisedNumber := n;
              promised := {};
              out := Broadcast(Accept(n, val));
            }
          }
        case Accept(n, v) =>
          if n >= number {
            out := [(from, Accepted(n, v))];
          } else {
            out := [(from, Rejected(n))];
          }
        case Accepted(n, v) =>
          if n > acceptedNumber {
            accepted := accepted + {from};
            if Quorum(View(), |accepted|) {
              acceptedNumber := n;
              accepted := {};
              out := Broadcast(Selected(n, v));
            }
          }
        case Selected(n, v) =>
          storage := storage + [(n, v)];
          number := n;
          promised := {};
          out := TellClients(Selected(n, v));
        case _ =>
      }
    }
  }
}
