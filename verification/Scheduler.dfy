/** The scheduler's tables and what the event loop does to them on one action (src/core.rs). */
module Scheduler {
  import opened Api

  datatype State = State(
    active: set<Tag>,
    actors: map<Tag, Actor>,
    queue: map<Tag, seq<Envelope>>,
    tasks: multiset<Entry>
  )

  const EMPTY := State({}, map[], map[], multiset{})

  /** A mailbox exists for exactly the registered addresses. */
  predicate Consistent(s: State) {
    s.active == s.queue.Keys
  }

  /** A registered actor that is idle has nothing to read. */
  predicate IdleEmpty(s: State) {
    forall t :: t in s.actors && t in s.queue ==> s.queue[t] == []
  }

  predicate Good(s: State) {
    Consistent(s) && IdleEmpty(s)
  }

  predicate SameTables(a: State, b: State) {
    a.active == b.active && a.actors == b.actors && a.queue == b.queue
  }

  function Mailbox(s: State, t: Tag): seq<Envelope> {
    if t in s.queue then s.queue[t] else []
  }

  /** One pass through the `match` of the event loop: the new tables and the events sent to the workers. */
  function Handle(s: State, a: Action): (State, seq<Event>)
    requires Consistent(s)
  {
    match a
    case Return(tag, actor, ok) =>
      if tag in s.active then
        if !ok then
          (s.(active := s.active - {tag}, queue := s.queue - {tag}), [])
        else if s.queue[tag] != [] then
          (s.(queue := s.queue[tag := s.queue[tag][1..]]), [Mail(tag, actor, s.queue[tag][0])])
        else
          (s.(actors := s.actors[tag := actor]), [])
      else
        (s.(queue := s.queue - {tag}), if ok then [Event.Stop(tag, actor)] else [])
    case Queue(tag, envelope) =>
      if tag in s.active then
        var mailbox := s.queue[tag] + [envelope];
        if tag in s.actors then
          (s.(actors := s.actors - {tag}, queue := s.queue[tag := mailbox[1..]]),
           [Mail(tag, s.actors[tag], mailbox[0])])
        else
          (s.(queue := s.queue[tag := mailbox]), [])
      else
        (s, [])
    case Spawn(tag, actor) =>
      if tag !in s.active then
        (s.(active := s.active + {tag}, actors := s.actors[tag := actor], queue := s.queue[tag := []]), [])
      else
        (s, [])
    case Delay(entry) =>
      (s.(tasks := s.tasks + multiset{entry}), [])
    case Stop(tag) =>
      if tag in s.active then
        (s.(active := s.active - {tag}, actors := s.actors - {tag}, queue := s.queue - {tag}),
         if tag in s.actors then [Event.Stop(tag, s.actors[tag])] else [])
      else
        (s, [])
    case Logs(_) => (s, [])
    case Metrics => (s, [])
    case Shutdown => (s, [])
  }

  /** Neither invariant needs anything of the action, however late or unexpected it is. */
  lemma HandleKeepsGood(s: State, a: Action)
    requires Good(s)
    ensures Good(Handle(s, a).0)
  {
  }

  // --- Any list of actions, in any order -----------------------------------------------------------------------------

  /** The tables after the loop has worked through `log`, starting empty. */
  function After(log: seq<Action>): (s: State)
    ensures Good(s)
  {
    if log == [] then EMPTY
    else
      var before := After(log[..|log| - 1]);
      HandleKeepsGood(before, log[|log| - 1]);
      Handle(before, log[|log| - 1]).0
  }

  lemma AfterOne(log: seq<Action>, a: Action)
    ensures After(log + [a]) == Handle(After(log), a).0
  {
    assert (log + [a])[..|log|] == log;
  }

  /** Everything the loop sends to the workers while it works through `log`. */
  function Emitted(log: seq<Action>): seq<Event> {
    if log == [] then []
    else Emitted(log[..|log| - 1]) + Handle(After(log[..|log| - 1]), log[|log| - 1]).1
  }

  lemma EmittedOne(log: seq<Action>, a: Action)
    ensures Emitted(log + [a]) == Emitted(log) + Handle(After(log), a).1
  {
    assert (log + [a])[..|log|] == log;
  }

  predicate Registers(s: State, a: Action, t: Tag) {
    a.Spawn? && a.tag == t && t !in s.active
  }

  function MailTo(events: seq<Event>, t: Tag): seq<Envelope> {
    if events == [] then []
    else (if events[0].Mail? && events[0].tag == t then [events[0].envelope] else []) + MailTo(events[1..], t)
  }

  /** The messages accepted for `t` since its latest registration, in the order the loop took them. */
  function Accepted(log: seq<Action>, t: Tag): seq<Envelope> {
    if log == [] then []
    else
      var past, a := log[..|log| - 1], log[|log| - 1];
      if Registers(After(past), a, t) then []
      else if a.Queue? && a.tag == t && t in After(past).active then Accepted(past, t) + [a.envelope]
      else Accepted(past, t)
  }

  /** The messages handed to the workers for `t` since its latest registration, in order. */
  function Dispatched(log: seq<Action>, t: Tag): seq<Envelope> {
    if log == [] then []
    else
      var past, a := log[..|log| - 1], log[|log| - 1];
      if Registers(After(past), a, t) then [] else Dispatched(past, t) + MailTo(Handle(After(past), a).1, t)
  }

  /** At most one event leaves per action, so the mail in it is at most one message. */
  lemma MailToOne(events: seq<Event>, t: Tag)
    requires |events| <= 1
    ensures MailTo(events, t)
         == if events != [] && events[0].Mail? && events[0].tag == t then [events[0].envelope] else []
  {
    if events != [] {
      assert MailTo(events[1..], t) == [];
    }
  }

  /** One action moves messages of `t` between mailbox and workers without loss, duplication or overtaking. */
  lemma HandleMail(s: State, a: Action, t: Tag)
    requires Good(s)
    ensures |Handle(s, a).1| <= 1
    ensures t in s.active && t in Handle(s, a).0.active ==>
              s.queue[t] + (if a.Queue? && a.tag == t then [a.envelope] else [])
              == MailTo(Handle(s, a).1, t) + Handle(s, a).0.queue[t]
    ensures t !in s.active || t !in Handle(s, a).0.active ==> MailTo(Handle(s, a).1, t) == []
    ensures t !in s.active && t in Handle(s, a).0.active <==> Registers(s, a, t)
    ensures Registers(s, a, t) ==> Handle(s, a).0.queue[t] == []
  {
    MailToOne(Handle(s, a).1, t);
  }

  /** Nothing is lost, duplicated or reordered between acceptance and dispatch while the address stays registered. */
  lemma {:induction false} AcceptedIsDispatchedThenQueued(log: seq<Action>, t: Tag)
    requires t in After(log).active
    ensures Accepted(log, t) == Dispatched(log, t) + After(log).queue[t]
  {
    hide Handle, IdleEmpty;
    var past, a := log[..|log| - 1], log[|log| - 1];
    HandleMail(After(past), a, t);
    var (next, events) := Handle(After(past), a);
    assert After(log) == next;
    if t in After(past).active {
      AcceptedIsDispatchedThenQueued(past, t);
      var arrived := if a.Queue? && a.tag == t then [a.envelope] else [];
      assert Dispatched(log, t) == Dispatched(past, t) + MailTo(events, t);
      assert Accepted(log, t) == Accepted(past, t) + arrived;
      assert (Dispatched(past, t) + After(past).queue[t]) + arrived
          == Dispatched(past, t) + (After(past).queue[t] + arrived)
          == Dispatched(past, t) + (MailTo(events, t) + next.queue[t])
          == (Dispatched(past, t) + MailTo(events, t)) + next.queue[t];
    }
  }

  /** How many messages accepted for `t` were thrown away with a mailbox, by a stop or by a failure. */
  function Discarded(log: seq<Action>, t: Tag): nat {
    if log == [] then 0
    else
      var past := log[..|log| - 1];
      Discarded(past, t) + (if t in After(past).active && t !in After(log).active then |After(past).queue[t]| else 0)
  }

  function AcceptedEver(log: seq<Action>, t: Tag): nat {
    if log == [] then 0
    else
      var past, a := log[..|log| - 1], log[|log| - 1];
      AcceptedEver(past, t) + (if a.Queue? && a.tag == t && t in After(past).active then 1 else 0)
  }

  function DispatchedEver(log: seq<Action>, t: Tag): nat {
    if log == [] then 0
    else
      var past, a := log[..|log| - 1], log[|log| - 1];
      DispatchedEver(past, t) + |MailTo(Handle(After(past), a).1, t)|
  }

  /** Over all registrations of `t`: accepted = dispatched + still queued + discarded. */
  lemma {:induction false} AcceptedSplits(log: seq<Action>, t: Tag)
    ensures AcceptedEver(log, t) == DispatchedEver(log, t) + |Mailbox(After(log), t)| + Discarded(log, t)
  {
    if log != [] {
      var past, a := log[..|log| - 1], log[|log| - 1];
      HandleMail(After(past), a, t);
      AcceptedSplits(past, t);
      var q, q' := Mailbox(After(past), t), Mailbox(After(log), t);
      if t in After(past).active && t in After(log).active {
        assert |q| + (if a.Queue? && a.tag == t then 1 else 0) == |MailTo(Handle(After(past), a).1, t)| + |q'|;
      }
    }
  }
}
