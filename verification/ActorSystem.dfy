/**
 The event loop, its worker threads and the two unbounded FIFO channels between them, as a step relation (src/core.rs).

 One step is one atomic act of one thread, so the runs of this machine are the interleavings of the threads.  What an
 actor sends, whether it panics, and how long it takes are left to the run.
 */
module ActorSystem {
  import opened Api
  import opened Scheduler

  datatype Worker =
    | Idle
    | Busy(tag: Tag, actor: Actor, envelope: Envelope, failed: bool)  // in `receive`, or in `on_fail` after a panic
    | Stopping(tag: Tag, actor: Actor)                                // in `on_stop`
    | Flushing                                                        // in `Local::drain`
    | Exited

  /** The loop thread: in `event_loop`, then sending one `Shutdown` per worker, then draining the action channel. */
  datatype Phase = Running | Closing(left: nat)

  /** What has happened so far.  Nothing in a step depends on it, except that a new box is a new identity. */
  datatype History = History(
    created: set<Instance>,
    refused: multiset<Instance>,  // dropped by a Spawn under an address already registered
    lost: multiset<Instance>,     // dropped by being overwritten in the map of idle actors
    failed: multiset<Instance>,
    stopped: multiset<Instance>,  // `on_stop` has returned
    closed: multiset<Instance>,   // dropped when the loop was over
    sent: seq<(Tag, Envelope)>,   // every Queue action ever put on the action channel
    begun: seq<(Tag, Envelope)>   // every message a worker ever started on
  )

  datatype Sys = Sys(
    loop: State, phase: Phase, actions: seq<Action>, events: seq<Event>, workers: seq<Worker>, past: History
  )

  datatype Step =
    | Post(action: Action)         // `Run`, from outside
    | Take                         // the loop receives an action
    | Expire(entry: Entry)         // the loop pops a delayed message that is due
    | Quit                         // the loop ends because nothing is registered
    | Token                        // the loop thread sends one Shutdown to the workers
    | Pick(w: nat)                 // a worker receives an event
    | Emit(w: nat, action: Action) // the actor a worker is running uses its sender
    | Panic(w: nat)                // `receive` panics, `on_fail` follows
    | GiveBack(w: nat)             // the turn is over, the actor goes back to the loop
    | Stopped(w: nat)              // `on_stop` is over
    | Flushed(w: nat)              // logs and metrics are out

  const NOTHING := History({}, multiset{}, multiset{}, multiset{}, multiset{}, multiset{}, [], [])

  predicate Init(s: Sys) {
    && s.loop == EMPTY && s.phase == Running && s.actions == [] && s.events == [] && s.past == NOTHING
    && forall w :: 0 <= w < |s.workers| ==> s.workers[w].Idle?
  }

  /** A box that was never seen before, and only boxes can be spawned. */
  predicate Fresh(s: Sys, a: Actor) {
    forall x :: x in s.past.created ==> x.actor != a
  }

  /** What `Run` and `Local` let their callers put on the action channel. */
  predicate MaySend(s: Sys, a: Action) {
    a.Queue? || a.Delay? || a.Stop? || (a.Spawn? && Fresh(s, a.actor))
  }

  predicate Enabled(s: Sys, step: Step) {
    match step
    case Post(a) => MaySend(s, a) || a.Shutdown?
    case Take =>
      s.actions != [] && (s.phase == Running ==> Consistent(s.loop)) && (s.phase.Closing? ==> s.phase.left == 0)
    case Expire(e) => s.phase == Running && e in s.loop.tasks && forall o :: o in s.loop.tasks ==> e.at <= o.at
    case Quit => s.phase == Running && s.loop.active == {}
    case Token => s.phase.Closing? && s.phase.left > 0
    case Pick(w) => w < |s.workers| && s.workers[w].Idle? && s.events != []
    case Emit(w, a) =>
      w < |s.workers| &&
      match s.workers[w] {
        case Busy(_, _, _, _) => MaySend(s, a)
        case Stopping(_, _) => MaySend(s, a)
        case Flushing => a.Logs? || a.Metrics?
        case _ => false
      }
    case Panic(w) => w < |s.workers| && s.workers[w].Busy? && !s.workers[w].failed
    case GiveBack(w) => w < |s.workers| && s.workers[w].Busy?
    case Stopped(w) => w < |s.workers| && s.workers[w].Stopping?
    case Flushed(w) => w < |s.workers| && s.workers[w].Flushing?
  }

  /** Appends to the action channel, stamping messages and noting new boxes. */
  function Send(s: Sys, a: Action, origin: Origin): Sys {
    match a
    case Queue(t, e) =>
      var stamped := e.(stamp := Stamp(origin, |s.past.sent|));
      s.(actions := s.actions + [Queue(t, stamped)], past := s.past.(sent := s.past.sent + [(t, stamped)]))
    case Spawn(t, i) =>
      s.(actions := s.actions + [a], past := s.past.(created := s.past.created + {Instance(t, i)}))
    case _ =>
      s.(actions := s.actions + [a])
  }

  function IdleInstances(actors: map<Tag, Actor>): set<Instance> {
    set t | t in actors :: Instance(t, actors[t])
  }

  /** The loop drops its tables and starts to send one Shutdown per worker. */
  function Close(s: Sys): Sys {
    s.(loop := EMPTY, phase := Closing(|s.workers|),
       past := s.past.(closed := s.past.closed + multiset(IdleInstances(s.loop.actors))))
  }

  /** The boxes that taking `a` drops, and where they go in the history. */
  function Dropped(h: History, s: State, a: Action): History {
    match a
    case Return(t, i, ok) =>
      if !ok then h.(failed := h.failed + multiset{Instance(t, i)})
      else if t in s.active && Mailbox(s, t) == [] && t in s.actors then
        h.(lost := h.lost + multiset{Instance(t, s.actors[t])})
      else h
    case Spawn(t, i) =>
      if t in s.active then h.(refused := h.refused + multiset{Instance(t, i)})
      else if t in s.actors then h.(lost := h.lost + multiset{Instance(t, s.actors[t])})
      else h
    case _ => h
  }

  /** The same once the loop is over and its thread only drains the channel. */
  function Drained(h: History, a: Action): History {
    match a
    case Return(t, i, ok) =>
      if ok then h.(closed := h.closed + multiset{Instance(t, i)})
      else h.(failed := h.failed + multiset{Instance(t, i)})
    case Spawn(t, i) => h.(closed := h.closed + multiset{Instance(t, i)})
    case _ => h
  }

  function TakeAction(s: Sys): Sys
    requires Enabled(s, Take)
  {
    var a, rest := s.actions[0], s.actions[1..];
    if s.phase.Closing? then
      s.(actions := rest, past := Drained(s.past, a))
    else if a.Shutdown? then
      Close(s.(actions := rest))
    else
      var (loop, events) := Handle(s.loop, a);
      s.(loop := loop, actions := rest, events := s.events + events, past := Dropped(s.past, s.loop, a))
  }

  function PickEvent(s: Sys, w: nat): Sys
    requires Enabled(s, Pick(w))
  {
    var rest := s.(events := s.events[1..]);
    match s.events[0]
    case Mail(t, i, e) =>
      rest.(workers := s.workers[w := Busy(t, i, e, false)], past := s.past.(begun := s.past.begun + [(t, e)]))
    case Stop(t, i) => rest.(workers := s.workers[w := Stopping(t, i)])
    case Shutdown => rest.(workers := s.workers[w := Exited])
  }

  function Apply(s: Sys, step: Step): Sys
    requires Enabled(s, step)
  {
    match step
    case Post(a) => Send(s, a, Outside)
    case Take => TakeAction(s)
    case Expire(e) =>
      Send(s.(loop := s.loop.(tasks := s.loop.tasks - multiset{e})), Queue(e.tag, e.envelope), Timer)
    case Quit => Close(s)
    case Token => s.(events := s.events + [Event.Shutdown], phase := Closing(s.phase.left - 1))
    case Pick(w) => PickEvent(s, w)
    case Emit(w, a) =>
      Send(s, a, if s.workers[w].Flushing? then Outside else Sender(s.workers[w].actor))
    case Panic(w) => s.(workers := s.workers[w := s.workers[w].(failed := true)])
    case GiveBack(w) =>
      var b := s.workers[w];
      s.(workers := s.workers[w := Flushing], actions := s.actions + [Return(b.tag, b.actor, !b.failed)])
    case Stopped(w) =>
      var b := s.workers[w];
      s.(workers := s.workers[w := Flushing],
         past := s.past.(stopped := s.past.stopped + multiset{Instance(b.tag, b.actor)}))
    case Flushed(w) => s.(workers := s.workers[w := Idle])
  }

  /** A step that sends puts one action on the channel, and that is no Return. */
  lemma SendAppends(s: Sys, step: Step) returns (a: Action)
    requires Enabled(s, step) && (step.Post? || step.Emit? || step.Expire?)
    ensures var s' := Apply(s, step);
            && SameTables(s.loop, s'.loop) && s'.phase == s.phase && s'.events == s.events && s'.workers == s.workers
            && s'.actions == s.actions + [a] && !a.Return?
  {
    a := Apply(s, step).actions[|s.actions|];
  }

  /** A run: every step is possible where it is taken. */
  predicate Runs(s: Sys, steps: seq<Step>)
    decreases |steps|
  {
    steps == [] || (Enabled(s, steps[0]) && Runs(Apply(s, steps[0]), steps[1..]))
  }

  function End(s: Sys, steps: seq<Step>): Sys
    requires Runs(s, steps)
    decreases |steps|
  {
    if steps == [] then s else End(Apply(s, steps[0]), steps[1..])
  }

  lemma {:induction false} RunsOn(s: Sys, before: seq<Step>, after: seq<Step>)
    requires Runs(s, before) && Runs(End(s, before), after)
    ensures Runs(s, before + after) && End(s, before + after) == End(End(s, before), after)
    decreases |before|
  {
    if before == [] {
      assert before + after == after;
    } else {
      hide Enabled, Apply;
      assert (before + after)[1..] == before[1..] + after;
      RunsOn(Apply(s, before[0]), before[1..], after);
    }
  }
}
