/** Every actor ever boxed is in exactly one place, at every moment of every run. */
module Conservation {
  import opened Api
  import opened Counting
  import opened Scheduler
  import opened ActorSystem

  function IsSpawn(x: Instance): Action -> bool { (a: Action) => a == Spawn(x.tag, x.actor) }

  function IsReturn(x: Instance): Action -> bool {
    (a: Action) => a.Return? && a.tag == x.tag && a.actor == x.actor
  }

  function IsMail(x: Instance): Event -> bool { (e: Event) => e.Mail? && e.tag == x.tag && e.actor == x.actor }

  function IsStop(x: Instance): Event -> bool { (e: Event) => e == Event.Stop(x.tag, x.actor) }

  function IsBusy(x: Instance): Worker -> bool { (w: Worker) => w.Busy? && w.tag == x.tag && w.actor == x.actor }

  function IsStopping(x: Instance): Worker -> bool { (w: Worker) => w == Stopping(x.tag, x.actor) }

  function AtRest(s: State, x: Instance): nat {
    if x.tag in s.actors && s.actors[x.tag] == x.actor then 1 else 0
  }

  /** Waiting to be registered, registered, on the move or at work: everywhere an actor can still read messages. */
  function InService(s: Sys, x: Instance): nat {
    Count(s.actions, IsSpawn(x)) + AtRest(s.loop, x) + Count(s.events, IsMail(x)) + Count(s.workers, IsBusy(x))
    + Count(s.actions, IsReturn(x))
  }

  /** On the way to `on_stop`, in it, or past it. */
  function BeingStopped(s: Sys, x: Instance): nat {
    Count(s.events, IsStop(x)) + Count(s.workers, IsStopping(x)) + s.past.stopped[x]
  }

  function Gone(s: Sys, x: Instance): nat {
    s.past.refused[x] + s.past.lost[x] + s.past.failed[x] + s.past.closed[x]
  }

  /** In how many places `x` is. */
  function Places(s: Sys, x: Instance): nat {
    InService(s, x) + BeingStopped(s, x) + Gone(s, x)
  }

  function Made(s: Sys, x: Instance): nat {
    if x in s.past.created then 1 else 0
  }

  ghost predicate Conserved(s: Sys) {
    && (forall x :: Places(s, x) == Made(s, x))
    && (forall x, y :: x in s.past.created && y in s.past.created && x.actor == y.actor ==> x == y)
  }

  lemma InitConserved(s: Sys)
    requires Init(s)
    ensures Conserved(s)
  {
    forall x ensures Places(s, x) == Made(s, x) {
      CountZero(s.workers, IsBusy(x));
      CountZero(s.workers, IsStopping(x));
    }
  }

  lemma SendPlaces(s: Sys, a: Action, origin: Origin, x: Instance)
    requires !a.Return? && (a.Spawn? ==> Fresh(s, a.actor))
    ensures Places(Send(s, a, origin), x) - Made(Send(s, a, origin), x) == Places(s, x) - Made(s, x)
  {
    CountAppend(s.actions, Send(s, a, origin).actions[|s.actions|], IsSpawn(x));
    CountAppend(s.actions, Send(s, a, origin).actions[|s.actions|], IsReturn(x));
  }

  /** What one action does to the tables, the events it sends and the boxes it drops, seen from one actor. */
  predicate HandledOnce(h: History, s: State, a: Action, x: Instance)
    requires Consistent(s)
  {
    var (s', events) := Handle(s, a);
    var h' := Dropped(h, s, a);
    && |events| <= 1
    && AtRest(s', x) + (if events != [] && (IsMail(x)(events[0]) || IsStop(x)(events[0])) then 1 else 0)
       + h'.refused[x] + h'.lost[x] + h'.failed[x]
       == AtRest(s, x) + (if IsSpawn(x)(a) || IsReturn(x)(a) then 1 else 0) + h.refused[x] + h.lost[x] + h.failed[x]
    && h'.closed == h.closed && h'.stopped == h.stopped && h'.created == h.created
  }

  lemma ReturnPlaces(h: History, s: State, a: Action, x: Instance)
    requires Good(s) && a.Return?
    ensures HandledOnce(h, s, a, x)
  {
  }

  lemma HandlePlaces(h: History, s: State, a: Action, x: Instance)
    requires Good(s) && !a.Shutdown?
    ensures HandledOnce(h, s, a, x)
  {
    hide HandledOnce;
    if a.Return? {
      ReturnPlaces(h, s, a, x);
    } else {
      OtherPlaces(h, s, a, x);
    }
  }

  lemma OtherPlaces(h: History, s: State, a: Action, x: Instance)
    requires Good(s) && !a.Shutdown? && !a.Return?
    ensures HandledOnce(h, s, a, x)
  {
  }

  lemma EventsPlaces(q: seq<Event>, more: seq<Event>, x: Instance)
    requires |more| <= 1
    ensures Count(q + more, IsMail(x)) + Count(q + more, IsStop(x)) ==
            Count(q, IsMail(x)) + Count(q, IsStop(x))
            + (if more != [] && (IsMail(x)(more[0]) || IsStop(x)(more[0])) then 1 else 0)
  {
    if more == [] {
      assert q + more == q;
    } else {
      assert more == [more[0]];
      CountAppend(q, more[0], IsMail(x));
      CountAppend(q, more[0], IsStop(x));
    }
  }

  lemma ClosePlaces(s: Sys, x: Instance)
    ensures Places(Close(s), x) == Places(s, x) && Made(Close(s), x) == Made(s, x)
  {
    assert x in IdleInstances(s.loop.actors) <==> AtRest(s.loop, x) == 1;
  }

  lemma DrainPlaces(s: Sys, x: Instance)
    requires Enabled(s, Take) && s.phase.Closing?
    ensures Places(TakeAction(s), x) == Places(s, x) && Made(TakeAction(s), x) == Made(s, x)
  {
  }

  lemma ShutdownPlaces(s: Sys, x: Instance)
    requires Enabled(s, Take) && s.phase.Running? && s.actions[0].Shutdown?
    ensures Places(TakeAction(s), x) == Places(s, x) && Made(TakeAction(s), x) == Made(s, x)
  {
    ClosePlaces(s.(actions := s.actions[1..]), x);
  }

  lemma HandledPlaces(s: Sys, x: Instance)
    requires Enabled(s, Take) && s.phase.Running? && !s.actions[0].Shutdown? && Good(s.loop)
    ensures Places(TakeAction(s), x) == Places(s, x) && Made(TakeAction(s), x) == Made(s, x)
  {
    hide Handle, Dropped, Good, Close;
    HandlePlaces(s.past, s.loop, s.actions[0], x);
    EventsPlaces(s.events, Handle(s.loop, s.actions[0]).1, x);
  }

  lemma TakePlaces(s: Sys, x: Instance)
    requires Enabled(s, Take) && (s.phase.Running? ==> Good(s.loop))
    ensures Places(TakeAction(s), x) == Places(s, x) && Made(TakeAction(s), x) == Made(s, x)
  {
    hide Places, Made, TakeAction;
    if s.phase.Closing? {
      DrainPlaces(s, x);
    } else if s.actions[0].Shutdown? {
      ShutdownPlaces(s, x);
    } else {
      HandledPlaces(s, x);
    }
  }

  lemma PickPlaces(s: Sys, w: nat, x: Instance)
    requires Enabled(s, Pick(w))
    ensures Places(PickEvent(s, w), x) == Places(s, x) && Made(PickEvent(s, w), x) == Made(s, x)
  {
    var next := PickEvent(s, w).workers[w];
    CountUpdate(s.workers, w, next, IsBusy(x));
    CountUpdate(s.workers, w, next, IsStopping(x));
  }

  lemma WorkerPlaces(s: Sys, step: Step, x: Instance)
    requires Enabled(s, step) && (step.Panic? || step.Stopped? || step.Flushed?)
    ensures Places(Apply(s, step), x) == Places(s, x) && Made(Apply(s, step), x) == Made(s, x)
  {
    var next := Apply(s, step).workers[step.w];
    CountUpdate(s.workers, step.w, next, IsBusy(x));
    CountUpdate(s.workers, step.w, next, IsStopping(x));
  }

  lemma GiveBackPlaces(s: Sys, w: nat, x: Instance)
    requires Enabled(s, GiveBack(w))
    ensures Places(Apply(s, GiveBack(w)), x) == Places(s, x) && Made(Apply(s, GiveBack(w)), x) == Made(s, x)
  {
    var a := Return(s.workers[w].tag, s.workers[w].actor, !s.workers[w].failed);
    CountUpdate(s.workers, w, Flushing, IsBusy(x));
    CountUpdate(s.workers, w, Flushing, IsStopping(x));
    CountAppend(s.actions, a, IsSpawn(x));
    CountAppend(s.actions, a, IsReturn(x));
  }

  lemma StepPlaces(s: Sys, step: Step, x: Instance)
    requires Enabled(s, step) && (s.phase.Running? ==> Good(s.loop))
    ensures Places(Apply(s, step), x) - Made(Apply(s, step), x) == Places(s, x) - Made(s, x)
  {
    hide Places, Made, Good, TakeAction, PickEvent, Close, Send;
    match step
    case Post(a) => SendPlaces(s, a, Outside, x);
    case Take => TakePlaces(s, x);
    case Expire(e) =>
      ExpirePlaces(s, e, x);
    case Quit => ClosePlaces(s, x);
    case Token => TokenPlaces(s, x);
    case Pick(w) => PickPlaces(s, w, x);
    case Emit(w, a) => SendPlaces(s, a, if s.workers[w].Flushing? then Outside else Sender(s.workers[w].actor), x);
    case GiveBack(w) => GiveBackPlaces(s, w, x);
    case _ => WorkerPlaces(s, step, x);
  }

  lemma ExpirePlaces(s: Sys, e: Entry, x: Instance)
    requires Enabled(s, Expire(e))
    ensures Places(Apply(s, Expire(e)), x) - Made(Apply(s, Expire(e)), x) == Places(s, x) - Made(s, x)
  {
    SendPlaces(s.(loop := s.loop.(tasks := s.loop.tasks - multiset{e})), Queue(e.tag, e.envelope), Timer, x);
  }

  lemma TokenPlaces(s: Sys, x: Instance)
    requires Enabled(s, Token)
    ensures Places(Apply(s, Token), x) == Places(s, x) && Made(Apply(s, Token), x) == Made(s, x)
  {
    EventsPlaces(s.events, [Event.Shutdown], x);
  }

  /** A box keeps the address it was spawned under, and a new box is a new identity. */
  lemma StepNames(s: Sys, step: Step)
    requires Enabled(s, step)
    requires forall x, y :: x in s.past.created && y in s.past.created && x.actor == y.actor ==> x == y
    ensures forall x, y ::
      x in Apply(s, step).past.created && y in Apply(s, step).past.created && x.actor == y.actor ==> x == y
  {
  }

  lemma StepGood(s: Sys, step: Step)
    requires Enabled(s, step) && Good(s.loop)
    ensures Good(Apply(s, step).loop)
  {
    if step.Take? && s.phase.Running? && !s.actions[0].Shutdown? {
      HandleKeepsGood(s.loop, s.actions[0]);
    }
  }

  lemma StepConserved(s: Sys, step: Step)
    requires Enabled(s, step) && Good(s.loop) && Conserved(s)
    ensures Good(Apply(s, step).loop) && Conserved(Apply(s, step))
  {
    hide Places, Made, Apply, Enabled, Good;
    StepGood(s, step);
    StepNames(s, step);
    forall x ensures Places(Apply(s, step), x) == Made(Apply(s, step), x) {
      StepPlaces(s, step, x);
    }
  }

  /** At every reachable state: the tables are in order, and every actor made is in exactly one place. */
  lemma {:induction false} RunConserved(s: Sys, steps: seq<Step>)
    requires Runs(s, steps) && Good(s.loop) && Conserved(s)
    ensures Good(End(s, steps).loop) && Conserved(End(s, steps))
    decreases |steps|
  {
    if steps != [] {
      hide Good, Conserved, Enabled, Apply;
      StepConserved(s, steps[0]);
      RunConserved(Apply(s, steps[0]), steps[1..]);
    }
  }

  /** None of the loop's lookups of a mailbox can miss: whatever the channel holds, the loop can take it. */
  lemma LoopNeverPanics(s: Sys, steps: seq<Step>)
    requires Init(s) && Runs(s, steps)
    ensures var e := End(s, steps); e.phase.Running? && e.actions != [] ==> Enabled(e, Take)
  {
    InitConserved(s);
    RunConserved(s, steps);
  }

  /** An actor is stopped at most once, never after it failed, and has left service for good when it is. */
  lemma StoppedOnce(s: Sys, steps: seq<Step>, x: Instance)
    requires Init(s) && Runs(s, steps)
    ensures var e := End(s, steps);
            && e.past.stopped[x] + e.past.failed[x] <= BeingStopped(e, x) + e.past.failed[x] <= 1
            && (BeingStopped(e, x) > 0 ==> InService(e, x) == 0)
  {
    InitConserved(s);
    RunConserved(s, steps);
    assert Places(End(s, steps), x) == Made(End(s, steps), x);
  }

  // --- Stopping is final ---------------------------------------------------------------------------------------------

  lemma StepBeingStopped(s: Sys, step: Step, x: Instance)
    requires Enabled(s, step)
    ensures BeingStopped(Apply(s, step), x) >= BeingStopped(s, x)
  {
    match step
    case Take =>
      if s.phase.Running? && !s.actions[0].Shutdown? {
        StopsAppend(s.events, Handle(s.loop, s.actions[0]).1, x);
      }
    case Token => CountAppend(s.events, Event.Shutdown, IsStop(x));
    case Pick(w) => CountUpdate(s.workers, w, PickEvent(s, w).workers[w], IsStopping(x));
    case Panic(w) => CountUpdate(s.workers, w, Apply(s, step).workers[w], IsStopping(x));
    case GiveBack(w) => CountUpdate(s.workers, w, Flushing, IsStopping(x));
    case Stopped(w) => CountUpdate(s.workers, w, Flushing, IsStopping(x));
    case Flushed(w) => CountUpdate(s.workers, w, Idle, IsStopping(x));
    case _ =>
  }

  lemma StopsAppend(q: seq<Event>, more: seq<Event>, x: Instance)
    requires |more| <= 1
    ensures Count(q + more, IsStop(x)) >= Count(q, IsStop(x))
  {
    if more == [] {
      assert q + more == q;
    } else {
      assert more == [more[0]];
      CountAppend(q, more[0], IsStop(x));
    }
  }

  lemma {:induction false} RunBeingStopped(s: Sys, steps: seq<Step>, x: Instance)
    requires Runs(s, steps)
    ensures BeingStopped(End(s, steps), x) >= BeingStopped(s, x)
    decreases |steps|
  {
    if steps != [] {
      StepBeingStopped(s, steps[0], x);
      RunBeingStopped(Apply(s, steps[0]), steps[1..], x);
    }
  }

  /** Once the Stop event of an actor is out, no mail, no worker turn and no return of it ever comes again. */
  lemma NoMailAfterStop(s: Sys, before: seq<Step>, after: seq<Step>, x: Instance)
    requires Init(s) && Runs(s, before) && Runs(End(s, before), after)
    requires BeingStopped(End(s, before), x) > 0
    ensures var e := End(End(s, before), after);
            Count(e.events, IsMail(x)) == Count(e.workers, IsBusy(x)) == Count(e.actions, IsReturn(x)) == 0
  {
    InitConserved(s);
    RunConserved(s, before);
    RunConserved(End(s, before), after);
    RunBeingStopped(End(s, before), after, x);
    assert Places(End(End(s, before), after), x) <= 1;
  }
}
