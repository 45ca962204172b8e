/**
 One actor per address, and when exactly that holds.

 An address may be registered again while the actor that was stopped there is still at work.  Then two actors answer
 for one address.  This is the only way to get there.
 */
module Exclusivity {
  import opened Api
  import opened Counting
  import opened Scheduler
  import opened ActorSystem
  import opened Conservation

  function MailFor(t: Tag): Event -> bool { (e: Event) => e.Mail? && e.tag == t }

  function BusyAt(t: Tag): Worker -> bool { (w: Worker) => w.Busy? && w.tag == t }

  function ReturnOf(t: Tag): Action -> bool { (a: Action) => a.Return? && a.tag == t }

  /** How many actors of `t` are on the way to a worker, at work, or on the way back. */
  function Flight(s: Sys, t: Tag): nat {
    Count(s.events, MailFor(t)) + Count(s.workers, BusyAt(t)) + Count(s.actions, ReturnOf(t))
  }

  function Here(s: Sys, t: Tag): nat {
    if t in s.loop.actors then 1 else 0
  }

  /** No address has two actors, and no actor is kept idle for an address that is not registered. */
  ghost predicate Exclusive(s: Sys) {
    forall t :: Flight(s, t) + Here(s, t) <= 1 && (t in s.loop.actors ==> t in s.loop.active)
  }

  /** Every registered address has an actor that is idle or will report back. */
  ghost predicate Awake(s: Sys) {
    forall t :: t in s.loop.active ==> Flight(s, t) + Here(s, t) >= 1
  }

  predicate Respawn(s: Sys, step: Step) {
    step.Take? && s.phase.Running? && s.actions != [] && s.actions[0].Spawn? && s.actions[0].tag !in s.loop.active
  }

  /** An address is only registered when no actor of that address is in flight. */
  predicate Safe(s: Sys, step: Step) {
    Respawn(s, step) ==> Flight(s, s.actions[0].tag) == 0
  }

  predicate Tidy(s: Sys) {
    Good(s.loop) && (s.phase.Closing? ==> s.loop == EMPTY)
  }

  lemma StepTidy(s: Sys, step: Step)
    requires Enabled(s, step) && Tidy(s)
    ensures Tidy(Apply(s, step))
  {
    StepGood(s, step);
  }

  // --- One step, seen from one address -------------------------------------------------------------------------------

  lemma MoreMail(q: seq<Event>, more: seq<Event>, t: Tag)
    requires |more| <= 1
    ensures Count(q + more, MailFor(t)) == Count(q, MailFor(t)) + if more != [] && MailFor(t)(more[0]) then 1 else 0
  {
    if more == [] {
      assert q + more == q;
    } else {
      assert more == [more[0]];
      CountAppend(q, more[0], MailFor(t));
    }
  }

  /** What an action adds to the actors at `t`: mail sent, plus an idle actor after, minus one before. */
  predicate HandledAt(s: State, a: Action, t: Tag)
    requires Consistent(s)
  {
    var (s', events) := Handle(s, a);
    var before := (if t in s.actors then 1 else 0) + (if ReturnOf(t)(a) then 1 else 0);
    var after := (if t in s'.actors then 1 else 0) + (if events != [] && MailFor(t)(events[0]) then 1 else 0);
    && |events| <= 1
    && (Registers(s, a, t) ==> after == 1 && t in s'.active)
    && (!Registers(s, a, t) ==> after <= before && (t in s'.active ==> t in s.active && (before >= 1 ==> after >= 1)))
    && (before <= 1 && (t in s.actors ==> t in s.active) ==> (t in s'.actors ==> t in s'.active))
    && (!Registers(s, a, t) && !Removes(s, a, t) ==> after == before)
  }

  /** The actions that may take an actor away from `t`. */
  predicate Removes(s: State, a: Action, t: Tag) {
    (a.Return? && a.tag == t) || (a.Stop? && a.tag == t && t in s.actors)
  }

  lemma ReturnAt(s: State, a: Action, t: Tag)
    requires Good(s) && a.Return?
    ensures HandledAt(s, a, t)
  {
  }

  lemma OtherAt(s: State, a: Action, t: Tag)
    requires Good(s) && !a.Return?
    ensures HandledAt(s, a, t)
  {
  }

  lemma TakeAt(s: Sys, t: Tag)
    requires Enabled(s, Take) && s.phase.Running? && !s.actions[0].Shutdown? && Good(s.loop)
    ensures var n, n' := Flight(s, t) + Here(s, t), Flight(TakeAction(s), t) + Here(TakeAction(s), t);
            && (Registers(s.loop, s.actions[0], t) ==> n' == Flight(s, t) + 1 && t in TakeAction(s).loop.active)
            && (!Registers(s.loop, s.actions[0], t) ==> n' <= n)
            && (!Registers(s.loop, s.actions[0], t) && t in TakeAction(s).loop.active ==>
                  t in s.loop.active && (n >= 1 ==> n' >= 1))
            && (n <= 1 && (t in s.loop.actors ==> t in s.loop.active) && t in TakeAction(s).loop.actors ==>
                  t in TakeAction(s).loop.active)
            && (!Registers(s.loop, s.actions[0], t) && !Removes(s.loop, s.actions[0], t) ==> n' == n)
  {
    var a := s.actions[0];
    if a.Return? { ReturnAt(s.loop, a, t); } else { OtherAt(s.loop, a, t); }
    hide Handle, Dropped, Good;
    MoreMail(s.events, Handle(s.loop, a).1, t);
  }

  /** Every other step only moves actors, or drops the idle ones when the loop ends. */
  predicate OnlyMoves(s: Sys, s': Sys, t: Tag) {
    && Flight(s', t) <= Flight(s, t)
    && Flight(s', t) + Here(s', t) <= Flight(s, t) + Here(s, t)
    && ((s'.phase.Closing? && s'.loop == EMPTY) ||
        (s'.loop.active == s.loop.active && s'.loop.actors == s.loop.actors && Flight(s', t) == Flight(s, t)))
  }

  lemma SendAt(s: Sys, step: Step, t: Tag)
    requires Enabled(s, step) && (step.Post? || step.Emit? || step.Expire?)
    ensures OnlyMoves(s, Apply(s, step), t)
  {
    hide Apply, Enabled;
    var a := SendAppends(s, step);
    CountAppend(s.actions, a, ReturnOf(t));
  }

  lemma WorkerAt(s: Sys, step: Step, t: Tag)
    requires Enabled(s, step) && (step.Panic? || step.Stopped? || step.Flushed?)
    ensures OnlyMoves(s, Apply(s, step), t)
  {
    CountUpdate(s.workers, step.w, Apply(s, step).workers[step.w], BusyAt(t));
  }

  lemma PickAt(s: Sys, w: nat, t: Tag)
    requires Enabled(s, Pick(w))
    ensures OnlyMoves(s, PickEvent(s, w), t)
  {
    CountUpdate(s.workers, w, PickEvent(s, w).workers[w], BusyAt(t));
  }

  lemma GiveBackAt(s: Sys, w: nat, t: Tag)
    requires Enabled(s, GiveBack(w))
    ensures OnlyMoves(s, Apply(s, GiveBack(w)), t)
  {
    CountUpdate(s.workers, w, Flushing, BusyAt(t));
    CountAppend(s.actions, Apply(s, GiveBack(w)).actions[|s.actions|], ReturnOf(t));
  }

  lemma LoopAt(s: Sys, step: Step, t: Tag)
    requires Enabled(s, step) && Tidy(s) && (step.Quit? || step.Token? || step.Take?)
    requires step.Take? ==> s.phase.Closing? || s.actions[0].Shutdown?
    ensures OnlyMoves(s, Apply(s, step), t)
  {
    CountAppend(s.events, Event.Shutdown, MailFor(t));
  }

  lemma OtherStepAt(s: Sys, step: Step, t: Tag)
    requires Enabled(s, step) && Tidy(s)
    requires step.Take? ==> s.phase.Closing? || s.actions[0].Shutdown?
    ensures OnlyMoves(s, Apply(s, step), t)
  {
    hide OnlyMoves, Tidy, PickEvent, TakeAction, Close, Send;
    match step
    case Post(_) => SendAt(s, step, t);
    case Emit(_, _) => SendAt(s, step, t);
    case Expire(_) => SendAt(s, step, t);
    case Pick(w) => PickAt(s, w, t);
    case GiveBack(w) => GiveBackAt(s, w, t);
    case Quit => LoopAt(s, step, t);
    case Token => LoopAt(s, step, t);
    case Take => LoopAt(s, step, t);
    case _ => WorkerAt(s, step, t);
  }

  // --- One step, seen from all addresses -----------------------------------------------------------------------------

  /** From an exclusive state, a step leads to an exclusive state exactly when it is safe. */
  lemma StepExclusive(s: Sys, step: Step)
    requires Enabled(s, step) && Tidy(s) && Exclusive(s)
    ensures Exclusive(Apply(s, step)) <==> Safe(s, step)
  {
    var s' := Apply(s, step);
    if step.Take? && s.phase.Running? && !s.actions[0].Shutdown? {
      hide Flight, Here, Enabled, Good, Handle, TakeAction, Dropped;
      var a := s.actions[0];
      assert s' == TakeAction(s);
      if Safe(s, step) {
        forall t ensures Flight(s', t) + Here(s', t) <= 1 && (t in s'.loop.actors ==> t in s'.loop.active) {
          TakeAt(s, t);
        }
      } else {
        TakeAt(s, a.tag);
        assert Flight(s', a.tag) + Here(s', a.tag) > 1;
      }
    } else {
      hide Flight, Apply;
      forall t ensures Flight(s', t) + Here(s', t) <= 1 && (t in s'.loop.actors ==> t in s'.loop.active) {
        OtherStepAt(s, step, t);
      }
    }
  }

  lemma StepAwake(s: Sys, step: Step)
    requires Enabled(s, step) && Tidy(s) && Awake(s)
    ensures Awake(Apply(s, step))
  {
    var s' := Apply(s, step);
    forall t | t in s'.loop.active ensures Flight(s', t) + Here(s', t) >= 1 {
      if step.Take? && s.phase.Running? && !s.actions[0].Shutdown? {
        TakeAt(s, t);
      } else {
        OtherStepAt(s, step, t);
      }
    }
  }

  /** While addresses are exclusive, no idle actor is ever overwritten. */
  lemma StepLosesNothing(s: Sys, step: Step)
    requires Enabled(s, step) && Tidy(s) && Exclusive(s)
    ensures Apply(s, step).past.lost == s.past.lost
  {
    if step.Take? && s.phase.Running? && !s.actions[0].Shutdown? {
      var a := s.actions[0];
      if a.Return? || a.Spawn? {
        assert Flight(s, a.tag) + Here(s, a.tag) <= 1;
        CountZero(s.actions, ReturnOf(a.tag));
      }
    }
  }

  // --- Whole runs ----------------------------------------------------------------------------------------------------

  ghost predicate AlwaysExclusive(s: Sys, steps: seq<Step>)
    requires Runs(s, steps)
    decreases |steps|
  {
    Exclusive(s) && (steps == [] || AlwaysExclusive(Apply(s, steps[0]), steps[1..]))
  }

  predicate AlwaysSafe(s: Sys, steps: seq<Step>)
    requires Runs(s, steps)
    decreases |steps|
  {
    steps == [] || (Safe(s, steps[0]) && AlwaysSafe(Apply(s, steps[0]), steps[1..]))
  }

  /** A run keeps one actor per address throughout exactly when it never registers an address too early. */
  lemma {:induction false} ExclusiveExactlyWhenSafe(s: Sys, steps: seq<Step>)
    requires Runs(s, steps) && Tidy(s) && Exclusive(s)
    ensures AlwaysExclusive(s, steps) <==> AlwaysSafe(s, steps)
    decreases |steps|
  {
    if steps != [] {
      hide Exclusive, Safe, Tidy, Enabled, Apply;
      StepExclusive(s, steps[0]);
      StepTidy(s, steps[0]);
      if Safe(s, steps[0]) {
        ExclusiveExactlyWhenSafe(Apply(s, steps[0]), steps[1..]);
      } else {
        NotExclusiveNow(Apply(s, steps[0]), steps[1..]);
      }
    }
  }

  lemma NotExclusiveNow(s: Sys, steps: seq<Step>)
    requires Runs(s, steps) && !Exclusive(s)
    ensures !AlwaysExclusive(s, steps)
  {
  }

  lemma {:induction false} SafeRunLosesNothing(s: Sys, steps: seq<Step>)
    requires Runs(s, steps) && Tidy(s) && Exclusive(s) && AlwaysSafe(s, steps)
    ensures Tidy(End(s, steps)) && Exclusive(End(s, steps)) && End(s, steps).past.lost == s.past.lost
    decreases |steps|
  {
    if steps != [] {
      hide Exclusive, Safe, Tidy, Enabled, Apply;
      StepExclusive(s, steps[0]);
      StepTidy(s, steps[0]);
      StepLosesNothing(s, steps[0]);
      SafeRunLosesNothing(Apply(s, steps[0]), steps[1..]);
    }
  }

  lemma {:induction false} RunAwake(s: Sys, steps: seq<Step>)
    requires Runs(s, steps) && Tidy(s) && Awake(s)
    ensures Tidy(End(s, steps)) && Awake(End(s, steps))
    decreases |steps|
  {
    if steps != [] {
      hide Awake, Tidy, Enabled, Apply;
      StepAwake(s, steps[0]);
      StepTidy(s, steps[0]);
      RunAwake(Apply(s, steps[0]), steps[1..]);
    }
  }

  lemma InitExclusive(s: Sys)
    requires Init(s)
    ensures Tidy(s) && Exclusive(s) && Awake(s)
  {
    forall t ensures Flight(s, t) == 0 {
      CountZero(s.workers, BusyAt(t));
    }
  }

  /**
   No lost wake-up, in any run at all: a mailbox with something in it belongs to an actor that is not idle, and some
   actor of that address is in flight and will make the loop look into the mailbox again.
   */
  lemma NoLostWakeUp(s: Sys, steps: seq<Step>, t: Tag)
    requires Init(s) && Runs(s, steps)
    ensures var e := End(s, steps);
            t in e.loop.active && Mailbox(e.loop, t) != [] ==> t !in e.loop.actors && Flight(e, t) >= 1
  {
    InitExclusive(s);
    RunAwake(s, steps);
  }

  /** In a safe run every actor made is in exactly one place, and none is ever overwritten. */
  lemma SafeRunKeepsActors(s: Sys, steps: seq<Step>, x: Instance)
    requires Init(s) && Runs(s, steps) && AlwaysSafe(s, steps)
    ensures var e := End(s, steps);
            && InService(e, x) + BeingStopped(e, x) + e.past.refused[x] + e.past.failed[x] + e.past.closed[x]
               == Made(e, x)
            && Flight(e, x.tag) + Here(e, x.tag) <= 1
  {
    InitExclusive(s);
    InitConserved(s);
    RunConserved(s, steps);
    SafeRunLosesNothing(s, steps);
    assert Places(End(s, steps), x) == Made(End(s, steps), x);
  }

  // --- The run that is not safe --------------------------------------------------------------------------------------

  lemma Prefixed(s: Sys, step: Step, rest: seq<Step>)
    requires Enabled(s, step) && Runs(Apply(s, step), rest)
    ensures Runs(s, [step] + rest) && End(s, [step] + rest) == End(Apply(s, step), rest)
    ensures AlwaysSafe(s, [step] + rest) <==> Safe(s, step) && AlwaysSafe(Apply(s, step), rest)
  {
    assert ([step] + rest)[1..] == rest;
  }

  lemma {:induction false} SafeOn(s: Sys, before: seq<Step>, after: seq<Step>)
    requires Runs(s, before) && Runs(End(s, before), after) && Runs(s, before + after)
    ensures AlwaysSafe(s, before + after) <==> AlwaysSafe(s, before) && AlwaysSafe(End(s, before), after)
    decreases |before|
  {
    if before == [] {
      assert before + after == after;
    } else {
      hide Enabled, Apply, Safe;
      assert (before + after)[1..] == before[1..] + after;
      SafeOn(Apply(s, before[0]), before[1..], after);
    }
  }

  predicate Quiet(s: Sys) {
    Tidy(s) && s.phase == Running && s.actions == [] && s.events == []
  }

  lemma Register(s: Sys, t: Tag, i: Actor) returns (steps: seq<Step>)
    requires Quiet(s) && t !in s.loop.active && t !in s.loop.actors && Fresh(s, i)
    ensures Runs(s, steps) && (Flight(s, t) > 0 ==> !AlwaysSafe(s, steps))
    ensures var s' := End(s, steps);
            && Quiet(s') && s'.workers == s.workers
            && s'.loop.active == s.loop.active + {t} && s'.loop.actors == s.loop.actors[t := i]
            && s'.past.created == s.past.created + {Instance(t, i)}
  {
    var s1 := Apply(s, Post(Spawn(t, i)));
    assert s1.actions[1..] == [];
    CountAppend(s.actions, Spawn(t, i), ReturnOf(t));
    Prefixed(s1, Take, []);
    Prefixed(s, Post(Spawn(t, i)), [Take] + []);
    steps := [Post(Spawn(t, i))] + ([Take] + []);
  }

  lemma Deliver(s: Sys, t: Tag, e: Envelope, w: nat) returns (steps: seq<Step>)
    requires Quiet(s) && t in s.loop.active && t in s.loop.actors && w < |s.workers| && s.workers[w].Idle?
    ensures Runs(s, steps)
    ensures var s' := End(s, steps);
            && Quiet(s') && s'.loop.active == s.loop.active && s'.loop.actors == s.loop.actors - {t}
            && s'.past.created == s.past.created
            && |s'.workers| == |s.workers| && s'.workers == s.workers[w := s'.workers[w]]
            && s'.workers[w].Busy? && s'.workers[w].tag == t && s'.workers[w].actor == s.loop.actors[t]
  {
    var s1 := Apply(s, Post(Queue(t, e)));
    var s2 := Apply(s1, Take);
    var s3 := Apply(s2, Pick(w));
    StepTidy(s, Post(Queue(t, e)));
    StepTidy(s1, Take);
    StepTidy(s2, Pick(w));
    Prefixed(s2, Pick(w), []);
    Prefixed(s1, Take, [Pick(w)] + []);
    Prefixed(s, Post(Queue(t, e)), [Take] + ([Pick(w)] + []));
    steps := [Post(Queue(t, e))] + ([Take] + ([Pick(w)] + []));
  }

  lemma Unregister(s: Sys, t: Tag) returns (steps: seq<Step>)
    requires Quiet(s) && t in s.loop.active && t !in s.loop.actors
    ensures Runs(s, steps)
    ensures var s' := End(s, steps);
            && Quiet(s') && s'.workers == s.workers && s'.past.created == s.past.created
            && s'.loop.active == s.loop.active - {t} && s'.loop.actors == s.loop.actors
  {
    var s1 := Apply(s, Post(Action.Stop(t)));
    assert s1.actions[1..] == [];
    Prefixed(s1, Take, []);
    Prefixed(s, Post(Action.Stop(t)), [Take] + []);
    steps := [Post(Action.Stop(t))] + ([Take] + []);
  }

  /**
   Why an address must not be registered too early: with two workers, stop an address while its actor is at work,
   register it again, send to it, and two actors are at work for the same address at the same time.
   */
  lemma TwoActorsAtOneAddress(s: Sys, t: Tag, e: Envelope) returns (steps: seq<Step>)
    requires Init(s) && |s.workers| == 2
    ensures Runs(s, steps) && !AlwaysSafe(s, steps)
    ensures var w := End(s, steps).workers;
            |w| == 2 && w[0].Busy? && w[1].Busy? && w[0].tag == w[1].tag == t && w[0].actor != w[1].actor
  {
    hide Enabled, Apply, Flight;
    InitExclusive(s);
    var a := Register(s, t, Actor(0));
    var s1 := End(s, a);
    var b := Deliver(s1, t, e, 0);
    var s2 := End(s1, b);
    var c := Unregister(s2, t);
    var s3 := End(s2, c);
    AtWork(s3, t, 0);
    var d := Register(s3, t, Actor(1));
    var s4 := End(s3, d);
    var f := Deliver(s4, t, e, 1);
    RunsOn(s3, d, f);
    SafeOn(s3, d, f);
    RunsOn(s2, c, d + f);
    SafeOn(s2, c, d + f);
    RunsOn(s1, b, c + (d + f));
    SafeOn(s1, b, c + (d + f));
    RunsOn(s, a, b + (c + (d + f)));
    SafeOn(s, a, b + (c + (d + f)));
    steps := a + (b + (c + (d + f)));
  }

  lemma AtWork(s: Sys, t: Tag, w: nat)
    requires w < |s.workers| && s.workers[w].Busy? && s.workers[w].tag == t
    ensures Flight(s, t) > 0
  {
    CountMember(s.workers, w, BusyAt(t));
  }
}
