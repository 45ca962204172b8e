/** Whom a shutdown stops: exactly the actors whose Stop event was out when the loop ended (src/core.rs). */
module Shutdown {
  import opened Api
  import opened Counting
  import opened Scheduler
  import opened ActorSystem
  import opened Conservation
  import opened Exclusivity
  import opened Handshake

  /** Once the loop is over, no step of any thread has anybody else stopped. */
  lemma ClosingStopsNobody(s: Sys, step: Step, x: Instance)
    requires Enabled(s, step) && s.phase.Closing?
    ensures Apply(s, step).phase.Closing? && BeingStopped(Apply(s, step), x) == BeingStopped(s, x)
  {
    hide Send, TakeAction, PickEvent, BeingStopped;
    match step
    case Token => TokenStopsNobody(s, x);
    case Pick(w) => PickStopsNobody(s, w, x);
    case Take => DrainStopsNobody(s, x);
    case Post(_) => SendStopsNobody(s, step, x);
    case Emit(_, _) => SendStopsNobody(s, step, x);
    case _ => WorkerStopsNobody(s, step, x);
  }

  lemma TokenStopsNobody(s: Sys, x: Instance)
    requires Enabled(s, Token)
    ensures BeingStopped(Apply(s, Token), x) == BeingStopped(s, x)
  {
    CountAppend(s.events, Event.Shutdown, IsStop(x));
  }

  lemma PickStopsNobody(s: Sys, w: nat, x: Instance)
    requires Enabled(s, Pick(w))
    ensures PickEvent(s, w).phase == s.phase && BeingStopped(PickEvent(s, w), x) == BeingStopped(s, x)
  {
    CountUpdate(s.workers, w, PickEvent(s, w).workers[w], IsStopping(x));
  }

  lemma DrainStopsNobody(s: Sys, x: Instance)
    requires Enabled(s, Take) && s.phase.Closing?
    ensures TakeAction(s).phase == s.phase && BeingStopped(TakeAction(s), x) == BeingStopped(s, x)
  {
  }

  lemma SendStopsNobody(s: Sys, step: Step, x: Instance)
    requires Enabled(s, step) && (step.Post? || step.Emit?)
    ensures Apply(s, step).phase == s.phase && BeingStopped(Apply(s, step), x) == BeingStopped(s, x)
  {
  }

  lemma WorkerStopsNobody(s: Sys, step: Step, x: Instance)
    requires Enabled(s, step) && (step.Panic? || step.GiveBack? || step.Stopped? || step.Flushed?)
    ensures BeingStopped(Apply(s, step), x) == BeingStopped(s, x)
  {
    CountUpdate(s.workers, step.w, Apply(s, step).workers[step.w], IsStopping(x));
  }

  /** However the run goes on, whoever is being stopped or has been is decided when the loop ends. */
  lemma {:induction false} ShutdownStopsNobody(s: Sys, after: seq<Step>, x: Instance)
    requires Runs(s, after) && s.phase.Closing?
    ensures End(s, after).phase.Closing? && BeingStopped(End(s, after), x) == BeingStopped(s, x)
    decreases |after|
  {
    if after != [] {
      hide Enabled, Apply, BeingStopped;
      ClosingStopsNobody(s, after[0], x);
      ShutdownStopsNobody(Apply(s, after[0]), after[1..], x);
    }
  }

  /** No step towards the end is left. */
  ghost predicate Over(s: Sys) {
    s.phase.Closing? && forall step :: Progress(step) ==> !Enabled(s, step)
  }

  /** When all is over, `on_stop` has run for exactly those whose Stop event was out when the loop ended. */
  lemma StoppedExactlyWhenSent(s: Sys, before: seq<Step>, after: seq<Step>, x: Instance)
    requires Init(s) && Runs(s, before) && Runs(End(s, before), after) && |s.workers| > 0
    requires End(s, before).phase.Closing? && Over(End(End(s, before), after))
    ensures var last, e := End(s, before), End(End(s, before), after);
            && e.past.stopped[x] == BeingStopped(last, x) <= 1
            && (e.past.stopped[x] == 1 <==> BeingStopped(last, x) > 0)
  {
    hide Enabled, Apply, Progress, Runs, End, OnlyTokens;
    var last, e := End(s, before), End(End(s, before), after);
    RunsOn(s, before, after);
    ShutdownCompletes(s, before + after);
    ShutdownStopsNobody(last, after, x);
    StoppedOnce(s, before + after, x);
    CountZero(e.workers, IsStopping(x));
    CountZero(e.events, IsStop(x));
  }

  /** The step that ends the loop. */
  predicate Ends(s: Sys, step: Step) {
    Enabled(s, step) && s.phase.Running? && (step.Quit? || (step.Take? && s.actions[0].Shutdown?))
  }

  lemma IdleIsClosed(s: Sys, step: Step, x: Instance)
    requires Ends(s, step) && AtRest(s.loop, x) == 1
    ensures Apply(s, step).phase.Closing? && Apply(s, step).past.closed[x] >= 1
  {
    assert x in IdleInstances(s.loop.actors);
  }

  lemma StepKeepsClosed(s: Sys, step: Step, x: Instance)
    requires Enabled(s, step)
    ensures Apply(s, step).past.closed[x] >= s.past.closed[x]
  {
    hide Handle;
  }

  lemma {:induction false} RunKeepsClosed(s: Sys, steps: seq<Step>, x: Instance)
    requires Runs(s, steps)
    ensures End(s, steps).past.closed[x] >= s.past.closed[x]
    decreases |steps|
  {
    if steps != [] {
      hide Enabled, Apply;
      StepKeepsClosed(s, steps[0], x);
      RunKeepsClosed(Apply(s, steps[0]), steps[1..], x);
    }
  }

  /** Every actor that is idle when the loop ends is dropped, and is never stopped. */
  lemma IdleIsDropped(s: Sys, before: seq<Step>, step: Step, after: seq<Step>, x: Instance)
    requires Init(s) && Runs(s, before) && Ends(End(s, before), step)
    requires Runs(Apply(End(s, before), step), after) && AtRest(End(s, before).loop, x) == 1
    ensures var e := End(Apply(End(s, before), step), after);
            BeingStopped(e, x) == 0 && e.past.stopped[x] == 0 && e.past.closed[x] == 1
  {
    hide Apply, Enabled, Runs, End, AtRest, InService, BeingStopped;
    var last := End(s, before);
    var closed := Apply(last, step);
    IdleIsClosed(last, step, x);
    SingleStep(last, step);
    RunsOn(s, before, [step]);
    RunsOn(s, before + [step], after);
    RunKeepsClosed(closed, after, x);
    InitConserved(s);
    RunConserved(s, before + [step] + after);
    OnePlace(End(closed, after), x);
  }

  lemma SingleStep(s: Sys, step: Step)
    requires Enabled(s, step)
    ensures Runs(s, [step]) && End(s, [step]) == Apply(s, step)
  {
    hide Enabled, Apply;
    assert [step][1..] == [] && Runs(Apply(s, step), []);
  }

  lemma OnePlace(s: Sys, x: Instance)
    requires Conserved(s) && s.past.closed[x] >= 1
    ensures s.past.closed[x] == 1 && BeingStopped(s, x) == 0 && s.past.stopped[x] == 0
  {
    assert Places(s, x) == Made(s, x);
  }

  /** From wherever the loop ends, the rest can be run to its end. */
  lemma {:induction false} CanComplete(s: Sys) returns (steps: seq<Step>)
    requires Agreed(s) && s.phase.Closing?
    ensures Runs(s, steps) && Over(End(s, steps))
    decreases Measure(s)
  {
    hide Apply, Enabled, Measure, Agreed;
    if Live(s) == 0 {
      steps := [];
      NobodyIsLeft(s);
    } else {
      var step := SomethingCanProgress(s);
      StepMeasure(s, step);
      StepAgreed(s, step);
      var rest := CanComplete(Apply(s, step));
      SingleStep(s, step);
      RunsOn(s, [step], rest);
      steps := [step] + rest;
    }
  }

  lemma NobodyIsLeft(s: Sys)
    requires Agreed(s) && s.phase.Closing? && Live(s) == 0
    ensures Over(s)
  {
    CountZero(s.workers, IS_LIVE);
  }

  /**
   That a shutdown does not stop all actors: with any number of workers, register an actor, shut down, and run to the
   end.  The actor was registered, never failed and is gone, and its `on_stop` was never called.
   */
  lemma ShutdownSkipsIdle(s: Sys, t: Tag) returns (steps: seq<Step>)
    requires Init(s)
    ensures Runs(s, steps) && Over(End(s, steps))
    ensures var e, x := End(s, steps), Instance(t, Actor(0));
            && x in e.past.created && e.past.closed[x] == 1
            && e.past.stopped[x] == 0 && e.past.failed[x] == 0 && e.past.refused[x] == 0
            && forall w :: 0 <= w < |e.workers| ==> e.workers[w].Exited?
  {
    hide Apply, Enabled, Flight, Agreed, Runs, Ends, BeingStopped, End, AtRest;
    var x := Instance(t, Actor(0));
    FirstIsNew(s, t);
    var a := Register(s, t, Actor(0));
    var s1 := End(s, a);
    var b := Tell(s1);
    var s2 := End(s1, b);
    RunsOn(s, a, b);
    IdleThere(s2, x);
    SingleStep(s2, Take);
    RunsOn(s, a + b, [Take]);
    InitAgreed(s);
    RunAgreed(s, a + b + [Take]);
    IdleIsClosed(s2, Take, x);
    var c := CanComplete(Apply(s2, Take));
    IdleIsDropped(s, a + b, Take, c, x);
    RunsOn(s, a + b + [Take], c);
    steps := a + b + [Take] + c;
    ShutdownCompletes(s, steps);
    InitConserved(s);
    RunConserved(s, steps);
    ClosedIsAll(End(s, steps), x);
  }

  lemma FirstIsNew(s: Sys, t: Tag)
    requires Init(s)
    ensures Quiet(s) && t !in s.loop.active && t !in s.loop.actors && Fresh(s, Actor(0))
  {
  }

  lemma Tell(s: Sys) returns (steps: seq<Step>)
    requires Quiet(s)
    ensures Runs(s, steps)
    ensures var s' := End(s, steps);
            && Ends(s', Take) && s'.loop == s.loop && s'.past == s.past && s'.workers == s.workers
  {
    SingleStep(s, Post(Action.Shutdown));
    steps := [Post(Action.Shutdown)];
  }

  lemma IdleThere(s: Sys, x: Instance)
    requires x.tag in s.loop.actors && s.loop.actors[x.tag] == x.actor
    ensures AtRest(s.loop, x) == 1
  {
  }

  lemma ClosedIsAll(s: Sys, x: Instance)
    requires Conserved(s) && s.past.closed[x] == 1
    ensures x in s.past.created && s.past.failed[x] == 0 && s.past.refused[x] == 0
  {
    assert Places(s, x) == Made(s, x);
  }
}
