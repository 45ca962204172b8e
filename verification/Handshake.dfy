/** How the runtime ends: one token per worker, sent behind everything already dispatched (src/core.rs). */
module Handshake {
  import opened Api
  import opened Counting
  import opened Scheduler
  import opened ActorSystem

  const IS_TOKEN: Event -> bool := (e: Event) => e == Event.Shutdown

  const IS_LIVE: Worker -> bool := (w: Worker) => !w.Exited?

  function Tokens(s: Sys): nat { Count(s.events, IS_TOKEN) }

  function Live(s: Sys): nat { Count(s.workers, IS_LIVE) }

  predicate TokensLast(events: seq<Event>) {
    forall i, j :: 0 <= i < j < |events| && events[i] == Event.Shutdown ==> events[j] == Event.Shutdown
  }

  predicate OnlyTokens(events: seq<Event>) {
    forall i :: 0 <= i < |events| ==> events[i] == Event.Shutdown
  }

  /** Every worker still there has its token, and no token overtakes an event. */
  predicate Agreed(s: Sys) {
    && (s.phase.Running? ==> Tokens(s) == 0 && Live(s) == |s.workers|)
    && (s.phase.Closing? ==> Tokens(s) + s.phase.left == Live(s))
    && TokensLast(s.events)
    && (Live(s) < |s.workers| ==> OnlyTokens(s.events))
  }

  lemma InitAgreed(s: Sys)
    requires Init(s)
    ensures Agreed(s)
  {
    CountBound(s.workers, IS_LIVE);
  }

  lemma AllLive(ws: seq<Worker>)
    ensures Count(ws, IS_LIVE) == |ws| <==> forall w :: 0 <= w < |ws| ==> !ws[w].Exited?
    ensures Count(ws, IS_LIVE) <= |ws|
  {
    CountBound(ws, IS_LIVE);
  }

  lemma NoTokens(events: seq<Event>)
    ensures Count(events, IS_TOKEN) == 0 <==> forall i :: 0 <= i < |events| ==> events[i] != Event.Shutdown
  {
    CountZero(events, IS_TOKEN);
  }

  lemma MoreEvents(q: seq<Event>, more: seq<Event>)
    requires |more| <= 1 && (more != [] ==> more[0] != Event.Shutdown)
    ensures Count(q + more, IS_TOKEN) == Count(q, IS_TOKEN)
  {
    if more == [] {
      assert q + more == q;
    } else {
      assert more == [more[0]];
      CountAppend(q, more[0], IS_TOKEN);
    }
  }

  lemma HandleSendsNoToken(s: State, a: Action)
    requires Consistent(s)
    ensures |Handle(s, a).1| <= 1
    ensures Handle(s, a).1 != [] ==> Handle(s, a).1[0] != Event.Shutdown
  {
  }

  lemma TakeAgreed(s: Sys)
    requires Enabled(s, Take) && Agreed(s)
    ensures Agreed(TakeAction(s))
  {
    if s.phase.Running? && !s.actions[0].Shutdown? {
      hide Handle, Dropped;
      HandleSendsNoToken(s.loop, s.actions[0]);
      MoreEvents(s.events, Handle(s.loop, s.actions[0]).1);
      NoTokens(s.events);
      NoTokens(TakeAction(s).events);
    }
  }

  lemma PickAgreed(s: Sys, w: nat)
    requires Enabled(s, Pick(w)) && Agreed(s)
    ensures Agreed(PickEvent(s, w))
  {
    var s' := PickEvent(s, w);
    CountUpdate(s.workers, w, s'.workers[w], IS_LIVE);
    AllLive(s.workers);
    assert Tokens(s) == (if s.events[0] == Event.Shutdown then 1 else 0) + Tokens(s');
    forall i | 0 <= i < |s'.events| ensures s'.events[i] == s.events[i + 1] {}
  }

  lemma SendAgreed(s: Sys, step: Step)
    requires Enabled(s, step) && Agreed(s) && (step.Post? || step.Emit? || step.Expire?)
    ensures Agreed(Apply(s, step))
  {
    hide Enabled, Apply;
    var _ := SendAppends(s, step);
  }

  lemma QuitAgreed(s: Sys)
    requires Enabled(s, Quit) && Agreed(s)
    ensures Agreed(Apply(s, Quit))
  {
  }

  lemma TokenAgreed(s: Sys)
    requires Enabled(s, Token) && Agreed(s)
    ensures Agreed(Apply(s, Token))
  {
    CountAppend(s.events, Event.Shutdown, IS_TOKEN);
  }

  lemma WorkerAgreed(s: Sys, step: Step)
    requires Enabled(s, step) && Agreed(s) && (step.Panic? || step.GiveBack? || step.Stopped? || step.Flushed?)
    ensures Agreed(Apply(s, step))
  {
    CountUpdate(s.workers, step.w, Apply(s, step).workers[step.w], IS_LIVE);
  }

  lemma StepAgreed(s: Sys, step: Step)
    requires Enabled(s, step) && Agreed(s)
    ensures Agreed(Apply(s, step))
  {
    hide Agreed, Send, Close, TakeAction, PickEvent;
    match step
    case Take => TakeAgreed(s);
    case Pick(w) => PickAgreed(s, w);
    case Quit => QuitAgreed(s);
    case Token => TokenAgreed(s);
    case Post(_) => SendAgreed(s, step);
    case Emit(_, _) => SendAgreed(s, step);
    case Expire(_) => SendAgreed(s, step);
    case _ => WorkerAgreed(s, step);
  }

  lemma {:induction false} RunAgreed(s: Sys, steps: seq<Step>)
    requires Runs(s, steps) && Agreed(s)
    ensures Agreed(End(s, steps))
    decreases |steps|
  {
    if steps != [] {
      hide Enabled, Apply, Agreed;
      StepAgreed(s, steps[0]);
      RunAgreed(Apply(s, steps[0]), steps[1..]);
    }
  }

  // --- Progress ------------------------------------------------------------------------------------------------------

  /** The steps that bring the end nearer.  What remains is sending to, and draining, the action channel. */
  predicate Progress(step: Step) {
    step.Token? || step.Pick? || step.Panic? || step.GiveBack? || step.Stopped? || step.Flushed?
  }

  function Load(w: Worker): nat {
    match w
    case Idle => 0
    case Busy(_, _, _, failed) => if failed then 2 else 3
    case Stopping(_, _) => 3
    case Flushing => 1
    case Exited => 0
  }

  function LoadOf(ws: seq<Worker>): nat {
    if ws == [] then 0 else Load(ws[0]) + LoadOf(ws[1..])
  }

  lemma {:induction false} LoadUpdate(ws: seq<Worker>, w: nat, x: Worker)
    requires w < |ws|
    ensures LoadOf(ws[w := x]) + Load(ws[w]) == LoadOf(ws) + Load(x)
  {
    if w == 0 {
      assert ws[w := x][1..] == ws[1..];
    } else {
      assert ws[w := x][1..] == ws[1..][w - 1 := x];
      LoadUpdate(ws[1..], w - 1, x);
    }
  }

  /** How much is left to do once the loop is over. */
  function Measure(s: Sys): nat
    requires s.phase.Closing?
  {
    5 * s.phase.left + 4 * |s.events| + LoadOf(s.workers)
  }

  /** Once the loop is over it stays over, progress strictly uses up the measure, and nothing adds to it. */
  lemma StepMeasure(s: Sys, step: Step)
    requires Enabled(s, step) && s.phase.Closing?
    ensures Apply(s, step).phase.Closing? && |Apply(s, step).workers| == |s.workers|
    ensures Progress(step) ==> Measure(Apply(s, step)) < Measure(s)
    ensures !Progress(step) ==> Measure(Apply(s, step)) == Measure(s)
  {
    match step
    case Pick(w) => LoadUpdate(s.workers, w, PickEvent(s, w).workers[w]);
    case Panic(w) => LoadUpdate(s.workers, w, Apply(s, step).workers[w]);
    case GiveBack(w) => LoadUpdate(s.workers, w, Flushing);
    case Stopped(w) => LoadUpdate(s.workers, w, Flushing);
    case Flushed(w) => LoadUpdate(s.workers, w, Idle);
    case _ =>
  }

  function ProgressIn(steps: seq<Step>): nat {
    if steps == [] then 0 else (if Progress(steps[0]) then 1 else 0) + ProgressIn(steps[1..])
  }

  /** The end is near: however the threads interleave, the measure bounds the progress steps still possible. */
  lemma {:induction false} ShutdownIsBounded(s: Sys, steps: seq<Step>)
    requires Runs(s, steps) && s.phase.Closing?
    ensures End(s, steps).phase.Closing? && |End(s, steps).workers| == |s.workers|
    ensures ProgressIn(steps) + Measure(End(s, steps)) <= Measure(s)
    decreases |steps|
  {
    if steps != [] {
      hide Enabled, Apply, Measure, Progress;
      StepMeasure(s, steps[0]);
      ShutdownIsBounded(Apply(s, steps[0]), steps[1..]);
    }
  }

  /** No worker waits forever: while any is left, some progress step is possible. */
  lemma SomethingCanProgress(s: Sys) returns (step: Step)
    requires Agreed(s) && s.phase.Closing? && Live(s) > 0
    ensures Progress(step) && Enabled(s, step)
  {
    CountZero(s.workers, IS_LIVE);
    if s.phase.left > 0 {
      return Token;
    }
    var w :| 0 <= w < |s.workers| && !s.workers[w].Exited?;
    match s.workers[w]
    case Idle =>
      assert s.events != [];
      return Pick(w);
    case Busy(_, _, _, _) => return GiveBack(w);
    case Stopping(_, _) => return Stopped(w);
    case Flushing => return Flushed(w);
  }

  /**
   The handshake, over every run: the first worker to take a token does so when nothing but tokens is left, and when
   no progress is possible any more all workers have exited and, if there ever was one, every event was taken.
   */
  lemma ShutdownCompletes(s: Sys, steps: seq<Step>)
    requires Init(s) && Runs(s, steps)
    ensures var e := End(s, steps);
            && (e.events != [] && e.events[0] == Event.Shutdown ==> OnlyTokens(e.events))
            && (e.phase.Closing? && (forall step :: Progress(step) ==> !Enabled(e, step)) ==>
                  (|s.workers| > 0 ==> e.events == []) && forall w :: 0 <= w < |e.workers| ==> e.workers[w].Exited?)
  {
    InitAgreed(s);
    RunAgreed(s, steps);
    RunWorkers(s, steps);
    var e := End(s, steps);
    if e.phase.Closing? && forall step :: Progress(step) ==> !Enabled(e, step) {
      if Live(e) > 0 {
        var step := SomethingCanProgress(e);
      }
      CountZero(e.workers, IS_LIVE);
      NoTokens(e.events);
    }
  }

  lemma {:induction false} RunWorkers(s: Sys, steps: seq<Step>)
    requires Runs(s, steps)
    ensures |End(s, steps).workers| == |s.workers|
    decreases |steps|
  {
    if steps != [] {
      RunWorkers(Apply(s, steps[0]), steps[1..]);
    }
  }
}
