/** A worker thread as the object it is, and that what it does for one event is a run of the system (src/core.rs). */
module WorkerThread {
  import opened Api
  import opened ActorSystem

  /**
   What the code of an actor does when a worker calls it: what it sends in `receive` or `on_stop`, whether `receive`
   panics and what `on_fail` sends then, and whether anything was logged or measured.
   */
  datatype Call = Call(sends: seq<Action>, panics: bool, afterPanic: seq<Action>, logs: bool, measures: bool)

  predicate Sends(a: Action) {
    a.Queue? || a.Delay? || a.Stop? || a.Spawn?
  }

  predicate OnlySends(call: Call) {
    (forall a :: a in call.sends ==> Sends(a)) && (forall a :: a in call.afterPanic ==> Sends(a))
  }

  /** `Local::drain`. */
  function Flush(tag: Tag, call: Call): seq<Action> {
    (if call.logs then [Logs(tag)] else []) + (if call.measures then [Metrics] else [])
  }

  /** Everything the actor itself sends in a call. */
  function Said(event: Event, call: Call): seq<Action> {
    if event.Shutdown? then []
    else if event.Mail? && call.panics then call.sends + call.afterPanic
    else call.sends
  }

  /** What a worker puts on the action channel for one event. */
  function Output(event: Event, call: Call): seq<Action> {
    match event
    case Mail(tag, actor, _) => Said(event, call) + [Return(tag, actor, !call.panics)] + Flush(tag, call)
    case Stop(tag, _) => Said(event, call) + Flush(tag, call)
    case Shutdown => []
  }

  function Outputs(events: seq<Event>, calls: seq<Call>): seq<Action>
    requires |calls| >= |events|
  {
    if events == [] then []
    else Outputs(events[..|events| - 1], calls) + Output(events[|events| - 1], calls[|events| - 1])
  }

  /** `worker_loop` with its `Local`. */
  class Worker {
    var tag: Tag
    var logs: bool          // whether `logs` and `metrics` hold anything
    var metrics: bool
    var tx: seq<Action>     // everything put on the action channel

    constructor ()
      ensures !logs && !metrics && tx == []
    {
      tag, logs, metrics, tx := Tag(""), false, false, [];
    }

    /** The actor runs with this worker's `Local` as its sender. */
    method Perform(sends: seq<Action>, logging: bool, measuring: bool)
      modifies this`tx, this`logs, this`metrics
      ensures tx == old(tx) + sends
      ensures logs == (old(logs) || logging) && metrics == (old(metrics) || measuring)
    {
      for i := 0 to |sends|
        invariant tx == old(tx) + sends[..i]
        invariant logs == old(logs) && metrics == old(metrics)
      {
        tx := tx + [sends[i]];
      }
      logs := logs || logging;
      metrics := metrics || measuring;
    }

    method Drain()
      modifies this`tx, this`logs, this`metrics
      ensures tx == old(tx) + (if old(logs) then [Logs(tag)] else []) + (if old(metrics) then [Metrics] else [])
      ensures !logs && !metrics
    {
      if logs {
        tx := tx + [Logs(tag)];
        logs := false;
      }
      if metrics {
        tx := tx + [Metrics];
        metrics := false;
      }
    }

    /** One turn of the loop; `stay` is false when it ends. */
    method Serve(event: Event, call: Call) returns (stay: bool)
      requires !logs && !metrics
      modifies this
      ensures !logs && !metrics
      ensures tx == old(tx) + Output(event, call)
      ensures stay == !event.Shutdown?
    {
      match event {
        case Mail(to, actor, envelope) =>
          tag := to;
          Perform(call.sends, call.logs, call.measures);
          if call.panics {
            Perform(call.afterPanic, false, false);
          }
          tx := tx + [Return(to, actor, !call.panics)];
        case Stop(to, actor) =>
          tag := to;
          Perform(call.sends, call.logs, call.measures);
        case Shutdown =>
          return false;
      }
      Drain();
      return true;
    }

    /** The loop, over whatever the event channel brings: it works through it up to the first `Shutdown`. */
    method Run(events: seq<Event>, calls: seq<Call>) returns (n: nat)
      requires |calls| >= |events|
      requires !logs && !metrics
      modifies this
      ensures n <= |events|
      ensures forall i :: 0 <= i < n - 1 ==> !events[i].Shutdown?
      ensures n < |events| ==> n > 0 && events[n - 1].Shutdown?
      ensures tx == old(tx) + Outputs(events[..n], calls)
    {
      hide Output;
      n := 0;
      var stay := true;
      while stay && n < |events|
        invariant n <= |events|
        invariant !logs && !metrics
        invariant forall i :: 0 <= i < n - 1 ==> !events[i].Shutdown?
        invariant n > 0 ==> stay == !events[n - 1].Shutdown?
        invariant !stay ==> n > 0
        invariant tx == old(tx) + Outputs(events[..n], calls)
        decreases |events| - n
      {
        stay := Serve(events[n], calls[n]);
        assert events[..n + 1][..n] == events[..n];
        n := n + 1;
      }
    }
  }

  /**
   Of a message: first everything `receive` sends, then, if it panics, everything `on_fail` sends, then the actor, once,
   and only then logs and metrics, each once and only if there are any.
   */
  lemma SendsPrecedeReturn(event: Event, call: Call)
    requires event.Mail? && OnlySends(call)
    ensures var out, n, k := Output(event, call), |call.sends|,
                             |call.sends| + if call.panics then |call.afterPanic| else 0;
            && k < |out|
            && out[..n] == call.sends && (call.panics ==> out[n..k] == call.afterPanic)
            && out[k] == Return(event.tag, event.actor, !call.panics)
            && (forall j :: 0 <= j < |out| ==> (out[j].Return? <==> j == k))
            && |out| == k + 1 + (if call.logs then 1 else 0) + (if call.measures then 1 else 0)
            && (call.logs ==> out[k + 1] == Logs(event.tag)) && (call.measures ==> out[|out| - 1] == Metrics)
  {
    var out, said := Output(event, call), Said(event, call);
    forall j | 0 <= j < |out| ensures out[j].Return? <==> j == |said| {
      if j < |said| {
        assert out[j] in said;
      }
    }
  }

  /** Of a Stop: everything `on_stop` sends, then logs and metrics; the actor does not go back. */
  lemma StopSendsNoReturn(event: Event, call: Call)
    requires event.Stop? && OnlySends(call)
    ensures var out, k := Output(event, call), |call.sends|;
            && k <= |out| && out[..k] == call.sends
            && (forall j :: 0 <= j < |out| ==> !out[j].Return?)
            && |out| == k + (if call.logs then 1 else 0) + (if call.measures then 1 else 0)
            && (call.logs ==> out[k] == Logs(event.tag)) && (call.measures ==> out[|out| - 1] == Metrics)
  {
    var out := Output(event, call);
    forall j | 0 <= j < |out| ensures !out[j].Return? {
      if j < |call.sends| {
        assert out[j] in call.sends;
      }
    }
  }

  // --- The thread and the step relation ------------------------------------------------------------------------------

  /** An action without the bookkeeping of the model. */
  function Plain(a: Action): Action {
    if a.Queue? then a.(envelope := a.envelope.(stamp := Stamp(Outside, 0))) else a
  }

  function Plains(actions: seq<Action>): (r: seq<Action>)
    ensures |r| == |actions|
    ensures forall i :: 0 <= i < |actions| ==> r[i] == Plain(actions[i])
  {
    seq(|actions|, i requires 0 <= i < |actions| => Plain(actions[i]))
  }

  function Emits(w: nat, actions: seq<Action>): (steps: seq<Step>)
    ensures |steps| == |actions|
    ensures forall i :: 0 <= i < |actions| ==> steps[i] == Emit(w, actions[i])
  {
    seq(|actions|, i requires 0 <= i < |actions| => Emit(w, actions[i]))
  }

  /** The boxes known once `actions` are sent. */
  function Known(known: set<Instance>, actions: seq<Action>): set<Instance>
    decreases |actions|
  {
    if actions == [] then known
    else
      var a := actions[0];
      Known(if a.Spawn? then known + {Instance(a.tag, a.actor)} else known, actions[1..])
  }

  /** An actor may send these one after the other: each box it spawns is a new one. */
  predicate Sendable(known: set<Instance>, actions: seq<Action>)
    decreases |actions|
  {
    if actions == [] then true
    else
      var a := actions[0];
      && Sends(a)
      && (a.Spawn? ==> forall x :: x in known ==> x.actor != a.actor)
      && Sendable(if a.Spawn? then known + {Instance(a.tag, a.actor)} else known, actions[1..])
  }

  lemma {:induction false} SendableSplits(known: set<Instance>, first: seq<Action>, second: seq<Action>)
    requires Sendable(known, first + second)
    ensures Sendable(known, first) && Sendable(Known(known, first), second)
    decreases |first|
  {
    if first == [] {
      assert first + second == second;
    } else {
      var a := first[0];
      assert (first + second)[1..] == first[1..] + second;
      SendableSplits(if a.Spawn? then known + {Instance(a.tag, a.actor)} else known, first[1..], second);
    }
  }

  /** The steps of a worker for one event, once it has the event. */
  function Rest(w: nat, event: Event, call: Call): seq<Step> {
    match event
    case Mail(tag, _, _) =>
      Emits(w, call.sends) + (if call.panics then [Panic(w)] + Emits(w, call.afterPanic) else [])
      + ([GiveBack(w)] + (Emits(w, Flush(tag, call)) + [Flushed(w)]))
    case Stop(tag, _) => Emits(w, call.sends) + ([Stopped(w)] + (Emits(w, Flush(tag, call)) + [Flushed(w)]))
    case Shutdown => []
  }

  /** The steps of a worker for one event. */
  function Turn(w: nat, event: Event, call: Call): seq<Step> {
    [Pick(w)] + Rest(w, event, call)
  }

  /** `s` and `t` differ in what is on the action channel, by `more`, and in the books. */
  predicate Extended(s: Sys, t: Sys, more: seq<Action>) {
    && t.loop == s.loop && t.phase == s.phase && t.events == s.events && t.workers == s.workers
    && Plains(t.actions) == Plains(s.actions) + Plains(more)
  }

  lemma ExtendedOne(s: Sys, a: Action, origin: Origin)
    ensures Extended(s, Send(s, a, origin), [a])
  {
    assert Plains(Send(s, a, origin).actions) == Plains(s.actions) + Plains([a]);
  }

  lemma ExtendedTwice(s: Sys, t: Sys, u: Sys, more: seq<Action>, evenMore: seq<Action>)
    requires Extended(s, t, more) && Extended(t, u, evenMore)
    ensures Extended(s, u, more + evenMore)
  {
    assert Plains(more + evenMore) == Plains(more) + Plains(evenMore);
  }

  lemma ExtendedNone(s: Sys)
    ensures Extended(s, s, [])
  {
  }

  /** What a step of worker `w` puts on the action channel. */
  function PutOne(s: Sys, step: Step, w: nat): seq<Action>
    requires Enabled(s, step)
  {
    match step
    case Emit(v, a) => if v == w then [a] else []
    case GiveBack(v) =>
      var b := s.workers[v];
      if v == w then [Return(b.tag, b.actor, !b.failed)] else []
    case _ => []
  }

  /** What worker `w` puts on the action channel in a run. */
  function PutBy(s: Sys, steps: seq<Step>, w: nat): seq<Action>
    requires Runs(s, steps)
    decreases |steps|
  {
    if steps == [] then [] else PutOne(s, steps[0], w) + PutBy(Apply(s, steps[0]), steps[1..], w)
  }

  lemma {:induction false} PutSplits(s: Sys, before: seq<Step>, after: seq<Step>, w: nat)
    requires Runs(s, before) && Runs(End(s, before), after)
    ensures Runs(s, before + after)
    ensures PutBy(s, before + after, w) == PutBy(s, before, w) + PutBy(End(s, before), after, w)
    decreases |before|
  {
    hide Enabled, Apply, PutOne;
    RunsOn(s, before, after);
    if before == [] {
      assert before + after == after;
    } else {
      assert (before + after)[0] == before[0] && (before + after)[1..] == before[1..] + after;
      PutSplits(Apply(s, before[0]), before[1..], after, w);
    }
  }

  /** Runs compose, and so does what a worker puts on the channel. */
  lemma Chained(s: Sys, before: seq<Step>, after: seq<Step>, w: nat)
    requires Runs(s, before) && Runs(End(s, before), after)
    ensures Runs(s, before + after) && End(s, before + after) == End(End(s, before), after)
    ensures PutBy(s, before + after, w) == PutBy(s, before, w) + PutBy(End(s, before), after, w)
  {
    hide Runs, End, PutBy;
    RunsOn(s, before, after);
    PutSplits(s, before, after, w);
  }

  function Moved(s: Sys, w: nat, k: ActorSystem.Worker): Sys
    requires w < |s.workers|
  {
    s.(workers := s.workers[w := k])
  }

  lemma ExtendedMoved(s: Sys, t: Sys, more: seq<Action>, w: nat, k: ActorSystem.Worker)
    requires w < |s.workers| && Extended(s, t, more)
    ensures Extended(Moved(s, w, k), Moved(t, w, k), more)
  {
  }

  lemma NoSteps(s: Sys)
    ensures Runs(s, []) && End(s, []) == s && Extended(s, s, [])
  {
  }

  lemma NoPuts(s: Sys, w: nat)
    ensures Runs(s, []) && PutBy(s, [], w) == []
  {
  }

  lemma Single(s: Sys, step: Step)
    requires Enabled(s, step)
    ensures Runs(s, [step]) && End(s, [step]) == Apply(s, step)
  {
    hide Enabled, Apply;
    assert Runs(Apply(s, step), []);
  }

  lemma SinglePuts(s: Sys, step: Step, w: nat)
    requires Enabled(s, step)
    ensures Runs(s, [step]) && PutBy(s, [step], w) == PutOne(s, step, w)
  {
    hide Enabled, Apply, PutOne;
    Single(s, step);
    assert [step][1..] == [] && PutBy(Apply(s, step), [], w) == [];
  }

  lemma EmitOne(s: Sys, w: nat, a: Action)
    requires w < |s.workers| && (s.workers[w].Busy? || s.workers[w].Stopping?)
    requires Sendable(s.past.created, [a])
    ensures var next := Send(s, a, Sender(s.workers[w].actor));
            && Enabled(s, Emit(w, a)) && Apply(s, Emit(w, a)) == next
            && next.workers == s.workers && next.past.created == Known(s.past.created, [a])
            && Extended(s, next, [a])
  {
    ExtendedOne(s, a, Sender(s.workers[w].actor));
    assert MaySend(s, a);
  }

  /** What a worker that is running an actor sends can be sent step by step. */
  lemma {:induction false} EmitsRun(s: Sys, w: nat, actions: seq<Action>)
    requires w < |s.workers| && (s.workers[w].Busy? || s.workers[w].Stopping?)
    requires Sendable(s.past.created, actions)
    ensures Runs(s, Emits(w, actions))
    ensures var t := End(s, Emits(w, actions));
            Extended(s, t, actions) && t.past.created == Known(s.past.created, actions)
    ensures PutBy(s, Emits(w, actions), w) == actions
    decreases |actions|
  {
    hide Send, Extended, MaySend, Enabled, Apply, Sendable;
    if actions == [] {
      ExtendedNone(s);
    } else {
      var next := Send(s, actions[0], Sender(s.workers[w].actor));
      assert actions == [actions[0]] + actions[1..];
      SendableSplits(s.past.created, [actions[0]], actions[1..]);
      EmitOne(s, w, actions[0]);
      assert Emits(w, actions)[1..] == Emits(w, actions[1..]);
      EmitsRun(next, w, actions[1..]);
      ExtendedTwice(s, next, End(next, Emits(w, actions[1..])), [actions[0]], actions[1..]);
      assert PutOne(s, Emits(w, actions)[0], w) == [actions[0]];
    }
  }

  lemma FlushOne(s: Sys, w: nat, a: Action)
    requires w < |s.workers| && s.workers[w].Flushing? && (a.Logs? || a.Metrics?)
    ensures Runs(s, [Emit(w, a)]) && End(s, [Emit(w, a)]) == Send(s, a, Outside)
    ensures Extended(s, Send(s, a, Outside), [a]) && Send(s, a, Outside).workers == s.workers
    ensures PutBy(s, [Emit(w, a)], w) == [a]
  {
    Single(s, Emit(w, a));
    SinglePuts(s, Emit(w, a), w);
    ExtendedOne(s, a, Outside);
  }

  lemma FlushEmits(s: Sys, w: nat, flush: seq<Action>)
    requires w < |s.workers| && s.workers[w].Flushing?
    requires |flush| <= 2 && forall i :: 0 <= i < |flush| ==> flush[i].Logs? || flush[i].Metrics?
    ensures Runs(s, Emits(w, flush)) && Extended(s, End(s, Emits(w, flush)), flush)
    ensures PutBy(s, Emits(w, flush), w) == flush
  {
    hide Runs, End, Extended, Enabled, Send, Apply, PutBy;
    if |flush| == 0 {
      NoSteps(s);
      NoPuts(s, w);
      assert Emits(w, flush) == [];
    } else {
      FlushOne(s, w, flush[0]);
      if |flush| == 1 {
        assert Emits(w, flush) == [Emit(w, flush[0])] && flush == [flush[0]];
      } else {
        var t := Send(s, flush[0], Outside);
        FlushOne(t, w, flush[1]);
        Chained(s, [Emit(w, flush[0])], [Emit(w, flush[1])], w);
        assert Emits(w, flush) == [Emit(w, flush[0])] + [Emit(w, flush[1])];
        ExtendedTwice(s, t, Send(t, flush[1], Outside), [flush[0]], [flush[1]]);
        assert flush == [flush[0]] + [flush[1]];
      }
    }
  }

  /** `Local::drain` and back to waiting. */
  lemma FlushRuns(s: Sys, w: nat, tag: Tag, call: Call)
    requires w < |s.workers| && s.workers[w].Flushing?
    ensures var steps := Emits(w, Flush(tag, call)) + [Flushed(w)];
            && Runs(s, steps)
            && Extended(Moved(s, w, Idle), End(s, steps), Flush(tag, call))
            && PutBy(s, steps, w) == Flush(tag, call)
  {
    hide Runs, End, PutBy;
    var flush := Flush(tag, call);
    FlushEmits(s, w, flush);
    var t := End(s, Emits(w, flush));
    Single(t, Flushed(w));
    SinglePuts(t, Flushed(w), w);
    Chained(s, Emits(w, flush), [Flushed(w)], w);
    ExtendedMoved(s, t, flush, w, Idle);
  }

  /** `receive`, and `on_fail` if it panics. */
  lemma CallRuns(s: Sys, w: nat, call: Call)
    requires w < |s.workers| && s.workers[w].Busy? && !s.workers[w].failed
    requires Sendable(s.past.created, if call.panics then call.sends + call.afterPanic else call.sends)
    ensures var steps := Emits(w, call.sends) + (if call.panics then [Panic(w)] + Emits(w, call.afterPanic) else []);
            && Runs(s, steps)
            && Extended(Moved(s, w, s.workers[w].(failed := call.panics)), End(s, steps),
                        if call.panics then call.sends + call.afterPanic else call.sends)
            && PutBy(s, steps, w) == if call.panics then call.sends + call.afterPanic else call.sends
  {
    hide Runs, End, Sendable, Known, Enabled, Apply, Extended, PutBy;
    var first := Emits(w, call.sends);
    if !call.panics {
      EmitsRun(s, w, call.sends);
      assert first + [] == first;
      assert Moved(s, w, s.workers[w].(failed := false)) == s;
    } else {
      SendableSplits(s.past.created, call.sends, call.afterPanic);
      EmitsRun(s, w, call.sends);
      var t := End(s, first);
      ExtendedKeeps(s, t, call.sends);
      PanicRuns(t, w);
      var u := Moved(t, w, t.workers[w].(failed := true));
      Chained(s, first, [Panic(w)], w);
      EmitsRun(u, w, call.afterPanic);
      Chained(s, first + [Panic(w)], Emits(w, call.afterPanic), w);
      assert first + ([Panic(w)] + Emits(w, call.afterPanic)) == first + [Panic(w)] + Emits(w, call.afterPanic);
      ExtendedMoved(s, t, call.sends, w, s.workers[w].(failed := true));
      ExtendedTwice(Moved(s, w, s.workers[w].(failed := true)), u, End(u, Emits(w, call.afterPanic)),
                    call.sends, call.afterPanic);
    }
  }

  lemma ExtendedKeeps(s: Sys, t: Sys, more: seq<Action>)
    requires Extended(s, t, more)
    ensures t.workers == s.workers
  {
  }

  lemma PanicRuns(s: Sys, w: nat)
    requires w < |s.workers| && s.workers[w].Busy? && !s.workers[w].failed
    ensures Runs(s, [Panic(w)]) && End(s, [Panic(w)]) == Moved(s, w, s.workers[w].(failed := true))
    ensures PutBy(s, [Panic(w)], w) == []
  {
    Single(s, Panic(w));
    SinglePuts(s, Panic(w), w);
  }

  lemma GiveBackRuns(s: Sys, w: nat)
    requires w < |s.workers| && s.workers[w].Busy?
    ensures var b := s.workers[w];
            && Runs(s, [GiveBack(w)])
            && Extended(Moved(s, w, Flushing), End(s, [GiveBack(w)]), [Return(b.tag, b.actor, !b.failed)])
            && PutBy(s, [GiveBack(w)], w) == [Return(b.tag, b.actor, !b.failed)]
  {
    hide PutBy;
    Single(s, GiveBack(w));
    SinglePuts(s, GiveBack(w), w);
    var b := s.workers[w];
    var back := Return(b.tag, b.actor, !b.failed);
    assert Plains(s.actions + [back]) == Plains(s.actions) + Plains([back]);
  }

  lemma OnlyBooks(s: Sys, t: Sys)
    requires t.loop == s.loop && t.phase == s.phase && t.events == s.events && t.workers == s.workers
    requires t.actions == s.actions
    ensures Extended(s, t, [])
  {
  }

  lemma StoppedRuns(s: Sys, w: nat)
    requires w < |s.workers| && s.workers[w].Stopping?
    ensures Runs(s, [Stopped(w)]) && Extended(Moved(s, w, Flushing), End(s, [Stopped(w)]), [])
    ensures PutBy(s, [Stopped(w)], w) == []
  {
    hide Extended, Runs, End, PutBy;
    Single(s, Stopped(w));
    SinglePuts(s, Stopped(w), w);
    OnlyBooks(Moved(s, w, Flushing), End(s, [Stopped(w)]));
  }

  /** From the end of a call to the wait for the next event. */
  lemma AfterCall(s: Sys, t: Sys, w: nat, said: seq<Action>, last: Step, word: seq<Action>, tag: Tag, call: Call)
    requires w < |s.workers| && Extended(s, t, said)
    requires Runs(t, [last]) && Extended(Moved(t, w, Flushing), End(t, [last]), word) && PutBy(t, [last], w) == word
    ensures var steps := [last] + (Emits(w, Flush(tag, call)) + [Flushed(w)]);
            && Runs(t, steps)
            && Extended(Moved(s, w, Idle), End(t, steps), said + word + Flush(tag, call))
            && PutBy(t, steps, w) == word + Flush(tag, call)
  {
    hide Runs, End, Enabled, Apply, Flush, Extended, PutBy;
    ExtendedKeeps(s, t, said);
    var u := End(t, [last]);
    ExtendedKeeps(Moved(t, w, Flushing), u, word);
    ExtendedMoved(s, t, said, w, Flushing);
    ExtendedTwice(Moved(s, w, Flushing), Moved(t, w, Flushing), u, said, word);
    ExtendedMoved(Moved(s, w, Flushing), u, said + word, w, Idle);
    FlushRuns(u, w, tag, call);
    var rest := Emits(w, Flush(tag, call)) + [Flushed(w)];
    Chained(t, [last], rest, w);
    assert Moved(Moved(s, w, Flushing), w, Idle) == Moved(s, w, Idle);
    ExtendedTwice(Moved(s, w, Idle), Moved(u, w, Idle), End(u, rest), said + word, Flush(tag, call));
  }

  /** One event less, the worker waiting again or, after a Shutdown, gone. */
  function Served(s: Sys, w: nat): Sys
    requires w < |s.workers| && s.events != []
  {
    s.(events := s.events[1..], workers := if s.events[0].Shutdown? then s.workers[w := Exited] else s.workers)
  }

  lemma PickRuns(s: Sys, w: nat)
    requires w < |s.workers| && s.workers[w].Idle? && s.events != []
    ensures var t, e := End(s, [Pick(w)]), s.events[0];
            && Runs(s, [Pick(w)]) && t.past.created == s.past.created
            && (e.Mail? ==> w < |t.workers| && t.workers[w] == Busy(e.tag, e.actor, e.envelope, false))
            && (e.Stop? ==> w < |t.workers| && t.workers[w] == Stopping(e.tag, e.actor))
            && (!e.Shutdown? ==> Extended(Served(s, w), Moved(t, w, Idle), []))
            && (e.Shutdown? ==> Extended(Served(s, w), t, []))
            && PutBy(s, [Pick(w)], w) == []
  {
    hide PutBy;
    Single(s, Pick(w));
    SinglePuts(s, Pick(w), w);
    assert s.workers[w := Idle] == s.workers;
    assert Plains([]) == [];
  }

  lemma MailRuns(t: Sys, w: nat, event: Event, call: Call)
    requires w < |t.workers| && event.Mail? && t.workers[w] == Busy(event.tag, event.actor, event.envelope, false)
    requires Sendable(t.past.created, Said(event, call))
    ensures Runs(t, Rest(w, event, call))
    ensures Extended(Moved(t, w, Idle), End(t, Rest(w, event, call)), Output(event, call))
    ensures PutBy(t, Rest(w, event, call), w) == Output(event, call)
  {
    hide Runs, End, Enabled, Apply, Flush, Extended, Sendable, PutBy;
    CallRuns(t, w, call);
    var failed := Moved(t, w, t.workers[w].(failed := call.panics));
    var steps := Emits(w, call.sends) + (if call.panics then [Panic(w)] + Emits(w, call.afterPanic) else []);
    var u := End(t, steps);
    ExtendedKeeps(failed, u, Said(event, call));
    GiveBackRuns(u, w);
    var back := Return(event.tag, event.actor, !call.panics);
    AfterCall(failed, u, w, Said(event, call), GiveBack(w), [back], event.tag, call);
    Chained(t, steps, [GiveBack(w)] + (Emits(w, Flush(event.tag, call)) + [Flushed(w)]), w);
    assert Moved(failed, w, Idle) == Moved(t, w, Idle);
  }

  lemma StopRuns(t: Sys, w: nat, event: Event, call: Call)
    requires w < |t.workers| && event.Stop? && t.workers[w] == Stopping(event.tag, event.actor)
    requires Sendable(t.past.created, Said(event, call))
    ensures Runs(t, Rest(w, event, call))
    ensures Extended(Moved(t, w, Idle), End(t, Rest(w, event, call)), Output(event, call))
    ensures PutBy(t, Rest(w, event, call), w) == Output(event, call)
  {
    hide Runs, End, Enabled, Apply, Flush, Extended, Sendable, PutBy;
    EmitsRun(t, w, call.sends);
    var steps := Emits(w, call.sends);
    var u := End(t, steps);
    ExtendedKeeps(t, u, call.sends);
    StoppedRuns(u, w);
    AfterCall(t, u, w, call.sends, Stopped(w), [], event.tag, call);
    assert call.sends + [] == call.sends;
    Chained(t, steps, [Stopped(w)] + (Emits(w, Flush(event.tag, call)) + [Flushed(w)]), w);
  }

  /**
   What the thread does for one event is a run of the system: the same actions in the same order, one event less, the
   worker waiting again, or gone after a Shutdown, and nothing else different.
   */
  lemma ServeIsRun(s: Sys, w: nat, call: Call)
    requires w < |s.workers| && s.workers[w].Idle? && s.events != []
    requires Sendable(s.past.created, Said(s.events[0], call))
    ensures Runs(s, Turn(w, s.events[0], call))
    ensures Extended(Served(s, w), End(s, Turn(w, s.events[0], call)), Output(s.events[0], call))
    ensures PutBy(s, Turn(w, s.events[0], call), w) == Output(s.events[0], call)
  {
    hide Runs, End, Enabled, Apply, Extended, Sendable, PutBy;
    var event := s.events[0];
    PickRuns(s, w);
    var t := End(s, [Pick(w)]);
    if event.Shutdown? {
      assert [Pick(w)] + Rest(w, event, call) == [Pick(w)];
    } else {
      if event.Mail? {
        MailRuns(t, w, event, call);
      } else {
        StopRuns(t, w, event, call);
      }
      Chained(s, [Pick(w)], Rest(w, event, call), w);
      ExtendedTwice(Served(s, w), Moved(t, w, Idle), End(t, Rest(w, event, call)), [], Output(event, call));
      assert [] + Output(event, call) == Output(event, call);
    }
  }

  // --- Any number of events, with the other threads in between -------------------------------------------------------

  /** What the other threads do before this one takes its next event, and what it does then. */
  datatype Shift = Shift(others: seq<Step>, event: Event, call: Call)

  predicate OfWorker(step: Step, w: nat) {
    (step.Pick? || step.Emit? || step.Panic? || step.GiveBack? || step.Stopped? || step.Flushed?) && step.w == w
  }

  function EventsOf(shifts: seq<Shift>): (events: seq<Event>)
    ensures |events| == |shifts|
  {
    if shifts == [] then [] else EventsOf(shifts[..|shifts| - 1]) + [shifts[|shifts| - 1].event]
  }

  function CallsOf(shifts: seq<Shift>): (calls: seq<Call>)
    ensures |calls| == |shifts|
  {
    if shifts == [] then [] else CallsOf(shifts[..|shifts| - 1]) + [shifts[|shifts| - 1].call]
  }

  function AllSteps(w: nat, shifts: seq<Shift>): seq<Step> {
    if shifts == [] then []
    else
      var last := shifts[|shifts| - 1];
      AllSteps(w, shifts[..|shifts| - 1]) + (last.others + Turn(w, last.event, last.call))
  }

  /** The other threads may act, the event is then at the head of the channel, and the actor may send what it does. */
  predicate ShiftFits(t: Sys, w: nat, shift: Shift) {
    && Runs(t, shift.others)
    && (forall i :: 0 <= i < |shift.others| ==> !OfWorker(shift.others[i], w))
    && var u := End(t, shift.others);
    && u.events != [] && u.events[0] == shift.event
    && Sendable(u.past.created, Said(shift.event, shift.call))
  }

  predicate Fits(s: Sys, w: nat, shifts: seq<Shift>) {
    shifts == [] ||
    var past := shifts[..|shifts| - 1];
    && Fits(s, w, past) && Runs(s, AllSteps(w, past))
    && (past != [] ==> !past[|past| - 1].event.Shutdown?)
    && ShiftFits(End(s, AllSteps(w, past)), w, shifts[|shifts| - 1])
  }

  lemma OtherStep(s: Sys, step: Step, w: nat)
    requires Enabled(s, step) && !OfWorker(step, w) && w < |s.workers|
    ensures |Apply(s, step).workers| == |s.workers| && Apply(s, step).workers[w] == s.workers[w]
    ensures PutOne(s, step, w) == []
  {
  }

  lemma {:induction false} OtherSteps(s: Sys, steps: seq<Step>, w: nat)
    requires Runs(s, steps) && w < |s.workers| && forall i :: 0 <= i < |steps| ==> !OfWorker(steps[i], w)
    ensures |End(s, steps).workers| == |s.workers| && End(s, steps).workers[w] == s.workers[w]
    ensures PutBy(s, steps, w) == []
    decreases |steps|
  {
    hide Enabled, Apply, PutOne, OfWorker;
    if steps != [] {
      OtherStep(s, steps[0], w);
      OtherSteps(Apply(s, steps[0]), steps[1..], w);
    }
  }

  lemma ShiftIsRun(s: Sys, w: nat, shift: Shift)
    requires w < |s.workers| && s.workers[w].Idle? && ShiftFits(s, w, shift)
    ensures var steps := shift.others + Turn(w, shift.event, shift.call);
            && Runs(s, steps)
            && |End(s, steps).workers| == |s.workers|
            && End(s, steps).workers[w] == (if shift.event.Shutdown? then Exited else Idle)
            && PutBy(s, steps, w) == Output(shift.event, shift.call)
  {
    hide Runs, End, Turn, Output, Sendable, PutBy;
    var u := End(s, shift.others);
    OtherSteps(s, shift.others, w);
    ServeIsRun(u, w, shift.call);
    Chained(s, shift.others, Turn(w, shift.event, shift.call), w);
    assert [] + Output(shift.event, shift.call) == Output(shift.event, shift.call);
  }

  lemma OutputsOne(events: seq<Event>, calls: seq<Call>, event: Event, call: Call)
    requires |calls| == |events|
    ensures Outputs(events + [event], calls + [call]) == Outputs(events, calls) + Output(event, call)
  {
    hide Output;
    assert (events + [event])[..|events|] == events;
    OutputsOfFirst(events, calls, [call]);
  }

  lemma {:induction false} OutputsOfFirst(events: seq<Event>, calls: seq<Call>, more: seq<Call>)
    requires |calls| >= |events|
    ensures Outputs(events, calls + more) == Outputs(events, calls)
  {
    hide Output;
    if events != [] {
      OutputsOfFirst(events[..|events| - 1], calls, more);
    }
  }

  /**
   However many events the thread has taken, with whatever the other threads did in between, it is a run of the system,
   and what this worker put on the action channel in it is what the loop of the thread puts there.
   */
  lemma {:induction false} ShiftsAreRun(s: Sys, w: nat, shifts: seq<Shift>)
    requires w < |s.workers| && s.workers[w].Idle? && Fits(s, w, shifts)
    ensures Runs(s, AllSteps(w, shifts))
    ensures var t := End(s, AllSteps(w, shifts));
            && |t.workers| == |s.workers|
            && t.workers[w] == (if shifts != [] && shifts[|shifts| - 1].event.Shutdown? then Exited else Idle)
    ensures PutBy(s, AllSteps(w, shifts), w) == Outputs(EventsOf(shifts), CallsOf(shifts))
  {
    if shifts == [] {
      NoPuts(s, w);
    } else {
      hide Runs, End, ShiftFits, Turn, PutBy, Outputs, Output;
      var past, last := shifts[..|shifts| - 1], shifts[|shifts| - 1];
      ShiftsAreRun(s, w, past);
      ShiftIsRun(End(s, AllSteps(w, past)), w, last);
      Chained(s, AllSteps(w, past), last.others + Turn(w, last.event, last.call), w);
      OutputsOne(EventsOf(past), CallsOf(past), last.event, last.call);
    }
  }
}
