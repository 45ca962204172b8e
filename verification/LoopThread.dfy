/** One turn of the event loop, as its class takes it, is a run of the system (src/core.rs). */
module LoopThread {
  import opened Api
  import opened Scheduler
  import opened ActorSystem
  import opened WorkerThread
  import E = EventLoop

  function Expires(due: seq<Entry>): (steps: seq<Step>)
    ensures |steps| == |due| && forall i :: 0 <= i < |due| ==> steps[i] == Expire(due[i])
  {
    seq(|due|, i requires 0 <= i < |due| => Expire(due[i]))
  }

  /** `due` can be popped one by one, in this order, and leaves `after`. */
  predicate InTurn(before: multiset<Entry>, due: seq<Entry>, after: multiset<Entry>) {
    && before == multiset(due) + after
    && E.SortedByTime(due)
    && forall d, o :: d in due && o in after ==> d.at <= o.at
  }

  lemma FirstInTurn(before: multiset<Entry>, due: seq<Entry>, after: multiset<Entry>)
    requires InTurn(before, due, after) && due != []
    ensures due[0] in before && forall o :: o in before ==> due[0].at <= o.at
    ensures InTurn(before - multiset{due[0]}, due[1..], after)
  {
    hide E.SortedByTime;
    SortedTail(due);
    FirstOff(due, after);
    forall o | o in before ensures due[0].at <= o.at {
      assert o in due || o in after;
    }
  }

  lemma SortedTail(due: seq<Entry>)
    requires E.SortedByTime(due) && due != []
    ensures E.SortedByTime(due[1..]) && forall d :: d in due ==> due[0].at <= d.at
  {
  }

  lemma FirstOff(due: seq<Entry>, after: multiset<Entry>)
    requires due != []
    ensures due[0] in multiset(due) + after
    ensures multiset(due) + after - multiset{due[0]} == multiset(due[1..]) + after
    ensures forall o :: o in multiset(due) + after ==> o in due || o in after
  {
    assert due == [due[0]] + due[1..];
  }

  /** What a drain of the heap posts, the system posts by letting the entries expire one after the other. */
  lemma {:induction false} DrainIsRun(s: Sys, due: seq<Entry>, after: multiset<Entry>)
    requires s.phase == Running && InTurn(s.loop.tasks, due, after)
    ensures Runs(s, Expires(due))
    ensures var t := End(s, Expires(due));
            && t.loop == s.loop.(tasks := after) && t.phase == s.phase && t.events == s.events && t.workers == s.workers
            && Plains(t.actions) == Plains(s.actions) + Plains(E.Requeued(due))
    decreases |due|
  {
    hide InTurn;
    if due == [] {
      assert s.loop.tasks == after by {
        NothingInTurn(s.loop.tasks, after);
      }
    } else {
      FirstInTurn(s.loop.tasks, due, after);
      var next := Apply(s, Expire(due[0]));
      assert Expires(due)[1..] == Expires(due[1..]);
      DrainIsRun(next, due[1..], after);
      RequeuedOne(s, due);
    }
  }

  lemma NothingInTurn(before: multiset<Entry>, after: multiset<Entry>)
    requires InTurn(before, [], after)
    ensures before == after
  {
  }

  lemma RequeuedOne(s: Sys, due: seq<Entry>)
    requires due != [] && Enabled(s, Expire(due[0]))
    ensures Plains(Apply(s, Expire(due[0])).actions) + Plains(E.Requeued(due[1..]))
         == Plains(s.actions) + Plains(E.Requeued(due))
  {
  }

  lemma DrainedInTurn(config: E.Config, s: State, round: E.Round, due: seq<Entry>, after: multiset<Entry>)
    requires Consistent(s) && E.TurnDrains(config, s, round, due, after)
    ensures InTurn(Handle(s, E.Received(round)).0.tasks, due, after)
  {
    hide Handle;
    E.HandleOnHeap(s, E.Received(round));
  }

  // --- One turn ------------------------------------------------------------------------------------------------------

  /**
   The steps of one turn: what was received is taken, if anything was, then what is due expires, and then the loop quits
   if nothing is registered and it is to end then.  A Shutdown ends it when it is taken.
   */
  function Steps(config: E.Config, s: State, round: E.Round, due: seq<Entry>): seq<Step>
    requires Consistent(s)
  {
    (if round.received.Some? then [Take] else []) + Expires(due)
    + if E.Next(s, E.Received(round)) == E.Proceed && !E.Stays(config, s, round) then [Quit] else []
  }

  /** What the channel gave is what was at its head. */
  predicate AtHead(s: Sys, round: E.Round) {
    round.received.Some? ==> s.actions != [] && round.received.value == s.actions[0]
  }

  function Behind(s: Sys, round: E.Round): seq<Action>
    requires AtHead(s, round)
  {
    if round.received.Some? then s.actions[1..] else s.actions
  }

  lemma TakeRuns(s: Sys)
    requires s.phase == Running && Consistent(s.loop) && s.actions != [] && !s.actions[0].Shutdown?
    ensures var t := End(s, [Take]);
            && Runs(s, [Take]) && t.loop == Handle(s.loop, s.actions[0]).0 && t.phase == Running
            && t.actions == s.actions[1..] && t.events == s.events + Handle(s.loop, s.actions[0]).1
            && t.workers == s.workers
  {
    hide Handle;
    Single(s, Take);
  }

  lemma TakeShutdown(s: Sys)
    requires s.phase == Running && Consistent(s.loop) && s.actions != [] && s.actions[0].Shutdown?
    ensures var t := End(s, [Take]);
            && Runs(s, [Take]) && t.loop == EMPTY && t.phase == Closing(|s.workers|)
            && t.actions == s.actions[1..] && t.events == s.events && t.workers == s.workers
  {
    Single(s, Take);
  }

  lemma QuitRuns(s: Sys)
    requires s.phase == Running && s.loop.active == {}
    ensures var t := End(s, [Quit]);
            && Runs(s, [Quit]) && t.loop == EMPTY && t.phase == Closing(|s.workers|)
            && t.actions == s.actions && t.events == s.events && t.workers == s.workers
  {
    Single(s, Quit);
  }

  /** A turn up to the test for an empty system, for anything but a Shutdown. */
  lemma TurnUpToQuit(config: E.Config, s: Sys, round: E.Round, due: seq<Entry>, after: multiset<Entry>)
    requires s.phase == Running && Consistent(s.loop) && AtHead(s, round) && !E.Received(round).Shutdown?
    requires E.TurnDrains(config, s.loop, round, due, after)
    ensures var a, steps := E.Received(round), (if round.received.Some? then [Take] else []) + Expires(due);
            && Runs(s, steps)
            && var t := End(s, steps);
            && t.loop == Handle(s.loop, a).0.(tasks := after) && t.phase == Running
            && t.events == s.events + Handle(s.loop, a).1 && t.workers == s.workers
            && Plains(t.actions) == Plains(Behind(s, round)) + Plains(E.Requeued(due))
  {
    hide Handle, Runs, End, InTurn, E.TurnDrains, E.Requeued;
    DrainedInTurn(config, s.loop, round, due, after);
    if round.received.Some? {
      TakeRuns(s);
      DrainIsRun(End(s, [Take]), due, after);
      RunsOn(s, [Take], Expires(due));
    } else {
      NothingHandled(s.loop);
      DrainIsRun(s, due, after);
      assert [] + Expires(due) == Expires(due);
      assert s.events + [] == s.events;
    }
  }

  lemma NothingHandled(s: State)
    requires Consistent(s)
    ensures Handle(s, Metrics) == (s, []) && Handle(s, Action.Shutdown) == (s, [])
  {
  }

  /**
   A turn of the loop, on the head of the action channel or on a time-out, is a run of the system: to the tables, heap,
   events and posted messages of the turn if the loop stays, and to the end of the loop if it leaves.
   */
  lemma TurnIsRun(config: E.Config, s: Sys, round: E.Round, due: seq<Entry>, after: multiset<Entry>)
    requires s.phase == Running && Consistent(s.loop) && AtHead(s, round)
    requires E.TurnDrains(config, s.loop, round, due, after)
    ensures Runs(s, Steps(config, s.loop, round, due))
    ensures var t, a := End(s, Steps(config, s.loop, round, due)), E.Received(round);
            && t.events == s.events + Handle(s.loop, a).1 && t.workers == s.workers
            && Plains(t.actions) == Plains(Behind(s, round)) + Plains(E.Requeued(due))
            && (E.Stays(config, s.loop, round) ==>
                  t.loop == Handle(s.loop, a).0.(tasks := after) && t.phase == Running)
            && (!E.Stays(config, s.loop, round) ==> t.loop == EMPTY && t.phase == Closing(|s.workers|))
  {
    hide Handle, Runs, End, E.Requeued, E.Drained, Behind;
    var steps := (if round.received.Some? then [Take] else []) + Expires(due);
    if E.Received(round).Shutdown? {
      NothingHandled(s.loop);
      TakeShutdown(s);
      ShutdownSteps(config, s, round, due);
    } else {
      TurnUpToQuit(config, s, round, due, after);
      if E.Next(s.loop, E.Received(round)) == E.Proceed && !E.Stays(config, s.loop, round) {
        QuitRuns(End(s, steps));
        RunsOn(s, steps, [Quit]);
      } else {
        assert steps + [] == steps;
      }
    }
  }

  lemma ShutdownSteps(config: E.Config, s: Sys, round: E.Round, due: seq<Entry>)
    requires Consistent(s.loop) && AtHead(s, round) && E.Received(round).Shutdown? && due == []
    ensures Steps(config, s.loop, round, due) == [Take]
    ensures Plains(Behind(s, round)) + Plains(E.Requeued(due)) == Plains(s.actions[1..])
    ensures s.events + [] == s.events
  {
    assert Expires([]) == [];
    assert Plains(E.Requeued([])) == [];
  }

  // --- Any number of turns, with the other threads in between --------------------------------------------------------

  /** What the other threads do before a turn, and the turn. */
  datatype Lap = Lap(others: seq<Step>, round: E.Round, due: seq<Entry>, after: multiset<Entry>)

  predicate OfOthers(step: Step) {
    !step.Take? && !step.Expire? && !step.Quit? && !step.Token?
  }

  function RoundsOf(laps: seq<Lap>): (rounds: seq<E.Round>)
    ensures |rounds| == |laps|
  {
    if laps == [] then [] else RoundsOf(laps[..|laps| - 1]) + [laps[|laps| - 1].round]
  }

  function AllSteps(config: E.Config, laps: seq<Lap>): seq<Step> {
    if laps == [] then []
    else
      var past, last := laps[..|laps| - 1], laps[|laps| - 1];
      AllSteps(config, past) + (last.others + Steps(config, E.Tables(RoundsOf(past)), last.round, last.due))
  }

  /** The other threads may act, the channel has the action at its head, and the heap is drained as the loop does. */
  predicate LapFits(config: E.Config, t: Sys, lap: Lap) {
    && Runs(t, lap.others)
    && (forall i :: 0 <= i < |lap.others| ==> OfOthers(lap.others[i]))
    && var u := End(t, lap.others);
    && AtHead(u, lap.round) && Consistent(u.loop) && E.TurnDrains(config, u.loop, lap.round, lap.due, lap.after)
  }

  predicate Fits(config: E.Config, s: Sys, laps: seq<Lap>) {
    laps == [] ||
    var past := laps[..|laps| - 1];
    && Fits(config, s, past) && !E.Left(config, RoundsOf(past)) && Runs(s, AllSteps(config, past))
    && LapFits(config, End(s, AllSteps(config, past)), laps[|laps| - 1])
  }

  lemma OtherStep(s: Sys, step: Step)
    requires Enabled(s, step) && OfOthers(step)
    ensures Apply(s, step).loop == s.loop && Apply(s, step).phase == s.phase
    ensures |Apply(s, step).workers| == |s.workers|
  {
    hide Handle;
    if step.Post? || step.Emit? {
      OtherSend(s, step);
    }
  }

  lemma OtherSend(s: Sys, step: Step)
    requires Enabled(s, step) && (step.Post? || step.Emit?)
    ensures Apply(s, step).loop == s.loop && Apply(s, step).phase == s.phase && Apply(s, step).workers == s.workers
  {
  }

  lemma {:induction false} OtherSteps(s: Sys, steps: seq<Step>)
    requires Runs(s, steps) && forall i :: 0 <= i < |steps| ==> OfOthers(steps[i])
    ensures End(s, steps).loop == s.loop && End(s, steps).phase == s.phase
    ensures |End(s, steps).workers| == |s.workers|
    decreases |steps|
  {
    hide Enabled, Apply;
    if steps != [] {
      OtherStep(s, steps[0]);
      OtherSteps(Apply(s, steps[0]), steps[1..]);
    }
  }

  lemma StepsOnTables(config: E.Config, s: State, s': State, round: E.Round, due: seq<Entry>)
    requires Consistent(s) && Consistent(s') && SameTables(s, s')
    ensures Steps(config, s, round, due) == Steps(config, s', round, due)
  {
    E.CountedOnTables(config, E.ZERO, s, s', round);
  }

  lemma LapIsRun(config: E.Config, s: Sys, rounds: seq<E.Round>, lap: Lap)
    requires s.phase == Running && SameTables(s.loop, E.Tables(rounds)) && LapFits(config, s, lap)
    ensures var steps, all := lap.others + Steps(config, E.Tables(rounds), lap.round, lap.due), rounds + [lap.round];
            && Runs(s, steps)
            && (!E.Left(config, all) ==>
                  && SameTables(End(s, steps).loop, E.Tables(all)) && End(s, steps).loop.tasks == lap.after
                  && End(s, steps).phase == Running)
            && (E.Left(config, all) ==> End(s, steps).loop == EMPTY && End(s, steps).phase == Closing(|s.workers|))
            && |End(s, steps).workers| == |s.workers|
  {
    hide Handle, Runs, End, E.TurnDrains, E.Tables, E.Requeued, IdleEmpty, Steps, E.Stays;
    var u, all := End(s, lap.others), rounds + [lap.round];
    OtherSteps(s, lap.others);
    TurnIsRun(config, u, lap.round, lap.due, lap.after);
    StepsOnTables(config, u.loop, E.Tables(rounds), lap.round, lap.due);
    RunsOn(s, lap.others, Steps(config, u.loop, lap.round, lap.due));
    assert all[..|rounds|] == rounds && all[..|rounds| + 1] == all;
    E.GoodOnTables(E.Tables(rounds), u.loop);
    E.RoundExtends(config, all, |rounds|, u.loop);
    E.CountedOnTables(config, E.ZERO, u.loop, E.Tables(rounds), lap.round);
  }

  /**
   However many turns the loop has made, with whatever the other threads did in between, it is a run of the system, and
   the tables and the heap of the system are those of the loop; when the loop has left, the system is closing.
   */
  lemma {:induction false} LapsAreRun(config: E.Config, s: Sys, laps: seq<Lap>)
    requires Init(s) && Fits(config, s, laps)
    ensures Runs(s, AllSteps(config, laps))
    ensures var t, rounds := End(s, AllSteps(config, laps)), RoundsOf(laps);
            && (!E.Left(config, rounds) ==>
                  && t.phase == Running && SameTables(t.loop, E.Tables(rounds))
                  && t.loop.tasks == if laps == [] then multiset{} else laps[|laps| - 1].after)
            && (E.Left(config, rounds) ==> t.phase == Closing(|s.workers|) && t.loop == EMPTY)
            && |t.workers| == |s.workers|
  {
    if laps == [] {
      assert E.Tables([]) == EMPTY;
    } else {
      hide Runs, End, E.Tables, LapFits, Init, E.Left, Steps;
      var past, last := laps[..|laps| - 1], laps[|laps| - 1];
      LapsAreRun(config, s, past);
      LapIsRun(config, End(s, AllSteps(config, past)), RoundsOf(past), last);
      RunsOn(s, AllSteps(config, past), last.others + Steps(config, E.Tables(RoundsOf(past)), last.round, last.due));
    }
  }
}
