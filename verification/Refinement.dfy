/** The threads and channels of the runtime implement the actor model, whatever their interleaving. */
module Refinement {
  import opened Api
  import opened Counting
  import opened Scheduler
  import opened ActorSystem
  import opened Exclusivity
  import opened Conservation
  import opened ActorModel

  // --- What each step looks like from outside ------------------------------------------------------------------------

  predicate OnItsWay(events: seq<Event>, t: Tag) {
    exists k :: 0 <= k < |events| && events[k].Mail? && events[k].tag == t
  }

  function OnTheirWay(events: seq<Event>): set<Tag> {
    set k | 0 <= k < |events| && events[k].Mail? :: events[k].tag
  }

  function Labels(s: Sys, step: Step): seq<Label>
    requires Enabled(s, step)
  {
    match step
    case Take =>
      if s.phase.Closing? then
        if s.actions[0].Return? then [Discarded(s.actions[0].tag, s.actions[0].actor)] else []
      else TakeLabels(s, s.actions[0])
    case Quit => [Closed(OnTheirWay(s.events))]
    case Pick(_) =>
      (match s.events[0]
       case Mail(t, i, e) => [Began(t, i, e)]
       case Stop(t, i) => [Halted(t, i)]
       case Shutdown => [])
    case GiveBack(w) => [Ended(s.workers[w].tag, s.workers[w].actor, !s.workers[w].failed)]
    case _ => []
  }

  function TakeLabels(s: Sys, a: Action): seq<Label> {
    match a
    case Return(t, i, ok) =>
      if t in s.loop.active then if ok then [] else [Unregistered(t, 0), Buried(t, i)]
      else if ok then [Retired(t, i)] else [Buried(t, i)]
    case Queue(t, e) => if t in s.loop.active then [Accepted(t, e)] else []
    case Spawn(t, i) => if t in s.loop.active then [] else [Registered(t, i)]
    case Stop(t) =>
      if t !in s.loop.active then []
      else if t in s.loop.actors then [Unregistered(t, 0), Retired(t, s.loop.actors[t])]
      else [Unregistered(t, if OnItsWay(s.events, t) then 1 else 0)]
    case Shutdown => [Closed(OnTheirWay(s.events))]
    case _ => []
  }

  function Trace(s: Sys, steps: seq<Step>): seq<Label>
    requires Runs(s, steps)
    decreases |steps|
  {
    if steps == [] then [] else Labels(s, steps[0]) + Trace(Apply(s, steps[0]), steps[1..])
  }

  // --- The simulation relation ---------------------------------------------------------------------------------------

  predicate Shows(w: World, t: Tag, i: Actor, mailbox: seq<Envelope>, turn: Turn) {
    t in w.cells && w.cells[t].actor == i && w.cells[t].mailbox == mailbox && w.cells[t].turn == turn
  }

  ghost predicate SimEvents(s: Sys, w: World) {
    forall k :: 0 <= k < |s.events| && s.events[k].Mail? ==>
      Shows(w, s.events[k].tag, s.events[k].actor, [s.events[k].envelope] + Mailbox(s.loop, s.events[k].tag), Ready)
  }

  ghost predicate SimWorkers(s: Sys, w: World) {
    forall k :: 0 <= k < |s.workers| && s.workers[k].Busy? ==>
      Shows(w, s.workers[k].tag, s.workers[k].actor, Mailbox(s.loop, s.workers[k].tag),
            Turn.Running(s.workers[k].envelope))
  }

  ghost predicate SimActions(s: Sys, w: World) {
    forall k :: 0 <= k < |s.actions| && s.actions[k].Return? ==>
      Shows(w, s.actions[k].tag, s.actions[k].actor, Mailbox(s.loop, s.actions[k].tag),
            if s.actions[k].ok then Ready else Crashed)
  }

  ghost predicate SimIdle(s: Sys, w: World) {
    && (forall t :: t in s.loop.active <==> t in w.cells && w.cells[t].registered)
    && (forall t :: t in s.loop.actors ==> Shows(w, t, s.loop.actors[t], [], Ready))
  }

  ghost predicate SimLeaving(s: Sys, w: World) {
    forall x :: w.leaving[x] == Count(s.events, IsStop(x))
  }

  /** No address of the model is a ghost while the loop runs. */
  ghost predicate SimLive(s: Sys, w: World) {
    s.phase.Running? ==> forall t :: t in w.cells ==> Flight(s, t) + Here(s, t) >= 1
  }

  ghost predicate Sim(s: Sys, w: World) {
    SimIdle(s, w) && SimEvents(s, w) && SimWorkers(s, w) && SimActions(s, w) && SimLeaving(s, w) && SimLive(s, w)
  }

  lemma InitSim(s: Sys)
    requires Init(s)
    ensures Sim(s, NOWHERE)
  {
  }

  // --- Being the only one of an address ------------------------------------------------------------------------------

  lemma AloneBusy(s: Sys, w: nat)
    requires Exclusive(s) && w < |s.workers| && s.workers[w].Busy?
    ensures var t := s.workers[w].tag;
            && t !in s.loop.actors
            && (forall k :: 0 <= k < |s.events| ==> !MailFor(t)(s.events[k]))
            && (forall k :: 0 <= k < |s.actions| ==> !ReturnOf(t)(s.actions[k]))
            && (forall k :: 0 <= k < |s.workers| && k != w ==> !BusyAt(t)(s.workers[k]))
  {
    var t := s.workers[w].tag;
    assert Flight(s, t) + Here(s, t) <= 1;
    CountMember(s.workers, w, BusyAt(t));
    CountZero(s.events, MailFor(t));
    CountZero(s.actions, ReturnOf(t));
    forall k | 0 <= k < |s.workers| && k != w ensures !BusyAt(t)(s.workers[k]) {
      if BusyAt(t)(s.workers[k]) {
        CountTwo(s.workers, if k < w then k else w, if k < w then w else k, BusyAt(t));
      }
    }
  }

  lemma AloneMail(s: Sys, m: nat)
    requires Exclusive(s) && m < |s.events| && s.events[m].Mail?
    ensures var t := s.events[m].tag;
            && t !in s.loop.actors
            && (forall k :: 0 <= k < |s.workers| ==> !BusyAt(t)(s.workers[k]))
            && (forall k :: 0 <= k < |s.actions| ==> !ReturnOf(t)(s.actions[k]))
            && (forall k :: 0 <= k < |s.events| && k != m ==> !MailFor(t)(s.events[k]))
  {
    var t := s.events[m].tag;
    assert Flight(s, t) + Here(s, t) <= 1;
    CountMember(s.events, m, MailFor(t));
    CountZero(s.workers, BusyAt(t));
    CountZero(s.actions, ReturnOf(t));
    forall k | 0 <= k < |s.events| && k != m ensures !MailFor(t)(s.events[k]) {
      if MailFor(t)(s.events[k]) {
        CountTwo(s.events, if k < m then k else m, if k < m then m else k, MailFor(t));
      }
    }
  }

  lemma AloneReturn(s: Sys, r: nat)
    requires Exclusive(s) && r < |s.actions| && s.actions[r].Return?
    ensures var t := s.actions[r].tag;
            && t !in s.loop.actors
            && (forall k :: 0 <= k < |s.workers| ==> !BusyAt(t)(s.workers[k]))
            && (forall k :: 0 <= k < |s.events| ==> !MailFor(t)(s.events[k]))
            && (forall k :: 0 <= k < |s.actions| && k != r ==> !ReturnOf(t)(s.actions[k]))
  {
    var t := s.actions[r].tag;
    assert Flight(s, t) + Here(s, t) <= 1;
    CountMember(s.actions, r, ReturnOf(t));
    CountZero(s.workers, BusyAt(t));
    CountZero(s.events, MailFor(t));
    forall k | 0 <= k < |s.actions| && k != r ensures !ReturnOf(t)(s.actions[k]) {
      if ReturnOf(t)(s.actions[k]) {
        CountTwo(s.actions, if k < r then k else r, if k < r then r else k, ReturnOf(t));
      }
    }
  }

  lemma NoneInFlight(s: Sys, t: Tag)
    requires Flight(s, t) == 0
    ensures (forall k :: 0 <= k < |s.workers| ==> !BusyAt(t)(s.workers[k]))
    ensures (forall k :: 0 <= k < |s.events| ==> !MailFor(t)(s.events[k]))
    ensures (forall k :: 0 <= k < |s.actions| ==> !ReturnOf(t)(s.actions[k]))
  {
    CountZero(s.actions, ReturnOf(t));
    CountZero(s.workers, BusyAt(t));
    CountZero(s.events, MailFor(t));
  }

  // --- One step ------------------------------------------------------------------------------------------------------

  /** The step is allowed in the model, and leads to corresponding states. */
  ghost predicate Simulates(s: Sys, step: Step, w: World)
    requires Enabled(s, step)
  {
    Lives(w, Labels(s, step)) && Sim(Apply(s, step), Fate(w, Labels(s, step)))
  }

  lemma LivesOne(w: World, l: Label)
    requires Allowed(w, l)
    ensures Lives(w, [l]) && Fate(w, [l]) == Follow(w, l)
  {
    assert [l][1..] == [];
  }

  lemma LivesTwo(w: World, a: Label, b: Label)
    requires Allowed(w, a) && Allowed(Follow(w, a), b)
    ensures Lives(w, [a, b]) && Fate(w, [a, b]) == Follow(Follow(w, a), b)
  {
    assert [a, b][1..] == [b];
    LivesOne(Follow(w, a), b);
  }

  /** A step that only moves actors and keeps the addresses of the model keeps the model free of ghosts. */
  lemma LiveKept(s: Sys, step: Step, w: World, w': World)
    requires Enabled(s, step) && Tidy(s) && SimLive(s, w)
    requires step.Take? ==> s.phase.Closing? || s.actions[0].Shutdown?
    requires w'.cells.Keys <= w.cells.Keys
    ensures SimLive(Apply(s, step), w')
  {
    hide Flight, Here, Enabled, Tidy;
    var s' := Apply(s, step);
    if s'.phase.Running? {
      forall t | t in w'.cells ensures Flight(s', t) + Here(s', t) >= 1 {
        OtherStepAt(s, step, t);
        assert t in w.cells;
        SameHere(s, s', t);
      }
    }
  }

  lemma SameHere(s: Sys, s': Sys, t: Tag)
    requires s.loop.actors == s'.loop.actors
    ensures Here(s, t) == Here(s', t)
  {
  }

  /** An action that is no Return does not concern the relation. */
  lemma AppendedSim(s: Sys, s': Sys, a: Action, w: World)
    requires SimIdle(s, w) && SimEvents(s, w) && SimWorkers(s, w) && SimActions(s, w) && SimLeaving(s, w)
    requires SameTables(s.loop, s'.loop) && s'.events == s.events && s'.workers == s.workers
    requires s'.actions == s.actions + [a] && !a.Return?
    ensures SimIdle(s', w) && SimEvents(s', w) && SimWorkers(s', w) && SimActions(s', w) && SimLeaving(s', w)
  {
  }

  lemma SendSim(s: Sys, step: Step, w: World)
    requires Enabled(s, step) && Tidy(s) && (step.Post? || step.Emit? || step.Expire?) && Sim(s, w)
    ensures Simulates(s, step, w)
  {
    hide SimLive, SimIdle, SimEvents, SimWorkers, SimActions, SimLeaving, Tidy, Flight, Here, Apply;
    LiveKept(s, step, w, w);
    var a := SendAppends(s, step);
    AppendedSim(s, Apply(s, step), a, w);
  }

  lemma WorkerSim(s: Sys, step: Step, w: World)
    requires Enabled(s, step) && Tidy(s) && (step.Panic? || step.Stopped? || step.Flushed?) && Sim(s, w)
    ensures Simulates(s, step, w)
  {
    hide SimLive, Tidy, Flight, Here;
    LiveKept(s, step, w, w);
  }

  lemma TokenSim(s: Sys, w: World)
    requires Enabled(s, Token) && Sim(s, w)
    ensures Simulates(s, Token, w)
  {
    forall x ensures Count(Apply(s, Token).events, IsStop(x)) == Count(s.events, IsStop(x)) {
      CountAppend(s.events, Event.Shutdown, IsStop(x));
    }
  }

  lemma PickMailSim(s: Sys, n: nat, w: World)
    requires Enabled(s, Pick(n)) && Tidy(s) && s.events[0].Mail? && Exclusive(PickEvent(s, n)) && Sim(s, w)
    ensures Simulates(s, Pick(n), w)
  {
    hide SimLive, Tidy, Flight, Here, Exclusive;
    var s', e := PickEvent(s, n), s.events[0];
    AloneBusy(s', n);
    var l := Began(e.tag, e.actor, e.envelope);
    assert ([e.envelope] + Mailbox(s.loop, e.tag))[1..] == Mailbox(s.loop, e.tag);
    LivesOne(w, l);
    var w' := Follow(w, l);
    LiveKept(s, Pick(n), w, w');
    forall k | 0 <= k < |s'.events| ensures s'.events[k] == s.events[k + 1] && !MailFor(e.tag)(s'.events[k]) {}
  }

  /** An event that is no Mail is gone from the channel, and nothing else concerns the relation. */
  lemma PickedOther(s: Sys, n: nat, w: World)
    requires Enabled(s, Pick(n)) && !s.events[0].Mail? && Sim(s, w)
    ensures var s' := PickEvent(s, n);
            SimIdle(s', w) && SimEvents(s', w) && SimWorkers(s', w) && SimActions(s', w)
  {
    hide SimLive, SimLeaving;
    var s' := PickEvent(s, n);
    forall k | 0 <= k < |s'.events| ensures s'.events[k] == s.events[k + 1] {}
  }

  lemma PickedStop(s: Sys, n: nat, w: World)
    requires Enabled(s, Pick(n)) && s.events[0].Stop? && SimLeaving(s, w)
    ensures var l := Halted(s.events[0].tag, s.events[0].actor);
            Allowed(w, l) && SimLeaving(PickEvent(s, n), Follow(w, l))
  {
    var x := Instance(s.events[0].tag, s.events[0].actor);
    assert IsStop(x)(s.events[0]);
    assert Count(s.events, IsStop(x)) > 0;
  }

  lemma PickedShutdown(s: Sys, n: nat, w: World)
    requires Enabled(s, Pick(n)) && s.events[0].Shutdown? && SimLeaving(s, w)
    ensures SimLeaving(PickEvent(s, n), w)
  {
  }

  lemma PickOtherSim(s: Sys, n: nat, w: World)
    requires Enabled(s, Pick(n)) && Tidy(s) && !s.events[0].Mail? && Sim(s, w)
    ensures Simulates(s, Pick(n), w)
  {
    hide SimLive, SimIdle, SimEvents, SimWorkers, SimActions, SimLeaving, Tidy, Flight, Here;
    PickedOther(s, n, w);
    var e := s.events[0];
    if e.Stop? {
      PickedStop(s, n, w);
      var w' := Follow(w, Halted(e.tag, e.actor));
      LivesOne(w, Halted(e.tag, e.actor));
      LiveKept(s, Pick(n), w, w');
      SameCells(PickEvent(s, n), w, w');
    } else {
      PickedShutdown(s, n, w);
      LiveKept(s, Pick(n), w, w);
    }
  }

  lemma SameCells(s: Sys, w: World, w': World)
    requires w'.cells == w.cells && SimIdle(s, w) && SimEvents(s, w) && SimWorkers(s, w) && SimActions(s, w)
    ensures SimIdle(s, w') && SimEvents(s, w') && SimWorkers(s, w') && SimActions(s, w')
  {
  }

  lemma GiveBackSim(s: Sys, n: nat, w: World)
    requires Enabled(s, GiveBack(n)) && Tidy(s) && Exclusive(Apply(s, GiveBack(n))) && Sim(s, w)
    ensures Simulates(s, GiveBack(n), w)
  {
    hide SimLive, Tidy, Flight, Here, Exclusive;
    var s', b := Apply(s, GiveBack(n)), s.workers[n];
    AloneReturn(s', |s.actions|);
    var l := Ended(b.tag, b.actor, !b.failed);
    LivesOne(w, l);
    LiveKept(s, GiveBack(n), w, Follow(w, l));
  }

  // --- The loop takes an action --------------------------------------------------------------------------------------

  predicate Takes(s: Sys) {
    Enabled(s, Take) && s.phase.Running? && !s.actions[0].Shutdown?
  }

  lemma LiveTaken(s: Sys, w: World, w': World)
    requires Takes(s) && Tidy(s) && SimLive(s, w)
    requires forall t :: t in w'.cells ==> t in w.cells || Registers(s.loop, s.actions[0], t)
    requires forall t :: t in w'.cells ==> !Removes(s.loop, s.actions[0], t) || t in TakeAction(s).loop.active
    ensures SimLive(TakeAction(s), w')
  {
    hide Flight, Here, Handle, Dropped, Removes;
    var s' := TakeAction(s);
    forall t | t in w'.cells ensures Flight(s', t) + Here(s', t) >= 1 {
      TakeAt(s, t);
    }
  }

  lemma StopsAfter(s: Sys, more: seq<Event>, w: World, w': World)
    requires SimLeaving(s, w) && |more| <= 1
    requires w'.leaving == w.leaving + if more != [] && more[0].Stop?
                                       then multiset{Instance(more[0].tag, more[0].actor)} else multiset{}
    ensures forall x :: w'.leaving[x] == Count(s.events + more, IsStop(x))
  {
    forall x ensures w'.leaving[x] == Count(s.events + more, IsStop(x)) {
      if more == [] {
        assert s.events + more == s.events;
      } else {
        assert more == [more[0]];
        CountAppend(s.events, more[0], IsStop(x));
      }
    }
  }

  lemma QueuedToIdle(s: Sys, w: World)
    requires Takes(s) && s.actions[0].Queue? && Good(s.loop) && Exclusive(TakeAction(s)) && Sim(s, w)
    requires s.actions[0].tag in s.loop.active && s.actions[0].tag in s.loop.actors
    ensures var l := Accepted(s.actions[0].tag, s.actions[0].envelope);
            && Allowed(w, l)
            && SimIdle(TakeAction(s), Follow(w, l)) && SimEvents(TakeAction(s), Follow(w, l))
            && SimWorkers(TakeAction(s), Follow(w, l)) && SimActions(TakeAction(s), Follow(w, l))
  {
    hide SimLive, SimLeaving, Exclusive, Dropped;
    var s', t, e := TakeAction(s), s.actions[0].tag, s.actions[0].envelope;
    assert s.loop.queue[t] == [] && s.loop.queue[t] + [e] == [e] && [e][1..] == [];
    assert [e] + [] == [e];
    AloneMail(s', |s.events|);
  }

  lemma QueueToIdle(s: Sys, w: World)
    requires Takes(s) && s.actions[0].Queue? && Tidy(s) && Exclusive(TakeAction(s)) && Sim(s, w)
    requires s.actions[0].tag in s.loop.active && s.actions[0].tag in s.loop.actors
    ensures Simulates(s, Take, w)
  {
    QueuedToIdle(s, w);
    hide SimLive, SimLeaving, SimIdle, SimEvents, SimWorkers, SimActions, Flight, Here, Exclusive, Dropped;
    var l := Accepted(s.actions[0].tag, s.actions[0].envelope);
    LivesOne(w, l);
    LiveTaken(s, w, Follow(w, l));
    LeavingTaken(s, w, Follow(w, l));
  }

  lemma QueuedToBusy(s: Sys, w: World)
    requires Takes(s) && s.actions[0].Queue? && Good(s.loop) && Sim(s, w)
    requires s.actions[0].tag in s.loop.active && s.actions[0].tag !in s.loop.actors
    ensures var l := Accepted(s.actions[0].tag, s.actions[0].envelope);
            && Allowed(w, l)
            && SimIdle(TakeAction(s), Follow(w, l)) && SimEvents(TakeAction(s), Follow(w, l))
            && SimWorkers(TakeAction(s), Follow(w, l)) && SimActions(TakeAction(s), Follow(w, l))
  {
    hide SimLive, SimLeaving, Dropped;
    var t, e := s.actions[0].tag, s.actions[0].envelope;
    forall q ensures [q] + (Mailbox(s.loop, t) + [e]) == ([q] + Mailbox(s.loop, t)) + [e] {}
  }

  lemma QueueToBusy(s: Sys, w: World)
    requires Takes(s) && s.actions[0].Queue? && Tidy(s) && Sim(s, w)
    requires s.actions[0].tag in s.loop.active && s.actions[0].tag !in s.loop.actors
    ensures Simulates(s, Take, w)
  {
    QueuedToBusy(s, w);
    hide SimLive, SimLeaving, SimIdle, SimEvents, SimWorkers, SimActions, Flight, Here, Dropped;
    var l := Accepted(s.actions[0].tag, s.actions[0].envelope);
    LivesOne(w, l);
    LiveTaken(s, w, Follow(w, l));
    LeavingTaken(s, w, Follow(w, l));
  }

  /** Who is to be stopped, when an action sends at most one event. */
  lemma LeavingTaken(s: Sys, w: World, w': World)
    requires Takes(s) && SimLeaving(s, w) && Good(s.loop)
    requires var events := Handle(s.loop, s.actions[0]).1;
             w'.leaving == w.leaving + if events != [] && events[0].Stop?
                                       then multiset{Instance(events[0].tag, events[0].actor)} else multiset{}
    ensures SimLeaving(TakeAction(s), w')
  {
    hide Handle, Dropped;
    HandleMail(s.loop, s.actions[0], Tag(""));
    StopsAfter(s, Handle(s.loop, s.actions[0]).1, w, w');
  }

  lemma SpawnSim(s: Sys, w: World)
    requires Takes(s) && s.actions[0].Spawn? && Tidy(s) && Exclusive(s) && Safe(s, Take) && Sim(s, w)
    ensures Simulates(s, Take, w)
  {
    hide SimLive, SimLeaving, Flight, Here, Dropped;
    var s', t, i := TakeAction(s), s.actions[0].tag, s.actions[0].actor;
    LeavingTaken(s, w, w);
    if t in s.loop.active {
      LiveTaken(s, w, w);
    } else {
      NoGhost(s, w, t);
      NoneInFlight(s, t);
      LivesOne(w, Registered(t, i));
      var w' := Follow(w, Registered(t, i));
      LiveTaken(s, w, w');
      LeavingTaken(s, w, w');
    }
  }

  lemma NoGhost(s: Sys, w: World, t: Tag)
    requires SimLive(s, w) && s.phase.Running? && Flight(s, t) == 0 && t !in s.loop.active && Exclusive(s)
    ensures t !in w.cells
  {
  }

  lemma ReturnOkSim(s: Sys, w: World)
    requires Takes(s) && s.actions[0].Return? && s.actions[0].ok && s.actions[0].tag in s.loop.active
    requires Tidy(s) && Exclusive(s) && Sim(s, w)
    ensures Simulates(s, Take, w)
  {
    hide SimLive, SimLeaving, Flight, Here, Dropped, Exclusive;
    AloneReturn(s, 0);
    LiveTaken(s, w, w);
    LeavingTaken(s, w, w);
    var box := s.loop.queue[s.actions[0].tag];
    if box != [] {
      assert box == [box[0]] + box[1..];
    }
  }

  lemma ReturnedFailed(s: Sys, w: World)
    requires Takes(s) && s.actions[0].Return? && !s.actions[0].ok && s.actions[0].tag in s.loop.active
    requires Good(s.loop) && Exclusive(s) && Sim(s, w)
    ensures var l, m := Unregistered(s.actions[0].tag, 0), Buried(s.actions[0].tag, s.actions[0].actor);
            && Allowed(w, l) && Allowed(Follow(w, l), m)
            && var w' := Follow(Follow(w, l), m);
            && SimIdle(TakeAction(s), w') && SimEvents(TakeAction(s), w')
            && SimWorkers(TakeAction(s), w') && SimActions(TakeAction(s), w')
  {
    hide SimLive, SimLeaving, Exclusive, Dropped;
    AloneReturn(s, 0);
  }

  lemma ReturnFailedSim(s: Sys, w: World)
    requires Takes(s) && s.actions[0].Return? && !s.actions[0].ok && s.actions[0].tag in s.loop.active
    requires Tidy(s) && Exclusive(s) && Sim(s, w)
    ensures Simulates(s, Take, w)
  {
    ReturnedFailed(s, w);
    hide SimLive, SimLeaving, SimIdle, SimEvents, SimWorkers, SimActions, Flight, Here, Dropped, Exclusive;
    var t, i := s.actions[0].tag, s.actions[0].actor;
    LivesTwo(w, Unregistered(t, 0), Buried(t, i));
    var w' := Follow(Follow(w, Unregistered(t, 0)), Buried(t, i));
    LiveTaken(s, w, w');
    LeavingTaken(s, w, w');
  }

  lemma ReturnLateSim(s: Sys, w: World)
    requires Takes(s) && s.actions[0].Return? && s.actions[0].tag !in s.loop.active && s.actions[0].ok
    requires Tidy(s) && Exclusive(s) && Sim(s, w)
    ensures Simulates(s, Take, w)
  {
    hide SimLive, SimLeaving, Flight, Here, Dropped, Exclusive;
    var t, i := s.actions[0].tag, s.actions[0].actor;
    AloneReturn(s, 0);
    LivesOne(w, Retired(t, i));
    LiveTaken(s, w, Follow(w, Retired(t, i)));
    LeavingTaken(s, w, Follow(w, Retired(t, i)));
  }

  lemma ReturnLateFailedSim(s: Sys, w: World)
    requires Takes(s) && s.actions[0].Return? && s.actions[0].tag !in s.loop.active && !s.actions[0].ok
    requires Tidy(s) && Exclusive(s) && Sim(s, w)
    ensures Simulates(s, Take, w)
  {
    hide SimLive, SimLeaving, Flight, Here, Dropped, Exclusive;
    var t, i := s.actions[0].tag, s.actions[0].actor;
    AloneReturn(s, 0);
    LivesOne(w, Buried(t, i));
    LiveTaken(s, w, Follow(w, Buried(t, i)));
    LeavingTaken(s, w, Follow(w, Buried(t, i)));
  }

  lemma StopIdleSim(s: Sys, w: World)
    requires Takes(s) && s.actions[0].Stop? && s.actions[0].tag in s.loop.active && s.actions[0].tag in s.loop.actors
    requires Tidy(s) && Exclusive(s) && Sim(s, w)
    ensures Simulates(s, Take, w)
  {
    hide SimLive, SimLeaving, Flight, Here, Dropped, Exclusive;
    var t := s.actions[0].tag;
    var i := s.loop.actors[t];
    AloneIdle(s, t);
    LivesTwo(w, Unregistered(t, 0), Retired(t, i));
    var w' := Follow(Follow(w, Unregistered(t, 0)), Retired(t, i));
    LiveTaken(s, w, w');
    LeavingTaken(s, w, w');
  }

  lemma AloneIdle(s: Sys, t: Tag)
    requires Exclusive(s) && t in s.loop.actors
    ensures (forall k :: 0 <= k < |s.workers| ==> !BusyAt(t)(s.workers[k]))
    ensures (forall k :: 0 <= k < |s.events| ==> !MailFor(t)(s.events[k]))
    ensures (forall k :: 0 <= k < |s.actions| ==> !ReturnOf(t)(s.actions[k]))
  {
    assert Flight(s, t) + Here(s, t) <= 1;
    NoneInFlight(s, t);
  }

  /** Stopping an actor that is not idle: its mailbox goes, but for a message already sent to the workers. */
  predicate StopsFlying(s: Sys) {
    Takes(s) && s.actions[0].Stop? && s.actions[0].tag in s.loop.active && s.actions[0].tag !in s.loop.actors
  }

  lemma StopFlyingAllowed(s: Sys, w: World, l: Label)
    requires StopsFlying(s) && Exclusive(s) && Sim(s, w)
    requires l == Unregistered(s.actions[0].tag, if OnItsWay(s.events, s.actions[0].tag) then 1 else 0)
    ensures Allowed(w, l)
  {
    hide SimLive, SimLeaving, SimWorkers, SimActions, Exclusive;
  }

  lemma StopFlyingEvents(s: Sys, w: World, l: Label)
    requires StopsFlying(s) && Exclusive(s) && Sim(s, w) && Allowed(w, l)
    requires l == Unregistered(s.actions[0].tag, if OnItsWay(s.events, s.actions[0].tag) then 1 else 0)
    ensures SimEvents(TakeAction(s), Follow(w, l)) && SimIdle(TakeAction(s), Follow(w, l))
  {
    hide SimLive, SimLeaving, SimWorkers, SimActions, Dropped, Exclusive;
    forall k | 0 <= k < |s.events| && s.events[k].Mail? && s.events[k].tag == l.tag ensures l.keep == 1 {}
    forall e, q: seq<Envelope> ensures ([e] + q)[..1] == [e] + [] {}
  }

  lemma StopFlyingOthers(s: Sys, w: World, l: Label)
    requires StopsFlying(s) && Exclusive(s) && Sim(s, w) && Allowed(w, l)
    requires l == Unregistered(s.actions[0].tag, if OnItsWay(s.events, s.actions[0].tag) then 1 else 0)
    ensures SimWorkers(TakeAction(s), Follow(w, l)) && SimActions(TakeAction(s), Follow(w, l))
  {
    hide SimLive, SimLeaving, SimIdle, Dropped, Exclusive;
    if l.keep == 1 {
      var m :| 0 <= m < |s.events| && s.events[m].Mail? && s.events[m].tag == l.tag;
      AloneMail(s, m);
    }
  }

  lemma StopFlyingSim(s: Sys, w: World)
    requires StopsFlying(s) && Tidy(s) && Exclusive(s) && Sim(s, w)
    ensures Simulates(s, Take, w)
  {
    var t := s.actions[0].tag;
    var l := Unregistered(t, if OnItsWay(s.events, t) then 1 else 0);
    StopFlyingAllowed(s, w, l);
    StopFlyingEvents(s, w, l);
    StopFlyingOthers(s, w, l);
    hide SimLive, SimLeaving, SimIdle, SimEvents, SimWorkers, SimActions, Flight, Here, Dropped, Exclusive, OnItsWay;
    LivesOne(w, l);
    var w' := Follow(w, l);
    LiveTaken(s, w, w');
    LeavingTaken(s, w, w');
  }

  lemma NothingSim(s: Sys, w: World)
    requires Takes(s) && Tidy(s) && Exclusive(s) && Sim(s, w)
    requires s.actions[0].Delay? || s.actions[0].Logs? || s.actions[0].Metrics? ||
             ((s.actions[0].Stop? || s.actions[0].Queue?) && s.actions[0].tag !in s.loop.active)
    ensures Simulates(s, Take, w)
  {
    hide SimLive, SimLeaving, Flight, Here, Dropped;
    LiveTaken(s, w, w);
    LeavingTaken(s, w, w);
  }

  // --- The loop is over ----------------------------------------------------------------------------------------------

  predicate Closes(s: Sys, step: Step) {
    Enabled(s, step) && s.phase.Running? && (step.Quit? || (step.Take? && s.actions[0].Shutdown?))
  }

  lemma CloseAllowed(s: Sys, w: World)
    requires Sim(s, w)
    ensures Allowed(w, Closed(OnTheirWay(s.events)))
  {
    hide SimLive, SimLeaving, SimWorkers, SimActions, SimIdle;
    forall t | t in OnTheirWay(s.events) ensures t in w.cells && w.cells[t].turn == Ready && w.cells[t].mailbox != [] {
      var m :| 0 <= m < |s.events| && s.events[m].Mail? && s.events[m].tag == t;
    }
  }

  lemma CloseEvents(s: Sys, step: Step, w: World)
    requires Closes(s, step) && Sim(s, w) && Allowed(w, Closed(OnTheirWay(s.events)))
    ensures var w' := Follow(w, Closed(OnTheirWay(s.events)));
            SimEvents(Apply(s, step), w') && SimIdle(Apply(s, step), w') && SimLeaving(Apply(s, step), w')
  {
    hide SimLive, SimWorkers, SimActions;
    forall m | 0 <= m < |s.events| && s.events[m].Mail?
      ensures s.events[m].tag in OnTheirWay(s.events)
      ensures ([s.events[m].envelope] + Mailbox(s.loop, s.events[m].tag))[..1] == [s.events[m].envelope] + []
    {
    }
  }

  lemma CloseOthers(s: Sys, step: Step, w: World)
    requires Closes(s, step) && Exclusive(s) && Sim(s, w) && Allowed(w, Closed(OnTheirWay(s.events)))
    ensures var w' := Follow(w, Closed(OnTheirWay(s.events)));
            SimWorkers(Apply(s, step), w') && SimActions(Apply(s, step), w')
  {
    hide SimLive, SimLeaving, SimEvents, SimIdle, Exclusive;
    var gone := OnTheirWay(s.events);
    forall k | 0 <= k < |s.workers| && s.workers[k].Busy? ensures s.workers[k].tag !in gone {
      AloneBusy(s, k);
    }
    forall k | 0 <= k < |s.actions| && s.actions[k].Return? ensures s.actions[k].tag !in gone {
      AloneReturn(s, k);
    }
  }

  lemma CloseSim(s: Sys, step: Step, w: World)
    requires Closes(s, step) && Tidy(s) && Exclusive(s) && Sim(s, w)
    ensures Simulates(s, step, w)
  {
    CloseAllowed(s, w);
    CloseEvents(s, step, w);
    CloseOthers(s, step, w);
    hide SimLive, SimLeaving, SimIdle, SimEvents, SimWorkers, SimActions, Flight, Here, Exclusive, OnTheirWay, Tidy;
    LivesOne(w, Closed(OnTheirWay(s.events)));
    LiveKept(s, step, w, Follow(w, Closed(OnTheirWay(s.events))));
  }

  lemma DrainSim(s: Sys, w: World)
    requires Enabled(s, Take) && s.phase.Closing? && Tidy(s) && Exclusive(s) && Sim(s, w)
    ensures Simulates(s, Take, w)
  {
    hide SimLive, Flight, Here, Exclusive;
    var a := s.actions[0];
    if a.Return? {
      AloneReturn(s, 0);
      LivesOne(w, Discarded(a.tag, a.actor));
      LiveKept(s, Take, w, Follow(w, Discarded(a.tag, a.actor)));
    } else {
      LiveKept(s, Take, w, w);
    }
  }

  // --- Any step, any run ---------------------------------------------------------------------------------------------

  lemma TakeSim(s: Sys, w: World)
    requires Takes(s) && Tidy(s) && Exclusive(s) && Exclusive(TakeAction(s)) && Safe(s, Take) && Sim(s, w)
    ensures Simulates(s, Take, w)
  {
    hide Simulates, Sim, Exclusive, Safe, TakeAction;
    match s.actions[0]
    case Queue(t, _) =>
      if t !in s.loop.active {
        NothingSim(s, w);
      } else if t in s.loop.actors {
        QueueToIdle(s, w);
      } else {
        QueueToBusy(s, w);
      }
    case Spawn(_, _) => SpawnSim(s, w);
    case Return(t, _, ok) =>
      if t in s.loop.active {
        if ok { ReturnOkSim(s, w); } else { ReturnFailedSim(s, w); }
      } else {
        if ok { ReturnLateSim(s, w); } else { ReturnLateFailedSim(s, w); }
      }
    case Stop(t) =>
      if t !in s.loop.active {
        NothingSim(s, w);
      } else if t in s.loop.actors {
        StopIdleSim(s, w);
      } else {
        StopFlyingSim(s, w);
      }
    case _ => NothingSim(s, w);
  }

  lemma StepSim(s: Sys, step: Step, w: World)
    requires Enabled(s, step) && Tidy(s) && Exclusive(s) && Exclusive(Apply(s, step)) && Safe(s, step) && Sim(s, w)
    ensures Simulates(s, step, w)
  {
    hide Simulates, Sim, Exclusive, Safe, TakeAction, PickEvent, Close, Send;
    match step
    case Take =>
      if s.phase.Closing? {
        DrainSim(s, w);
      } else if s.actions[0].Shutdown? {
        CloseSim(s, step, w);
      } else {
        TakeSim(s, w);
      }
    case Quit => CloseSim(s, step, w);
    case Token => TokenSim(s, w);
    case Pick(n) => if s.events[0].Mail? { PickMailSim(s, n, w); } else { PickOtherSim(s, n, w); }
    case GiveBack(n) => GiveBackSim(s, n, w);
    case Post(_) => SendSim(s, step, w);
    case Emit(_, _) => SendSim(s, step, w);
    case Expire(_) => SendSim(s, step, w);
    case _ => WorkerSim(s, step, w);
  }

  /** Every safe run of the runtime, step by step, is a life of the model. */
  lemma {:induction false} RunSim(s: Sys, steps: seq<Step>, w: World)
    requires Runs(s, steps) && Tidy(s) && Exclusive(s) && AlwaysSafe(s, steps) && Sim(s, w)
    ensures Lives(w, Trace(s, steps)) && Sim(End(s, steps), Fate(w, Trace(s, steps)))
    decreases |steps|
  {
    if steps != [] {
      hide Enabled, Apply, Labels, Sim, Exclusive, Safe, Tidy;
      var step := steps[0];
      StepExclusive(s, step);
      StepTidy(s, step);
      StepSim(s, step, w);
      var w' := Fate(w, Labels(s, step));
      RunSim(Apply(s, step), steps[1..], w');
      LivesOn(w, Labels(s, step), Trace(Apply(s, step), steps[1..]));
    }
  }

  lemma RuntimeRefinesModel(s: Sys, steps: seq<Step>)
    requires Init(s) && Runs(s, steps) && AlwaysSafe(s, steps)
    ensures Lives(NOWHERE, Trace(s, steps)) && Sim(End(s, steps), Fate(NOWHERE, Trace(s, steps)))
  {
    InitExclusive(s);
    InitSim(s);
    RunSim(s, steps, NOWHERE);
  }

  /**
   So what the model guarantees, the runtime keeps: per registration, messages are handled in the order the loop
   accepted them, none twice and none left out before a later one, by the registered actor only, one at a time.
   */
  lemma RuntimeGuarantees(s: Sys, steps: seq<Step>, t: Tag)
    requires Init(s) && Runs(s, steps) && AlwaysSafe(s, steps)
    ensures var story := StoryOf(Trace(s, steps), t);
            story.begun <= story.accepted && 0 <= story.open <= 1 && story.late <= 1 && story.strangers == 0
  {
    RuntimeRefinesModel(s, steps);
    ModelGuarantees(Trace(s, steps), t);
  }
}
