/** What a run of the event loop comes to, said in its rounds and tables alone (src/core.rs). */
module LoopLaws {
  import opened Wrappers
  import opened Api
  import opened Scheduler
  import opened EventLoop

  /** A round that gave back an actor that failed, at an address that was registered then. */
  predicate FailedReturn(s: State, round: Round) {
    && round.received.Some? && round.received.value.Return?
    && !round.received.value.ok && round.received.value.tag in s.active
  }

  /** A round that is not cut short, by a Shutdown or by such a failure. */
  predicate GoesOn(s: State, round: Round) {
    round.received != Some(Action.Shutdown) && !FailedReturn(s, round)
  }

  lemma GoesOnIsProceed(s: State, round: Round)
    ensures GoesOn(s, round) <==> Next(s, Received(round)) == Proceed
    ensures FailedReturn(s, round) <==> Next(s, Received(round)) == Again
    ensures round.received == Some(Action.Shutdown) <==> Next(s, Received(round)) == Leave
  {
  }

  // --- When the loop leaves ------------------------------------------------------------------------------------------

  /**
   The loop leaves in a round exactly when that round received a Shutdown, or when it is to end with its last actor and
   nothing is registered after the round, unless the round gave back a failed actor.
   */
  lemma LeftExactlyWhen(config: Config, rounds: seq<Round>)
    requires rounds != []
    ensures var past, last := rounds[..|rounds| - 1], rounds[|rounds| - 1];
            Left(config, rounds) <==>
              last.received == Some(Action.Shutdown) ||
              (config.eagerShutdown && Tables(rounds).active == {} && !FailedReturn(Tables(past), last))
  {
    hide Handle, Tables, Counted, Ledger, LastReset, Resets, Emitted, Taken, FailedReturn;
    var n := |rounds| - 1;
    var past, last := rounds[..n], rounds[n];
    assert rounds[..n + 1] == rounds;
    RoundExtends(config, rounds, n, Tables(past));
    GoesOnIsProceed(Tables(past), last);
  }

  // --- What the counters count ---------------------------------------------------------------------------------------

  datatype Kind =
    | Ticks | Misses | Hits | Messages | Queues | Returns | Spawns | Delays | Stops | Drops | Failures

  /** What a counter counts: the rounds of a kind, by what they received and what was registered then. */
  predicate Is(s: State, round: Round, kind: Kind) {
    var a := Received(round);
    match kind
    case Ticks => GoesOn(s, round)
    case Misses => round.received.None?
    case Hits => round.received.Some?
    case Messages => a.Queue? && a.tag in s.active
    case Queues => a.Queue? && a.tag in s.active
    case Returns => a.Return? && a.ok && a.tag in s.active
    case Spawns => a.Spawn? && a.tag !in s.active
    case Delays => a.Delay?
    case Stops => a.Stop? && a.tag in s.active
    case Drops => ((a.Queue? || a.Stop?) && a.tag !in s.active) || (a.Spawn? && a.tag in s.active)
    case Failures => FailedReturn(s, round)
  }

  function Field(m: Counters, kind: Kind): nat {
    match kind
    case Ticks => m.ticks
    case Misses => m.miss
    case Hits => m.hit
    case Messages => m.messages
    case Queues => m.queues
    case Returns => m.returned
    case Spawns => m.spawns
    case Delays => m.delays
    case Stops => m.stops
    case Drops => m.drops
    case Failures => m.failures
  }

  /** How many rounds from round `from` on are of a kind. */
  function Times(rounds: seq<Round>, from: nat, kind: Kind): nat {
    if |rounds| <= from then 0
    else
      var past := rounds[..|rounds| - 1];
      Times(past, from, kind) + if Is(Tables(past), rounds[|rounds| - 1], kind) then 1 else 0
  }

  lemma NotedOne(m: Counters, s: State, round: Round, kind: Kind)
    requires kind != Ticks
    ensures Field(Noted(m, s, round), kind) == Field(m, kind) + if Is(s, round, kind) then 1 else 0
  {
  }

  lemma TickedOne(m: Counters, s: State, round: Round)
    ensures Noted(m, s, round).ticks == m.ticks
  {
  }

  lemma CountedOne(config: Config, m: Counters, s: State, round: Round, kind: Kind)
    requires Consistent(s)
    ensures Resets(config, s, round) ==> Field(Counted(config, m, s, round), kind) == 0
    ensures !Resets(config, s, round) ==>
              Field(Counted(config, m, s, round), kind) == Field(m, kind) + if Is(s, round, kind) then 1 else 0
  {
    hide Handle, Noted, Count;
    TickedOne(m, s, round);
    GoesOnIsProceed(s, round);
    if kind != Ticks {
      NotedOne(m, s, round, kind);
    }
  }

  /** Over any run every counter is the number of rounds of its kind since the last reset. */
  lemma {:induction false} CountersCount(config: Config, rounds: seq<Round>, kind: Kind)
    ensures Field(Ledger(config, rounds), kind) == Times(rounds, LastReset(config, rounds), kind)
  {
    hide Tables, Counted, Resets, Is, Field;
    if rounds == [] {
      NothingCounted(kind);
    } else {
      var n := |rounds| - 1;
      var past := rounds[..n];
      CountersCount(config, past, kind);
      CountedOne(config, Ledger(config, past), Tables(past), rounds[n], kind);
    }
  }

  lemma NothingCounted(kind: Kind)
    ensures Field(ZERO, kind) == 0
  {
  }

  // --- When they start over, and what is reported --------------------------------------------------------------------

  /** A round at whose end a report goes out. */
  predicate Reporting(config: Config, s: State, round: Round) {
    config.metricReporting && round.elapsed && GoesOn(s, round)
  }

  /** The last reset is the last round, if any, at whose end a report was due and reporting was on. */
  lemma {:induction false} LastResetIs(config: Config, rounds: seq<Round>)
    ensures var r := LastReset(config, rounds);
            && (r > 0 ==> Reporting(config, Tables(rounds[..r - 1]), rounds[r - 1]))
            && forall i :: r <= i < |rounds| ==> !Reporting(config, Tables(rounds[..i]), rounds[i])
  {
    hide Tables, Next, Reporting;
    if rounds != [] {
      var n := |rounds| - 1;
      var past := rounds[..n];
      LastResetIs(config, past);
      ReportingIs(config, Tables(past), rounds[n]);
      var r := LastReset(config, past);
      assert r > 0 ==> past[..r - 1] == rounds[..r - 1];
      forall i | 0 <= i < n ensures past[..i] == rounds[..i] {}
    }
  }

  lemma ReportingIs(config: Config, s: State, round: Round)
    ensures Reporting(config, s, round) == Resets(config, s, round)
  {
    GoesOnIsProceed(s, round);
  }

  /** How many rounds a report is due in. */
  function Due(config: Config, rounds: seq<Round>): nat {
    if rounds == [] then 0
    else
      var past := rounds[..|rounds| - 1];
      Due(config, past) + if Reporting(config, Tables(past), rounds[|rounds| - 1]) then 1 else 0
  }

  /** A round at whose end the reporting interval was over. */
  predicate Elapses(s: State, round: Round) {
    round.elapsed && GoesOn(s, round)
  }

  /** With reporting off, the count of addresses is what it was when the interval was last over, and zero before. */
  lemma {:induction false} ActorsAreThoseOfInterval(config: Config, rounds: seq<Round>, n: nat)
    requires !config.metricReporting && n <= |rounds|
    requires n > 0 ==> Elapses(Tables(rounds[..n - 1]), rounds[n - 1])
    requires forall i :: n <= i < |rounds| ==> !Elapses(Tables(rounds[..i]), rounds[i])
    ensures Ledger(config, rounds).actors == if n == 0 then 0 else |Tables(rounds[..n]).active|
  {
    hide Tables, Counted, Elapses, Handle, Emitted, Taken, LastReset, Resets;
    if rounds != [] {
      var k := |rounds| - 1;
      var past, last := rounds[..k], rounds[k];
      RoundExtends(config, rounds, k, Tables(past));
      assert rounds[..k + 1] == rounds;
      ActorsOne(config, Ledger(config, past), Tables(past), last);
      if n == |rounds| {
        assert rounds[..n] == rounds;
      } else {
        assert past[..n] == rounds[..n] && (n > 0 ==> past[..n - 1] == rounds[..n - 1]);
        forall i | n <= i < |past| ensures past[i] == rounds[i] && past[..i] == rounds[..i] {}
        assert rounds[..k] == past;
        ActorsAreThoseOfInterval(config, past, n);
      }
    }
  }

  lemma ActorsOne(config: Config, m: Counters, s: State, round: Round)
    requires !config.metricReporting && Consistent(s)
    ensures Counted(config, m, s, round).actors
         == if Elapses(s, round) then |Handle(s, Received(round)).0.active| else m.actors
  {
    hide Handle, Noted, Next;
    GoesOnIsProceed(s, round);
    NotedKeepsActors(m, s, round);
  }

  lemma NotedKeepsActors(m: Counters, s: State, round: Round)
    ensures Noted(m, s, round).actors == m.actors
  {
  }

  /** One report goes out for each of them. */
  lemma {:induction false} ReportsAreDue(config: Config, rounds: seq<Round>)
    ensures |Reports(config, rounds)| == Due(config, rounds)
  {
    hide Tables, Resets, Reporting, Noted, Report;
    if rounds != [] {
      ReportsAreDue(config, rounds[..|rounds| - 1]);
      ReportingIs(config, Tables(rounds[..|rounds| - 1]), rounds[|rounds| - 1]);
    }
  }

  /** And it gives the counts since the report before it, its own round included, and the addresses registered now. */
  lemma ReportSays(config: Config, rounds: seq<Round>, kind: Kind)
    requires rounds != [] && Reporting(config, Tables(rounds[..|rounds| - 1]), rounds[|rounds| - 1])
    ensures var past, reports := rounds[..|rounds| - 1], Reports(config, rounds);
            && reports != []
            && reports[|reports| - 1].actors == |Tables(rounds).active|
            && Field(reports[|reports| - 1], kind) == Times(rounds, LastReset(config, past), kind)
  {
    hide Tables, Noted, Ledger, Next;
    var n := |rounds| - 1;
    var past, last := rounds[..n], rounds[n];
    ReportingIs(config, Tables(past), last);
    CountersCount(config, past, kind);
    TickedOne(Ledger(config, past), Tables(past), last);
    if kind != Ticks {
      NotedOne(Ledger(config, past), Tables(past), last, kind);
    }
  }

  // --- What a drain pops ---------------------------------------------------------------------------------------------

  /** Of all that is on the heap when a turn drains it, exactly what lies at most half the precision ahead is popped. */
  lemma PoppedExactlyWhenDue(config: Config, s: State, round: Round, due: seq<Entry>, after: multiset<Entry>, e: Entry)
    requires Consistent(s) && TurnDrains(config, s, round, due, after) && GoesOn(s, round)
    requires e in s.tasks || round.received == Some(Delay(e))
    ensures e in due <==> 2 * e.at <= 2 * round.now + config.precision
    ensures e in due <==> e !in after
  {
    hide Handle, Drained;
    GoesOnIsProceed(s, round);
    TurnSplitsHeap(config, s, round, due, after);
    assert e in s.tasks + DelayOf(Received(round));
    assert e in multiset(due) + after;
  }
}
