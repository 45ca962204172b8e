/** The event loop as the object it is: tables, heap, counters and an adaptive timeout, updated in place. */
module EventLoop {
  import opened Wrappers
  import opened Api
  import opened Scheduler

  datatype Counters = Counters(
    ticks: nat, miss: nat, hit: nat, messages: nat, queues: nat, returned: nat,
    spawns: nat, delays: nat, stops: nat, drops: nat, failures: nat, actors: nat
  )

  const ZERO := Counters(0, 0, 0, 0, 0, 0, 0, 0, 0, 0, 0, 0)

  const MIN_TIMEOUT: nat := 1
  const MAX_TIMEOUT: nat := 256

  /** The part of `SchedulerConfig` the loop branches on; durations are in nanoseconds. */
  datatype Config = Config(precision: nat, metricReporting: bool, eagerShutdown: bool)

  /** One turn as its surroundings decide it: what the channel gave, the clock, and whether a report is due. */
  datatype Round = Round(received: Option<Action>, now: nat, elapsed: bool)

  datatype Control = Proceed | Again | Leave

  // --- The order of the delay heap -----------------------------------------------------------------------------------

  datatype Ordering = Less | Equal | Greater

  /** `Entry::cmp`: the comparison of the times, reversed. */
  function Compare(a: Entry, b: Entry): Ordering {
    if a.at < b.at then Greater else if a.at == b.at then Equal else Less
  }

  /** What `BinaryHeap::peek` may show: an element no other compares greater than. */
  predicate Top(e: Entry, heap: multiset<Entry>) {
    e in heap && forall o :: o in heap ==> Compare(o, e) != Greater
  }

  lemma {:induction false} TopExists(heap: multiset<Entry>)
    requires heap != multiset{}
    ensures exists e :: Top(e, heap)
    decreases |heap|
  {
    var x :| x in heap;
    var rest := heap - multiset{x};
    if rest == multiset{} {
      assert heap == multiset{x};
      assert Top(x, heap);
    } else {
      TopExists(rest);
      var y :| Top(y, rest);
      forall o | o in heap ensures o == x || o in rest {}
      assert Top(if x.at <= y.at then x else y, heap);
    }
  }

  predicate SortedByTime(q: seq<Entry>) {
    forall i, j :: 0 <= i < j < |q| ==> q[i].at <= q[j].at
  }

  /** The `Queue` actions the loop posts to itself for the entries it pops. */
  function Requeued(due: seq<Entry>): seq<Action> {
    seq(|due|, i requires 0 <= i < |due| => Queue(due[i].tag, due[i].envelope))
  }

  /** What one drain of the heap amounts to: the due part leaves in time order, everything later stays. */
  predicate Drained(before: multiset<Entry>, due: seq<Entry>, after: multiset<Entry>, cutoff: nat) {
    && before == multiset(due) + after
    && SortedByTime(due)
    && (forall e :: e in due ==> e.at <= cutoff)
    && (forall e :: e in after ==> e.at > cutoff)
  }

  /** A drain under way: what was popped so far is due, in time order, and none of it is later than anything left. */
  predicate Popped(before: multiset<Entry>, due: seq<Entry>, rest: multiset<Entry>, cutoff: nat) {
    && before == multiset(due) + rest
    && SortedByTime(due)
    && (forall e :: e in due ==> e.at <= cutoff)
    && (forall e, o :: e in due && o in rest ==> e.at <= o.at)
  }

  lemma NothingPopped(heap: multiset<Entry>, cutoff: nat)
    ensures Popped(heap, [], heap, cutoff)
  {
  }

  lemma AppendLatest(due: seq<Entry>, top: Entry)
    requires SortedByTime(due) && forall e :: e in due ==> e.at <= top.at
    ensures SortedByTime(due + [top])
  {
    forall i | 0 <= i < |due| ensures due[i] in due {}
  }

  lemma PopTop(before: multiset<Entry>, due: seq<Entry>, rest: multiset<Entry>, cutoff: nat, top: Entry)
    requires Popped(before, due, rest, cutoff) && Top(top, rest) && top.at <= cutoff
    ensures Popped(before, due + [top], rest - multiset{top}, cutoff)
    ensures |rest - multiset{top}| < |rest|
    ensures Requeued(due + [top]) == Requeued(due) + [Queue(top.tag, top.envelope)]
  {
    hide SortedByTime, Requeued;
    AppendLatest(due, top);
    RequeuedSplits(due, [top]);
    RequeuedOne(top);
    MovedOver(due, rest, top);
    forall e | e in due + [top] ensures e in due || e == top {}
    forall o | o in rest - multiset{top} ensures o in rest {}
  }

  lemma RequeuedOne(top: Entry)
    ensures Requeued([top]) == [Queue(top.tag, top.envelope)]
  {
  }

  lemma MovedOver(due: seq<Entry>, rest: multiset<Entry>, top: Entry)
    requires top in rest
    ensures multiset(due) + rest == multiset(due + [top]) + (rest - multiset{top})
  {
    assert rest == multiset{top} + (rest - multiset{top});
    assert multiset(due + [top]) == multiset(due) + multiset{top};
  }

  lemma NothingDueLeft(before: multiset<Entry>, due: seq<Entry>, rest: multiset<Entry>, cutoff: nat, top: Option<Entry>)
    requires Popped(before, due, rest, cutoff)
    requires if top.Some? then Top(top.value, rest) && top.value.at > cutoff else rest == multiset{}
    ensures Drained(before, due, rest, cutoff)
  {
  }

  /** Of two entries on the heap together, one of which is popped, the strictly earlier is popped first. */
  lemma EarlierFirst(before: multiset<Entry>, due: seq<Entry>, after: multiset<Entry>, cutoff: nat, x: Entry, y: Entry)
    requires Drained(before, due, after, cutoff)
    requires x in before && y in due && x.at < y.at
    ensures x in due
    ensures forall i, j :: 0 <= i < |due| && 0 <= j < |due| && due[i] == x && due[j] == y ==> i < j
    ensures x !in after
  {
    assert y.at <= cutoff;
    assert x in multiset(due) + after;
  }

  // --- Counters ------------------------------------------------------------------------------------------------------

  function Count(m: Counters, s: State, a: Action): Counters {
    match a
    case Return(t, _, ok) =>
      if t in s.active then
        if ok then m.(returned := m.returned + 1) else m.(failures := m.failures + 1)
      else m
    case Queue(t, _) =>
      if t in s.active then m.(queues := m.queues + 1, messages := m.messages + 1) else m.(drops := m.drops + 1)
    case Spawn(t, _) => if t !in s.active then m.(spawns := m.spawns + 1) else m.(drops := m.drops + 1)
    case Delay(_) => m.(delays := m.delays + 1)
    case Stop(t) => if t in s.active then m.(stops := m.stops + 1) else m.(drops := m.drops + 1)
    case Logs(_) => m
    case Metrics => m
    case Shutdown => m
  }

  function Next(s: State, a: Action): Control {
    if a.Shutdown? then Leave
    else if a.Return? && a.tag in s.active && !a.ok then Again
    else Proceed
  }

  /** The timeout is always a power of two between its two bounds. */
  predicate TimeoutInRange(timeout: nat) {
    timeout in {1, 2, 4, 8, 16, 32, 64, 128, 256}
  }

  /**
   The books at the loop head, relative to the last reset of the counters, when `base` addresses were registered.
   */
  predicate Balanced(m: Counters, active: nat, base: nat) {
    && active + m.stops + m.failures == base + m.spawns
    && m.queues == m.messages
    && m.ticks + m.failures == m.hit + m.miss
    && m.returned + m.queues + m.spawns + m.delays + m.stops + m.drops + m.failures <= m.hit
  }

  /** A timeout leaves the tables as an action without effect does. */
  function Received(round: Round): Action {
    if round.received.Some? then round.received.value else Action.Metrics
  }

  function DelayOf(a: Action): multiset<Entry> {
    if a.Delay? then multiset{a.entry} else multiset{}
  }

  /** The entries that the rounds ask to delay. */
  function Delayed(rounds: seq<Round>): multiset<Entry> {
    if rounds == [] then multiset{}
    else Delayed(rounds[..|rounds| - 1]) + DelayOf(Received(rounds[|rounds| - 1]))
  }

  /** The actions that the rounds took from the channel. */
  function Taken(rounds: seq<Round>): seq<Action> {
    if rounds == [] then []
    else
      var last := rounds[|rounds| - 1].received;
      Taken(rounds[..|rounds| - 1]) + (if last.Some? then [last.value] else [])
  }

  /** The timeout after a received action. */
  function Halved(timeout: nat): nat {
    if MIN_TIMEOUT < timeout / 2 then timeout / 2 else MIN_TIMEOUT
  }

  /** The timeout after a turn without one. */
  function Doubled(timeout: nat): nat {
    if timeout * 2 < MAX_TIMEOUT then timeout * 2 else MAX_TIMEOUT
  }

  /** Waiting halves on a hit and doubles on a miss, and the two undo each other away from the bounds. */
  lemma TimeoutStaysInRange(timeout: nat)
    requires TimeoutInRange(timeout)
    ensures TimeoutInRange(Halved(timeout)) && TimeoutInRange(Doubled(timeout))
    ensures timeout != MIN_TIMEOUT ==> Doubled(Halved(timeout)) == timeout
    ensures timeout != MAX_TIMEOUT ==> Halved(Doubled(timeout)) == timeout
    ensures Halved(timeout) <= timeout <= Doubled(timeout)
  {
  }

  lemma NoneRequeued()
    ensures Requeued([]) == []
  {
  }

  lemma MetricsChangesNothing(s: State, m: Counters)
    requires Consistent(s)
    ensures Handle(s, Action.Metrics) == (s, []) && Next(s, Action.Metrics) == Proceed
  {
  }

  /** What an action does to the number of registered addresses is what the counters say. */
  lemma RegisteredCount(m: Counters, s: State, a: Action)
    requires Consistent(s)
    ensures var m', s' := Count(m, s, a), Handle(s, a).0;
            |s'.active| + m'.stops + m'.failures + m.spawns == |s.active| + m.stops + m.failures + m'.spawns
    ensures Next(s, a) == Again ==> Handle(s, a).0.tasks == s.tasks
    ensures Next(s, a) == Leave ==> Handle(s, a).0 == s
  {
    if a.Return? {
      ReturnCount(m, s, a);
    } else if a.Spawn? || a.Stop? {
      OneLess(s.active, a.tag);
    }
  }

  lemma ReturnCount(m: Counters, s: State, a: Action)
    requires Consistent(s) && a.Return?
    ensures var m', s' := Count(m, s, a), Handle(s, a).0;
            |s'.active| + m'.stops + m'.failures + m.spawns == |s.active| + m.stops + m.failures + m'.spawns
    ensures Next(s, a) == Again ==> Handle(s, a).0.tasks == s.tasks
    ensures Next(s, a) != Leave
  {
    OneLess(s.active, a.tag);
  }

  lemma OneLess<T>(all: set<T>, x: T)
    ensures |all - {x}| + (if x in all then 1 else 0) == |all|
    ensures |all + {x}| == |all| + (if x in all then 0 else 1)
  {
    if x in all {
      assert all + {x} == all == (all - {x}) + {x};
    } else {
      assert all - {x} == all;
    }
  }

  /** A received action keeps the books, once the turn has been counted or cut short by a failure. */
  lemma BooksOfHit(m: Counters, s: State, a: Action, base: nat)
    requires Consistent(s) && Balanced(m, |s.active|, base)
    ensures var m' := Count(m.(hit := m.hit + 1), s, a);
            var s' := Handle(s, a).0;
            && (Next(s, a) == Again ==> Balanced(m', |s'.active|, base) && s'.tasks == s.tasks)
            && (Next(s, a) == Leave ==> s' == s)
            && (Next(s, a) == Proceed ==> Balanced(m'.(ticks := m'.ticks + 1), |s'.active|, base))
  {
    hide Handle;
    RegisteredCount(m.(hit := m.hit + 1), s, a);
  }

  lemma BooksOfMiss(m: Counters, active: nat, base: nat)
    requires Balanced(m, active, base)
    ensures Balanced(m.(miss := m.miss + 1, ticks := m.ticks + 1), active, base)
  {
  }

  lemma BooksOfReset(active: nat)
    ensures Balanced(ZERO, active, active)
  {
  }

  // --- The counters over one turn ------------------------------------------------------------------------------------

  /** The counters when the received action, if there is one, has been handled. */
  function Noted(m: Counters, s: State, round: Round): Counters {
    if round.received.Some? then Count(m.(hit := m.hit + 1), s, round.received.value) else m.(miss := m.miss + 1)
  }

  /** What a report says at the end of a turn. */
  function Report(m: Counters, active: nat): Counters {
    m.(ticks := m.ticks + 1, actors := active)
  }

  function AfterTick(config: Config, m: Counters, active: nat, elapsed: bool): Counters {
    if !elapsed then m.(ticks := m.ticks + 1)
    else if config.metricReporting then ZERO
    else Report(m, active)
  }

  predicate Resets(config: Config, s: State, round: Round) {
    Next(s, Received(round)) == Proceed && round.elapsed && config.metricReporting
  }

  /** The counters after a whole turn. */
  function Counted(config: Config, m: Counters, s: State, round: Round): Counters
    requires Consistent(s)
  {
    if Next(s, Received(round)) != Proceed then Noted(m, s, round)
    else AfterTick(config, Noted(m, s, round), |Handle(s, Received(round)).0.active|, round.elapsed)
  }

  /** Whether the loop goes on after a turn.  A failure skips the test for an empty system. */
  predicate Stays(config: Config, s: State, round: Round)
    requires Consistent(s)
  {
    match Next(s, Received(round))
    case Leave => false
    case Again => true
    case Proceed => !(config.eagerShutdown && Handle(s, Received(round)).0.active == {})
  }

  /** A turn keeps the books, relative to its own end if it resets them. */
  lemma BooksOfTurn(config: Config, m: Counters, s: State, round: Round, base: nat)
    requires Consistent(s) && Balanced(m, |s.active|, base) && Next(s, Received(round)) != Leave
    ensures var active := |Handle(s, Received(round)).0.active|;
            Balanced(Counted(config, m, s, round), active, if Resets(config, s, round) then active else base)
  {
    hide Handle, Count;
    if round.received.Some? {
      BooksOfHit(m, s, round.received.value, base);
    } else {
      MetricsChangesNothing(s, m);
      BooksOfMiss(m, |s.active|, base);
    }
  }

  /** A report that goes out balances, with the number of addresses it gives itself. */
  lemma BooksOfReport(m: Counters, s: State, round: Round, base: nat)
    requires Consistent(s) && Balanced(m, |s.active|, base) && Next(s, Received(round)) == Proceed
    ensures var active := |Handle(s, Received(round)).0.active|;
            && Balanced(Report(Noted(m, s, round), active), active, base)
            && Report(Noted(m, s, round), active).actors == active
  {
    hide Handle, Count;
    if round.received.Some? {
      BooksOfHit(m, s, round.received.value, base);
    } else {
      MetricsChangesNothing(s, m);
      BooksOfMiss(m, |s.active|, base);
    }
  }

  lemma CountedOnTables(config: Config, m: Counters, s: State, s': State, round: Round)
    requires Consistent(s) && Consistent(s') && SameTables(s, s')
    ensures Counted(config, m, s, round) == Counted(config, m, s', round)
    ensures Noted(m, s, round) == Noted(m, s', round)
    ensures Resets(config, s, round) == Resets(config, s', round) && Stays(config, s, round) == Stays(config, s', round)
  {
    hide Handle;
    HandleOnTables(s, s', Received(round));
  }

  /** What happens to the tables does not depend on the heap. */
  lemma HandleOnTables(s: State, s': State, a: Action)
    requires Consistent(s) && Consistent(s') && SameTables(s, s')
    ensures SameTables(Handle(s, a).0, Handle(s', a).0)
    ensures Handle(s, a).1 == Handle(s', a).1
  {
  }

  lemma GoodOnTables(s: State, s': State)
    requires Good(s) && SameTables(s, s')
    ensures Good(s')
  {
  }

  // --- The history of a run ------------------------------------------------------------------------------------------

  lemma NothingTaken()
    ensures Taken([]) == [] && Delayed([]) == multiset{} && After([]) == EMPTY && Emitted([]) == []
  {
  }

  lemma RequeuedSplits(a: seq<Entry>, b: seq<Entry>)
    ensures Requeued(a + b) == Requeued(a) + Requeued(b)
  {
  }

  function Flat(due: seq<seq<Entry>>): seq<Entry> {
    if due == [] then [] else Flat(due[..|due| - 1]) + due[|due| - 1]
  }

  lemma FlatOne(due: seq<seq<Entry>>, more: seq<Entry>)
    ensures Flat(due + [more]) == Flat(due) + more
  {
    assert (due + [more])[..|due|] == due;
  }

  lemma HistoryExtends(rounds: seq<Round>, n: nat)
    requires n < |rounds|
    ensures Delayed(rounds[..n + 1]) == Delayed(rounds[..n]) + DelayOf(Received(rounds[n]))
    ensures Taken(rounds[..n + 1]) ==
            Taken(rounds[..n]) + if rounds[n].received.Some? then [rounds[n].received.value] else []
  {
    assert rounds[..n + 1][..n] == rounds[..n];
  }

  lemma HandleOnHeap(s: State, a: Action)
    requires Consistent(s)
    ensures Handle(s, a).0.tasks == s.tasks + DelayOf(a)
    ensures Next(s, a) != Proceed ==> DelayOf(a) == multiset{}
  {
  }

  /** The tables after the rounds, and the counters; both leave the heap aside. */
  function Tables(rounds: seq<Round>): (s: State)
    ensures Good(s)
  {
    After(Taken(rounds))
  }

  function Ledger(config: Config, rounds: seq<Round>): Counters {
    if rounds == [] then ZERO
    else
      var past := rounds[..|rounds| - 1];
      Counted(config, Ledger(config, past), Tables(past), rounds[|rounds| - 1])
  }

  /** The number of rounds up to and with the last that reset the counters. */
  function LastReset(config: Config, rounds: seq<Round>): (r: nat)
    ensures r <= |rounds|
  {
    if rounds == [] then 0
    else
      var past := rounds[..|rounds| - 1];
      if Resets(config, Tables(past), rounds[|rounds| - 1]) then |rounds| else LastReset(config, past)
  }

  /** The reports the rounds lead to. */
  function Reports(config: Config, rounds: seq<Round>): seq<Counters> {
    if rounds == [] then []
    else
      var past, last := rounds[..|rounds| - 1], rounds[|rounds| - 1];
      Reports(config, past)
      + if Resets(config, Tables(past), last)
        then [Report(Noted(Ledger(config, past), Tables(past), last), |Tables(rounds).active|)] else []
  }

  predicate NoShutdown(rounds: seq<Round>) {
    forall i :: 0 <= i < |rounds| ==> rounds[i].received != Some(Action.Shutdown)
  }

  /** One more round in the terms of all rounds before it, for a state with the same tables. */
  lemma RoundExtends(config: Config, rounds: seq<Round>, n: nat, before: State)
    requires n < |rounds| && Good(before) && SameTables(before, Tables(rounds[..n]))
    ensures SameTables(Handle(before, Received(rounds[n])).0, Tables(rounds[..n + 1]))
    ensures Ledger(config, rounds[..n + 1]) == Counted(config, Ledger(config, rounds[..n]), before, rounds[n])
    ensures LastReset(config, rounds[..n + 1])
         == if Resets(config, before, rounds[n]) then n + 1 else LastReset(config, rounds[..n])
    ensures Emitted(Taken(rounds[..n + 1])) == Emitted(Taken(rounds[..n])) + Handle(before, Received(rounds[n])).1
  {
    hide Handle, Count, AfterTick, After, Taken, Emitted, Delayed, IdleEmpty, Counted, Noted, Resets, Stays;
    var past, a := Taken(rounds[..n]), Received(rounds[n]);
    assert rounds[..n + 1][..n] == rounds[..n];
    HandleOnTables(before, After(past), a);
    MetricsChangesNothing(After(past), ZERO);
    MetricsChangesNothing(before, ZERO);
    HistoryExtends(rounds, n);
    if rounds[n].received.Some? {
      AfterOne(past, a);
      EmittedOne(past, a);
    } else {
      assert past + [] == past && Emitted(past) + [] == Emitted(past);
    }
    CountedOnTables(config, Ledger(config, rounds[..n]), before, After(past), rounds[n]);
  }

  /** And the reports. */
  lemma ReportsExtend(config: Config, rounds: seq<Round>, n: nat, before: State)
    requires n < |rounds| && Good(before) && SameTables(before, Tables(rounds[..n]))
    ensures Reports(config, rounds[..n + 1]) == Reports(config, rounds[..n]) +
            if Resets(config, before, rounds[n])
            then [Report(Noted(Ledger(config, rounds[..n]), before, rounds[n]),
                         |Handle(before, Received(rounds[n])).0.active|)] else []
  {
    hide Handle, Count, After, Taken, Emitted, Delayed, IdleEmpty, Counted, Noted, Resets, Report, Ledger, LastReset;
    assert rounds[..n + 1][..n] == rounds[..n];
    RoundExtends(config, rounds, n, before);
    CountedOnTables(config, Ledger(config, rounds[..n]), before, Tables(rounds[..n]), rounds[n]);
  }

  /**
   The accounting of a whole run: at the loop head the counters balance relative to the last reset, that is, to the
   addresses that were registered then.
   */
  lemma {:induction false} LedgerBalances(config: Config, rounds: seq<Round>)
    requires NoShutdown(rounds)
    ensures Balanced(Ledger(config, rounds), |Tables(rounds).active|,
                     |Tables(rounds[..LastReset(config, rounds)]).active|)
  {
    hide *;
    if rounds == [] {
      NoAddresses(config);
      assert rounds[..0] == [];
    } else {
      EarlierHasNone(rounds);
      LedgerBalances(config, rounds[..|rounds| - 1]);
      LedgerStillBalances(config, rounds);
    }
  }

  lemma EarlierHasNone(rounds: seq<Round>)
    requires rounds != [] && NoShutdown(rounds)
    ensures NoShutdown(rounds[..|rounds| - 1]) && rounds[|rounds| - 1].received != Some(Action.Shutdown)
  {
  }

  lemma LedgerStillBalances(config: Config, rounds: seq<Round>)
    requires rounds != [] && rounds[|rounds| - 1].received != Some(Action.Shutdown)
    requires var past := rounds[..|rounds| - 1];
             Balanced(Ledger(config, past), |Tables(past).active|, |Tables(past[..LastReset(config, past)]).active|)
    ensures Balanced(Ledger(config, rounds), |Tables(rounds).active|,
                     |Tables(rounds[..LastReset(config, rounds)]).active|)
  {
    hide Handle, Tables, Balanced, Counted, Resets, Ledger, LastReset;
    var n := |rounds| - 1;
    var past, last := rounds[..n], rounds[n];
    var r := LastReset(config, past);
    assert rounds[..n + 1] == rounds && past[..r] == rounds[..r];
    RoundExtends(config, rounds, n, Tables(past));
    BooksOfTurn(config, Ledger(config, past), Tables(past), last, |Tables(past[..r]).active|);
  }

  lemma NoAddresses(config: Config)
    ensures Ledger(config, []) == ZERO && LastReset(config, []) == 0
    ensures |Tables([]).active| == 0 && Balanced(ZERO, 0, 0)
  {
  }

  /** The same where the loop is left on a Shutdown: that turn was received but does not tick. */
  lemma LedgerOnShutdown(config: Config, rounds: seq<Round>)
    requires rounds != [] && NoShutdown(rounds[..|rounds| - 1])
    requires rounds[|rounds| - 1].received == Some(Action.Shutdown)
    ensures var past := rounds[..|rounds| - 1];
            && Ledger(config, rounds) == Ledger(config, past).(hit := Ledger(config, past).hit + 1)
            && SameTables(Tables(rounds), Tables(past)) && LastReset(config, rounds) == LastReset(config, past)
  {
    var n := |rounds| - 1;
    assert rounds[..n + 1] == rounds;
    RoundExtends(config, rounds, n, Tables(rounds[..n]));
  }

  /** What is counted as received and as timed out since the last reset is just that. */
  function Hits(rounds: seq<Round>): nat {
    if rounds == [] then 0
    else Hits(rounds[..|rounds| - 1]) + if rounds[|rounds| - 1].received.Some? then 1 else 0
  }

  lemma {:induction false} HitsSinceReset(config: Config, rounds: seq<Round>)
    ensures var since := rounds[LastReset(config, rounds)..];
            && Ledger(config, rounds).hit == Hits(since)
            && Ledger(config, rounds).hit + Ledger(config, rounds).miss == |since|
  {
    hide Tables, Counted, Resets;
    if rounds != [] {
      var n := |rounds| - 1;
      var past, r := rounds[..n], LastReset(config, rounds[..n]);
      HitsSinceReset(config, past);
      HitsOfTurn(config, Ledger(config, past), Tables(past), rounds[n]);
      HitsOneMore(rounds, r);
    }
  }

  lemma HitsOfTurn(config: Config, m: Counters, s: State, round: Round)
    requires Consistent(s)
    ensures var m' := Counted(config, m, s, round);
            if Resets(config, s, round) then m' == ZERO
            else m'.hit == m.hit + (if round.received.Some? then 1 else 0) && m'.hit + m'.miss == m.hit + m.miss + 1
  {
    hide Handle;
  }

  lemma HitsOneMore(rounds: seq<Round>, r: nat)
    requires r < |rounds|
    ensures var past := rounds[..|rounds| - 1];
            Hits(rounds[r..]) == Hits(past[r..]) + if rounds[|rounds| - 1].received.Some? then 1 else 0
    ensures Hits([]) == 0
  {
    var since := rounds[r..];
    assert since[..|since| - 1] == rounds[..|rounds| - 1][r..];
  }

  /** Every report balances relative to the reset before it. */
  lemma {:induction false} ReportsBalance(config: Config, rounds: seq<Round>, i: nat)
    requires NoShutdown(rounds) && i < |Reports(config, rounds)|
    ensures exists r: nat :: r <= |rounds| &&
              Balanced(Reports(config, rounds)[i], Reports(config, rounds)[i].actors, |Tables(rounds[..r]).active|)
  {
    hide Handle, Tables, Balanced, Counted, Noted, Report, Ledger;
    var n := |rounds| - 1;
    var past, last := rounds[..n], rounds[n];
    if i < |Reports(config, past)| {
      ReportsBalance(config, past, i);
      var r: nat :| r <= |past| &&
        Balanced(Reports(config, past)[i], Reports(config, past)[i].actors, |Tables(past[..r]).active|);
      assert past[..r] == rounds[..r];
    } else {
      var r := LastReset(config, past);
      LedgerBalances(config, past);
      assert rounds[..n + 1] == rounds && past[..r] == rounds[..r];
      RoundExtends(config, rounds, n, Tables(past));
      BooksOfReport(Ledger(config, past), Tables(past), last, |Tables(past[..r]).active|);
      assert |Handle(Tables(past), Received(last)).0.active| == |Tables(rounds).active|;
    }
  }

  // --- Delayed messages over a run -----------------------------------------------------------------------------------

  function Cutoff(config: Config, round: Round): nat {
    round.now + config.precision / 2
  }

  /** Round `i` gets as far as the drain. */
  predicate Drains(rounds: seq<Round>, i: nat)
    requires i < |rounds|
  {
    Next(Tables(rounds[..i]), Received(rounds[i])) == Proceed
  }

  /** Nothing is late: what was due at a drain in the first `k` rounds and is still there was delayed after it. */
  ghost predicate Prompt(config: Config, rounds: seq<Round>, k: nat, heap: multiset<Entry>)
    requires k <= |rounds|
  {
    forall i, e :: 0 <= i < k && Drains(rounds, i) && e in heap && e.at <= Cutoff(config, rounds[i]) ==>
      e in Delayed(rounds[i + 1..])
  }

  /** What the last round pops is in time order, not early, and not late. */
  ghost predicate Timely(config: Config, rounds: seq<Round>, due: seq<Entry>)
    requires rounds != []
  {
    var n := |rounds| - 1;
    && SortedByTime(due)
    && (due != [] ==> Drains(rounds, n))
    && (forall e :: e in due ==> e.at <= Cutoff(config, rounds[n]))
    && Prompt(config, rounds, n, multiset(due))
  }

  ghost predicate OnTime(config: Config, rounds: seq<Round>, due: seq<seq<Entry>>) {
    |due| == |rounds| && forall j :: 0 <= j < |due| ==> Timely(config, rounds[..j + 1], due[j])
  }

  /** How one turn of the loop splits the heap. */
  predicate TurnDrains(config: Config, s: State, round: Round, due: seq<Entry>, after: multiset<Entry>)
    requires Consistent(s)
  {
    if Next(s, Received(round)) == Proceed
    then Drained(Handle(s, Received(round)).0.tasks, due, after, Cutoff(config, round))
    else due == [] && after == s.tasks
  }

  lemma TurnSplitsHeap(config: Config, s: State, round: Round, due: seq<Entry>, after: multiset<Entry>)
    requires Consistent(s) && TurnDrains(config, s, round, due, after)
    ensures s.tasks + DelayOf(Received(round)) == multiset(due) + after
    ensures SortedByTime(due) && forall e :: e in due ==> e.at <= Cutoff(config, round)
    ensures Next(s, Received(round)) == Proceed ==> forall e :: e in after ==> e.at > Cutoff(config, round)
    ensures Next(s, Received(round)) != Proceed ==> due == []
  {
    hide Handle;
    HandleOnHeap(s, Received(round));
  }

  lemma DelayedSince(rounds: seq<Round>, i: nat, n: nat)
    requires i < n < |rounds|
    ensures Delayed(rounds[..n + 1][i + 1..]) == Delayed(rounds[..n][i + 1..]) + DelayOf(Received(rounds[n]))
  {
    hide DelayOf;
    var later := rounds[..n + 1][i + 1..];
    assert later[..|later| - 1] == rounds[..n][i + 1..];
  }

  lemma DrainsStill(rounds: seq<Round>, i: nat, n: nat)
    requires i < n <= |rounds|
    ensures Drains(rounds[..n], i) == Drains(rounds, i)
  {
    assert rounds[..n][..i] == rounds[..i];
  }

  /** Whatever was prompt before a round is so after it, among what leaves the heap and what stays. */
  lemma PromptOn(config: Config, rounds: seq<Round>, n: nat, heap: multiset<Entry>, later: multiset<Entry>)
    requires n < |rounds| && Prompt(config, rounds[..n], n, heap)
    requires forall e :: e in later ==> e in heap || e in DelayOf(Received(rounds[n]))
    ensures Prompt(config, rounds[..n + 1], n, later)
  {
    hide Delayed, DelayOf, Drains;
    forall i, e | 0 <= i < n && Drains(rounds[..n + 1], i) && e in later && e.at <= Cutoff(config, rounds[i])
      ensures e in Delayed(rounds[..n + 1][i + 1..])
    {
      DrainsStill(rounds, i, n);
      DrainsStill(rounds, i, n + 1);
      DelayedSince(rounds, i, n);
      assert rounds[..n][i] == rounds[i];
    }
  }

  lemma TurnIsTimely(config: Config, rounds: seq<Round>, n: nat, before: State, due: seq<Entry>, after: multiset<Entry>)
    requires n < |rounds| && Good(before) && SameTables(before, Tables(rounds[..n]))
    requires Prompt(config, rounds[..n], n, before.tasks)
    requires TurnDrains(config, before, rounds[n], due, after)
    ensures Timely(config, rounds[..n + 1], due) && Prompt(config, rounds[..n + 1], n + 1, after)
  {
    hide Handle, TurnDrains, Tables, Delayed, DelayOf, IdleEmpty, SortedByTime;
    TurnSplitsHeap(config, before, rounds[n], due, after);
    forall e | e in due || e in after ensures e in before.tasks || e in DelayOf(Received(rounds[n])) {
      assert e in multiset(due) + after;
    }
    PromptOn(config, rounds, n, before.tasks, multiset(due));
    PromptOn(config, rounds, n, before.tasks, after);
    assert rounds[..n + 1][..n] == rounds[..n];
    assert Drains(rounds[..n + 1], n) == (Next(before, Received(rounds[n])) == Proceed);
  }

  /** All that was delayed is still there or was popped. */
  lemma HeapOnHistory(config: Config, rounds: seq<Round>, n: nat, before: State, sofar: seq<Entry>, due: seq<Entry>,
                      after: multiset<Entry>)
    requires n < |rounds| && Consistent(before) && TurnDrains(config, before, rounds[n], due, after)
    requires multiset(sofar) + before.tasks == Delayed(rounds[..n])
    ensures multiset(sofar + due) + after == Delayed(rounds[..n + 1])
  {
    hide Handle, TurnDrains, Delayed, DelayOf, SortedByTime;
    HistoryExtends(rounds, n);
    TurnSplitsHeap(config, before, rounds[n], due, after);
    assert multiset(sofar + due) + after == multiset(sofar) + (multiset(due) + after)
        == (multiset(sofar) + before.tasks) + DelayOf(Received(rounds[n]));
  }

  /** Why a loop ends: it was told to, or nothing is registered any more. */
  predicate Left(config: Config, rounds: seq<Round>) {
    rounds != [] && !Stays(config, Tables(rounds[..|rounds| - 1]), rounds[|rounds| - 1])
  }

  /** The loop goes through all rounds, or through the first `n` because it leaves in the last of these. */
  predicate LeavesAt(config: Config, rounds: seq<Round>, n: nat) {
    && n <= |rounds|
    && (forall k :: 0 < k < n ==> !Left(config, rounds[..k]))
    && (n < |rounds| ==> Left(config, rounds[..n]))
  }

  /** A loop that has not ended yet has not been told to. */
  lemma {:induction false} StayedMeansNoShutdown(config: Config, rounds: seq<Round>)
    requires forall k :: 0 < k <= |rounds| ==> !Left(config, rounds[..k])
    ensures NoShutdown(rounds)
  {
    hide Tables, Handle;
    forall i | 0 <= i < |rounds| ensures rounds[i].received != Some(Action.Shutdown) {
      assert !Left(config, rounds[..i + 1]);
    }
  }

  /**
   How the loop stands after its rounds: the tables are those of the actions taken; what was delayed was popped or is
   still on the heap, and none of it early or late; the counters are the ledger, kept since `base` was registered.
   */
  ghost predicate StandsAt(config: Config, rounds: seq<Round>, s: State, due: seq<seq<Entry>>, m: Counters, base: nat) {
    && SameTables(s, Tables(rounds))
    && multiset(Flat(due)) + s.tasks == Delayed(rounds)
    && OnTime(config, rounds, due) && Prompt(config, rounds, |rounds|, s.tasks)
    && m == Ledger(config, rounds)
    && base == |Tables(rounds[..LastReset(config, rounds)]).active|
  }

  /**
   The accounting of a run from its start to wherever it ends: what is registered now and what was at the last reset
   differ by the spawns, stops and failures counted since, and the turns counted are those received or timed out,
   but for a final Shutdown, which ends its turn before the tick.
   */
  lemma RunBalances(config: Config, rounds: seq<Round>, n: nat)
    requires LeavesAt(config, rounds, n)
    ensures var past, m := rounds[..n], Ledger(config, rounds[..n]);
            && |Tables(past).active| + m.stops + m.failures
               == |Tables(past[..LastReset(config, past)]).active| + m.spawns
            && m.queues == m.messages
            && m.ticks + m.failures
               + (if n > 0 && rounds[n - 1].received == Some(Action.Shutdown) then 1 else 0) == m.hit + m.miss
  {
    hide Ledger, Tables, LastReset, Left;
    if n == 0 {
      LedgerBalances(config, rounds[..0]);
    } else {
      var past, before := rounds[..n], rounds[..n - 1];
      assert past[..|past| - 1] == before;
      forall k | 0 < k <= |before| ensures !Left(config, before[..k]) {
        assert before[..k] == rounds[..k];
      }
      StayedMeansNoShutdown(config, before);
      if rounds[n - 1].received == Some(Action.Shutdown) {
        LedgerOnShutdown(config, past);
        LedgerBalances(config, before);
        assert past[..LastReset(config, past)] == before[..LastReset(config, before)];
      } else {
        LedgerBalances(config, past);
      }
    }
  }

  lemma LeavesHere(config: Config, rounds: seq<Round>, n: nat, stay: bool)
    requires n <= |rounds| && forall k :: 0 < k < n ==> !Left(config, rounds[..k])
    requires stay == !Left(config, rounds[..n]) && (stay ==> n == |rounds|)
    ensures LeavesAt(config, rounds, n)
  {
    hide Left;
  }

  lemma AtStart(config: Config)
    ensures StandsAt(config, [], EMPTY, [], ZERO, 0)
    ensures Emitted(Taken([])) == [] && Requeued(Flat([])) == [] && Reports(config, []) == [] && !Left(config, [])
  {
  }

  lemma HeapOfTurn(config: Config, rounds: seq<Round>, n: nat, before: State, after: State, due: seq<seq<Entry>>,
                   more: seq<Entry>)
    requires n < |rounds| && Good(before) && SameTables(before, Tables(rounds[..n]))
    requires multiset(Flat(due)) + before.tasks == Delayed(rounds[..n])
    requires OnTime(config, rounds[..n], due) && Prompt(config, rounds[..n], n, before.tasks)
    requires TurnDrains(config, before, rounds[n], more, after.tasks)
    ensures multiset(Flat(due + [more])) + after.tasks == Delayed(rounds[..n + 1])
    ensures OnTime(config, rounds[..n + 1], due + [more]) && Prompt(config, rounds[..n + 1], n + 1, after.tasks)
  {
    hide Handle, Tables, Delayed, DelayOf, IdleEmpty, Timely, Prompt, TurnDrains, Flat;
    FlatOne(due, more);
    HeapOnHistory(config, rounds, n, before, Flat(due), more, after.tasks);
    TurnIsTimely(config, rounds, n, before, more, after.tasks);
    var all := due + [more];
    forall j | 0 <= j < |all| ensures Timely(config, rounds[..n + 1][..j + 1], all[j]) {
      if j < n {
        assert rounds[..n + 1][..j + 1] == rounds[..n][..j + 1];
      } else {
        assert rounds[..n + 1][..j + 1] == rounds[..n + 1];
      }
    }
  }

  /** How one turn extends what is known of all turns before it. */
  lemma TurnOnHistory(config: Config, rounds: seq<Round>, n: nat, before: State, after: State, due: seq<seq<Entry>>,
                      more: seq<Entry>, m: Counters, base: nat)
    requires n < |rounds| && Good(before) && StandsAt(config, rounds[..n], before, due, m, base)
    requires SameTables(after, Handle(before, Received(rounds[n])).0)
    requires TurnDrains(config, before, rounds[n], more, after.tasks)
    ensures StandsAt(config, rounds[..n + 1], after, due + [more], Counted(config, m, before, rounds[n]),
                     if Resets(config, before, rounds[n]) then |after.active| else base)
    ensures Emitted(Taken(rounds[..n + 1])) == Emitted(Taken(rounds[..n])) + Handle(before, Received(rounds[n])).1
    ensures Requeued(Flat(due + [more])) == Requeued(Flat(due)) + Requeued(more)
    ensures Reports(config, rounds[..n + 1]) == Reports(config, rounds[..n]) +
            if Resets(config, before, rounds[n])
            then [Report(Noted(m, before, rounds[n]), |after.active|)] else []
    ensures Stays(config, before, rounds[n]) == !Left(config, rounds[..n + 1])
  {
    hide Handle, Tables, Delayed, DelayOf, IdleEmpty, OnTime, Prompt, TurnDrains, Stays, Requeued, Counted, Noted,
      Report, Resets, Ledger, LastReset, Reports, Emitted, Taken, Flat;
    RoundExtends(config, rounds, n, before);
    ReportsExtend(config, rounds, n, before);
    FlatOne(due, more);
    RequeuedSplits(Flat(due), more);
    HeapOfTurn(config, rounds, n, before, after, due, more);
    var r := LastReset(config, rounds[..n]);
    assert rounds[..n + 1][..n] == rounds[..n] && rounds[..n + 1][..r] == rounds[..n][..r];
    assert rounds[..n + 1][..n + 1] == rounds[..n + 1];
    CountedOnTables(config, ZERO, before, Tables(rounds[..n]), rounds[n]);
  }

  lemma StartIsGood()
    ensures Good(EMPTY) && TimeoutInRange(MAX_TIMEOUT) && Balanced(ZERO, 0, 0)
  {
  }

  class Loop {
    const config: Config
    var active: set<Tag>
    var actors: map<Tag, Actor>
    var queue: map<Tag, seq<Envelope>>
    var tasks: multiset<Entry>
    var metrics: Counters
    var timeout: nat
    var events: seq<Event>    // everything sent to the workers
    var actions: seq<Action>  // everything sent to itself
    var reports: seq<Counters>
    ghost var base: nat       // registered addresses when the counters were last reset

    ghost function View(): State
      reads this
    {
      State(active, actors, queue, tasks)
    }

    ghost predicate Valid()
      reads this
    {
      Good(View()) && TimeoutInRange(timeout) && Balanced(metrics, |active|, base)
    }

    constructor (config: Config)
      ensures this.config == config
      ensures Valid()
      ensures View() == EMPTY && metrics == ZERO && timeout == MAX_TIMEOUT && base == 0
      ensures events == [] && actions == [] && reports == []
    {
      hide Good, TimeoutInRange, Balanced;
      StartIsGood();
      this.config := config;
      active, actors, queue, tasks := {}, map[], map[], multiset{};
      metrics, timeout := ZERO, MAX_TIMEOUT;
      events, actions, reports, base := [], [], [], 0;
      new;
      assert View() == EMPTY;
    }

    // One method per branch of the `match` on a received action.

    method OnReturn(tag: Tag, actor: Actor, ok: bool) returns (next: Control)
      requires Consistent(View())
      modifies this`active, this`actors, this`queue, this`metrics, this`events
      ensures View() == Handle(old(View()), Return(tag, actor, ok)).0
      ensures events == old(events) + Handle(old(View()), Return(tag, actor, ok)).1
      ensures metrics == Count(old(metrics), old(View()), Return(tag, actor, ok))
      ensures next == Next(old(View()), Return(tag, actor, ok))
    {
      next := Proceed;
      if tag in active {
        if !ok {
          metrics := metrics.(failures := metrics.failures + 1);
          active := active - {tag};
          queue := queue - {tag};
          return Again;
        }
        metrics := metrics.(returned := metrics.returned + 1);
        if queue[tag] != [] {
          var envelope := queue[tag][0];
          queue := queue[tag := queue[tag][1..]];
          events := events + [Mail(tag, actor, envelope)];
        } else {
          actors := actors[tag := actor];
        }
      } else {
        queue := queue - {tag};
        if ok {
          events := events + [Event.Stop(tag, actor)];
        }
      }
    }

    method OnQueue(tag: Tag, envelope: Envelope)
      requires Consistent(View())
      modifies this`actors, this`queue, this`metrics, this`events
      ensures View() == Handle(old(View()), Queue(tag, envelope)).0
      ensures events == old(events) + Handle(old(View()), Queue(tag, envelope)).1
      ensures metrics == Count(old(metrics), old(View()), Queue(tag, envelope))
    {
      if tag in active {
        metrics := metrics.(queues := metrics.queues + 1, messages := metrics.messages + 1);
        queue := queue[tag := queue[tag] + [envelope]];
        if tag in actors {
          var actor := actors[tag];
          actors := actors - {tag};
          var first := queue[tag][0];
          queue := queue[tag := queue[tag][1..]];
          events := events + [Mail(tag, actor, first)];
        }
      } else {
        metrics := metrics.(drops := metrics.drops + 1);
      }
    }

    method OnSpawn(tag: Tag, actor: Actor)
      requires Consistent(View())
      modifies this`active, this`actors, this`queue, this`metrics
      ensures View() == Handle(old(View()), Spawn(tag, actor)).0 && Handle(old(View()), Spawn(tag, actor)).1 == []
      ensures metrics == Count(old(metrics), old(View()), Spawn(tag, actor))
    {
      if tag !in active {
        metrics := metrics.(spawns := metrics.spawns + 1);
        active := active + {tag};
        actors := actors[tag := actor];
        queue := queue[tag := []];
      } else {
        metrics := metrics.(drops := metrics.drops + 1);
      }
    }

    method OnStop(tag: Tag)
      requires Consistent(View())
      modifies this`active, this`actors, this`queue, this`metrics, this`events
      ensures View() == Handle(old(View()), Action.Stop(tag)).0
      ensures events == old(events) + Handle(old(View()), Action.Stop(tag)).1
      ensures metrics == Count(old(metrics), old(View()), Action.Stop(tag))
    {
      if tag in active {
        metrics := metrics.(stops := metrics.stops + 1);
        active := active - {tag};
        queue := queue - {tag};
        if tag in actors {
          var actor := actors[tag];
          actors := actors - {tag};
          events := events + [Event.Stop(tag, actor)];
        }
        assert tag !in old(actors) ==> old(actors) - {tag} == old(actors);
      } else {
        metrics := metrics.(drops := metrics.drops + 1);
      }
    }

    method Dispatch(action: Action) returns (next: Control)
      requires Consistent(View())
      modifies this`active, this`actors, this`queue, this`tasks, this`metrics, this`events
      ensures View() == Handle(old(View()), action).0
      ensures events == old(events) + Handle(old(View()), action).1
      ensures metrics == Count(old(metrics), old(View()), action)
      ensures next == Next(old(View()), action)
    {
      next := Proceed;
      match action {
        case Return(tag, actor, ok) => next := OnReturn(tag, actor, ok);
        case Queue(tag, envelope) => OnQueue(tag, envelope);
        case Spawn(tag, actor) => OnSpawn(tag, actor);
        case Delay(entry) =>
          metrics := metrics.(delays := metrics.delays + 1);
          tasks := tasks + multiset{entry};
        case Stop(tag) => OnStop(tag);
        case Logs(_) =>
        case Metrics =>
        case Shutdown => next := Leave;
      }
    }

    /** `BinaryHeap::peek`: some entry that none compares greater than. */
    method Peek() returns (top: Option<Entry>)
      ensures top.None? <==> tasks == multiset{}
      ensures top.Some? ==> Top(top.value, tasks)
    {
      if tasks == multiset{} {
        return None;
      }
      TopExists(tasks);
      var e :| e in tasks && Top(e, tasks);
      return Some(e);
    }

    /** Pops every entry that is due within half the delay precision and posts its message. */
    method Drain(now: nat) returns (due: seq<Entry>)
      modifies this`tasks, this`actions
      ensures Drained(old(tasks), due, tasks, now + config.precision / 2)
      ensures actions == old(actions) + Requeued(due)
    {
      hide *;
      var cutoff := now + config.precision / 2;
      due := [];
      ghost var all := tasks;
      NothingPopped(all, cutoff);
      NoneRequeued();
      var top := Peek();
      while top.Some? && top.value.at <= cutoff
        invariant Popped(all, due, tasks, cutoff)
        invariant top.None? <==> tasks == multiset{}
        invariant top.Some? ==> Top(top.value, tasks)
        invariant actions == old(actions) + Requeued(due)
        decreases |tasks|
      {
        var entry := top.value;
        PopTop(all, due, tasks, cutoff, entry);
        tasks := tasks - multiset{entry};
        actions := actions + [Queue(entry.tag, entry.envelope)];
        assert old(actions) + Requeued(due) + [Queue(entry.tag, entry.envelope)]
            == old(actions) + Requeued(due + [entry]);
        due := due + [entry];
        top := Peek();
      }
      NothingDueLeft(all, due, tasks, cutoff, top);
    }

    /** The start of a turn: the action the channel gave is dispatched, if it gave one, and the timeout adapts. */
    method Take(round: Round) returns (next: Control)
      requires Consistent(View())
      modifies this`active, this`actors, this`queue, this`tasks, this`metrics, this`events, this`timeout
      ensures View() == Handle(old(View()), Received(round)).0
      ensures events == old(events) + Handle(old(View()), Received(round)).1
      ensures metrics == Noted(old(metrics), old(View()), round)
      ensures next == Next(old(View()), Received(round))
      ensures timeout == if round.received.Some? then Halved(old(timeout)) else Doubled(old(timeout))
    {
      hide Handle, Count, Next;
      MetricsChangesNothing(View(), metrics);
      if round.received.Some? {
        timeout := Halved(timeout);
        metrics := metrics.(hit := metrics.hit + 1);
        next := Dispatch(round.received.value);
      } else {
        timeout := Doubled(timeout);
        metrics := metrics.(miss := metrics.miss + 1);
        next := Proceed;
      }
    }

    /** The end of a turn: the tick, the report when the interval is over, and the test for an empty system. */
    method Tick(elapsed: bool) returns (stay: bool)
      modifies this`metrics, this`reports, this`base
      ensures metrics == AfterTick(config, old(metrics), |active|, elapsed)
      ensures reports ==
        old(reports) + if elapsed && config.metricReporting then [Report(old(metrics), |active|)] else []
      ensures base == if elapsed && config.metricReporting then |active| else old(base)
      ensures stay == !(config.eagerShutdown && active == {})
    {
      metrics := metrics.(ticks := metrics.ticks + 1);
      if elapsed {
        metrics := metrics.(actors := |active|);
        if config.metricReporting {
          reports := reports + [metrics];
          metrics := ZERO;
          base := |active|;
        }
      }
      stay := !(config.eagerShutdown && active == {});
    }

    /** One turn of the loop; `stay` is false when it leaves for good. */
    method Turn(round: Round) returns (stay: bool, due: seq<Entry>)
      requires Valid()
      modifies this
      ensures Good(View()) && (stay ==> Valid())
      ensures stay == Stays(config, old(View()), round)
      ensures SameTables(View(), Handle(old(View()), Received(round)).0)
      ensures events == old(events) + Handle(old(View()), Received(round)).1
      ensures actions == old(actions) + Requeued(due)
      ensures TurnDrains(config, old(View()), round, due, tasks)
      ensures timeout == if round.received.Some? then Halved(old(timeout)) else Doubled(old(timeout))
      ensures metrics == Counted(config, old(metrics), old(View()), round)
      ensures base == if Resets(config, old(View()), round) then |active| else old(base)
      ensures reports == old(reports) + if Resets(config, old(View()), round)
                                        then [Report(Noted(old(metrics), old(View()), round), |active|)] else []
    {
      hide Handle, Noted, Next, Balanced, TimeoutInRange, Drained, Requeued, IdleEmpty, AfterTick, Report;
      hide Halved, Doubled;
      due := [];
      NoneRequeued();
      HandleKeepsGood(View(), Received(round));
      HandleOnHeap(View(), Received(round));
      TimeoutStaysInRange(timeout);
      if Next(View(), Received(round)) != Leave {
        BooksOfTurn(config, metrics, View(), round, base);
      }
      var next := Take(round);
      if next == Again {
        return true, [];
      }
      if next == Leave {
        return false, [];
      }
      due := Drain(round.now);
      GoodOnTables(Handle(old(View()), Received(round)).0, View());
      stay := Tick(round.elapsed);
    }

    /** `event_loop` itself, from its first turn, over whatever the channel and the clock bring. */
    method Run(rounds: seq<Round>) returns (n: nat, due: seq<seq<Entry>>)
      requires Valid() && View() == EMPTY && metrics == ZERO && base == 0
      modifies this
      ensures LeavesAt(config, rounds, n)
      ensures events == old(events) + Emitted(Taken(rounds[..n]))
      ensures actions == old(actions) + Requeued(Flat(due))
      ensures reports == old(reports) + Reports(config, rounds[..n])
      ensures !Left(config, rounds[..n]) ==> Valid()
      ensures StandsAt(config, rounds[..n], View(), due, metrics, base)
    {
      ViewParts();
      hide *;
      n, due := 0, [];
      AtStart(config);
      assert rounds[..0] == [];
      var stay := true;
      while stay && n < |rounds|
        invariant n <= |rounds|
        invariant stay ==> Valid()
        invariant Good(View())
        invariant stay == !Left(config, rounds[..n])
        invariant forall k :: 0 < k < n ==> !Left(config, rounds[..k])
        invariant StandsAt(config, rounds[..n], View(), due, metrics, base)
        invariant events == old(events) + Emitted(Taken(rounds[..n]))
        invariant actions == old(actions) + Requeued(Flat(due))
        invariant reports == old(reports) + Reports(config, rounds[..n])
        decreases |rounds| - n
      {
        ghost var before, sofar, m, b := View(), due, metrics, base;
        var more;
        stay, more := Turn(rounds[n]);
        due := due + [more];
        ViewParts();
        TurnOnHistory(config, rounds, n, before, View(), sofar, more, m, b);
        n := n + 1;
      }
      LeavesHere(config, rounds, n, stay);
    }

    lemma ViewParts()
      ensures View().tasks == tasks && View().active == active
      ensures Valid() ==> Good(View())
    {
    }
  }
}
