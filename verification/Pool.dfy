/**
 The thread pool: workers that share one job channel, and a drop that sends one Stop per worker and joins them
 (src/pool.rs).  Jobs are numbered in the order they enter the channel.
 */
module Pool {
  import opened Counting

  datatype Job = Task(id: nat) | Stop

  datatype Worker = Waiting | Running(id: nat) | Finished

  datatype Phase = Open | Stopping(left: nat) | Joining(joined: nat)

  datatype State = State(
    jobs: seq<Job>,
    workers: seq<Worker>,
    phase: Phase,
    submitted: nat,        // tasks that have entered the channel
    mark: nat,             // how many of them when the drop began
    done: multiset<nat>    // tasks that have run to their end or panicked
  )

  datatype Step =
    | Submit        // `submit`, or a closure from `link`, from any thread and at any time
    | Drop          // the drop begins
    | SendStop      // the drop sends one Stop
    | Receive(w: nat)
    | Finish(w: nat)
    | Join          // the drop waits for the next thread in order

  const IS_STOP: Job -> bool := (j: Job) => j == Stop

  const IS_LIVE: Worker -> bool := (w: Worker) => w != Finished

  function IsTask(k: nat): Job -> bool { (j: Job) => j == Task(k) }

  function IsRunning(k: nat): Worker -> bool { (w: Worker) => w == Running(k) }

  predicate Init(s: State) {
    && s.jobs == [] && s.phase == Open && s.submitted == 0 && s.mark == 0 && s.done == multiset{}
    && forall w :: 0 <= w < |s.workers| ==> s.workers[w] == Waiting
  }

  predicate Enabled(s: State, step: Step) {
    match step
    case Submit => true
    case Drop => s.phase == Open
    case SendStop => s.phase.Stopping? && s.phase.left > 0
    case Receive(w) => w < |s.workers| && s.workers[w] == Waiting && s.jobs != []
    case Finish(w) => w < |s.workers| && s.workers[w].Running?
    case Join => s.phase.Joining? && s.phase.joined < |s.workers| && s.workers[s.phase.joined] == Finished
  }

  function Closing(left: nat): Phase {
    if left == 0 then Joining(0) else Stopping(left)
  }

  function Apply(s: State, step: Step): State
    requires Enabled(s, step)
  {
    match step
    case Submit => s.(jobs := s.jobs + [Task(s.submitted)], submitted := s.submitted + 1)
    case Drop => s.(phase := Closing(|s.workers|), mark := s.submitted)
    case SendStop => s.(jobs := s.jobs + [Stop], phase := Closing(s.phase.left - 1))
    case Receive(w) =>
      var next := match s.jobs[0] case Task(k) => Running(k) case Stop => Finished;
      s.(jobs := s.jobs[1..], workers := s.workers[w := next])
    case Finish(w) => s.(workers := s.workers[w := Waiting], done := s.done + multiset{s.workers[w].id})
    case Join => s.(phase := Joining(s.phase.joined + 1))
  }

  predicate Runs(s: State, steps: seq<Step>)
    decreases |steps|
  {
    steps == [] || (Enabled(s, steps[0]) && Runs(Apply(s, steps[0]), steps[1..]))
  }

  function End(s: State, steps: seq<Step>): State
    requires Runs(s, steps)
    decreases |steps|
  {
    if steps == [] then s else End(Apply(s, steps[0]), steps[1..])
  }

  /** The drop has returned. */
  predicate Dropped(s: State) {
    s.phase == Joining(|s.workers|)
  }

  // --- Every task is in exactly one place ----------------------------------------------------------------------------

  function Places(s: State, k: nat): nat {
    Count(s.jobs, IsTask(k)) + Count(s.workers, IsRunning(k)) + s.done[k]
  }

  ghost predicate Conserved(s: State) {
    forall k: nat :: Places(s, k) == if k < s.submitted then 1 else 0
  }

  lemma StepConserved(s: State, step: Step)
    requires Enabled(s, step) && Conserved(s)
    ensures Conserved(Apply(s, step))
  {
    var s' := Apply(s, step);
    forall k: nat ensures Places(s', k) == if k < s'.submitted then 1 else 0 {
      assert Places(s, k) == if k < s.submitted then 1 else 0;
      match step
      case Submit => CountAppend(s.jobs, Task(s.submitted), IsTask(k));
      case SendStop => CountAppend(s.jobs, Stop, IsTask(k));
      case Receive(w) => CountUpdate(s.workers, w, s'.workers[w], IsRunning(k));
      case Finish(w) => CountUpdate(s.workers, w, Waiting, IsRunning(k));
      case _ =>
    }
  }

  // --- The handshake -------------------------------------------------------------------------------------------------

  function Stops(s: State): nat { Count(s.jobs, IS_STOP) }

  function Live(s: State): nat { Count(s.workers, IS_LIVE) }

  function Left(s: State): nat { if s.phase.Stopping? then s.phase.left else 0 }

  predicate Late(j: Job, mark: nat) {
    j == Stop || j.id >= mark
  }

  /** Behind a Stop there are only Stops and tasks submitted after the drop began. */
  predicate StopsLast(s: State) {
    forall i, j :: 0 <= i < j < |s.jobs| && s.jobs[i] == Stop ==> Late(s.jobs[j], s.mark)
  }

  predicate Agreed(s: State) {
    && (s.phase.Open? ==> Stops(s) == 0 && Live(s) == |s.workers| && s.mark == 0)
    && (!s.phase.Open? ==> Stops(s) + Left(s) == Live(s))
    && (s.phase.Stopping? ==> s.phase.left > 0)
    && s.mark <= s.submitted
    && StopsLast(s)
    && (Live(s) < |s.workers| ==> forall i :: 0 <= i < |s.jobs| ==> Late(s.jobs[i], s.mark))
    && (|s.workers| == 0 ==> s.done == multiset{})
    && (s.phase.Joining? ==> s.phase.joined <= |s.workers|)
    && (s.phase.Joining? ==> forall w :: 0 <= w < s.phase.joined ==> s.workers[w] == Finished)
  }

  lemma ReceiveAgreed(s: State, w: nat)
    requires Enabled(s, Receive(w)) && Agreed(s)
    ensures Agreed(Apply(s, Receive(w)))
  {
    var s' := Apply(s, Receive(w));
    CountUpdate(s.workers, w, s'.workers[w], IS_LIVE);
    CountBound(s.workers, IS_LIVE);
    assert Stops(s) == (if s.jobs[0] == Stop then 1 else 0) + Stops(s');
    forall i | 0 <= i < |s'.jobs| ensures s'.jobs[i] == s.jobs[i + 1] {}
  }

  lemma StepAgreed(s: State, step: Step)
    requires Enabled(s, step) && Agreed(s)
    ensures Agreed(Apply(s, step))
  {
    match step
    case Submit => CountAppend(s.jobs, Task(s.submitted), IS_STOP);
    case SendStop => CountAppend(s.jobs, Stop, IS_STOP);
    case Receive(w) => ReceiveAgreed(s, w);
    case Finish(w) => CountUpdate(s.workers, w, Waiting, IS_LIVE);
    case Drop => CountZero(s.jobs, IS_STOP);
    case _ =>
  }

  lemma {:induction false} RunAgreed(s: State, steps: seq<Step>)
    requires Runs(s, steps) && Agreed(s) && Conserved(s)
    ensures Agreed(End(s, steps)) && Conserved(End(s, steps)) && |End(s, steps).workers| == |s.workers|
    decreases |steps|
  {
    if steps != [] {
      hide Enabled, Agreed, Conserved;
      StepAgreed(s, steps[0]);
      StepConserved(s, steps[0]);
      RunAgreed(Apply(s, steps[0]), steps[1..]);
    }
  }

  lemma InitAgreed(s: State)
    requires Init(s)
    ensures Agreed(s) && Conserved(s)
  {
    CountBound(s.workers, IS_LIVE);
    forall k: nat ensures Places(s, k) == 0 {
      CountZero(s.workers, IsRunning(k));
    }
  }

  /** When the drop returns, every task submitted before it began has run exactly once, unless there is no thread. */
  lemma DropRunsEverything(s: State, steps: seq<Step>, k: nat)
    requires Init(s) && Runs(s, steps)
    requires Dropped(End(s, steps)) && k < End(s, steps).mark
    ensures End(s, steps).done[k] == if |s.workers| > 0 then 1 else 0
  {
    InitAgreed(s);
    RunAgreed(s, steps);
    DroppedHasRun(End(s, steps), k);
  }

  lemma DroppedHasRun(s: State, k: nat)
    requires Agreed(s) && Conserved(s) && Dropped(s) && k < s.mark
    ensures s.done[k] == if |s.workers| > 0 then 1 else 0
  {
    assert Places(s, k) == 1;
    CountZero(s.workers, IS_LIVE);
    CountZero(s.workers, IsRunning(k));
    CountZero(s.jobs, IsTask(k));
  }

  /** No task ever runs twice, dropped or not. */
  lemma NothingRunsTwice(s: State, steps: seq<Step>, k: nat)
    requires Init(s) && Runs(s, steps)
    ensures var e := End(s, steps); Count(e.workers, IsRunning(k)) + e.done[k] <= 1
  {
    InitAgreed(s);
    RunAgreed(s, steps);
    assert Places(End(s, steps), k) <= 1;
  }

  /** The drop cannot hang as long as tasks end: until it has returned, a Stop, a job, a task or a join can go on. */
  lemma DropCannotHang(s: State) returns (step: Step)
    requires Agreed(s) && !s.phase.Open? && !Dropped(s)
    ensures Enabled(s, step) && !step.Submit?
  {
    if s.phase.Stopping? {
      return SendStop;
    }
    CountZero(s.workers, IS_LIVE);
    if Live(s) == 0 {
      return Join;
    }
    var w :| 0 <= w < |s.workers| && s.workers[w] != Finished;
    if s.workers[w] == Waiting {
      CountZero(s.jobs, IS_STOP);
      return Receive(w);
    }
    return Finish(w);
  }

  // --- How long the drop can take ------------------------------------------------------------------------------------

  /** The jobs up to and with the last Stop. */
  function UpToStop(jobs: seq<Job>): (n: nat)
    ensures n <= |jobs| && (n > 0 ==> jobs[n - 1] == Stop) && Stop !in jobs[n..]
  {
    if jobs == [] then 0
    else if jobs[|jobs| - 1] == Stop then |jobs|
    else
      var n := UpToStop(jobs[..|jobs| - 1]);
      assert jobs[n..] == jobs[..|jobs| - 1][n..] + [jobs[|jobs| - 1]];
      n
  }

  /** The jobs some thread may still take: as long as Stops are to come, all that are queued. */
  function Ahead(s: State): nat {
    if s.phase.Joining? then UpToStop(s.jobs) else |s.jobs|
  }

  const IS_RUNNING: Worker -> bool := (w: Worker) => w.Running?

  function Unjoined(s: State): nat {
    if s.phase.Joining? && s.phase.joined <= |s.workers| then |s.workers| - s.phase.joined else |s.workers|
  }

  /** What is left to do for a drop. */
  function Measure(s: State): nat {
    3 * Left(s) + 2 * Ahead(s) + Count(s.workers, IS_RUNNING) + Unjoined(s)
  }

  lemma {:induction false} UpToStopTail(jobs: seq<Job>)
    requires jobs != [] && UpToStop(jobs) > 0
    ensures UpToStop(jobs[1..]) == UpToStop(jobs) - 1
  {
    var n := |jobs| - 1;
    if jobs[n] != Stop {
      assert jobs[1..][..n - 1] == jobs[..n][1..];
      UpToStopTail(jobs[..n]);
    } else if n == 0 {
      assert jobs[1..] == [];
    }
  }

  lemma UpToStopMore(jobs: seq<Job>, k: nat)
    ensures UpToStop(jobs + [Task(k)]) == UpToStop(jobs) && UpToStop(jobs + [Stop]) == |jobs| + 1
  {
    assert (jobs + [Task(k)])[..|jobs|] == jobs;
  }

  /** While a thread is waiting after the last Stop was sent, there is a Stop for it in the channel. */
  lemma StopForWaiting(s: State, w: nat)
    requires Agreed(s) && s.phase.Joining? && w < |s.workers| && s.workers[w] != Finished
    ensures UpToStop(s.jobs) > 0
  {
    CountMember(s.workers, w, IS_LIVE);
    if UpToStop(s.jobs) == 0 {
      assert s.jobs[0..] == s.jobs;
      CountZero(s.jobs, IS_STOP);
    }
  }

  lemma ReceiveMeasure(s: State, w: nat)
    requires Enabled(s, Receive(w)) && Agreed(s) && !s.phase.Open?
    ensures Measure(Apply(s, Receive(w))) < Measure(s)
  {
    CountUpdate(s.workers, w, Apply(s, Receive(w)).workers[w], IS_RUNNING);
    if s.phase.Joining? {
      StopForWaiting(s, w);
      UpToStopTail(s.jobs);
    }
  }

  /** Once the drop has begun, all steps but submits use up the measure; a submit adds only until all Stops are out. */
  lemma StepMeasure(s: State, step: Step)
    requires Enabled(s, step) && Agreed(s) && !s.phase.Open?
    ensures !Apply(s, step).phase.Open?
    ensures !step.Submit? ==> Measure(Apply(s, step)) < Measure(s)
    ensures step.Submit? ==> Measure(Apply(s, step)) == Measure(s) + if s.phase.Stopping? then 2 else 0
  {
    match step
    case Submit => UpToStopMore(s.jobs, s.submitted);
    case SendStop => UpToStopMore(s.jobs, 0);
    case Receive(w) => ReceiveMeasure(s, w);
    case Finish(w) => CountUpdate(s.workers, w, Waiting, IS_RUNNING);
    case _ =>
  }

  /** How many steps are the pool's own, and how many are submits that come while Stops are still being sent. */
  function Work(steps: seq<Step>): nat {
    if steps == [] then 0 else (if steps[0].Submit? then 0 else 1) + Work(steps[1..])
  }

  function LateSubmits(s: State, steps: seq<Step>): nat
    requires Runs(s, steps)
    decreases |steps|
  {
    if steps == [] then 0
    else (if steps[0].Submit? && s.phase.Stopping? then 1 else 0) + LateSubmits(Apply(s, steps[0]), steps[1..])
  }

  /**
   The drop is bounded: whatever is submitted meanwhile and however the threads interleave, the steps of the pool are at
   most the measure at its start and two more for each task submitted before the last Stop is out.
   */
  lemma {:induction false} DropIsBounded(s: State, steps: seq<Step>)
    requires Runs(s, steps) && Agreed(s) && !s.phase.Open?
    ensures Agreed(End(s, steps)) && !End(s, steps).phase.Open?
    ensures Work(steps) + Measure(End(s, steps)) <= Measure(s) + 2 * LateSubmits(s, steps)
    decreases |steps|
  {
    if steps != [] {
      hide Enabled, Apply, Agreed, Measure;
      StepAgreed(s, steps[0]);
      StepMeasure(s, steps[0]);
      DropIsBounded(Apply(s, steps[0]), steps[1..]);
    }
  }

  /** From where the drop begins, in any run: when nothing but a submit is possible any more, the drop has returned. */
  lemma DropReturns(s: State, before: seq<Step>, after: seq<Step>)
    requires Init(s) && Runs(s, before) && End(s, before).phase == Open
    requires Runs(Apply(End(s, before), Drop), after)
    ensures var d := Apply(End(s, before), Drop);
            && Work(after) <= Measure(d) + 2 * LateSubmits(d, after)
            && ((forall step :: Enabled(End(d, after), step) ==> step.Submit?) ==> Dropped(End(d, after)))
  {
    hide Enabled, Agreed, Measure, Conserved;
    InitAgreed(s);
    RunAgreed(s, before);
    var open := End(s, before);
    DropBegins(open);
    var d := Apply(open, Drop);
    StepAgreed(open, Drop);
    DropIsBounded(d, after);
    if !Dropped(End(d, after)) {
      var step := DropCannotHang(End(d, after));
    }
  }

  lemma DropBegins(s: State)
    requires s.phase == Open
    ensures Enabled(s, Drop) && !Apply(s, Drop).phase.Open?
  {
  }
}
