/** The thread pool as the object it is, and that its methods are runs of the pool's state machine (src/pool.rs). */
module PoolObject {
  import opened Pool

  function StopJobs(n: nat): (jobs: seq<Job>)
    ensures |jobs| == n && forall i :: 0 <= i < n ==> jobs[i] == Job.Stop
  {
    seq(n, _ => Job.Stop)
  }

  /** The drop before its joins: one Stop per thread behind whatever is queued. */
  function AllTold(s: State): State {
    s.(jobs := s.jobs + StopJobs(|s.workers|), phase := Joining(0), mark := s.submitted)
  }

  function Worked(s: State, w: nat): State
    requires Enabled(s, Receive(w))
  {
    var taken := Apply(s, Receive(w));
    if s.jobs[0].Task? then Apply(taken, Finish(w)) else taken
  }

  class ThreadPool {
    var jobs: seq<Job>
    var workers: seq<Worker>
    var phase: Phase
    var submitted: nat
    var mark: nat
    var done: multiset<nat>

    function View(): State
      reads this
    {
      State(jobs, workers, phase, submitted, mark, done)
    }

    constructor (size: nat)
      ensures Init(View()) && |workers| == size
    {
      jobs, workers, phase := [], seq(size, _ => Waiting), Open;
      submitted, mark, done := 0, 0, multiset{};
    }

    /** `submit`, and the closures `link` hands out. */
    method Submit()
      modifies this
      ensures View() == Apply(old(View()), Step.Submit)
    {
      jobs := jobs + [Task(submitted)];
      submitted := submitted + 1;
    }

    /** The first loop of the drop. */
    method TellAll()
      requires phase == Open
      modifies this
      ensures View() == AllTold(old(View()))
    {
      mark := submitted;
      phase := Closing(|workers|);
      var told := 0;
      while told < |workers|
        invariant told <= |workers|
        invariant View() ==
          old(View()).(jobs := old(jobs) + StopJobs(told), mark := submitted, phase := Closing(|workers| - told))
      {
        jobs := jobs + [Job.Stop];
        told := told + 1;
        phase := Closing(|workers| - told);
        assert StopJobs(told) == StopJobs(told - 1) + [Job.Stop];
      }
    }

    /** A thread takes the job at the head of the channel; a Stop ends it. */
    method Receive(w: nat) returns (stay: bool)
      requires Enabled(View(), Step.Receive(w))
      modifies this`jobs, this`workers
      ensures View() == Apply(old(View()), Step.Receive(w))
      ensures stay == old(jobs)[0].Task?
    {
      var job := jobs[0];
      jobs := jobs[1..];
      match job {
        case Task(k) =>
          workers := workers[w := Running(k)];
          stay := true;
        case Stop =>
          workers := workers[w := Finished];
          stay := false;
      }
    }

    /** The task of a thread is over, whether it returned or panicked. */
    method Finish(w: nat)
      requires Enabled(View(), Step.Finish(w))
      modifies this`workers, this`done
      ensures View() == Apply(old(View()), Step.Finish(w))
    {
      done := done + multiset{workers[w].id};
      workers := workers[w := Waiting];
    }

    /** One turn of a thread that nobody disturbs. */
    method Work(w: nat) returns (stay: bool)
      requires Enabled(View(), Step.Receive(w))
      modifies this
      ensures View() == Worked(old(View()), w)
      ensures stay == old(jobs)[0].Task?
    {
      stay := Receive(w);
      if stay {
        Finish(w);
      }
    }

    /** While the drop waits in a join, some thread takes a job or ends one; which of them is open. */
    method Elsewhere()
      requires exists w: nat :: CanAct(View(), w)
      modifies this`jobs, this`workers, this`done
      ensures exists step :: ThreadTakes(old(View()), step, View())
    {
      var w: nat :| w < |workers| && CanAct(View(), w);
      if workers[w] == Waiting {
        var _ := Receive(w);
        assert ThreadTakes(old(View()), Step.Receive(w), View());
      } else {
        Finish(w);
        assert ThreadTakes(old(View()), Step.Finish(w), View());
      }
    }

    /** The second loop of the drop: each join waits, while the threads act, until its thread has come to its end. */
    method JoinAll()
      requires phase == Joining(0) && Agreed(View()) && Conserved(View())
      modifies this
      ensures Dropped(View()) && Agreed(View()) && Conserved(View())
      ensures mark == old(mark) && submitted == old(submitted) && |workers| == old(|workers|)
    {
      hide Agreed, Conserved, Measure, Apply, Enabled;
      var next := 0;
      while next < |workers|
        invariant next <= |workers| && phase == Joining(next)
        invariant Agreed(View()) && Conserved(View())
        invariant mark == old(mark) && submitted == old(submitted) && |workers| == old(|workers|)
      {
        while workers[next] != Finished
          invariant next < |workers| && phase == Joining(next)
          invariant Agreed(View()) && Conserved(View())
          invariant mark == old(mark) && submitted == old(submitted) && |workers| == old(|workers|)
          decreases Measure(View())
        {
          ghost var before := View();
          SomebodyCanAct(before, next);
          Elsewhere();
          ghost var step :| ThreadTakes(before, step, View());
          ThreadStep(before, step);
        }
        JoinStep(View());
        next := next + 1;
        phase := Joining(next);
      }
    }

    /** `Drop`: when it returns, and it does, all that was submitted before has run once, if there is any thread. */
    method Drop()
      requires phase == Open && Agreed(View()) && Conserved(View())
      modifies this
      ensures Dropped(View()) && Agreed(View()) && Conserved(View()) && |workers| == old(|workers|)
      ensures forall k: nat :: k < old(submitted) ==> done[k] == if |workers| > 0 then 1 else 0
    {
      hide Agreed, Conserved;
      AllToldAgreed(View());
      TellAll();
      JoinAll();
      forall k: nat | k < old(submitted) ensures done[k] == if |workers| > 0 then 1 else 0 {
        DroppedHasRun(View(), k);
      }
    }
  }

  /** A thread that has a task, or is waiting and has something to wait for. */
  predicate CanAct(s: State, w: nat) {
    Enabled(s, Step.Receive(w)) || Enabled(s, Step.Finish(w))
  }

  predicate ThreadTakes(s: State, step: Step, s': State) {
    (step.Receive? || step.Finish?) && Enabled(s, step) && s' == Apply(s, step)
  }

  lemma SomebodyCanAct(s: State, w: nat)
    requires Agreed(s) && s.phase.Joining? && w < |s.workers| && s.workers[w] != Finished
    ensures exists v: nat :: CanAct(s, v)
  {
    if s.workers[w] == Waiting {
      StopForWaiting(s, w);
    }
    assert CanAct(s, w);
  }

  /** What a step of a thread keeps, and that it brings the end of the drop nearer. */
  lemma ThreadStep(s: State, step: Step)
    requires Enabled(s, step) && (step.Receive? || step.Finish?) && Agreed(s) && Conserved(s) && s.phase.Joining?
    ensures var s' := Apply(s, step);
            && Agreed(s') && Conserved(s') && Measure(s') < Measure(s)
            && s'.phase == s.phase && s'.mark == s.mark && s'.submitted == s.submitted && |s'.workers| == |s.workers|
  {
    hide Agreed, Conserved, Measure;
    StepAgreed(s, step);
    StepConserved(s, step);
    StepMeasure(s, step);
  }

  lemma JoinStep(s: State)
    requires Agreed(s) && Conserved(s) && s.phase.Joining? && s.phase.joined < |s.workers|
    requires s.workers[s.phase.joined] == Finished
    ensures var s' := s.(phase := Joining(s.phase.joined + 1)); Agreed(s') && Conserved(s')
  {
    hide Agreed, Conserved;
    StepAgreed(s, Join);
    StepConserved(s, Join);
  }

  lemma AllToldAgreed(s: State)
    requires s.phase == Open && Agreed(s) && Conserved(s)
    ensures Agreed(AllTold(s)) && Conserved(AllTold(s))
  {
    hide Agreed, Conserved, Runs, End;
    TellAllIsRun(s);
    RunAgreed(s, [Step.Drop] + Telling(|s.workers|));
  }

  // --- The methods and the state machine -----------------------------------------------------------------------------

  function Telling(n: nat): (steps: seq<Step>)
    ensures |steps| == n && forall i :: 0 <= i < n ==> steps[i] == SendStop
  {
    seq(n, _ => SendStop)
  }

  lemma {:induction false} TellingIsRun(s: State, n: nat)
    requires s.phase == Closing(n)
    ensures Runs(s, Telling(n))
    ensures End(s, Telling(n)) == s.(jobs := s.jobs + StopJobs(n), phase := Joining(0))
    decreases n
  {
    if n == 0 {
      assert s.jobs + StopJobs(0) == s.jobs;
    } else {
      var next := Apply(s, SendStop);
      assert Telling(n)[1..] == Telling(n - 1);
      TellingIsRun(next, n - 1);
      assert s.jobs + [Job.Stop] + StopJobs(n - 1) == s.jobs + StopJobs(n);
    }
  }

  /** The drop up to its joins is a run. */
  lemma TellAllIsRun(s: State)
    requires s.phase == Open
    ensures Runs(s, [Step.Drop] + Telling(|s.workers|)) && End(s, [Step.Drop] + Telling(|s.workers|)) == AllTold(s)
  {
    var steps := [Step.Drop] + Telling(|s.workers|);
    assert steps[0] == Step.Drop && steps[1..] == Telling(|s.workers|);
    TellingIsRun(Apply(s, Step.Drop), |s.workers|);
  }

  /** And so is a turn of a thread. */
  lemma WorkIsRun(s: State, w: nat) returns (steps: seq<Step>)
    requires Enabled(s, Receive(w))
    ensures Runs(s, steps) && End(s, steps) == Worked(s, w)
  {
    var taken := Apply(s, Receive(w));
    if s.jobs[0].Task? {
      One(taken, Finish(w));
      steps := [Receive(w), Finish(w)];
      assert steps[1..] == [Finish(w)];
    } else {
      One(s, Receive(w));
      steps := [Receive(w)];
    }
  }

  lemma One(s: State, step: Step)
    requires Enabled(s, step)
    ensures Runs(s, [step]) && End(s, [step]) == Apply(s, step)
  {
    hide Enabled, Apply;
    assert [step][1..] == [] && Runs(Apply(s, step), []);
  }
}
