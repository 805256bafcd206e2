/** Where the results of a batch connection test come from. */
module BatchOrigin {
  import opened BatchJob
  import opened BatchRun
  import opened BatchSafety

  /** The result of a test that never started, or was given up. */
  predicate GivenUp(item: Item, hostId: int) {
    && item.hostId == hostId && item.status == Cancelled && item.errorCode == "CANCELLED"
    && item.message == "connection test was cancelled"
    && item.latencyMs == 0 && item.serverVersion == "" && item.authMethod == ""
  }

  /** The result of a target whose connection could not be resolved: its own error, and no test. */
  predicate Unresolved(item: Item, t: Target) {
    && t.errorCode != ""
    && item.hostId == t.hostId && item.status == Failed && item.errorCode == t.errorCode && item.message == t.message
    && item.latencyMs == 0 && item.serverVersion == "" && item.authMethod == ""
  }

  /** Step a is the return of a test of target i, with this result. */
  predicate TestedAt(c: Config, states: seq<State>, steps: seq<Step>, a: nat, i: nat, item: Item)
    requires a < |steps| && |states| == |steps| + 1 && i < |c.targets|
  {
    && steps[a].TestReturns?
    && steps[a].worker < |states[a].workers| && states[a].workers[steps[a].worker] == Testing(i)
    && c.targets[i].errorCode == ""
    && item == TestedItem(c.targets[i].hostId, steps[a].reply, states[a].ctxDone)
  }

  /** Of the first k steps, one is the return of a test of target i with this result. */
  ghost predicate Tested(c: Config, states: seq<State>, steps: seq<Step>, k: nat, i: nat, item: Item)
    requires k <= |steps| && |states| == |steps| + 1 && i < |c.targets|
  {
    exists a :: 0 <= a < k && TestedAt(c, states, steps, a, i, item)
  }

  /** Step a gives target i up, because the context has fired: before its test starts, or before any worker has it. */
  predicate GivenUpAt(c: Config, states: seq<State>, steps: seq<Step>, a: nat, i: nat)
    requires a < |steps| && |states| == |steps| + 1
  {
    && states[a].ctxDone
    && (|| (steps[a].CancelRemaining? && states[a].dispatcher == Draining(i))
        || (steps[a].Check? && steps[a].worker < |states[a].workers| && states[a].workers[steps[a].worker] == Checking(i)))
  }

  ghost predicate Abandoned(c: Config, states: seq<State>, steps: seq<Step>, k: nat, i: nat)
    requires k <= |steps| && |states| == |steps| + 1
  {
    exists a :: 0 <= a < k && GivenUpAt(c, states, steps, a, i)
  }

  /** The three ways to a result for target i. */
  ghost predicate Origin(c: Config, states: seq<State>, steps: seq<Step>, k: nat, i: nat, item: Item)
    requires k <= |steps| && |states| == |steps| + 1 && i < |c.targets|
  {
    || (GivenUp(item, c.targets[i].hostId) && Abandoned(c, states, steps, k, i))
    || Unresolved(item, c.targets[i])
    || Tested(c, states, steps, k, i, item)
  }

  ghost predicate WorkerOrigin(c: Config, states: seq<State>, steps: seq<Step>, k: nat, w: Worker)
    requires k <= |steps| && |states| == |steps| + 1
  {
    match w
    case Testing(i) => i < |c.targets| ==> c.targets[i].errorCode == ""
    case Writing(i, item) => i < |c.targets| ==> Origin(c, states, steps, k, i, item)
    case Idle => true
    case Checking(_) => true
    case Exited => true
  }

  ghost predicate AllOrigins(c: Config, states: seq<State>, steps: seq<Step>, k: nat)
    requires k <= |steps| && |states| == |steps| + 1
  {
    && (forall w :: 0 <= w < |states[k].workers| ==> WorkerOrigin(c, states, steps, k, states[k].workers[w]))
    && (forall i :: 0 <= i < |c.targets| && i < |states[k].job.items| && states[k].job.items[i].status != Pending ==>
          Origin(c, states, steps, k, i, states[k].job.items[i]))
  }

  // ---------- an origin stays one ----------

  lemma {:induction false} OriginStays(c: Config, states: seq<State>, steps: seq<Step>, k: nat, i: nat, item: Item)
    requires IsRun(c, states, steps) && k < |steps| && i < |c.targets| && Origin(c, states, steps, k, i, item)
    ensures Origin(c, states, steps, k + 1, i, item)
  {
    hide GivenUp, GivenUpAt, Unresolved, TestedAt, Apply, Enabled, Sized, Init;
  }

  lemma {:induction false} WorkerStays(c: Config, states: seq<State>, steps: seq<Step>, k: nat, w: Worker)
    requires IsRun(c, states, steps) && k < |steps| && WorkerOrigin(c, states, steps, k, w)
    ensures WorkerOrigin(c, states, steps, k + 1, w)
  {
    hide IsRun, Origin;
    if w.Writing? && w.index < |c.targets| {
      OriginStays(c, states, steps, k, w.index, w.item);
    }
  }

  /** A worker that checks its target starts a test only if the target is resolved, and else has a result of its own. */
  lemma {:induction false} CheckOrigin(c: Config, states: seq<State>, steps: seq<Step>, k: nat)
    requires IsRun(c, states, steps) && k < |steps| && steps[k].Check?
    ensures steps[k].worker < |states[k + 1].workers|
    ensures WorkerOrigin(c, states, steps, k + 1, states[k + 1].workers[steps[k].worker])
  {
    hide Init, TestedItem, WithItem, WithEnd, Tested;
    var i := states[k].workers[steps[k].worker].index;
    assert states[k].ctxDone ==> GivenUpAt(c, states, steps, k, i);
  }

  lemma {:induction false} ReturnOrigin(c: Config, states: seq<State>, steps: seq<Step>, k: nat)
    requires IsRun(c, states, steps) && k < |steps| && steps[k].TestReturns?
    requires steps[k].worker < |states[k].workers| && WorkerOrigin(c, states, steps, k, states[k].workers[steps[k].worker])
    ensures steps[k].worker < |states[k + 1].workers|
    ensures WorkerOrigin(c, states, steps, k + 1, states[k + 1].workers[steps[k].worker])
  {
    hide Init, TestedItem, WithItem, WithEnd, GivenUp, Unresolved;
    var w := steps[k].worker;
    var i := states[k].workers[w].index;
    assert TestedAt(c, states, steps, k, i, states[k + 1].workers[w].item);
  }

  /** A step leaves a worker as it is, unless it is the worker's own; and only checks and returns make results or tests. */
  lemma StepWorkers(c: Config, s: State, step: Step, w: nat)
    requires Sized(c, s) && Enabled(c, s, step) && w < |s.workers|
    ensures var s' := Apply(c, s, step);
            && |s'.workers| == |s.workers|
            && (s'.workers[w] == s.workers[w] || s'.workers[w].Idle? || s'.workers[w].Checking? || s'.workers[w].Exited?
                || (step.Check? && step.worker == w) || (step.TestReturns? && step.worker == w))
  {
    hide TestedItem, WithItem, WithEnd;
  }

  lemma {:induction false} StepWorkerOrigin(c: Config, states: seq<State>, steps: seq<Step>, k: nat, w: nat)
    requires IsRun(c, states, steps) && k < |steps| && w < |states[k].workers|
    requires WorkerOrigin(c, states, steps, k, states[k].workers[w])
    ensures w < |states[k + 1].workers| && WorkerOrigin(c, states, steps, k + 1, states[k + 1].workers[w])
  {
    RunStep(c, states, steps, k);
    hide IsRun, Origin, Apply, Enabled, Sized;
    StepWorkers(c, states[k], steps[k], w);
    if steps[k].Check? && steps[k].worker == w {
      CheckOrigin(c, states, steps, k);
    } else if steps[k].TestReturns? && steps[k].worker == w {
      ReturnOrigin(c, states, steps, k);
    } else if states[k + 1].workers[w] == states[k].workers[w] {
      WorkerStays(c, states, steps, k, states[k].workers[w]);
    }
  }

  lemma RunStep(c: Config, states: seq<State>, steps: seq<Step>, k: nat)
    requires IsRun(c, states, steps) && k < |steps|
    ensures |states| == |steps| + 1
    ensures Sized(c, states[k]) && Enabled(c, states[k], steps[k]) && states[k + 1] == Apply(c, states[k], steps[k])
  {
    hide Apply, Enabled, Sized, Init;
  }

  // ---------- results in the job ----------

  /** A step changes an item only by writing the result of a worker, or by giving the target up. */
  lemma StepItems(c: Config, s: State, step: Step, i: nat)
    requires Inv(c, s) && Enabled(c, s, step) && i < |c.targets|
    ensures var s' := Apply(c, s, step);
            && |s'.job.items| == |s.job.items| == |c.targets|
            && (|| s'.job.items[i] == s.job.items[i]
                || (step.Write? && s.workers[step.worker].index == i && s'.job.items[i] == s.workers[step.worker].item)
                || (step.CancelRemaining? && s.dispatcher == Draining(i) && s.ctxDone
                    && s'.job.items[i] == CancelledItem(c.targets[i].hostId)))
  {
    hide TestedItem, Consistent, HeldOk, PendingOk, UnpassedOk, RecordsOk;
  }

  lemma {:induction false} StepItemOrigin(c: Config, states: seq<State>, steps: seq<Step>, k: nat, i: nat)
    requires IsRun(c, states, steps) && k < |steps| && i < |c.targets| && AllOrigins(c, states, steps, k)
    requires i < |states[k + 1].job.items| && states[k + 1].job.items[i].status != Pending
    ensures Origin(c, states, steps, k + 1, i, states[k + 1].job.items[i])
  {
    RunStep(c, states, steps, k);
    RunInv(c, states, steps, k);
    InvSized(c, states[k]);
    StepItems(c, states[k], steps[k], i);
    var s, s', step := states[k], states[k + 1], steps[k];
    hide IsRun, Inv, Sized, Apply;
    if s'.job.items[i] == s.job.items[i] {
      hide Origin;
      OriginStays(c, states, steps, k, i, s.job.items[i]);
    } else if step.Write? && s.workers[step.worker].index == i && s'.job.items[i] == s.workers[step.worker].item {
      hide Origin;
      assert WorkerOrigin(c, states, steps, k, s.workers[step.worker]);
      OriginStays(c, states, steps, k, i, s.workers[step.worker].item);
    } else {
      hide Tested, Unresolved;
      assert GivenUpAt(c, states, steps, k, i);
    }
  }

  lemma InvSized(c: Config, s: State)
    requires Inv(c, s)
    ensures Sized(c, s) && |s.job.items| == |c.targets|
  {
  }

  lemma {:induction false} StartOrigins(c: Config, states: seq<State>, steps: seq<Step>)
    requires IsRun(c, states, steps)
    ensures AllOrigins(c, states, steps, 0)
  {
    hide Sized, Enabled, Apply, Origin;
  }

  /** Along every run each result, written or still in the hands of a worker, comes from one of the three ways. */
  lemma {:induction false} ResultsHaveOrigins(c: Config, states: seq<State>, steps: seq<Step>, k: nat)
    requires IsRun(c, states, steps) && k <= |steps|
    ensures AllOrigins(c, states, steps, k)
  {
    if k == 0 {
      StartOrigins(c, states, steps);
    } else {
      hide IsRun, Origin, WorkerOrigin;
      RunStep(c, states, steps, k - 1);
      ResultsHaveOrigins(c, states, steps, k - 1);
      forall w | 0 <= w < |states[k].workers| ensures WorkerOrigin(c, states, steps, k, states[k].workers[w]) {
        SameWorkers(c, states[k - 1], steps[k - 1]);
        StepWorkerOrigin(c, states, steps, k - 1, w);
      }
      forall i | 0 <= i < |c.targets| && i < |states[k].job.items| && states[k].job.items[i].status != Pending
        ensures Origin(c, states, steps, k, i, states[k].job.items[i])
      {
        StepItemOrigin(c, states, steps, k - 1, i);
      }
    }
  }

  lemma SameWorkers(c: Config, s: State, step: Step)
    requires Sized(c, s) && Enabled(c, s, step)
    ensures |Apply(c, s, step).workers| == |s.workers|
  {
    hide TestedItem, WithItem, WithEnd;
  }

  /** An item without a result names its host, and nothing else. */
  predicate Untouched(item: Item, t: Target) {
    item.hostId == t.hostId && item.latencyMs == 0
    && item.serverVersion == item.authMethod == item.errorCode == item.message == ""
  }

  lemma {:induction false} StepUntouched(c: Config, s: State, step: Step, i: nat)
    requires Inv(c, s) && Enabled(c, s, step) && i < |c.targets|
    requires s.job.items[i].status == Pending ==> Untouched(s.job.items[i], c.targets[i])
    ensures |Apply(c, s, step).job.items| == |c.targets|
    ensures Apply(c, s, step).job.items[i].status == Pending ==> Untouched(Apply(c, s, step).job.items[i], c.targets[i])
  {
    StepItems(c, s, step, i);
    if step.Write? {
      assert s.workers[step.worker].item.status != Pending;
    }
    hide TestedItem, WithItem, WithEnd, Consistent, PendingOk, UnpassedOk, RecordsOk, PhaseOk, Apply, Untouched;
  }

  lemma {:induction false} PendingIsUntouched(c: Config, states: seq<State>, steps: seq<Step>, k: nat, i: nat)
    requires IsRun(c, states, steps) && k <= |steps| && i < |c.targets|
    ensures |states[k].job.items| == |c.targets|
    ensures states[k].job.items[i].status == Pending ==> Untouched(states[k].job.items[i], c.targets[i])
  {
    if k > 0 {
      RunStep(c, states, steps, k - 1);
      RunInv(c, states, steps, k - 1);
      PendingIsUntouched(c, states, steps, k - 1, i);
      hide IsRun, Inv, Apply, Enabled;
      StepUntouched(c, states[k - 1], steps[k - 1], i);
    }
  }

  /**
   * Whoever reads the job: a result is that of a given-up target, after the context fired; or the target's own error, if it
   * could not be resolved; or what a test of this very target returned. A target that could not be resolved is never tested.
   */
  lemma {:induction false} ItemOrigin(c: Config, states: seq<State>, steps: seq<Step>, k: nat, i: nat)
    requires IsRun(c, states, steps) && k <= |steps| && i < |c.targets|
    ensures |states[k].job.items| == |c.targets|
    ensures states[k].job.items[i].status != Pending ==> Origin(c, states, steps, k, i, states[k].job.items[i])
    ensures states[k].job.items[i].status == Pending ==> Untouched(states[k].job.items[i], c.targets[i])
    ensures c.targets[i].errorCode != "" ==>
              forall w :: 0 <= w < |states[k].workers| ==> states[k].workers[w] != Testing(i)
  {
    RunInv(c, states, steps, k);
    InvSized(c, states[k]);
    ResultsHaveOrigins(c, states, steps, k);
    PendingIsUntouched(c, states, steps, k, i);
    hide IsRun, Inv, Sized, Origin, Untouched;
  }

  // ---------- the status of the job ----------

  /** The context had fired when the workers were joined. */
  ghost predicate JoinedLate(states: seq<State>, steps: seq<Step>, k: nat)
    requires k <= |steps| && |states| == |steps| + 1
  {
    exists a :: 0 <= a < k && steps[a].Join? && states[a].ctxDone
  }

  ghost predicate JoinedYet(steps: seq<Step>, k: nat)
    requires k <= |steps|
  {
    exists a :: 0 <= a < k && steps[a].Join?
  }

  function EndStatus(late: bool, cancelled: nat): JobStatus {
    if late || cancelled > 0 then JobCancelled else JobCompleted
  }

  ghost predicate StatusOk(c: Config, states: seq<State>, steps: seq<Step>, k: nat)
    requires k <= |steps| && |states| == |steps| + 1
  {
    var s, late := states[k], JoinedLate(states, steps, k);
    && (JoinedYet(steps, k) ==> After(s.dispatcher))
    && (s.dispatcher.Recording? ==> s.dispatcher.cancelled == late)
    && (Ended(s.dispatcher) ==> s.job.status == EndStatus(late, s.job.cancelled))
  }

  /** How a step moves the end of the job on. */
  lemma StepEnd(c: Config, s: State, step: Step)
    requires Inv(c, s) && Enabled(c, s, step)
    ensures var s' := Apply(c, s, step);
            && (step.Join? ==> !After(s.dispatcher) && s'.dispatcher == Recording(s.ctxDone))
            && (After(s.dispatcher) ==> After(s'.dispatcher))
            && (!step.Join? && s'.dispatcher.Recording? ==> s'.dispatcher == s.dispatcher)
            && (Ended(s'.dispatcher) ==> !step.Join?)
            && (Ended(s.dispatcher) ==> s'.job == s.job)
            && (Ended(s'.dispatcher) && !Ended(s.dispatcher) ==>
                  && s.dispatcher.Recording? && s'.job.cancelled == s.job.cancelled
                  && s'.job.status == EndStatus(s.dispatcher.cancelled, s.job.cancelled))
  {
    hide TestedItem, Consistent, HeldOk, PendingOk, UnpassedOk, RecordsOk;
  }

  lemma {:induction false} LateNext(states: seq<State>, steps: seq<Step>, k: nat)
    requires k < |steps| && |states| == |steps| + 1
    ensures JoinedLate(states, steps, k + 1) <==> JoinedLate(states, steps, k) || (steps[k].Join? && states[k].ctxDone)
    ensures JoinedYet(steps, k + 1) <==> JoinedYet(steps, k) || steps[k].Join?
    ensures JoinedLate(states, steps, k) ==> JoinedYet(steps, k)
  {
  }

  lemma {:induction false} StatusNext(c: Config, states: seq<State>, steps: seq<Step>, k: nat)
    requires IsRun(c, states, steps) && k < |steps| && StatusOk(c, states, steps, k)
    ensures StatusOk(c, states, steps, k + 1)
  {
    RunStep(c, states, steps, k);
    RunInv(c, states, steps, k);
    StepEnd(c, states[k], steps[k]);
    LateNext(states, steps, k);
    hide IsRun, Inv, Apply, Enabled, JoinedLate, JoinedYet;
  }

  lemma {:induction false} StatusAlways(c: Config, states: seq<State>, steps: seq<Step>, k: nat)
    requires IsRun(c, states, steps) && k <= |steps|
    ensures StatusOk(c, states, steps, k)
  {
    if k > 0 {
      hide IsRun, StatusOk;
      StatusAlways(c, states, steps, k - 1);
      StatusNext(c, states, steps, k - 1);
    }
  }

  /** A job ends cancelled exactly when an item is, or when the context had fired by the time the workers were joined. */
  lemma {:induction false} StatusTruth(c: Config, states: seq<State>, steps: seq<Step>, k: nat)
    requires IsRun(c, states, steps) && k <= |steps| && Ended(states[k].dispatcher)
    ensures states[k].job.status == JobCancelled
            <==> || (exists i :: 0 <= i < |states[k].job.items| && states[k].job.items[i].status == Cancelled)
                 || JoinedLate(states, steps, k)
    ensures states[k].job.status == JobCancelled || states[k].job.status == JobCompleted
  {
    StatusAlways(c, states, steps, k);
    RunInv(c, states, steps, k);
    SomeCounted(states[k].job.items, Cancelled);
    hide IsRun, Sized, HeldOk, PendingOk, UnpassedOk, RecordsOk, PhaseOk, JoinedLate, JoinedYet;
  }
}
