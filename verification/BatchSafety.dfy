/** What every interleaving of the batch connection test keeps, and that every run ends. */
module BatchSafety {
  import opened Wrappers
  import opened BatchJob
  import opened BatchRun

  // ---------- the invariant ----------

  /** Targets below this index were handed to a worker or cancelled by the dispatcher. */
  function Passed(c: Config, d: Dispatcher): nat {
    if d.Sending? || d.Draining? then d.index else |c.targets|
  }

  predicate Holds(w: Worker, i: nat) {
    Busy(w) && w.index == i
  }

  ghost predicate Held(s: State, i: nat) {
    exists w :: 0 <= w < |s.workers| && Holds(s.workers[w], i)
  }

  /** No two workers hold the same target, and what they hold was passed and is still pending. */
  ghost predicate HeldOk(c: Config, s: State)
    requires Sized(c, s)
  {
    && (forall v, w :: 0 <= v < w < |s.workers| && Busy(s.workers[v]) && Busy(s.workers[w]) ==>
          s.workers[v].index != s.workers[w].index)
    && (forall w :: 0 <= w < |s.workers| && Busy(s.workers[w]) ==>
          s.workers[w].index < Passed(c, s.dispatcher) && s.job.items[s.workers[w].index].status == Pending)
    && (forall w :: 0 <= w < |s.workers| && s.workers[w].Writing? ==> s.workers[w].item.status != Pending)
  }

  /** A target is pending exactly when it was not passed yet or a worker holds it. */
  ghost predicate PendingOk(c: Config, s: State)
    requires Sized(c, s)
  {
    forall i :: 0 <= i < |c.targets| && s.job.items[i].status == Pending ==> i >= Passed(c, s.dispatcher) || Held(s, i)
  }

  ghost predicate UnpassedOk(c: Config, s: State)
    requires Sized(c, s)
  {
    forall i :: Passed(c, s.dispatcher) <= i < |c.targets| ==> s.job.items[i].status == Pending && s.records[i] == []
  }

  predicate Recordable(c: Config, item: Item) {
    c.recorder && item.status != Cancelled
  }

  /** The recorder was handed nothing, or exactly the one result that is or will be in the job. */
  ghost predicate RecordsOk(c: Config, s: State)
    requires Sized(c, s)
  {
    && (forall i :: 0 <= i < |c.targets| && s.job.items[i].status != Pending ==>
          s.records[i] == if Recordable(c, s.job.items[i]) then [s.job.items[i]] else [])
    && (forall w :: 0 <= w < |s.workers| && Busy(s.workers[w]) ==>
          s.records[s.workers[w].index] ==
          if s.workers[w].Writing? && Recordable(c, s.workers[w].item) then [s.workers[w].item] else [])
  }

  /** Facts tied to where the dispatcher stands. */
  predicate PhaseOk(c: Config, s: State)
    requires Sized(c, s)
  {
    && (s.dispatcher.Draining? ==> s.ctxDone)
    && (s.dispatcher.Joining? && s.dispatcher.drained ==> s.ctxDone)
    && (!QueueClosed(s.dispatcher) ==> forall w :: 0 <= w < |s.workers| ==> !s.workers[w].Exited?)
    && (After(s.dispatcher) ==> forall w :: 0 <= w < |s.workers| ==> s.workers[w].Exited?)
    && (Ended(s.dispatcher) ==> s.job.status != Running)
    && (!Ended(s.dispatcher) ==> s.job.status == Running && s.job.completedAt == None)
    && (s.job.status == JobCompleted ==> s.job.cancelled == 0)
    && (s.job.status == JobCancelled ==> s.ctxDone || s.job.cancelled > 0)
  }

  /** All workers have been joined. */
  predicate After(d: Dispatcher) {
    d.Recording? || Ended(d)
  }

  /** The end of the job has been recorded. */
  predicate Ended(d: Dispatcher) {
    d.Releasing? || d.ClosingDone? || d.Finished?
  }

  ghost predicate Inv(c: Config, s: State) {
    && Sized(c, s) && Consistent(s.job)
    && HeldOk(c, s) && PendingOk(c, s) && UnpassedOk(c, s) && RecordsOk(c, s) && PhaseOk(c, s)
    && (s.dispatcher.Recording? && s.dispatcher.cancelled ==> s.ctxDone)
  }

  lemma {:induction false} InitInv(c: Config)
    requires c.targets != [] && c.concurrency > 0
    ensures Inv(c, Init(c))
  {
    NewJobConsistent(HostIds(c.targets));
  }

  // ---------- every step keeps it ----------

  lemma {:induction false} NotPendingAfterTest(hostId: int, reply: Reply, ctxDone: bool)
    ensures TestedItem(hostId, reply, ctxDone).status != Pending
  {
  }

  lemma {:induction false} HeldKept(s: State, s': State, changed: nat)
    requires |s.workers| == |s'.workers| && changed < |s.workers|
    requires forall w :: 0 <= w < |s.workers| && w != changed ==> s'.workers[w] == s.workers[w]
    requires Busy(s.workers[changed]) ==> Busy(s'.workers[changed]) && s'.workers[changed].index == s.workers[changed].index
    ensures forall i :: Held(s, i) ==> Held(s', i)
  {
    forall i | Held(s, i) ensures Held(s', i) {
      var w :| 0 <= w < |s.workers| && Holds(s.workers[w], i);
      assert Holds(s'.workers[w], i);
    }
  }

  /** A step of one worker that keeps its target: check, test returned. */
  lemma {:induction false} WorkerKeeps(c: Config, s: State, s': State, w: nat)
    requires Inv(c, s) && w < |s.workers| && Busy(s.workers[w])
    requires |s'.workers| == |s.workers| && |s'.records| == |s.records|
    requires s'.job == s.job && s'.dispatcher == s.dispatcher && s'.ctxDone == s.ctxDone
    requires forall v :: 0 <= v < |s.workers| && v != w ==> s'.workers[v] == s.workers[v]
    requires Busy(s'.workers[w]) && s'.workers[w].index == s.workers[w].index
    requires s'.workers[w].Writing? ==> s'.workers[w].item.status != Pending
    requires !s.workers[w].Writing?
    requires forall i :: 0 <= i < |s.records| && i != s.workers[w].index ==> s'.records[i] == s.records[i]
    requires s'.records[s.workers[w].index] ==
             if s'.workers[w].Writing? && Recordable(c, s'.workers[w].item) then [s'.workers[w].item] else []
    ensures Inv(c, s')
  {
    HeldKept(s, s', w);
  }

  lemma {:induction false} CheckInv(c: Config, s: State, w: nat)
    requires Inv(c, s) && Enabled(c, s, Check(w))
    ensures Inv(c, Apply(c, s, Check(w)))
  {
    WorkerKeeps(c, s, Apply(c, s, Check(w)), w);
  }

  lemma {:induction false} TestReturnsInv(c: Config, s: State, w: nat, reply: Reply)
    requires Inv(c, s) && Enabled(c, s, TestReturns(w, reply))
    ensures Inv(c, Apply(c, s, TestReturns(w, reply)))
  {
    NotPendingAfterTest(c.targets[s.workers[w].index].hostId, reply, s.ctxDone);
    WorkerKeeps(c, s, Apply(c, s, TestReturns(w, reply)), w);
  }

  lemma {:induction false} SendHeld(c: Config, s: State, w: nat)
    requires Inv(c, s) && Enabled(c, s, Send(w))
    ensures var s' := Apply(c, s, Send(w)); Sized(c, s') && HeldOk(c, s') && PhaseOk(c, s')
  {
    hide Consistent, PendingOk, RecordsOk;
  }

  lemma {:induction false} SendRecords(c: Config, s: State, w: nat)
    requires Inv(c, s) && Enabled(c, s, Send(w)) && Sized(c, Apply(c, s, Send(w)))
    ensures var s' := Apply(c, s, Send(w)); UnpassedOk(c, s') && RecordsOk(c, s')
  {
    hide Consistent, PendingOk, PhaseOk;
  }

  lemma {:induction false} SendPending(c: Config, s: State, w: nat)
    requires Inv(c, s) && Enabled(c, s, Send(w)) && Sized(c, Apply(c, s, Send(w)))
    ensures PendingOk(c, Apply(c, s, Send(w)))
  {
    hide Consistent, HeldOk, UnpassedOk, RecordsOk, PhaseOk;
    var s' := Apply(c, s, Send(w));
    HeldKept(s, s', w);
    assert Holds(s'.workers[w], s.dispatcher.index);
  }

  lemma {:induction false} SendInv(c: Config, s: State, w: nat)
    requires Inv(c, s) && Enabled(c, s, Send(w))
    ensures Inv(c, Apply(c, s, Send(w)))
  {
    hide Consistent, HeldOk, PendingOk, UnpassedOk, RecordsOk, PhaseOk;
    SendHeld(c, s, w);
    SendRecords(c, s, w);
    SendPending(c, s, w);
  }

  /** After a result was written, what is still pending is unpassed or held. */
  lemma {:induction false} StillPendingOk(c: Config, s: State, s': State, i: nat, item: Item)
    requires Sized(c, s) && PendingOk(c, s) && Sized(c, s')
    requires i < |c.targets| && item.status != Pending && s'.job == WithItem(s.job, i, item)
    requires Passed(c, s.dispatcher) <= Passed(c, s'.dispatcher) <= Passed(c, s.dispatcher) + 1
    requires Passed(c, s'.dispatcher) > Passed(c, s.dispatcher) ==> i == Passed(c, s.dispatcher)
    requires |s'.workers| == |s.workers|
    requires forall w :: 0 <= w < |s.workers| && Busy(s.workers[w]) && s.workers[w].index != i ==> s'.workers[w] == s.workers[w]
    ensures PendingOk(c, s')
  {
    forall j | 0 <= j < |c.targets| && s'.job.items[j].status == Pending
      ensures j >= Passed(c, s'.dispatcher) || Held(s', j)
    {
      if j < Passed(c, s.dispatcher) {
        var v :| 0 <= v < |s.workers| && Holds(s.workers[v], j);
        assert Holds(s'.workers[v], j);
      }
    }
  }

  lemma {:induction false} WriteRecordsOk(c: Config, s: State, w: nat)
    requires Sized(c, s) && HeldOk(c, s) && RecordsOk(c, s) && Enabled(c, s, Write(w))
    ensures RecordsOk(c, Apply(c, s, Write(w)))
  {
  }

  lemma {:induction false} WriteHeldOk(c: Config, s: State, w: nat)
    requires Sized(c, s) && HeldOk(c, s) && UnpassedOk(c, s) && PhaseOk(c, s) && Enabled(c, s, Write(w))
    requires Sized(c, Apply(c, s, Write(w)))
    ensures HeldOk(c, Apply(c, s, Write(w))) && UnpassedOk(c, Apply(c, s, Write(w))) && PhaseOk(c, Apply(c, s, Write(w)))
  {
  }

  lemma {:induction false} WriteInv(c: Config, s: State, w: nat)
    requires Inv(c, s) && Enabled(c, s, Write(w))
    ensures Inv(c, Apply(c, s, Write(w)))
  {
    var s', i := Apply(c, s, Write(w)), s.workers[w].index;
    assert s'.job == WithItem(s.job, i, s.workers[w].item);
    WithItemConsistent(s.job, i, s.workers[w].item);
    StillPendingOk(c, s, s', i, s.workers[w].item);
    WriteRecordsOk(c, s, w);
    WriteHeldOk(c, s, w);
  }

  lemma {:induction false} CancelRemainingInv(c: Config, s: State)
    requires Inv(c, s) && Enabled(c, s, CancelRemaining)
    ensures Inv(c, Apply(c, s, CancelRemaining))
  {
    var s', i := Apply(c, s, CancelRemaining), s.dispatcher.index;
    WithItemConsistent(s.job, i, CancelledItem(c.targets[i].hostId));
    StillPendingOk(c, s, s', i, CancelledItem(c.targets[i].hostId));
  }

  lemma {:induction false} ExitInv(c: Config, s: State, w: nat)
    requires Inv(c, s) && Enabled(c, s, Exit(w))
    ensures Inv(c, Apply(c, s, Exit(w)))
  {
    HeldKept(s, Apply(c, s, Exit(w)), w);
  }

  /** Nothing but the dispatcher, the context and the end of the job changes, and no target is passed. */
  predicate SameWork(c: Config, s: State, s': State) {
    && s'.workers == s.workers && s'.records == s.records
    && s'.job == s.job.(status := s'.job.status, completedAt := s'.job.completedAt)
    && Passed(c, s'.dispatcher) == Passed(c, s.dispatcher)
  }

  lemma {:induction false} SameWorkInv(c: Config, s: State, s': State)
    requires Inv(c, s) && Sized(c, s') && SameWork(c, s, s')
    ensures Consistent(s'.job) && HeldOk(c, s') && PendingOk(c, s') && UnpassedOk(c, s') && RecordsOk(c, s')
  {
    forall i | Held(s, i) ensures Held(s', i) {
      var w :| 0 <= w < |s.workers| && Holds(s.workers[w], i);
      assert Holds(s'.workers[w], i);
    }
  }

  /** Steps of the dispatcher or the context alone. */
  predicate Quiet(step: Step) {
    step.ContextFires? || step.NoticeContext? || step.CloseQueue? || step.Join? || step.RecordJob?
    || step.ReleaseContext? || step.CloseDone?
  }

  lemma {:induction false} QuietInv(c: Config, s: State, step: Step)
    requires Inv(c, s) && Enabled(c, s, step) && Quiet(step)
    ensures Inv(c, Apply(c, s, step))
  {
    SameWorkInv(c, s, Apply(c, s, step));
  }

  lemma {:induction false} StepInv(c: Config, s: State, step: Step)
    requires Inv(c, s) && Enabled(c, s, step)
    ensures Inv(c, Apply(c, s, step))
  {
    match step
    case Send(w) => SendInv(c, s, w);
    case CancelRemaining => CancelRemainingInv(c, s);
    case Check(w) => CheckInv(c, s, w);
    case TestReturns(w, reply) => TestReturnsInv(c, s, w, reply);
    case Write(w) => WriteInv(c, s, w);
    case Exit(w) => ExitInv(c, s, w);
    case _ => QuietInv(c, s, step);
  }

  // ---------- no deadlock ----------

  /** Until `done` is closed some step other than the context firing can be taken, whatever the tests answer. */
  lemma {:induction false} NoDeadlock(c: Config, s: State, reply: Reply) returns (step: Step)
    requires Inv(c, s) && !s.dispatcher.Finished?
    ensures Enabled(c, s, step) && step != ContextFires
    ensures step.TestReturns? ==> step.reply == reply
  {
    if w :| 0 <= w < |s.workers| && Busy(s.workers[w]) {
      step := if s.workers[w].Checking? then Check(w) else if s.workers[w].Testing? then TestReturns(w, reply) else Write(w);
      return;
    }
    match s.dispatcher
    case Sending(i) =>
      step := if i < |c.targets| then Send(0) else CloseQueue;
    case Draining(i) =>
      step := if i < |c.targets| then CancelRemaining else CloseQueue;
    case Joining(_) =>
      if w :| 0 <= w < |s.workers| && s.workers[w].Idle? {
        step := Exit(w);
      } else {
        step := Join;
      }
    case Recording(_) => step := RecordJob(0);
    case Releasing => step := ReleaseContext;
    case ClosingDone => step := CloseDone;
  }

  // ---------- termination ----------

  function WorkerWork(w: Worker): nat {
    match w
    case Checking(_) => 4
    case Testing(_) => 3
    case Writing(_, _) => 2
    case Idle => 1
    case Exited => 0
  }

  function WorkersWork(ws: seq<Worker>): nat {
    if ws == [] then 0 else WorkerWork(ws[0]) + WorkersWork(ws[1..])
  }

  function DispatcherWork(c: Config, d: Dispatcher): int {
    match d
    case Sending(i) => 6 + 5 * (|c.targets| - i)
    case Draining(i) => 5 + 5 * (|c.targets| - i)
    case Joining(_) => 4
    case Recording(_) => 3
    case Releasing => 2
    case ClosingDone => 1
    case Finished => 0
  }

  /** An upper bound on the number of steps left. */
  function Work(c: Config, s: State): int {
    DispatcherWork(c, s.dispatcher) + WorkersWork(s.workers) + (if s.ctxDone then 0 else 1)
  }

  lemma {:induction false} WorkersWorkUpdate(ws: seq<Worker>, w: nat, v: Worker)
    requires w < |ws|
    ensures WorkersWork(ws[w := v]) == WorkersWork(ws) - WorkerWork(ws[w]) + WorkerWork(v)
  {
    if w == 0 {
      assert ws[w := v][1..] == ws[1..];
    } else {
      assert ws[w := v][1..] == ws[1..][w - 1 := v];
      WorkersWorkUpdate(ws[1..], w - 1, v);
    }
  }

  predicate OfWorker(step: Step) {
    step.Send? || step.Check? || step.TestReturns? || step.Write? || step.Exit?
  }

  lemma {:induction false} WorkerShrinksWork(c: Config, s: State, step: Step)
    requires Inv(c, s) && Enabled(c, s, step) && OfWorker(step)
    ensures 0 <= Work(c, Apply(c, s, step)) < Work(c, s)
  {
    hide Consistent, HeldOk, PendingOk, UnpassedOk, RecordsOk, WorkersWork;
    WorkersWorkUpdate(s.workers, step.worker, Apply(c, s, step).workers[step.worker]);
  }

  lemma {:induction false} OthersShrinkWork(c: Config, s: State, step: Step)
    requires Inv(c, s) && Enabled(c, s, step) && !OfWorker(step)
    ensures 0 <= Work(c, Apply(c, s, step)) < Work(c, s)
  {
    hide Consistent, HeldOk, PendingOk, UnpassedOk, RecordsOk, WorkersWork;
  }

  lemma {:induction false} StepShrinksWork(c: Config, s: State, step: Step)
    requires Inv(c, s) && Enabled(c, s, step)
    ensures 0 <= Work(c, Apply(c, s, step)) < Work(c, s)
  {
    hide Inv, Enabled, Apply, Work;
    if OfWorker(step) {
      WorkerShrinksWork(c, s, step);
    } else {
      OthersShrinkWork(c, s, step);
    }
  }

  lemma {:induction false} InitWork(c: Config, n: nat)
    ensures WorkersWork(seq(n, i => Idle)) == n
  {
    if n > 0 {
      assert seq(n, i => Idle)[1..] == seq(n - 1, i => Idle);
      InitWork(c, n - 1);
    }
  }

  // ---------- runs ----------

  /** A run: states joined by enabled steps, from the start of `run`. */
  ghost predicate IsRun(c: Config, states: seq<State>, steps: seq<Step>) {
    && c.targets != [] && c.concurrency > 0
    && |states| == |steps| + 1 && states[0] == Init(c)
    && forall k :: 0 <= k < |steps| ==>
         Sized(c, states[k]) && Enabled(c, states[k], steps[k]) && states[k + 1] == Apply(c, states[k], steps[k])
  }

  lemma {:induction false} RunInv(c: Config, states: seq<State>, steps: seq<Step>, k: nat)
    requires IsRun(c, states, steps) && k < |states|
    ensures Inv(c, states[k])
  {
    if k == 0 {
      InitInv(c);
    } else {
      RunInv(c, states, steps, k - 1);
      StepInv(c, states[k - 1], steps[k - 1]);
    }
  }

  /** Every run is short: five steps a target, one a worker and seven more at most. */
  lemma {:induction false} RunIsBounded(c: Config, states: seq<State>, steps: seq<Step>)
    requires IsRun(c, states, steps)
    ensures |steps| <= 5 * |c.targets| + Limit(c) + 7
  {
    RunWork(c, states, steps, |steps|);
    InitWork(c, Limit(c));
  }

  lemma {:induction false} RunWork(c: Config, states: seq<State>, steps: seq<Step>, k: nat)
    requires IsRun(c, states, steps) && k <= |steps|
    ensures 0 <= Work(c, states[k]) <= Work(c, states[0]) - k
  {
    if k > 0 {
      RunWork(c, states, steps, k - 1);
      RunInv(c, states, steps, k - 1);
      StepShrinksWork(c, states[k - 1], steps[k - 1]);
    }
  }

  /** What readers see of the job only moves forward. */
  predicate Forward(a: Job, b: Job) {
    && |a.items| == |b.items|
    && (forall i :: 0 <= i < |a.items| && a.items[i].status != Pending ==> b.items[i] == a.items[i])
    && a.progress <= b.progress
    && (a.status != Running ==> b == a)
  }

  lemma {:induction false} StepForward(c: Config, s: State, step: Step)
    requires Inv(c, s) && Enabled(c, s, step)
    ensures Forward(s.job, Apply(c, s, step).job)
  {
    if step.CancelRemaining? {
      var i := s.dispatcher.index;
      WithItemConsistent(s.job, i, CancelledItem(c.targets[i].hostId));
    } else if step.Write? {
      WithItemConsistent(s.job, s.workers[step.worker].index, s.workers[step.worker].item);
    }
  }

  /** Along every run an item leaves pending at most once and keeps its result, and the progress never drops. */
  lemma {:induction false} RunForward(c: Config, states: seq<State>, steps: seq<Step>, a: nat, b: nat)
    requires IsRun(c, states, steps) && a <= b < |states|
    ensures Forward(states[a].job, states[b].job)
    decreases b - a
  {
    hide Inv, Apply, Enabled, Sized, Init;
    if a < b {
      RunForward(c, states, steps, a, b - 1);
      RunInv(c, states, steps, b - 1);
      StepForward(c, states[b - 1], steps[b - 1]);
    }
  }

  /** The job when its end has been recorded: nothing pending, and a status that tells the truth about cancellation. */
  predicate FinalJob(c: Config, s: State) {
    && s.job.completed == s.job.total == |c.targets|
    && s.job.success + s.job.failed + s.job.cancelled == s.job.total
    && (forall i :: 0 <= i < |s.job.items| ==> s.job.items[i].status != Pending)
    && s.job.status != Running && s.job.progress == 100.0
    && ((exists i :: 0 <= i < |s.job.items| && s.job.items[i].status == Cancelled) ==> s.job.status == JobCancelled)
  }

  lemma {:induction false} AllDone(c: Config, s: State)
    requires Inv(c, s) && After(s.dispatcher)
    ensures forall i :: 0 <= i < |s.job.items| ==> s.job.items[i].status != Pending
    ensures s.job.completed == s.job.total
  {
    forall i | 0 <= i < |s.job.items| ensures s.job.items[i].status != Pending {
      assert !Held(s, i);
    }
    NonePending(s.job.items);
  }

  /** The end of the job is recorded only when every item has its result. */
  lemma {:induction false} EndedIsFinal(c: Config, s: State)
    requires Inv(c, s) && Ended(s.dispatcher)
    ensures FinalJob(c, s)
    ensures forall i :: 0 <= i < |c.targets| ==>
              s.records[i] == if Recordable(c, s.job.items[i]) then [s.job.items[i]] else []
  {
    AllDone(c, s);
    SomeCounted(s.job.items, Cancelled);
    FullProgress(s.job.total);
  }

  lemma {:induction false} FullProgress(n: nat)
    requires n > 0
    ensures Progress(n, n) == 100.0
  {
    var x := n as real;
    DivideBack(100.0, x);
    assert x * 100.0 == 100.0 * x;
  }

  lemma {:induction false} DivideBack(a: real, x: real)
    requires x > 0.0
    ensures a * x / x == a
  {
  }

  /**
   * A run that cannot go on has closed `done` with a final job; and once the end of the job is recorded - so
   * whenever `done` is seen closed, as by a successful cancel - no later state shows a different job.
   */
  lemma {:induction false} RunEnds(c: Config, states: seq<State>, steps: seq<Step>)
    requires IsRun(c, states, steps)
    ensures (forall step :: Sized(c, states[|steps|]) && Enabled(c, states[|steps|], step) ==> step == ContextFires) ==>
              states[|steps|].dispatcher.Finished? && FinalJob(c, states[|steps|])
    ensures forall a, b :: 0 <= a <= b < |states| && Ended(states[a].dispatcher) ==>
              FinalJob(c, states[a]) && states[b].job == states[a].job
  {
    var last := states[|steps|];
    RunInv(c, states, steps, |steps|);
    if !last.dispatcher.Finished? {
      var step := NoDeadlock(c, last, Reply(None, NoError));
    } else {
      EndedIsFinal(c, last);
    }
    forall a, b | 0 <= a <= b < |states| && Ended(states[a].dispatcher)
      ensures FinalJob(c, states[a]) && states[b].job == states[a].job
    {
      RunInv(c, states, steps, a);
      EndedIsFinal(c, states[a]);
      RunForward(c, states, steps, a, b);
    }
  }

  // ---------- how many tests run at once ----------

  function TestsRunning(ws: seq<Worker>): nat {
    if ws == [] then 0 else (if ws[0].Testing? then 1 else 0) + TestsRunning(ws[1..])
  }

  lemma {:induction false} TestsWithin(ws: seq<Worker>)
    ensures TestsRunning(ws) <= |ws|
  {
    if ws != [] {
      TestsWithin(ws[1..]);
    }
  }

  /** At most min(concurrency, targets) tests run at any moment, each on a different target. */
  lemma {:induction false} TestsBounded(c: Config, s: State)
    requires Inv(c, s)
    ensures TestsRunning(s.workers) <= c.concurrency && TestsRunning(s.workers) <= |c.targets|
    ensures forall v, w :: 0 <= v < w < |s.workers| && s.workers[v].Testing? && s.workers[w].Testing? ==>
              s.workers[v].index != s.workers[w].index
  {
    TestsWithin(s.workers);
  }
}
