/**
 * The batch connection test as a step relation: one dispatcher, a fixed set of workers on an unbuffered
 * queue, a context that may fire at any time, and the shared job record.
 */
module BatchRun {
  import opened Wrappers
  import opened BatchJob

  /** A resolved target; a non-empty error code means its connection could not be resolved. */
  datatype Target = Target(hostId: int, errorCode: string, message: string)

  datatype TestResult = TestResult(ok: bool, latencyMs: int, serverVersion: string, authMethod: string,
                                   errorCode: string, message: string)

  datatype TestError = NoError | ContextCanceled | DeadlineExceeded | OtherError

  /** What a connection test hands back. */
  datatype Reply = Reply(result: Option<TestResult>, err: TestError)

  datatype Config = Config(targets: seq<Target>, concurrency: nat, recorder: bool)

  /** Where `run` stands. */
  datatype Dispatcher =
    | Sending(index: nat)
    | Draining(index: nat)
    | Joining(drained: bool)
    | Recording(cancelled: bool)
    | Releasing
    | ClosingDone
    | Finished

  /** Where a worker stands in its loop over the queue. */
  datatype Worker =
    | Idle
    | Checking(index: nat)
    | Testing(index: nat)
    | Writing(index: nat, item: Item)
    | Exited

  /** `records[i]` lists the results handed to the recorder for target i. */
  datatype State = State(job: Job, ctxDone: bool, dispatcher: Dispatcher, workers: seq<Worker>, records: seq<seq<Item>>)

  datatype Step =
    | ContextFires
    | Send(worker: nat)
    | NoticeContext
    | CancelRemaining
    | CloseQueue
    | Join
    | RecordJob(now: int)
    | ReleaseContext
    | CloseDone
    | Check(worker: nat)
    | TestReturns(worker: nat, reply: Reply)
    | Write(worker: nat)
    | Exit(worker: nat)

  // ---------- the outcome of one test ----------

  const SAFE_MESSAGES: map<string, string> := map[
    "DNS_FAILED" := "host name resolution failed", "CONNECT_TIMEOUT" := "SSH connection timed out",
    "CONNECTION_REFUSED" := "SSH connection was refused", "HOST_KEY_MISMATCH" := "SSH host key verification failed",
    "AUTH_FAILED" := "SSH authentication failed", "PERMISSION_DENIED" := "permission denied",
    "COMMAND_NOT_FOUND" := "required command is unavailable", "COMMAND_TIMEOUT" := "command timed out",
    "UNSUPPORTED_OS" := "operating system is unsupported", "UNKNOWN" := "SSH connection failed"]

  /** Known codes get a fixed message; any other code and every raw message is dropped. */
  function SafeError(code: string): (string, string) {
    if code in SAFE_MESSAGES then (code, SAFE_MESSAGES[code]) else ("UNKNOWN", "SSH connection failed")
  }

  function TestedItem(hostId: int, reply: Reply, ctxDone: bool): Item {
    var unknown := Item(hostId, Failed, 0, "", "", "UNKNOWN", "SSH connection failed");
    var tested :=
      match reply.result
      case None => unknown
      case Some(r) =>
        var measured := unknown.(latencyMs := r.latencyMs, serverVersion := r.serverVersion, authMethod := r.authMethod);
        if r.ok then measured.(status := Success, errorCode := "", message := "")
        else var safe := SafeError(r.errorCode); measured.(errorCode := safe.0, message := safe.1);
    if reply.err.ContextCanceled? || (reply.err.DeadlineExceeded? && ctxDone)
    then tested.(status := Cancelled, errorCode := "CANCELLED", message := "connection test was cancelled")
    else tested
  }

  /** When a test counts as cancelled or successful, and that a failed item only carries a fixed message. */
  lemma OutcomeTruth(hostId: int, reply: Reply, ctxDone: bool)
    ensures var item := TestedItem(hostId, reply, ctxDone);
            var aborted := reply.err.ContextCanceled? || (reply.err.DeadlineExceeded? && ctxDone);
            && item.hostId == hostId
            && (item.status == Cancelled <==> aborted)
            && (item.status == Success <==> !aborted && reply.result.Some? && reply.result.value.ok)
            && (item.status == Success ==> item.errorCode == item.message == "")
            && (item.status == Failed ==> item.errorCode in SAFE_MESSAGES && item.message == SAFE_MESSAGES[item.errorCode])
            && (item.status == Failed && reply.result.Some? && reply.result.value.errorCode in SAFE_MESSAGES ==>
                  item.errorCode == reply.result.value.errorCode)
            && (item.status == Failed && (reply.result.None? || reply.result.value.errorCode !in SAFE_MESSAGES) ==>
                  item.errorCode == "UNKNOWN")
            && (item.latencyMs, item.serverVersion, item.authMethod) ==
               match reply.result case None => (0, "", "") case Some(r) => (r.latencyMs, r.serverVersion, r.authMethod)
  {
  }

  // ---------- the steps ----------

  function Limit(c: Config): nat {
    if c.concurrency < |c.targets| then c.concurrency else |c.targets|
  }

  function HostIds(targets: seq<Target>): seq<int> {
    seq(|targets|, i requires 0 <= i < |targets| => targets[i].hostId)
  }

  function Init(c: Config): State {
    State(NewJob(HostIds(c.targets)), false, Sending(0), seq(Limit(c), i => Idle), seq(|c.targets|, i => []))
  }

  predicate QueueClosed(d: Dispatcher) {
    d.Joining? || d.Recording? || d.Releasing? || d.ClosingDone? || d.Finished?
  }

  predicate Sized(c: Config, s: State) {
    && 0 < |c.targets| && 0 < c.concurrency
    && |s.job.items| == |s.records| == |c.targets| && s.job.total > 0
    && |s.workers| == Limit(c)
    && (forall w :: 0 <= w < |s.workers| && Busy(s.workers[w]) ==> s.workers[w].index < |c.targets|)
    && ((s.dispatcher.Sending? || s.dispatcher.Draining?) ==> s.dispatcher.index <= |c.targets|)
  }

  predicate Busy(w: Worker) {
    w.Checking? || w.Testing? || w.Writing?
  }

  predicate Enabled(c: Config, s: State, step: Step)
    requires Sized(c, s)
  {
    var n := |c.targets|;
    match step
    case ContextFires => !s.ctxDone
    case Send(w) => s.dispatcher.Sending? && s.dispatcher.index < n && w < |s.workers| && s.workers[w].Idle?
    case NoticeContext => s.dispatcher.Sending? && s.dispatcher.index < n && s.ctxDone
    case CancelRemaining => s.dispatcher.Draining? && s.dispatcher.index < n
    case CloseQueue => (s.dispatcher.Sending? || s.dispatcher.Draining?) && s.dispatcher.index == n
    case Join => s.dispatcher.Joining? && forall w :: 0 <= w < |s.workers| ==> s.workers[w].Exited?
    case RecordJob(now) => s.dispatcher.Recording?
    case ReleaseContext => s.dispatcher.Releasing?
    case CloseDone => s.dispatcher.ClosingDone?
    case Check(w) => w < |s.workers| && s.workers[w].Checking?
    case TestReturns(w, reply) => w < |s.workers| && s.workers[w].Testing?
    case Write(w) => w < |s.workers| && s.workers[w].Writing?
    case Exit(w) => w < |s.workers| && s.workers[w].Idle? && QueueClosed(s.dispatcher)
  }

  /** A worker has its item; if it is not a cancellation the recorder sees it before the job does. */
  function Decide(c: Config, s: State, w: nat, index: nat, item: Item): State
    requires w < |s.workers| && index < |s.records|
  {
    s.(workers := s.workers[w := Writing(index, item)],
       records := if c.recorder && item.status != Cancelled then s.records[index := s.records[index] + [item]] else s.records)
  }

  function Apply(c: Config, s: State, step: Step): State
    requires Sized(c, s) && Enabled(c, s, step)
  {
    match step
    case ContextFires => s.(ctxDone := true)
    case Send(w) => s.(dispatcher := Sending(s.dispatcher.index + 1), workers := s.workers[w := Checking(s.dispatcher.index)])
    case NoticeContext => s.(dispatcher := Draining(s.dispatcher.index))
    case CancelRemaining =>
      var i := s.dispatcher.index;
      s.(job := WithItem(s.job, i, CancelledItem(c.targets[i].hostId)), dispatcher := Draining(i + 1))
    case CloseQueue => s.(dispatcher := Joining(s.dispatcher.Draining?))
    case Join => s.(dispatcher := Recording(s.dispatcher.drained || s.ctxDone))
    case RecordJob(now) => s.(job := WithEnd(s.job, s.dispatcher.cancelled, now), dispatcher := Releasing)
    case ReleaseContext => s.(ctxDone := true, dispatcher := ClosingDone)
    case CloseDone => s.(dispatcher := Finished)
    case Check(w) =>
      var i := s.workers[w].index;
      var t := c.targets[i];
      // a cancellation noticed before the test starts is not handed to the recorder
      if s.ctxDone then s.(workers := s.workers[w := Writing(i, CancelledItem(t.hostId))])
      else if t.errorCode != "" then Decide(c, s, w, i, Item(t.hostId, Failed, 0, "", "", t.errorCode, t.message))
      else s.(workers := s.workers[w := Testing(i)])
    case TestReturns(w, reply) =>
      var i := s.workers[w].index;
      Decide(c, s, w, i, TestedItem(c.targets[i].hostId, reply, s.ctxDone))
    case Write(w) => s.(job := WithItem(s.job, s.workers[w].index, s.workers[w].item), workers := s.workers[w := Idle])
    case Exit(w) => s.(workers := s.workers[w := Exited])
  }
}
