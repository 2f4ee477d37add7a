// The job-dispatch protocol as a labelled transition system.  One label is one atomic
// command (a repository call or a Redis command) of one submission or one worker, taken
// together with the local code that follows it up to the next command.
module Dispatch {
  import opened Common
  import opened RedisStreams

  datatype JobStatus = QUEUED | RUNNING | COMPLETED | FAILED

  predicate Terminal(status: JobStatus) {
    status == COMPLETED || status == FAILED
  }

  datatype Job = Job(
    url: string,
    status: JobStatus,
    createdAt: int,
    startedAt: Option<int>,
    completedAt: Option<int>)

  // WORKER_COUNT, JOB_MAX_RETRIES and JOB_MAX_BACKLOG after their fall-backs.
  datatype Config = Config(workerCount: nat, maxRetries: nat, maxBacklog: nat)

  // What a queue command did: succeeded, failed without effect, or took effect with the
  // reply lost, which the caller sees as a failure.
  datatype Outcome = Done | NotDone | Lost

  // How analyzeRepository ends.  CloneFailed carries the verdict on the clone's output.
  datatype Analysis =
    | Analysed
    | InvalidUrl | LaunchFailed | TimedOut | FileTooLarge
    | CloneFailed(retryable: bool)
    | AnalyseThrew | ProcessThrew

  function Verdict(a: Analysis): (bool, Reason) {
    match a
    case Analysed => (true, ProcessingError)
    case InvalidUrl => (false, InvalidRepositoryUrl)
    case LaunchFailed => (true, CloneLaunchFailure)
    case TimedOut => (true, CloneTimeout)
    case FileTooLarge => (false, CloneFileSizeLimit)
    case CloneFailed(true) => (true, CloneRetryableFailure)
    case CloneFailed(false) => (false, CloneNonRetryableFailure)
    case AnalyseThrew => (true, AnalyzeException)
    case ProcessThrew => (true, ProcessingException)
  }

  datatype Msg = Msg(id: nat, jobId: string, attempt: int)

  // Why a worker is about to XACK: the job was unknown or already terminal, it completed
  // the job, it published the retry, or it published the dead letter.
  datatype AckCause = Settled | Completed | Retried | DeadLettered

  // The command a worker issues next, and the message it holds.
  datatype Pc =
    | Starting
    | Polling
    | ReadingHistory
    | ReadingNew
    | Fetched(m: Msg)
    | MarkingRunning(m: Msg)
    | StampingStart(m: Msg)
    | Analysing(m: Msg)
    | MarkingCompleted(m: Msg)
    | StampingCompleted(m: Msg)
    | MarkingQueued(m: Msg)
    | EnsuringRetry(m: Msg)
    | PublishingRetry(m: Msg)
    | MarkingFailed(m: Msg, reason: Reason)
    | StampingFailed(m: Msg, reason: Reason)
    | PublishingDead(m: Msg, reason: Reason)
    | Acking(m: Msg, cause: AckCause)

  predicate Idle(pc: Pc) {
    pc.Starting? || pc.Polling? || pc.ReadingHistory? || pc.ReadingNew?
  }

  // lastFailureRetryable_ and lastFailureReason_ survive from one message to the next.
  datatype Worker = Worker(pc: Pc, retryable: bool, reason: Reason)

  const FRESH_WORKER := Worker(Starting, true, ProcessingError)

  datatype SubPc = Ensuring | Checking | Adding

  datatype Counters = Counters(
    submitted: nat, completed: nat, failed: nat, retried: nat, deadLettered: nat)

  // Auxiliary record of the run so far; no step reads it.
  //   faults        failed, lost or interrupted commands
  //   unchecked     submissions let through because XINFO failed
  //   maxSubmitting most submissions in flight at once
  //   windowFaults  per job, faults between publishing a retry and acknowledging
  //   ended         per job, acknowledgements other than a retry's
  //   startCrashes  per job, crashes of a worker about to set its startedAt
  //   endCrashes    per job, crashes of a worker about to set its completedAt
  //   analyses      per job, finished calls of analyzeRepository
  datatype History = History(
    faults: nat, unchecked: nat, maxSubmitting: nat,
    windowFaults: multiset<string>, ended: multiset<string>,
    startCrashes: multiset<string>, endCrashes: multiset<string>, analyses: multiset<string>)

  // The publisher and the workers use two queue objects, each with its own groupEnsured_.
  datatype Sys = Sys(
    jobs: map<string, Job>,
    redis: Redis,
    publisherReady: bool,
    workersReady: bool,
    subs: map<string, SubPc>,
    workers: seq<Worker>,
    counters: Counters,
    hist: History)

  datatype Action =
    | EnsureGroup(o: Outcome)
    | ReadHistory(o: Outcome)
    | ReadNew(o: Outcome)
    | Find
    | MarkRunning
    | StampStart(now: int)
    | Analyse(result: Analysis)
    | MarkCompleted
    | StampCompleted(now: int)
    | MarkQueued
    | PublishRetry(o: Outcome)
    | MarkFailed
    | StampFailed(now: int)
    | PublishDead(o: Outcome)
    | Ack(o: Outcome)
    | Crash

  datatype Label =
    | Save(job: string, url: string, now: int)
    | SubEnsure(job: string, o: Outcome)
    | SubCheck(job: string, answered: bool)
    | SubAdd(job: string, o: Outcome)
    | SubCrash(job: string)
    | Rebuild(publisher: bool)   // the process rebuilds a queue object
    | Work(w: nat, a: Action)

  predicate Init(c: Config, s: Sys) {
    s == Sys(map[], EMPTY_REDIS, false, false, map[], seq(c.workerCount, _ => FRESH_WORKER),
             Counters(0, 0, 0, 0, 0),
             History(0, 0, 0, multiset{}, multiset{}, multiset{}, multiset{}, multiset{}))
  }

  // ---- Pieces of a step ----

  // ensureConsumerGroup: the command it issues, the flag afterwards, and its answer.
  function Ensure(ready: bool, o: Outcome): (Cmd, bool, bool) {
    if ready then (Nop, true, true)
    else match o
      case Done => (CreateGroup, true, true)
      case NotDone => (Nop, false, false)
      case Lost => (CreateGroup, false, false)
  }

  datatype Write =
    | Keep
    | SetStatus(job: string, status: JobStatus)
    | SetStartedAt(job: string, now: int)
    | SetCompletedAt(job: string, now: int)

  function Written(jobs: map<string, Job>, w: Write): map<string, Job> {
    match w
    case Keep => jobs
    case SetStatus(j, status) =>
      if j in jobs then jobs[j := jobs[j].(status := status)] else jobs
    case SetStartedAt(j, now) =>
      if j in jobs then jobs[j := jobs[j].(startedAt := Some(now))] else jobs
    case SetCompletedAt(j, now) =>
      if j in jobs then jobs[j := jobs[j].(completedAt := Some(now))] else jobs
  }

  datatype Move = Move(next: Worker, cmd: Cmd, write: Write, ready: bool, counters: Counters)

  // handleRetryOrDeadLetter's choice of branch.
  function AfterFailure(c: Config, m: Msg, retryable: bool, reason: Reason): Pc {
    if !retryable then MarkingFailed(m, reason)
    else if m.attempt + 1 <= c.maxRetries then MarkingQueued(m)
    else MarkingFailed(m, MaxRetryExceeded)
  }

  function MsgAt(r: Redis, id: nat): Msg
    requires id < |r.stream|
  {
    Msg(id, r.stream[id].jobId, r.stream[id].attempt)
  }

  function Least(s: set<nat>): (n: nat)
    requires s != {}
    ensures n in s && forall i | i in s :: n <= i
  {
    LeastExists(s);
    var n :| n in s && forall i | i in s :: n <= i;
    n
  }

  lemma LeastExists(s: set<nat>)
    requires s != {}
    ensures exists n :: n in s && forall i | i in s :: n <= i
  {
    var _ := FindLeast(s);
  }

  lemma {:induction false} FindLeast(s: set<nat>) returns (n: nat)
    requires s != {}
    ensures n in s && forall i | i in s :: n <= i
  {
    n :| n in s;
    var rest := set i | i in s && i < n;
    if rest != {} {
      assert rest < s;
      n := FindLeast(rest);
    }
    assert forall i | i in s :: i in rest || n <= i;
  }

  predicate Fits(pc: Pc, ready: bool, a: Action) {
    match a
    case EnsureGroup(o) =>
      (pc.Starting? || pc.Polling? || pc.EnsuringRetry?) && (ready ==> o == Done)
    case ReadHistory(_) => pc.ReadingHistory?
    case ReadNew(_) => pc.ReadingNew?
    case Find => pc.Fetched?
    case MarkRunning => pc.MarkingRunning?
    case StampStart(_) => pc.StampingStart?
    case Analyse(_) => pc.Analysing?
    case MarkCompleted => pc.MarkingCompleted?
    case StampCompleted(_) => pc.StampingCompleted?
    case MarkQueued => pc.MarkingQueued?
    case PublishRetry(_) => pc.PublishingRetry?
    case MarkFailed => pc.MarkingFailed?
    case StampFailed(_) => pc.StampingFailed?
    case PublishDead(_) => pc.PublishingDead?
    case Ack(_) => pc.Acking?
    case Crash => true
  }

  function WorkerMove(c: Config, s: Sys, w: nat, a: Action): Move
    requires w < |s.workers| && Fits(s.workers[w].pc, s.workersReady, a)
  {
    var me, pc := s.workers[w], s.workers[w].pc;
    var stay := Move(me.(pc := Polling), Nop, Keep, s.workersReady, s.counters);
    match a
    case EnsureGroup(o) =>
      var (cmd, ready, ok) := Ensure(s.workersReady, o);
      var next :=
        if pc.Starting? then Polling
        else if !ok then Polling
        else if pc.Polling? then ReadingHistory
        else PublishingRetry(pc.m);
      stay.(next := me.(pc := next), cmd := cmd, ready := ready)
    case ReadHistory(o) =>
      if o != Done then stay
      else
        var mine := set i | i in Owned(s.redis, w) && i < |s.redis.stream|;
        stay.(next := me.(pc := if mine == {} then ReadingNew
                                else Fetched(MsgAt(s.redis, Least(mine)))))
    case ReadNew(o) =>
      if o == NotDone || !HasNew(s.redis) then stay
      else
        var m := MsgAt(s.redis, s.redis.group.value);
        stay.(next := me.(pc := if o == Done then Fetched(m) else Polling), cmd := Deliver(w))
    case Find =>
      var m := pc.m;
      if m.jobId !in s.jobs || Terminal(s.jobs[m.jobId].status) then
        stay.(next := me.(pc := Acking(m, Settled)))
      else
        stay.(next := Worker(if s.jobs[m.jobId].status == RUNNING then Analysing(m)
                             else MarkingRunning(m), true, ProcessingError))
    case MarkRunning =>
      var next := if pc.m.jobId in s.jobs then StampingStart(pc.m)
                  else AfterFailure(c, pc.m, me.retryable, me.reason);
      stay.(next := me.(pc := next), write := SetStatus(pc.m.jobId, RUNNING))
    case StampStart(now) =>
      stay.(next := me.(pc := Analysing(pc.m)), write := SetStartedAt(pc.m.jobId, now))
    case Analyse(result) =>
      if result == Analysed then stay.(next := me.(pc := MarkingCompleted(pc.m)))
      else
        var (retryable, reason) := Verdict(result);
        stay.(next := Worker(AfterFailure(c, pc.m, retryable, reason), retryable, reason))
    case MarkCompleted =>
      var next := if pc.m.jobId in s.jobs then StampingCompleted(pc.m)
                  else AfterFailure(c, pc.m, me.retryable, me.reason);
      stay.(next := me.(pc := next), write := SetStatus(pc.m.jobId, COMPLETED))
    case StampCompleted(now) =>
      stay.(next := me.(pc := Acking(pc.m, Completed)), write := SetCompletedAt(pc.m.jobId, now),
            counters := s.counters.(completed := s.counters.completed + 1))
    case MarkQueued =>
      stay.(next := me.(pc := EnsuringRetry(pc.m)), write := SetStatus(pc.m.jobId, QUEUED))
    case PublishRetry(o) =>
      stay.(next := me.(pc := if o == Done then Acking(pc.m, Retried) else Polling),
            cmd := if o == NotDone then Nop else XAdd(Entry(pc.m.jobId, pc.m.attempt + 1)))
    case MarkFailed =>
      stay.(next := me.(pc := StampingFailed(pc.m, pc.reason)),
            write := SetStatus(pc.m.jobId, FAILED))
    case StampFailed(now) =>
      stay.(next := me.(pc := PublishingDead(pc.m, pc.reason)),
            write := SetCompletedAt(pc.m.jobId, now))
    case PublishDead(o) =>
      stay.(next := me.(pc := if o == Done then Acking(pc.m, DeadLettered) else Polling),
            cmd := if o == NotDone then Nop
                   else XAddDead(DeadEntry(pc.m.jobId, pc.m.attempt, pc.m.id, pc.reason)))
    case Ack(o) =>
      var acked := o == Done && pc.m.id in s.redis.pending;
      var k := s.counters;
      stay.(cmd := if o == NotDone then Nop else XAck(pc.m.id),
            counters :=
              if acked && pc.cause == Retried then k.(retried := k.retried + 1)
              else if acked && pc.cause == DeadLettered
              then k.(failed := k.failed + 1, deadLettered := k.deadLettered + 1)
              else k)
    case Crash => stay.(next := FRESH_WORKER)
  }

  predicate Enabled(s: Sys, l: Label) {
    match l
    case Save(j, _, _) => j !in s.jobs && j !in s.subs   // generated ids are fresh
    case SubEnsure(j, o) =>
      j in s.subs && s.subs[j].Ensuring? && (s.publisherReady ==> o == Done)
    case SubCheck(j, _) => j in s.subs && s.subs[j].Checking?
    case SubAdd(j, _) => j in s.subs && s.subs[j].Adding?
    case SubCrash(j) => j in s.subs
    case Rebuild(_) => true
    case Work(w, a) => w < |s.workers| && Fits(s.workers[w].pc, s.workersReady, a)
  }

  function Core(c: Config, s: Sys, l: Label): Sys
    requires Enabled(s, l)
  {
    match l
    case Save(j, url, now) =>
      s.(jobs := s.jobs[j := Job(url, QUEUED, now, None, None)], subs := s.subs[j := Ensuring])
    case SubEnsure(j, o) =>
      var (cmd, ready, ok) := Ensure(s.publisherReady, o);
      s.(redis := Exec(s.redis, cmd), publisherReady := ready,
         subs := if ok then s.subs[j := Checking] else s.subs - {j})
    case SubCheck(j, answered) =>
      s.(subs := if answered && Load(s.redis) >= c.maxBacklog then s.subs - {j}
                 else s.subs[j := Adding])
    case SubAdd(j, o) =>
      s.(redis := if o == NotDone then s.redis else Exec(s.redis, XAdd(Entry(j, 0))),
         subs := s.subs - {j},
         counters := if o == Done then s.counters.(submitted := s.counters.submitted + 1)
                     else s.counters)
    case SubCrash(j) => s.(subs := s.subs - {j})
    case Rebuild(publisher) =>
      if publisher then s.(publisherReady := false) else s.(workersReady := false)
    case Work(w, a) =>
      var mv := WorkerMove(c, s, w, a);
      s.(jobs := Written(s.jobs, mv.write), redis := Exec(s.redis, mv.cmd),
         workersReady := mv.ready, workers := s.workers[w := mv.next], counters := mv.counters)
  }

  // ---- The auxiliary record ----

  predicate Holds(pc: Pc) {
    !Idle(pc)
  }

  predicate InWindow(pc: Pc) {
    pc.Acking? && pc.cause == Retried
  }

  predicate IsFault(l: Label) {
    match l
    case Save(_, _, _) => false
    case SubEnsure(_, o) => o != Done
    case SubCheck(_, answered) => !answered
    case SubAdd(_, o) => o != Done
    case SubCrash(_) => true
    case Rebuild(_) => true
    case Work(_, EnsureGroup(o)) => o != Done
    case Work(_, ReadHistory(o)) => o != Done
    case Work(_, ReadNew(o)) => o != Done
    case Work(_, PublishRetry(o)) => o != Done
    case Work(_, PublishDead(o)) => o != Done
    case Work(_, Ack(o)) => o != Done
    case Work(_, Crash) => true
    case Work(_, _) => false
  }

  // The worker's retry may be in the stream while its own message stays pending.
  predicate IsWindowFault(pc: Pc, a: Action) {
    match a
    case PublishRetry(o) => o == Lost
    case Ack(o) => o == NotDone && InWindow(pc)
    case Crash => InWindow(pc)
    case _ => false
  }

  predicate IsEnd(pc: Pc, a: Action) {
    a.Ack? && a.o != NotDone && !InWindow(pc)
  }

  predicate StampingEnd(pc: Pc) {
    pc.StampingCompleted? || pc.StampingFailed?
  }

  function If(b: bool, j: string): multiset<string> {
    if b then multiset{j} else multiset{}
  }

  function Recorded(s: Sys, l: Label, subs': nat): History
    requires Enabled(s, l)
  {
    var h := s.hist.(
      faults := s.hist.faults + (if IsFault(l) then 1 else 0),
      unchecked := s.hist.unchecked + (if l.SubCheck? && !l.answered then 1 else 0),
      maxSubmitting := if subs' > s.hist.maxSubmitting then subs' else s.hist.maxSubmitting);
    if l.Work? && Holds(s.workers[l.w].pc) then
      var pc := s.workers[l.w].pc;
      h.(windowFaults := h.windowFaults + If(IsWindowFault(pc, l.a), pc.m.jobId),
         ended := h.ended + If(IsEnd(pc, l.a), pc.m.jobId),
         startCrashes := h.startCrashes + If(l.a.Crash? && pc.StampingStart?, pc.m.jobId),
         endCrashes := h.endCrashes + If(l.a.Crash? && StampingEnd(pc), pc.m.jobId),
         analyses := h.analyses + If(l.a.Analyse?, pc.m.jobId))
    else h
  }

  function Apply(c: Config, s: Sys, l: Label): Sys
    requires Enabled(s, l)
  {
    var s' := Core(c, s, l);
    s'.(hist := Recorded(s, l, |s'.subs|))
  }

  // ---- Runs ----

  ghost predicate Step(c: Config, s: Sys, l: Label, t: Sys) {
    Enabled(s, l) && t == Apply(c, s, l)
  }

  // The labels `ls` lead through the states `ss`.
  ghost predicate Run(c: Config, ss: seq<Sys>, ls: seq<Label>) {
    && |ss| == |ls| + 1
    && forall i | 0 <= i < |ls| :: Step(c, ss[i], ls[i], ss[i + 1])
  }

  ghost predicate Execution(c: Config, ss: seq<Sys>, ls: seq<Label>) {
    Run(c, ss, ls) && Init(c, ss[0])
  }
}
