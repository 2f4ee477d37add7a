// What a job becomes is what its last analysis said, in every execution.
module DispatchVerdicts {
  import opened Common
  import opened RedisStreams
  import opened Dispatch
  import opened DispatchSafety

  // ---- What an analysis calls for ----

  // Trying again would not help; and the name under which such a failure is reported.
  predicate Permanent(result: Analysis) {
    result == InvalidUrl || result == FileTooLarge || result == CloneFailed(false)
  }

  predicate Names(result: Analysis, reason: Reason) {
    || (result == InvalidUrl && reason == InvalidRepositoryUrl)
    || (result == FileTooLarge && reason == CloneFileSizeLimit)
    || (result == CloneFailed(false) && reason == CloneNonRetryableFailure)
  }

  predicate CallsForSuccess(result: Analysis) {
    result == Analysed
  }

  predicate CallsForRetry(c: Config, m: Msg, result: Analysis) {
    result != Analysed && !Permanent(result) && m.attempt < c.maxRetries
  }

  predicate CallsForFailure(c: Config, m: Msg, result: Analysis, reason: Reason) {
    || Names(result, reason)
    || (result != Analysed && !Permanent(result) && m.attempt >= c.maxRetries && reason == MaxRetryExceeded)
  }

  // The worker has an analysis behind it and acts on it.
  predicate Decided(pc: Pc) {
    match pc
    case MarkingCompleted(_) => true
    case StampingCompleted(_) => true
    case MarkingQueued(_) => true
    case EnsuringRetry(_) => true
    case PublishingRetry(_) => true
    case MarkingFailed(_, _) => true
    case StampingFailed(_, _) => true
    case PublishingDead(_, _) => true
    case Acking(_, cause) => cause != Settled
    case _ => false
  }

  // What it does is what the result calls for.
  predicate Explains(c: Config, result: Analysis, pc: Pc) {
    match pc
    case MarkingCompleted(_) => CallsForSuccess(result)
    case StampingCompleted(_) => CallsForSuccess(result)
    case Acking(_, Completed) => CallsForSuccess(result)
    case MarkingQueued(m) => CallsForRetry(c, m, result)
    case EnsuringRetry(m) => CallsForRetry(c, m, result)
    case PublishingRetry(m) => CallsForRetry(c, m, result)
    case Acking(m, Retried) => CallsForRetry(c, m, result)
    case MarkingFailed(m, r) => CallsForFailure(c, m, result, r)
    case StampingFailed(m, r) => CallsForFailure(c, m, result, r)
    case PublishingDead(m, r) => CallsForFailure(c, m, result, r)
    case Acking(m, DeadLettered) => !CallsForSuccess(result) && !CallsForRetry(c, m, result)
    case _ => false
  }

  // ---- One step ----

  // Either the move is the analysis itself, or it carries on with what was decided.
  ghost predicate DecisionShape(c: Config, pc: Pc, a: Action, next: Pc) {
    Decided(next) ==>
      if a.Analyse? then pc == Analysing(next.m) && Explains(c, a.result, next)
      else Decided(pc) && next.m == pc.m && forall result | Explains(c, result, pc) :: Explains(c, result, next)
  }

  lemma MoveHasDecisionShape(c: Config, s: Sys, w: nat, a: Action)
    requires w < |s.workers| && Fits(s.workers[w].pc, s.workersReady, a)
    requires Holds(s.workers[w].pc) ==> s.workers[w].pc.m.jobId in s.jobs
    ensures DecisionShape(c, s.workers[w].pc, a, WorkerMove(c, s, w, a).next.pc)
  {
  }

  lemma WorkerDecides(c: Config, s: Sys, w: nat, a: Action, t: Sys)
    requires Inv(c, s) && Step(c, s, Work(w, a), t)
    ensures w < |t.workers| && DecisionShape(c, s.workers[w].pc, a, t.workers[w].pc)
  {
    if Holds(s.workers[w].pc) { HeldIsLive(c, s, w); }
    MoveHasDecisionShape(c, s, w, a);
  }

  lemma OtherWorkerStays(c: Config, s: Sys, l: Label, t: Sys, w: nat)
    requires Step(c, s, l, t) && w < |t.workers| && !IsBy(l, w)
    ensures w < |s.workers| && t.workers[w] == s.workers[w]
  {
  }

  // ---- Whole runs ----

  predicate IsBy(l: Label, w: nat) {
    l.Work? && l.w == w
  }

  // The last analysis the worker made before k was at i, of the message m, with this result.
  ghost predicate LastAnalysis(ss: seq<Sys>, ls: seq<Label>, w: nat, i: nat, k: nat, m: Msg, result: Analysis) {
    && i < k <= |ls| < |ss| && w < |ss[i].workers|
    && ls[i] == Work(w, Analyse(result)) && ss[i].workers[w].pc == Analysing(m)
    && forall n | i < n < k :: !(IsBy(ls[n], w) && ls[n].a.Analyse?)
  }

  ghost predicate Explained(c: Config, ss: seq<Sys>, ls: seq<Label>, w: nat, k: nat, pc: Pc)
    requires Decided(pc)
  {
    exists i, result :: LastAnalysis(ss, ls, w, i, k, pc.m, result) && Explains(c, result, pc)
  }

  // Whatever a worker is doing with a message after its analysis, whether it completes,
  // retries or fails the job and under which reason, is what the last analysis it made of
  // that very message calls for.
  lemma {:induction false} EveryDecisionExplained(c: Config, ss: seq<Sys>, ls: seq<Label>, w: nat, k: nat)
    requires Execution(c, ss, ls) && k < |ss| && w < |ss[k].workers| && Decided(ss[k].workers[w].pc)
    ensures Explained(c, ss, ls, w, k, ss[k].workers[w].pc)
  {
    if k > 0 {
      if w < |ss[k - 1].workers| && Decided(ss[k - 1].workers[w].pc) { EveryDecisionExplained(c, ss, ls, w, k - 1); }
      ExplainedNext(c, ss, ls, w, k - 1);
    }
  }

  lemma ExplainedNext(c: Config, ss: seq<Sys>, ls: seq<Label>, w: nat, n: nat)
    requires Execution(c, ss, ls) && n < |ls| && w < |ss[n + 1].workers| && Decided(ss[n + 1].workers[w].pc)
    requires w < |ss[n].workers| && Decided(ss[n].workers[w].pc) ==> Explained(c, ss, ls, w, n, ss[n].workers[w].pc)
    ensures Explained(c, ss, ls, w, n + 1, ss[n + 1].workers[w].pc)
  {
    var l := ls[n];
    assert Step(c, ss[n], l, ss[n + 1]);
    if !IsBy(l, w) {
      OtherWorkerStays(c, ss[n], l, ss[n + 1], w);
      StillExplained(c, ss, ls, w, n, ss[n].workers[w].pc, ss[n + 1].workers[w].pc);
    } else {
      AlwaysSafe(c, ss, ls, n);
      WorkerDecides(c, ss[n], w, l.a, ss[n + 1]);
      if l.a.Analyse? {
        assert LastAnalysis(ss, ls, w, n, n + 1, ss[n + 1].workers[w].pc.m, l.a.result);
      } else {
        StillExplained(c, ss, ls, w, n, ss[n].workers[w].pc, ss[n + 1].workers[w].pc);
      }
    }
  }

  lemma StillExplained(c: Config, ss: seq<Sys>, ls: seq<Label>, w: nat, k: nat, pc: Pc, next: Pc)
    requires Decided(pc) && Decided(next) && next.m == pc.m && Explained(c, ss, ls, w, k, pc)
    requires forall result | Explains(c, result, pc) :: Explains(c, result, next)
    requires k < |ls| && !(IsBy(ls[k], w) && ls[k].a.Analyse?)
    ensures Explained(c, ss, ls, w, k + 1, next)
  {
    var i, result :| LastAnalysis(ss, ls, w, i, k, pc.m, result) && Explains(c, result, pc);
    assert LastAnalysis(ss, ls, w, i, k + 1, next.m, result);
  }

  // ---- What becomes of a row ----

  // The status a mark writes.
  predicate Writes(a: Action, status: JobStatus) {
    match a
    case MarkRunning => status == RUNNING
    case MarkCompleted => status == COMPLETED
    case MarkQueued => status == QUEUED
    case MarkFailed => status == FAILED
    case _ => false
  }

  // A row's status is only ever changed by a mark of a worker holding its message, and a
  // mark writes what it says.
  ghost predicate MarkShape(s: Sys, w: nat, a: Action, mv: Move)
    requires w < |s.workers|
  {
    var pc := s.workers[w].pc;
    && (mv.write.SetStatus? ==> Holds(pc) && mv.write.job == pc.m.jobId && Writes(a, mv.write.status))
    && (a.MarkRunning? || a.MarkCompleted? || a.MarkQueued? || a.MarkFailed? ==> mv.write.SetStatus?)
    && MarksFrom(a, pc)
  }

  predicate MarksFrom(a: Action, pc: Pc) {
    && (a.MarkRunning? ==> pc.MarkingRunning?)
    && (a.MarkCompleted? ==> pc.MarkingCompleted?)
    && (a.MarkQueued? ==> pc.MarkingQueued?)
    && (a.MarkFailed? ==> pc.MarkingFailed?)
  }

  lemma MoveHasMarkShape(c: Config, s: Sys, w: nat, a: Action)
    requires w < |s.workers| && Fits(s.workers[w].pc, s.workersReady, a)
    ensures MarkShape(s, w, a, WorkerMove(c, s, w, a))
  {
  }

  lemma MarkMove(c: Config, s: Sys, w: nat, a: Action, t: Sys) returns (mv: Move)
    requires Step(c, s, Work(w, a), t)
    ensures Effect(s, w, a, mv, t) && MarkShape(s, w, a, mv)
  {
    mv := WorkerMove(c, s, w, a);
    WorkHasEffect(c, s, w, a, t);
    MoveHasMarkShape(c, s, w, a);
  }

  lemma ChangeIsMark(c: Config, s: Sys, l: Label, t: Sys, j: string)
    requires Step(c, s, l, t) && j in s.jobs && j in t.jobs && t.jobs[j].status != s.jobs[j].status
    ensures l.Work? && l.w < |s.workers| && Holds(s.workers[l.w].pc) && s.workers[l.w].pc.m.jobId == j
    ensures Writes(l.a, t.jobs[j].status) && MarksFrom(l.a, s.workers[l.w].pc)
  {
    if l.Work? {
      var mv := MarkMove(c, s, l.w, l.a, t);
      StatusWritten(s.jobs, mv.write, j);
    } else {
      RowUntouched(c, s, l, t, j);
    }
  }

  lemma StatusWritten(jobs: map<string, Job>, w: Write, j: string)
    requires j in jobs
    ensures j in Written(jobs, w)
    ensures Written(jobs, w)[j].status != jobs[j].status ==> w == SetStatus(j, Written(jobs, w)[j].status)
  {
  }

  lemma MarkIsWritten(c: Config, s: Sys, w: nat, a: Action, t: Sys)
    requires Inv(c, s) && Step(c, s, Work(w, a), t)
    requires a.MarkRunning? || a.MarkCompleted? || a.MarkQueued? || a.MarkFailed?
    ensures Holds(s.workers[w].pc) && s.workers[w].pc.m.jobId in t.jobs
    ensures Writes(a, t.jobs[s.workers[w].pc.m.jobId].status)
  {
    var mv := MarkMove(c, s, w, a, t);
    HeldIsLive(c, s, w);
  }

  // At k the row becomes COMPLETED, QUEUED or FAILED by a worker whose last analysis was of
  // one of its messages, and called for it.
  ghost predicate Justified(c: Config, ss: seq<Sys>, ls: seq<Label>, k: nat, j: string, status: JobStatus) {
    && k < |ls| && ls[k].Work?
    && exists i, m, result :: LastAnalysis(ss, ls, ls[k].w, i, k, m, result) && m.jobId == j &&
         match status
         case COMPLETED => CallsForSuccess(result)
         case QUEUED => CallsForRetry(c, m, result)
         case FAILED => exists reason :: CallsForFailure(c, m, result, reason)
         case RUNNING => false
  }

  // Every change of a row to anything but RUNNING is justified by an analysis of its job.
  lemma ChangeJustified(c: Config, ss: seq<Sys>, ls: seq<Label>, k: nat, j: string)
    requires Execution(c, ss, ls) && k < |ls| && j in ss[k].jobs && j in ss[k + 1].jobs
    requires ss[k + 1].jobs[j].status != ss[k].jobs[j].status && ss[k + 1].jobs[j].status != RUNNING
    ensures Justified(c, ss, ls, k, j, ss[k + 1].jobs[j].status)
  {
    ChangeIsMark(c, ss[k], ls[k], ss[k + 1], j);
    var w := ls[k].w;
    var pc := ss[k].workers[w].pc;
    EveryDecisionExplained(c, ss, ls, w, k);
    var i, result :| LastAnalysis(ss, ls, w, i, k, pc.m, result) && Explains(c, result, pc);
    if pc.MarkingFailed? { assert CallsForFailure(c, pc.m, result, pc.reason); }
  }

  // ---- What becomes of a verdict ----

  // After an analysis at i the worker's next command, at k, is the mark the result calls for
  // (unless the worker crashes instead).
  ghost predicate MarksAs(c: Config, m: Msg, result: Analysis, a: Action, next: Pc, status: JobStatus) {
    && (CallsForSuccess(result) ==> a == MarkCompleted && status == COMPLETED)
    && (CallsForRetry(c, m, result) ==> a == MarkQueued && status == QUEUED)
    && (forall reason | CallsForFailure(c, m, result, reason) ::
          a == MarkFailed && status == FAILED && next == StampingFailed(m, reason))
  }

  function Nth(s: Sys, w: nat): Option<Worker> {
    if w < |s.workers| then Some(s.workers[w]) else None
  }

  lemma NthStays(c: Config, s: Sys, l: Label, t: Sys, w: nat)
    requires Step(c, s, l, t) && !IsBy(l, w)
    ensures Nth(t, w) == Nth(s, w)
  {
  }

  lemma {:induction false} SameThroughout<T>(xs: seq<T>, i: nat, k: nat)
    requires i <= k < |xs| && forall n | i <= n < k :: xs[n + 1] == xs[n]
    ensures xs[k] == xs[i]
    decreases k
  {
    if i < k { SameThroughout(xs, i, k - 1); }
  }

  lemma NothingInBetween(c: Config, ss: seq<Sys>, ls: seq<Label>, w: nat, i: nat, k: nat)
    requires Run(c, ss, ls) && i <= k < |ss|
    requires forall n | i <= n < k :: !IsBy(ls[n], w)
    ensures Nth(ss[k], w) == Nth(ss[i], w)
  {
    var xs := seq(|ss|, n requires 0 <= n < |ss| => Nth(ss[n], w));
    forall n | i <= n < k ensures xs[n + 1] == xs[n] {
      NthStays(c, ss[n], ls[n], ss[n + 1], w);
    }
    SameThroughout(xs, i, k);
  }

  lemma VerdictIsMarked(c: Config, ss: seq<Sys>, ls: seq<Label>, w: nat, i: nat, k: nat, m: Msg, result: Analysis)
    requires Execution(c, ss, ls) && LastAnalysis(ss, ls, w, i, k, m, result)
    requires k < |ls| && IsBy(ls[k], w) && !ls[k].a.Crash? && forall n | i < n < k :: !IsBy(ls[n], w)
    ensures w < |ss[k + 1].workers| && m.jobId in ss[k + 1].jobs
    ensures MarksAs(c, m, result, ls[k].a, ss[k + 1].workers[w].pc, ss[k + 1].jobs[m.jobId].status)
  {
    AlwaysSafe(c, ss, ls, k);
    assert Step(c, ss[i], ls[i], ss[i + 1]) && Step(c, ss[k], ls[k], ss[k + 1]);
    NothingInBetween(c, ss, ls, w, i + 1, k);
    VerdictDecides(c, ss[i], w, result, ss[i + 1]);
    DecisionIsMarked(c, ss[k], w, ls[k].a, ss[k + 1], m, result);
  }

  // What the worker is about to do is what the result calls for.
  predicate CalledFor(c: Config, m: Msg, result: Analysis, pc: Pc) {
    && (CallsForSuccess(result) ==> pc == MarkingCompleted(m))
    && (CallsForRetry(c, m, result) ==> pc == MarkingQueued(m))
    && (forall reason | CallsForFailure(c, m, result, reason) :: pc == MarkingFailed(m, reason))
    && (pc == MarkingCompleted(m) || pc == MarkingQueued(m) || (pc.MarkingFailed? && pc.m == m))
  }

  lemma DecisionIsMarked(c: Config, s: Sys, w: nat, a: Action, t: Sys, m: Msg, result: Analysis)
    requires Inv(c, s) && Step(c, s, Work(w, a), t) && !a.Crash? && CalledFor(c, m, result, s.workers[w].pc)
    ensures w < |t.workers| && m.jobId in t.jobs
    ensures MarksAs(c, m, result, a, t.workers[w].pc, t.jobs[m.jobId].status)
  {
    DecisionMarks(c, s, w, a, t);
    MarkIsWritten(c, s, w, a, t);
  }

  lemma VerdictDecides(c: Config, s: Sys, w: nat, result: Analysis, t: Sys)
    requires Step(c, s, Work(w, Analyse(result)), t)
    ensures s.workers[w].pc.Analysing? && w < |t.workers|
    ensures CalledFor(c, s.workers[w].pc.m, result, t.workers[w].pc)
  {
  }

  lemma DecisionMarks(c: Config, s: Sys, w: nat, a: Action, t: Sys)
    requires Step(c, s, Work(w, a), t) && !a.Crash?
    requires s.workers[w].pc.MarkingCompleted? || s.workers[w].pc.MarkingQueued? || s.workers[w].pc.MarkingFailed?
    ensures var pc := s.workers[w].pc;
            && (pc.MarkingCompleted? ==> a == MarkCompleted)
            && (pc.MarkingQueued? ==> a == MarkQueued)
            && w < |t.workers|
            && (pc.MarkingFailed? ==> a == MarkFailed && t.workers[w].pc == StampingFailed(pc.m, pc.reason))
  {
  }

  // ---- Dead letters ----

  // The entry was written at n by a worker whose last analysis called for the failure, with
  // its reason, of the very message the entry names.
  ghost predicate Buries(c: Config, ss: seq<Sys>, ls: seq<Label>, n: nat, d: DeadEntry) {
    && n < |ls| < |ss| && ls[n].Work? && ls[n].a.PublishDead? && ls[n].a.o != NotDone
    && exists i, m, result ::
         && LastAnalysis(ss, ls, ls[n].w, i, n, m, result)
         && CallsForFailure(c, m, result, d.reason)
         && d.jobId == m.jobId && d.attempt == m.attempt && d.originalId == m.id
  }

  ghost predicate BurialShape(s: Sys, w: nat, a: Action, mv: Move)
    requires w < |s.workers|
  {
    var pc := s.workers[w].pc;
    mv.cmd.XAddDead? ==>
      && pc.PublishingDead? && a.PublishDead? && a.o != NotDone
      && mv.cmd.deadEntry.jobId == pc.m.jobId && mv.cmd.deadEntry.attempt == pc.m.attempt
      && mv.cmd.deadEntry.originalId == pc.m.id && mv.cmd.deadEntry.reason == pc.reason
  }

  lemma MoveHasBurialShape(c: Config, s: Sys, w: nat, a: Action)
    requires w < |s.workers| && Fits(s.workers[w].pc, s.workersReady, a)
    ensures BurialShape(s, w, a, WorkerMove(c, s, w, a))
  {
  }

  lemma NewDeadIsBuried(c: Config, s: Sys, l: Label, t: Sys, d: DeadEntry)
    requires Step(c, s, l, t) && d in t.redis.dead && d !in s.redis.dead
    ensures l.Work? && l.w < |s.workers| && l.a.PublishDead? && l.a.o != NotDone
    ensures var pc := s.workers[l.w].pc;
            pc.PublishingDead? && d == DeadEntry(pc.m.jobId, pc.m.attempt, pc.m.id, pc.reason)
  {
    if l.Work? {
      var mv := BurialMove(c, s, l.w, l.a, t);
      DeadAdded(s.redis, mv.cmd, d);
    } else {
      NoneBuried(c, s, l, t);
    }
  }

  lemma BurialMove(c: Config, s: Sys, w: nat, a: Action, t: Sys) returns (mv: Move)
    requires Step(c, s, Work(w, a), t)
    ensures t.redis == Exec(s.redis, mv.cmd) && BurialShape(s, w, a, mv)
  {
    mv := WorkerMove(c, s, w, a);
    MoveHasBurialShape(c, s, w, a);
  }

  lemma DeadAdded(r: Redis, cmd: Cmd, d: DeadEntry)
    requires d in Exec(r, cmd).dead && d !in r.dead
    ensures cmd == XAddDead(d)
  {
  }

  lemma NoneBuried(c: Config, s: Sys, l: Label, t: Sys)
    requires Step(c, s, l, t) && !l.Work?
    ensures t.redis.dead == s.redis.dead
  {
    SubmissionExecutes(c, s, l, t);
    NoneAdded(s.redis, SubmissionCmd(s, l));
  }

  lemma NoneAdded(r: Redis, cmd: Cmd)
    requires !cmd.XAddDead?
    ensures Exec(r, cmd).dead == r.dead
  {
  }

  lemma {:induction false} EveryDeadExplained(c: Config, ss: seq<Sys>, ls: seq<Label>, k: nat, d: DeadEntry)
    requires Execution(c, ss, ls) && k < |ss| && d in ss[k].redis.dead
    ensures exists n: nat :: n < k && Buries(c, ss, ls, n, d)
  {
    if k > 0 {
      if d in ss[k - 1].redis.dead {
        EveryDeadExplained(c, ss, ls, k - 1, d);
      } else {
        BuriedAt(c, ss, ls, k - 1, d);
      }
    }
  }

  lemma BuriedAt(c: Config, ss: seq<Sys>, ls: seq<Label>, n: nat, d: DeadEntry)
    requires Execution(c, ss, ls) && n < |ls| && d in ss[n + 1].redis.dead && d !in ss[n].redis.dead
    ensures Buries(c, ss, ls, n, d)
  {
    NewDeadIsBuried(c, ss[n], ls[n], ss[n + 1], d);
    EveryDecisionExplained(c, ss, ls, ls[n].w, n);
  }
}
