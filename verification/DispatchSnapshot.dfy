// getJobDispatchSnapshot: what three reads of Redis say about one job.
module DispatchSnapshot {
  import opened Common
  import opened RedisStreams
  import opened Dispatch
  import opened DispatchSafety
  import opened DispatchDuplicates
  import opened DispatchLifecycle
  import opened DispatchAttempts
  import Conservation = DispatchConservation

  datatype Snapshot = Snapshot(
    attempt: int, streamId: nat, deadLettered: bool, holder: Option<nat>, failureReason: Option<Reason>)

  // XREVRANGE on the dead-letter stream: the newest entry of the job.
  function LatestDead(dead: seq<DeadEntry>, j: string): Option<DeadEntry> {
    if dead == [] then None
    else if dead[|dead| - 1].jobId == j then Some(dead[|dead| - 1])
    else LatestDead(dead[..|dead| - 1], j)
  }

  // XREVRANGE on the work stream: the id of the newest entry of the job.
  function Latest(stream: seq<Entry>, j: string): (id: Option<nat>)
    ensures id.Some? ==> id.value < |stream| && stream[id.value].jobId == j
  {
    if stream == [] then None
    else if stream[|stream| - 1].jobId == j then Some(|stream| - 1)
    else Latest(stream[..|stream| - 1], j)
  }

  // XPENDING with "- + limit": the first `limit` pending ids in ascending order.
  function PendingList(ids: set<nat>, limit: nat): seq<nat>
    decreases limit
  {
    if limit == 0 || ids == {} then []
    else [Least(ids)] + PendingList(ids - {Least(ids)}, limit - 1)
  }

  const PENDING_LIMIT: nat := 1000

  function Holder(pending: map<nat, nat>, id: nat): Option<nat> {
    if id in PendingList(pending.Keys, PENDING_LIMIT) && id in pending then Some(pending[id]) else None
  }

  // The three replies put together.
  function Report(dead: seq<DeadEntry>, stream: seq<Entry>, pending: map<nat, nat>, j: string): Option<Snapshot> {
    var d := LatestDead(dead, j);
    if d.Some? then
      Some(Snapshot(d.value.attempt, d.value.originalId, true, None, Some(d.value.reason)))
    else
      var id := Latest(stream, j);
      if id.None? then None
      else Some(Snapshot(stream[id.value].attempt, id.value, false, Holder(pending, id.value), None))
  }

  lemma {:induction false} PendingListComplete(ids: set<nat>, limit: nat, id: nat)
    requires |ids| <= limit
    ensures id in PendingList(ids, limit) <==> id in ids
    decreases limit
  {
    if limit > 0 && ids != {} {
      PendingListComplete(ids - {Least(ids)}, limit - 1, id);
    }
  }

  // With at most 1000 workers the pending window is never cut short.
  lemma HolderExact(c: Config, s: Sys, id: nat)
    requires Inv(c, s) && c.workerCount <= PENDING_LIMIT
    ensures Holder(s.redis.pending, id) == if id in s.redis.pending then Some(s.redis.pending[id]) else None
  {
    PendingAtMostWorkers(c, s);
    assert |s.redis.pending.Keys| == |s.redis.pending|;
    PendingListComplete(s.redis.pending.Keys, PENDING_LIMIT, id);
  }

  lemma PendingAtMostWorkers(c: Config, s: Sys)
    requires Inv(c, s)
    ensures |s.redis.pending| <= c.workerCount
  {
    var used := set i | i in s.redis.pending :: s.redis.pending[i];
    PigeonHole(s.redis.pending, used);
    BoundedSize(used, c.workerCount);
  }

  // ---- What the scans find ----

  lemma {:induction false} LatestIsLast(stream: seq<Entry>, j: string, i: nat)
    requires i < |stream| && stream[i].jobId == j
    ensures Latest(stream, j).Some? && i <= Latest(stream, j).value
  {
    var n := |stream| - 1;
    if stream[n].jobId != j { LatestIsLast(stream[..n], j, i); }
  }

  lemma {:induction false} LatestAttempt(stream: seq<Entry>, j: string)
    ensures Latest(stream, j).None? <==> Attempts(stream, j) == []
    ensures Latest(stream, j).Some? ==>
              var a := Attempts(stream, j);
              a != [] && stream[Latest(stream, j).value].attempt == a[|a| - 1]
  {
    if stream != [] {
      var n := |stream| - 1;
      LatestAttempt(stream[..n], j);
    }
  }

  // In a job whose attempts count up, only the newest entry carries the newest number.
  lemma {:induction false} NewestUnique(stream: seq<Entry>, j: string, i: nat)
    requires Counting(Attempts(stream, j))
    requires i < |stream| && stream[i].jobId == j && stream[i].attempt == |Attempts(stream, j)| - 1
    ensures Latest(stream, j) == Some(i)
  {
    var n := |stream| - 1;
    var a, b := Attempts(stream, j), Attempts(stream[..n], j);
    if i != n {
      if stream[n].jobId == j {
        assert forall k | 0 <= k < |b| :: b[k] == a[k];
        AttemptsSmaller(stream[..n], j, i);
      } else {
        assert a == b;
        NewestUnique(stream[..n], j, i);
      }
    }
  }

  lemma {:induction false} AttemptsSmaller(stream: seq<Entry>, j: string, i: nat)
    requires i < |stream| && stream[i].jobId == j
    ensures stream[i].attempt in Attempts(stream, j)
  {
    var n := |stream| - 1;
    if i != n { AttemptsSmaller(stream[..n], j, i); }
  }

  lemma {:induction false} LatestDeadFound(dead: seq<DeadEntry>, j: string)
    ensures LatestDead(dead, j).None? <==> forall d | d in dead :: d.jobId != j
    ensures LatestDead(dead, j).Some? ==> LatestDead(dead, j).value in dead && LatestDead(dead, j).value.jobId == j
  {
    if dead != [] {
      var n := |dead| - 1;
      LatestDeadFound(dead[..n], j);
      assert dead == dead[..n] + [dead[n]];
    }
  }

  // ---- Dead letters ----

  predicate AboutToBury(s: Sys, w: nat, j: string) {
    Working(s, w, j) && (s.workers[w].pc.StampingFailed? || s.workers[w].pc.PublishingDead?)
  }

  predicate HasDead(s: Sys, j: string) {
    exists d :: d in s.redis.dead && d.jobId == j
  }

  // A dead letter names the job's newest entry, and the job has failed for good; without
  // faults a failed job also has its dead letter, or a worker is about to write it.
  ghost predicate Buried(s: Sys, j: string) {
    && (s.hist.windowFaults[j] == 0 ==>
          forall d | d in s.redis.dead && d.jobId == j :: DeadFits(s, j, d))
    && (s.hist.faults == 0 && j in s.jobs && s.jobs[j].status == FAILED ==>
          HasDead(s, j) || exists w: nat :: AboutToBury(s, w, j))
  }

  ghost predicate DeadShape(s: Sys, w: nat, a: Action, mv: Move)
    requires w < |s.workers|
  {
    var pc, next := s.workers[w].pc, mv.next.pc;
    && (mv.cmd.XAddDead? ==>
          && pc.PublishingDead? && mv.write.Keep?
          && mv.cmd.deadEntry.jobId == pc.m.jobId && mv.cmd.deadEntry.attempt == pc.m.attempt
          && mv.cmd.deadEntry.originalId == pc.m.id)
    && (mv.write.SetStatus? && mv.write.status == FAILED ==> Holds(pc) && next.StampingFailed? && next.m == pc.m)
    && (mv.write.SetStatus? ==> Holds(pc) && mv.write.job == pc.m.jobId)
    && (pc.StampingFailed? && !IsFault(Work(w, a)) ==> next.PublishingDead? && next.m == pc.m)
    && (pc.PublishingDead? && !IsFault(Work(w, a)) ==> mv.cmd.XAddDead?)
  }

  lemma MoveHasDeadShape(c: Config, s: Sys, w: nat, a: Action)
    requires w < |s.workers| && Fits(s.workers[w].pc, s.workersReady, a)
    ensures DeadShape(s, w, a, WorkerMove(c, s, w, a))
  {
  }

  predicate DeadFits(s: Sys, j: string, d: DeadEntry) {
    && j in s.jobs && s.jobs[j].status == FAILED
    && d.attempt == |Attempts(s.redis.stream, j)| - 1
    && d.originalId < |s.redis.stream|
    && s.redis.stream[d.originalId] == Entry(j, d.attempt)
  }

  // A failed job's row, and its list of attempts, no longer change.
  lemma DeadStays(c: Config, s: Sys, w: nat, mv: Move, t: Sys, j: string, d: DeadEntry)
    requires Inv(c, s) && Traced(s, j) && s.hist.windowFaults[j] == 0
    requires w < |s.workers| && Shape(s, w, mv) && RowShape(s, w, mv)
    requires t.redis == Exec(s.redis, mv.cmd) && t.jobs == Written(s.jobs, mv.write)
    requires DeadFits(s, j, d)
    ensures DeadFits(t, j, d)
  {
    WrittenKeepsKeys(s.jobs, mv.write);
    assert Matches(s.redis, w, s.workers[w].pc);
    if mv.cmd.XAdd? { AttemptsAppend(s.redis.stream, mv.cmd.entry, j); }
    if Working(s, w, j) { assert Agrees(s.workers[w].pc, s.jobs[j].status); }
  }

  lemma WorkKeepsDead(c: Config, s: Sys, w: nat, a: Action, mv: Move, t: Sys, j: string)
    requires Inv(c, s) && Traced(s, j) && InOrder(s, j) && Buried(s, j) && s.hist.windowFaults[j] == 0
    requires w < |s.workers| && Shape(s, w, mv) && RowShape(s, w, mv) && DeadShape(s, w, a, mv)
    requires t.redis == Exec(s.redis, mv.cmd) && t.jobs == Written(s.jobs, mv.write)
    ensures forall d | d in t.redis.dead && d.jobId == j :: DeadFits(t, j, d)
  {
    forall d | d in t.redis.dead && d.jobId == j ensures DeadFits(t, j, d) {
      if d in s.redis.dead {
        DeadStays(c, s, w, mv, t, j, d);
      } else {
        assert Matches(s.redis, w, s.workers[w].pc);
        HeldIsLive(c, s, w);
        WorkingIsActive(c, s, w, j);
        assert Agrees(s.workers[w].pc, s.jobs[j].status);
      }
    }
  }

  lemma WorkKeepsBurial(c: Config, s: Sys, w: nat, a: Action, mv: Move, t: Sys, j: string)
    requires Inv(c, s) && Buried(s, j) && s.hist.faults == 0 && !IsFault(Work(w, a))
    requires w < |s.workers| && Shape(s, w, mv) && DeadShape(s, w, a, mv)
    requires t.redis == Exec(s.redis, mv.cmd) && t.workers == s.workers[w := mv.next]
    requires t.jobs == Written(s.jobs, mv.write)
    requires j in t.jobs && t.jobs[j].status == FAILED
    ensures HasDead(t, j) || exists v: nat :: AboutToBury(t, v, j)
  {
    WrittenKeepsKeys(s.jobs, mv.write);
    if mv.write.SetStatus? && mv.write.job == j {
      assert AboutToBury(t, w, j);
    } else if HasDead(s, j) {
      var d :| d in s.redis.dead && d.jobId == j;
      assert d in t.redis.dead;
    } else {
      var v: nat :| AboutToBury(s, v, j);
      if v != w || s.workers[w].pc.StampingFailed? {
        assert AboutToBury(t, v, j);
      } else {
        assert mv.cmd.deadEntry in t.redis.dead;
      }
    }
  }

  lemma SubmissionKeepsBuried(c: Config, s: Sys, cmd: Cmd, t: Sys, j: string)
    requires Inv(c, s) && Buried(s, j) && SubmissionShape(s, cmd, t)
    requires t.hist.windowFaults == s.hist.windowFaults && t.hist.faults >= s.hist.faults
    requires j in t.jobs && j !in s.jobs ==> t.jobs[j].status == QUEUED
    ensures Buried(t, j)
  {
    if exists w: nat :: AboutToBury(s, w, j) {
      var w: nat :| AboutToBury(s, w, j);
      assert AboutToBury(t, w, j);
    }
    forall d | d in t.redis.dead && d.jobId == j && t.hist.windowFaults[j] == 0 ensures DeadFits(t, j, d) {
      SubmissionKeepsDead(c, s, cmd, t, j, d);
    }
  }

  lemma SubmissionKeepsDead(c: Config, s: Sys, cmd: Cmd, t: Sys, j: string, d: DeadEntry)
    requires Stored(s) && SubmissionShape(s, cmd, t) && DeadFits(s, j, d)
    ensures DeadFits(t, j, d)
  {
    assert s.redis.stream[d.originalId].jobId == j;
    assert Published(s, j);
    if cmd.XAdd? { AttemptsAppend(s.redis.stream, cmd.entry, j); }
  }

  ghost predicate Recorded(s: Sys, j: string) {
    Clean(s) && Traced(s, j) && InOrder(s, j) && Buried(s, j)
  }

  lemma WorkKeepsBuried(c: Config, s: Sys, l: Label, t: Sys, j: string)
    requires Inv(c, s) && Recorded(s, j) && Step(c, s, l, t) && l.Work?
    ensures Buried(t, j)
  {
    var mv := DeadMove(c, s, l.w, l.a, t);
    if t.hist.windowFaults[j] == 0 { WorkKeepsDead(c, s, l.w, l.a, mv, t, j); }
    if t.hist.faults == 0 && j in t.jobs && t.jobs[j].status == FAILED {
      WorkKeepsBurial(c, s, l.w, l.a, mv, t, j);
    }
  }

  lemma DeadMove(c: Config, s: Sys, w: nat, a: Action, t: Sys) returns (mv: Move)
    requires Inv(c, s) && Step(c, s, Work(w, a), t)
    ensures Effect(s, w, a, mv, t) && Shape(s, w, mv) && RowShape(s, w, mv) && DeadShape(s, w, a, mv)
  {
    mv := WorkerMove(c, s, w, a);
    WorkHasEffect(c, s, w, a, t);
    MoveHasShape(c, s, w, a);
    MoverAgrees(c, s, w, a);
    MoveHasDeadShape(c, s, w, a);
  }

  lemma StepKeepsRecorded(c: Config, s: Sys, l: Label, t: Sys, j: string)
    requires Inv(c, s) && Recorded(s, j) && Step(c, s, l, t)
    ensures Recorded(t, j)
  {
    StepKeepsClean(c, s, l, t);
    StepKeepsTraced(c, s, l, t, j);
    StepKeepsOrder(c, s, l, t, j);
    StepKeepsBuried(c, s, l, t, j);
  }

  lemma StepKeepsBuried(c: Config, s: Sys, l: Label, t: Sys, j: string)
    requires Inv(c, s) && Recorded(s, j) && Step(c, s, l, t)
    ensures Buried(t, j)
  {
    if l.Work? {
      WorkKeepsBuried(c, s, l, t, j);
    } else {
      var cmd := SubmissionIs(c, s, l, t);
      SubmissionKeepsBuried(c, s, cmd, t, j);
    }
  }

  lemma AlwaysRecorded(c: Config, ss: seq<Sys>, ls: seq<Label>, i: nat, j: string)
    requires Execution(c, ss, ls) && i < |ss|
    ensures Inv(c, ss[i]) && Recorded(ss[i], j)
  {
    forall s | Init(c, s) ensures Recorded(s, j) { InitBalanced(c, s, j); assert Active(s, j) == {}; }
    forall s, l, t | Inv(c, s) && Recorded(s, j) && Step(c, s, l, t) ensures Recorded(t, j) {
      StepKeepsRecorded(c, s, l, t, j);
    }
    Always(c, ss, ls, i, s => Recorded(s, j));
  }

  // The worker holding the newest entry is the worker working on the job.
  lemma HolderWorks(c: Config, s: Sys, j: string, id: nat)
    requires Inv(c, s) && InOrder(s, j) && Conservation.Calm(s) && s.hist.windowFaults[j] == 0
    requires Latest(s.redis.stream, j) == Some(id)
    ensures id in s.redis.pending ==> Working(s, s.redis.pending[id], j)
    ensures forall w: nat | Working(s, w, j) :: id in s.redis.pending && s.redis.pending[id] == w
  {
    LatestAttempt(s.redis.stream, j);
    if id in s.redis.pending {
      var w := s.redis.pending[id];
      assert id in Owned(s.redis, w) && Matches(s.redis, w, s.workers[w].pc);
      assert Live(s.redis, id);
    }
    forall w: nat | Working(s, w, j) ensures id in s.redis.pending && s.redis.pending[id] == w {
      WorkingIsActive(c, s, w, j);
      NewestUnique(s.redis.stream, j, s.workers[w].pc.m.id);
    }
  }

  lemma PublishedHasLatest(s: Sys, j: string)
    ensures Published(s, j) <==> Latest(s.redis.stream, j).Some?
  {
    if Published(s, j) {
      var i :| 0 <= i < |s.redis.stream| && s.redis.stream[i].jobId == j;
      LatestIsLast(s.redis.stream, j, i);
    }
  }

  // In a run without faults the report gives the job's current attempt, the worker that is
  // on it, and whether it was dead-lettered.
  lemma ReportAgrees(c: Config, ss: seq<Sys>, ls: seq<Label>, i: nat, j: string)
    requires Execution(c, ss, ls) && i < |ss| && ss[i].hist.faults == 0
    requires c.workerCount <= PENDING_LIMIT
    ensures
      var s := ss[i];
      var report := Report(s.redis.dead, s.redis.stream, s.redis.pending, j);
      && (report.Some? <==> Published(s, j))
      && (report.Some? ==>
            && j in s.jobs
            && report.value.attempt == |Attempts(s.redis.stream, j)| - 1
            && report.value.streamId < |s.redis.stream|
            && s.redis.stream[report.value.streamId] == Entry(j, report.value.attempt)
            && (report.value.deadLettered <==> HasDead(s, j))
            && (report.value.deadLettered ==>
                  && s.jobs[j].status == FAILED && report.value.holder == None && report.value.failureReason.Some?
                  && DeadEntry(j, report.value.attempt, report.value.streamId, report.value.failureReason.value)
                     in s.redis.dead)
            && (!report.value.deadLettered ==> report.value.failureReason == None)
            && (s.jobs[j].status == FAILED ==>
                  report.value.deadLettered || exists w: nat :: AboutToBury(s, w, j))
            && (!report.value.deadLettered ==>
                  && (report.value.holder.Some? ==> Working(s, report.value.holder.value, j))
                  && forall w: nat | Working(s, w, j) :: report.value.holder == Some(w)))
  {
    var s := ss[i];
    AlwaysRecorded(c, ss, ls, i, j);
    Conservation.CountersConserved(c, ss, ls, i);
    LatestDeadFound(s.redis.dead, j);
    PublishedHasLatest(s, j);
    LatestAttempt(s.redis.stream, j);
    var d := LatestDead(s.redis.dead, j);
    if d.Some? {
      assert DeadFits(s, j, d.value);
      assert s.redis.stream[d.value.originalId].jobId == j;
    } else if Published(s, j) {
      var id := Latest(s.redis.stream, j).value;
      HolderExact(c, s, id);
      HolderWorks(c, s, j, id);
    }
  }

  // ---- The three reads ----

  // Labels possible while the reader holds the worker queue's command mutex: submissions
  // use the other queue object, and a worker can only run repository and local code.
  predicate OutsideMutex(l: Label) {
    l.Work? ==>
      match l.a
      case Find => true
      case MarkRunning => true
      case StampStart(_) => true
      case Analyse(_) => true
      case MarkCompleted => true
      case StampCompleted(_) => true
      case MarkQueued => true
      case MarkFailed => true
      case StampFailed(_) => true
      case Crash => true
      case _ => false
  }

  lemma MutexStep(c: Config, s: Sys, l: Label, t: Sys)
    requires Step(c, s, l, t) && OutsideMutex(l)
    ensures t.redis.dead == s.redis.dead && t.redis.pending == s.redis.pending
  {
    var cmd := MutexCommand(c, s, l, t);
  }

  lemma MutexCommand(c: Config, s: Sys, l: Label, t: Sys) returns (cmd: Cmd)
    requires Step(c, s, l, t) && OutsideMutex(l)
    ensures t.redis == Exec(s.redis, cmd) && (cmd.Nop? || cmd.CreateGroup? || cmd.XAdd?)
  {
    if l.Work? {
      cmd := Nop;
      WorkHasEffect(c, s, l.w, l.a, t);
      MutexMove(c, s, l.w, l.a);
    } else {
      cmd := SubmissionCmd(s, l);
    }
  }

  lemma MutexMove(c: Config, s: Sys, w: nat, a: Action)
    requires w < |s.workers| && Fits(s.workers[w].pc, s.workersReady, a) && OutsideMutex(Work(w, a))
    ensures WorkerMove(c, s, w, a).cmd.Nop?
  {
  }

  lemma {:induction false} MutexFreezes(c: Config, ss: seq<Sys>, ls: seq<Label>)
    requires Run(c, ss, ls) && forall i | 0 <= i < |ls| :: OutsideMutex(ls[i])
    ensures ss[|ls|].redis.dead == ss[0].redis.dead && ss[|ls|].redis.pending == ss[0].redis.pending
  {
    if ls != [] {
      var n := |ls| - 1;
      MutexFreezes(c, ss[..|ls|], ls[..n]);
      MutexStep(c, ss[n], ls[n], ss[n + 1]);
    }
  }

  // The dead-letter read at the start, the stream read after `first` and the pending read
  // after `rest` report the state of the stream read.
  lemma ReadsAreAtomic(
      c: Config, first: seq<Label>, ss: seq<Sys>, rest: seq<Label>, us: seq<Sys>, j: string)
    requires Run(c, ss, first) && Run(c, us, rest) && us[0] == ss[|first|]
    requires forall i | 0 <= i < |first| :: OutsideMutex(first[i])
    requires forall i | 0 <= i < |rest| :: OutsideMutex(rest[i])
    ensures Report(ss[0].redis.dead, us[0].redis.stream, us[|rest|].redis.pending, j)
            == Report(us[0].redis.dead, us[0].redis.stream, us[0].redis.pending, j)
  {
    MutexFreezes(c, ss, first);
    MutexFreezes(c, us, rest);
  }

  // ---- The program: three scans, newest entry first ----

  method FindLatestDead(dead: seq<DeadEntry>, j: string) returns (found: Option<DeadEntry>)
    ensures found == LatestDead(dead, j)
  {
    var n := |dead|;
    assert dead[..n] == dead;
    while n > 0
      invariant 0 <= n <= |dead| && LatestDead(dead[..n], j) == LatestDead(dead, j)
    {
      assert dead[..n][..n - 1] == dead[..n - 1] && dead[..n][n - 1] == dead[n - 1];
      if dead[n - 1].jobId == j { return Some(dead[n - 1]); }
      n := n - 1;
    }
    return None;
  }

  method FindLatest(stream: seq<Entry>, j: string) returns (found: Option<nat>)
    ensures found == Latest(stream, j)
  {
    var n := |stream|;
    assert stream[..n] == stream;
    while n > 0
      invariant 0 <= n <= |stream| && Latest(stream[..n], j) == Latest(stream, j)
    {
      assert stream[..n][..n - 1] == stream[..n - 1] && stream[..n][n - 1] == stream[n - 1];
      if stream[n - 1].jobId == j { return Some(n - 1); }
      n := n - 1;
    }
    return None;
  }

  method FindHolder(pending: map<nat, nat>, id: nat) returns (holder: Option<nat>)
    ensures holder == Holder(pending, id)
  {
    var listed := PendingList(pending.Keys, PENDING_LIMIT);
    ListedArePending(pending.Keys, PENDING_LIMIT);
    for i := 0 to |listed|
      invariant id !in listed[..i]
    {
      if listed[i] == id { return Some(pending[id]); }
    }
    return None;
  }

  lemma {:induction false} ListedArePending(ids: set<nat>, limit: nat)
    ensures forall id | id in PendingList(ids, limit) :: id in ids
    decreases limit
  {
    if limit > 0 && ids != {} { ListedArePending(ids - {Least(ids)}, limit - 1); }
  }

  method GetJobDispatchSnapshot(r: Redis, j: string) returns (snapshot: Option<Snapshot>)
    ensures snapshot == Report(r.dead, r.stream, r.pending, j)
  {
    var d := FindLatestDead(r.dead, j);
    if d.Some? {
      return Some(Snapshot(d.value.attempt, d.value.originalId, true, None, Some(d.value.reason)));
    }
    var id := FindLatest(r.stream, j);
    if id.None? { return None; }
    var holder := FindHolder(r.pending, id.value);
    return Some(Snapshot(r.stream[id.value].attempt, id.value, false, holder, None));
  }
}
