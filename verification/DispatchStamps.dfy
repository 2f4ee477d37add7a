// When startedAt and completedAt are set.
module DispatchStamps {
  import opened Common
  import opened RedisStreams
  import opened Dispatch
  import opened DispatchSafety
  import opened DispatchDuplicates

  predicate HoldsJob(s: Sys, w: nat, j: string) {
    w < |s.workers| && Holds(s.workers[w].pc) && s.workers[w].pc.m.jobId == j
  }

  predicate Early(pc: Pc) {
    pc.Fetched? || pc.MarkingRunning? || pc.StampingStart?
  }

  predicate AboutToStart(s: Sys, w: nat, j: string) {
    HoldsJob(s, w, j) && s.workers[w].pc.StampingStart?
  }

  predicate AboutToComplete(s: Sys, w: nat, j: string) {
    HoldsJob(s, w, j) && StampingEnd(s.workers[w].pc)
  }

  // A row without startedAt has only been touched by workers that have not analysed it.
  ghost predicate StartPending(s: Sys, j: string)
    requires j in s.jobs
  {
    && s.hist.windowFaults[j] == 0
    && (forall w: nat | HoldsJob(s, w, j) :: Early(s.workers[w].pc))
    && (s.jobs[j].status == QUEUED
        || (s.jobs[j].status == RUNNING && exists w: nat :: AboutToStart(s, w, j)))
  }

  ghost predicate Stamped(s: Sys, j: string) {
    j in s.jobs ==>
      && (s.hist.startCrashes[j] == 0 && s.jobs[j].startedAt.None? ==> StartPending(s, j))
      && (s.hist.endCrashes[j] == 0 && Terminal(s.jobs[j].status) && s.jobs[j].completedAt.None? ==>
            exists w: nat :: AboutToComplete(s, w, j))
  }

  ghost predicate StampShape(s: Sys, w: nat, a: Action, mv: Move)
    requires w < |s.workers|
  {
    var pc, next := s.workers[w].pc, mv.next.pc;
    && (mv.write.Keep? || (Holds(pc) && mv.write.job == pc.m.jobId))
    && (Holds(pc) && pc.m.jobId in s.jobs && !a.Crash? ==>
          var row, after := s.jobs[pc.m.jobId], Written(s.jobs, mv.write)[pc.m.jobId];
          && (pc.Fetched? && row.status == QUEUED ==> next == MarkingRunning(pc.m) && mv.write.Keep?)
          && (pc.Fetched? ==> mv.write.Keep?)
          && (pc.MarkingRunning? ==> next == StampingStart(pc.m) && after.status == RUNNING)
          && (pc.StampingStart? ==> after.startedAt.Some?)
          && (pc.StampingCompleted? || pc.StampingFailed? ==> after.completedAt.Some?)
          && (after.startedAt.None? ==> row.startedAt.None?)
          && (after.completedAt.None? ==> row.completedAt.None?)
          && (mv.write.SetStatus? && Terminal(after.status) ==>
                next == StampingCompleted(pc.m) || (next.StampingFailed? && next.m == pc.m)))
    && (Holds(pc) && Early(pc) ==> !IsWindowFault(pc, a))
    && (!Holds(pc) && Holds(next) ==> next.Fetched?)
    && (a.Crash? ==> mv.write.Keep? && Idle(next))
  }

  lemma MoveHasStampShape(c: Config, s: Sys, w: nat, a: Action)
    requires w < |s.workers| && Fits(s.workers[w].pc, s.workersReady, a)
    ensures StampShape(s, w, a, WorkerMove(c, s, w, a))
  {
  }

  lemma StampMove(c: Config, s: Sys, w: nat, a: Action, t: Sys, j: string) returns (mv: Move)
    requires Inv(c, s) && Step(c, s, Work(w, a), t)
    ensures Effect(s, w, a, mv, t) && Shape(s, w, mv) && StampShape(s, w, a, mv)
    ensures Noted(s, w, a, t, j)
  {
    mv := WorkerMove(c, s, w, a);
    WorkHasEffect(c, s, w, a, t);
    MoveHasShape(c, s, w, a);
    MoveHasStampShape(c, s, w, a);
    EffectIsNoted(s, w, a, mv, t, j);
  }

  lemma EffectIsNoted(s: Sys, w: nat, a: Action, mv: Move, t: Sys, j: string)
    requires w < |s.workers| && Effect(s, w, a, mv, t)
    ensures Noted(s, w, a, t, j)
  {
  }

  // How a worker's step reaches the auxiliary record of its job.
  ghost predicate Noted(s: Sys, w: nat, a: Action, t: Sys, j: string)
    requires w < |s.workers|
  {
    var pc := s.workers[w].pc;
    && s.hist.startCrashes[j] <= t.hist.startCrashes[j] && s.hist.endCrashes[j] <= t.hist.endCrashes[j]
    && (HoldsJob(s, w, j) && a.Crash? && pc.StampingStart? ==> t.hist.startCrashes[j] > 0)
    && (HoldsJob(s, w, j) && a.Crash? && StampingEnd(pc) ==> t.hist.endCrashes[j] > 0)
    && t.hist.windowFaults[j] == s.hist.windowFaults[j]
         + (if HoldsJob(s, w, j) && IsWindowFault(pc, a) then 1 else 0)
  }

  lemma WorkKeepsStart(c: Config, s: Sys, w: nat, a: Action, mv: Move, t: Sys, j: string)
    requires Inv(c, s) && Balanced(s, j) && Stamped(s, j)
    requires w < |s.workers| && Shape(s, w, mv) && StampShape(s, w, a, mv) && Noted(s, w, a, t, j)
    requires t.workers == s.workers[w := mv.next] && t.jobs == Written(s.jobs, mv.write)
    requires j in t.jobs && t.hist.startCrashes[j] == 0 && t.jobs[j].startedAt.None?
    ensures StartPending(t, j)
  {
    WrittenKeepsKeys(s.jobs, mv.write);
    if HoldsJob(s, w, j) {
      var pc := s.workers[w].pc;
      assert Early(pc) && Working(s, w, j);
      if s.jobs[j].status == RUNNING {
        var v: nat :| AboutToStart(s, v, j);
        assert Working(s, v, j);
        OneWorkerAtATime(c, s, j, v, w);
      }
      forall v: nat | HoldsJob(t, v, j) ensures Early(t.workers[v].pc) {
        if v != w { assert HoldsJob(s, v, j); }
      }
      if pc.MarkingRunning? && !a.Crash? { assert AboutToStart(t, w, j); }
    } else {
      forall v: nat | HoldsJob(t, v, j) ensures Early(t.workers[v].pc) {
        if v != w { assert HoldsJob(s, v, j); }
      }
      if s.jobs[j].status == RUNNING {
        var v: nat :| AboutToStart(s, v, j);
        assert AboutToStart(t, v, j);
      }
    }
  }

  lemma WorkKeepsCompletion(s: Sys, w: nat, a: Action, mv: Move, t: Sys, j: string)
    requires Stamped(s, j)
    requires w < |s.workers| && StampShape(s, w, a, mv) && Noted(s, w, a, t, j)
    requires t.workers == s.workers[w := mv.next] && t.jobs == Written(s.jobs, mv.write)
    requires j in t.jobs && t.hist.endCrashes[j] == 0
    requires Terminal(t.jobs[j].status) && t.jobs[j].completedAt.None?
    ensures exists v: nat :: AboutToComplete(t, v, j)
  {
    WrittenKeepsKeys(s.jobs, mv.write);
    if mv.write.SetStatus? && mv.write.job == j {
      assert AboutToComplete(t, w, j);
    } else {
      var v: nat :| AboutToComplete(s, v, j);
      assert AboutToComplete(t, v, j);
    }
  }

  lemma SubmissionKeepsStamped(c: Config, s: Sys, l: Label, t: Sys, j: string)
    requires Inv(c, s) && Balanced(s, j) && Stamped(s, j) && !l.Work? && Step(c, s, l, t)
    ensures Stamped(t, j)
  {
    var cmd := SubmissionIs(c, s, l, t);
    if j in s.jobs {
      SubmissionKeepsRow(s, cmd, t, j);
    } else if j in t.jobs {
      NewRowIsStamped(c, s, cmd, t, j);
    }
  }

  lemma NewRowIsStamped(c: Config, s: Sys, cmd: Cmd, t: Sys, j: string)
    requires Inv(c, s) && Balanced(s, j) && SubmissionShape(s, cmd, t)
    requires t.hist.windowFaults == s.hist.windowFaults
    requires j !in s.jobs && j in t.jobs && t.jobs[j].status == QUEUED
    ensures Stamped(t, j)
  {
    forall w: nat | HoldsJob(t, w, j) ensures false { HeldIsLive(c, s, w); }
    assert !Published(s, j);
  }

  lemma SubmissionKeepsRow(s: Sys, cmd: Cmd, t: Sys, j: string)
    requires Stamped(s, j) && j in s.jobs && SubmissionShape(s, cmd, t)
    requires t.hist.windowFaults == s.hist.windowFaults
    requires t.hist.startCrashes == s.hist.startCrashes && t.hist.endCrashes == s.hist.endCrashes
    ensures Stamped(t, j)
  {
    assert forall w: nat :: HoldsJob(t, w, j) == HoldsJob(s, w, j);
    assert forall w: nat :: AboutToStart(t, w, j) == AboutToStart(s, w, j);
    assert forall w: nat :: AboutToComplete(t, w, j) == AboutToComplete(s, w, j);
  }

  lemma StepKeepsStamped(c: Config, s: Sys, l: Label, t: Sys, j: string)
    requires Inv(c, s) && Balanced(s, j) && Stamped(s, j) && Step(c, s, l, t)
    ensures Balanced(t, j) && Stamped(t, j)
  {
    StepKeepsBalance(c, s, l, t, j);
    if l.Work? {
      var mv := StampMove(c, s, l.w, l.a, t, j);
      WorkKeepsStamped(c, s, l.w, l.a, mv, t, j);
    } else {
      SubmissionKeepsStamped(c, s, l, t, j);
    }
  }

  lemma WorkKeepsStamped(c: Config, s: Sys, w: nat, a: Action, mv: Move, t: Sys, j: string)
    requires Inv(c, s) && Balanced(s, j) && Stamped(s, j)
    requires w < |s.workers| && Shape(s, w, mv) && StampShape(s, w, a, mv) && Noted(s, w, a, t, j)
    requires t.workers == s.workers[w := mv.next] && t.jobs == Written(s.jobs, mv.write)
    ensures Stamped(t, j)
  {
    if j in t.jobs {
      if t.hist.startCrashes[j] == 0 && t.jobs[j].startedAt.None? { WorkKeepsStart(c, s, w, a, mv, t, j); }
      if t.hist.endCrashes[j] == 0 && Terminal(t.jobs[j].status) && t.jobs[j].completedAt.None? {
        WorkKeepsCompletion(s, w, a, mv, t, j);
      }
    }
  }

  lemma AlwaysStamped(c: Config, ss: seq<Sys>, ls: seq<Label>, i: nat, j: string)
    requires Execution(c, ss, ls) && i < |ss|
    ensures Inv(c, ss[i]) && Balanced(ss[i], j) && Stamped(ss[i], j)
  {
    forall s | Init(c, s) ensures Balanced(s, j) && Stamped(s, j) { InitBalanced(c, s, j); }
    forall s, l, t | Inv(c, s) && Balanced(s, j) && Stamped(s, j) && Step(c, s, l, t)
      ensures Balanced(t, j) && Stamped(t, j)
    {
      StepKeepsStamped(c, s, l, t, j);
    }
    Always(c, ss, ls, i, s => Balanced(s, j) && Stamped(s, j));
  }

  lemma CompletingIsActive(c: Config, s: Sys, j: string)
    requires Inv(c, s) && exists w: nat :: AboutToComplete(s, w, j)
    ensures Active(s, j) != {}
  {
    var w: nat :| AboutToComplete(s, w, j);
    WorkingIsActive(c, s, w, j);
  }

  // ---- Where the times come from ----

  // A row's URL and creation time never change; its start and completion times change only by
  // the stamp of a worker holding the job, to the time on its clock.
  ghost predicate RowKept(s: Sys, l: Label, j: string, before: Job, after: Job) {
    && after.url == before.url && after.createdAt == before.createdAt
    && (after.startedAt != before.startedAt ==>
          l.Work? && HoldsJob(s, l.w, j) && l.a.StampStart? && after.startedAt == Some(l.a.now))
    && (after.completedAt != before.completedAt ==>
          && after.completedAt.Some? && l.Work? && HoldsJob(s, l.w, j)
          && (l.a == StampCompleted(after.completedAt.value) || l.a == StampFailed(after.completedAt.value)))
  }

  ghost predicate TimeShape(s: Sys, w: nat, a: Action, mv: Move)
    requires w < |s.workers|
  {
    && (mv.write.SetStartedAt? ==> HoldsJob(s, w, mv.write.job) && a == StampStart(mv.write.now))
    && (mv.write.SetCompletedAt? ==>
          HoldsJob(s, w, mv.write.job) && (a == StampCompleted(mv.write.now) || a == StampFailed(mv.write.now)))
  }

  lemma MoveHasTimeShape(c: Config, s: Sys, w: nat, a: Action, t: Sys) returns (mv: Move)
    requires Step(c, s, Work(w, a), t)
    ensures t.jobs == Written(s.jobs, mv.write) && TimeShape(s, w, a, mv)
  {
    mv := WorkerMove(c, s, w, a);
  }

  lemma StepKeepsRow(c: Config, s: Sys, l: Label, t: Sys, j: string)
    requires Step(c, s, l, t) && j in s.jobs
    ensures j in t.jobs && RowKept(s, l, j, s.jobs[j], t.jobs[j])
  {
    if l.Work? {
      var mv := MoveHasTimeShape(c, s, l.w, l.a, t);
      WrittenKeepsKeys(s.jobs, mv.write);
    } else {
      RowUntouched(c, s, l, t, j);
    }
  }

  // ---- When the times are there ----

  // A terminal row has its start time unless a worker crashed just when it was about to set
  // one for the job; and, as soon as none of the job's messages is live, it has its
  // completion time unless a worker crashed about to set that.  No other crash loses a time.
  lemma TerminalIsStamped(c: Config, ss: seq<Sys>, ls: seq<Label>, i: nat, j: string)
    requires Execution(c, ss, ls) && i < |ss|
    requires j in ss[i].jobs && Terminal(ss[i].jobs[j].status)
    ensures ss[i].hist.startCrashes[j] == 0 ==> ss[i].jobs[j].startedAt.Some?
    ensures ss[i].hist.endCrashes[j] == 0 && LiveIds(ss[i].redis, j) == {} ==> ss[i].jobs[j].completedAt.Some?
  {
    AlwaysStamped(c, ss, ls, i, j);
    if exists w: nat :: AboutToComplete(ss[i], w, j) { CompletingIsActive(c, ss[i], j); }
  }

  // Without faults in the retry window the final acknowledgement alone is enough.
  lemma AckedIsStamped(c: Config, ss: seq<Sys>, ls: seq<Label>, i: nat, j: string)
    requires Execution(c, ss, ls) && i < |ss|
    requires j in ss[i].jobs && Terminal(ss[i].jobs[j].status)
    requires ss[i].hist.windowFaults[j] == 0 && ss[i].hist.ended[j] > 0
    ensures ss[i].hist.startCrashes[j] == 0 ==> ss[i].jobs[j].startedAt.Some?
    ensures ss[i].hist.endCrashes[j] == 0 ==> ss[i].jobs[j].completedAt.Some?
  {
    AlwaysStamped(c, ss, ls, i, j);
    if exists w: nat :: AboutToComplete(ss[i], w, j) { CompletingIsActive(c, ss[i], j); }
  }
}
