// The life of a job's row over whole runs.
module DispatchLifecycle {
  import opened RedisStreams
  import opened Dispatch
  import opened DispatchSafety
  import opened DispatchDuplicates

  // The transitions the system documents, and standing still.
  predicate Lawful(before: JobStatus, after: JobStatus) {
    || before == after
    || (before == QUEUED && after == RUNNING)
    || (before == RUNNING && (after == COMPLETED || after == QUEUED || after == FAILED))
  }

  // The status a worker relies on between two of its commands.
  predicate Agrees(pc: Pc, status: JobStatus) {
    match pc
    case MarkingRunning(_) => status == QUEUED
    case StampingStart(_) => status == RUNNING
    case Analysing(_) => status == RUNNING
    case MarkingCompleted(_) => status == RUNNING
    case StampingCompleted(_) => status == COMPLETED
    case MarkingQueued(_) => status == RUNNING
    case EnsuringRetry(_) => status == QUEUED
    case PublishingRetry(_) => status == QUEUED
    case MarkingFailed(_, _) => status == RUNNING
    case StampingFailed(_, _) => status == FAILED
    case PublishingDead(_, _) => status == FAILED
    case Acking(_, Settled) => Terminal(status)
    case Acking(_, Completed) => status == COMPLETED
    case Acking(_, DeadLettered) => status == FAILED
    case _ => true
  }

  ghost predicate Faithful(s: Sys, j: string) {
    s.hist.windowFaults[j] == 0 && j in s.jobs ==>
      forall w: nat | Working(s, w, j) :: Agrees(s.workers[w].pc, s.jobs[j].status)
  }

  // A move writes only the row of the message in hand, and keeps to its part of the protocol.
  ghost predicate RowShape(s: Sys, w: nat, mv: Move)
    requires w < |s.workers|
  {
    var pc := s.workers[w].pc;
    && (mv.write.Keep? || (Holds(pc) && mv.write.job == pc.m.jobId))
    && (Holds(pc) && pc.m.jobId in s.jobs && !InWindow(pc) && Agrees(pc, s.jobs[pc.m.jobId].status) ==>
          var after := Written(s.jobs, mv.write)[pc.m.jobId].status;
          && Lawful(s.jobs[pc.m.jobId].status, after)
          && (Holds(mv.next.pc) && !InWindow(mv.next.pc) ==> Agrees(mv.next.pc, after)))
    && (InWindow(pc) ==> mv.write.Keep? && Idle(mv.next.pc))
    && (!Holds(pc) && Holds(mv.next.pc) ==> mv.next.pc.Fetched?)
  }

  lemma MoverAgrees(c: Config, s: Sys, w: nat, a: Action)
    requires w < |s.workers| && Fits(s.workers[w].pc, s.workersReady, a)
    ensures RowShape(s, w, WorkerMove(c, s, w, a))
  {
  }

  lemma WorkKeepsFaithful(c: Config, s: Sys, w: nat, mv: Move, t: Sys, j: string)
    requires Inv(c, s) && Balanced(s, j) && Faithful(s, j)
    requires w < |s.workers| && Shape(s, w, mv)
    requires RowShape(s, w, mv)
    requires t.workers == s.workers[w := mv.next] && t.jobs == Written(s.jobs, mv.write)
    requires t.hist.windowFaults[j] >= s.hist.windowFaults[j]
    ensures Faithful(t, j)
  {
    if s.hist.windowFaults[j] == 0 && j in s.jobs {
      var pc := s.workers[w].pc;
      if Working(s, w, j) {
        forall v: nat | Working(t, v, j) ensures Agrees(t.workers[v].pc, t.jobs[j].status) {
          if v != w {
            assert Working(s, v, j);
            OneWorkerAtATime(c, s, j, v, w);
          }
        }
      } else {
        assert t.jobs[j] == s.jobs[j];
        forall v: nat | Working(t, v, j) ensures Agrees(t.workers[v].pc, t.jobs[j].status) {
          if v != w { assert Working(s, v, j); }
        }
      }
    }
  }

  lemma SubmissionKeepsFaithful(c: Config, s: Sys, cmd: Cmd, t: Sys, j: string)
    requires Inv(c, s) && Faithful(s, j) && SubmissionShape(s, cmd, t)
    requires t.hist.windowFaults == s.hist.windowFaults
    ensures Faithful(t, j)
  {
    forall w: nat | Working(t, w, j) ensures j in s.jobs && Working(s, w, j) {
      HeldIsLive(c, s, w);
    }
  }

  ghost predicate Traced(s: Sys, j: string) {
    Balanced(s, j) && Faithful(s, j)
  }

  lemma StepKeepsTraced(c: Config, s: Sys, l: Label, t: Sys, j: string)
    requires Inv(c, s) && Traced(s, j) && Step(c, s, l, t)
    ensures Traced(t, j)
  {
    StepKeepsBalance(c, s, l, t, j);
    if l.Work? {
      var mv := RowMove(c, s, l.w, l.a, t);
      WorkKeepsFaithful(c, s, l.w, mv, t, j);
    } else {
      var cmd := SubmissionIs(c, s, l, t);
      SubmissionKeepsFaithful(c, s, cmd, t, j);
    }
  }

  lemma RowMove(c: Config, s: Sys, w: nat, a: Action, t: Sys) returns (mv: Move)
    requires Inv(c, s) && Step(c, s, Work(w, a), t)
    ensures Effect(s, w, a, mv, t) && Shape(s, w, mv) && RowShape(s, w, mv)
  {
    mv := WorkerMove(c, s, w, a);
    WorkHasEffect(c, s, w, a, t);
    MoveHasShape(c, s, w, a);
    MoverAgrees(c, s, w, a);
  }

  lemma AlwaysTraced(c: Config, ss: seq<Sys>, ls: seq<Label>, i: nat, j: string)
    requires Execution(c, ss, ls) && i < |ss|
    ensures Inv(c, ss[i]) && Traced(ss[i], j)
  {
    forall s | Init(c, s) ensures Traced(s, j) { InitBalanced(c, s, j); }
    forall s, l, t | Inv(c, s) && Traced(s, j) && Step(c, s, l, t) ensures Traced(t, j) {
      StepKeepsTraced(c, s, l, t, j);
    }
    Always(c, ss, ls, i, s => Traced(s, j));
  }

  // ---- Which states an unlawful change can come out of ----

  // The worker's own next writes would change the status in a way nobody documents.
  predicate Breaks(pc: Pc, status: JobStatus) {
    match pc
    case MarkingRunning(_) => Terminal(status)
    case StampingStart(_) => status != RUNNING
    case Analysing(_) => status != RUNNING
    case MarkingCompleted(_) => status == QUEUED || status == FAILED
    case MarkingFailed(_, _) => status == QUEUED || status == COMPLETED
    case MarkingQueued(_) => Terminal(status)
    case _ => false
  }

  predicate BrokenBy(s: Sys, j: string, w: nat) {
    && j in s.jobs && w < |s.workers| && Holds(s.workers[w].pc) && s.workers[w].pc.m.jobId == j
    && Breaks(s.workers[w].pc, s.jobs[j].status)
  }

  ghost predicate Broken(s: Sys, j: string) {
    exists w: nat :: BrokenBy(s, j, w)
  }

  predicate Marks(a: Action) {
    a.MarkRunning? || a.MarkCompleted? || a.MarkQueued? || a.MarkFailed?
  }

  // What a worker's move does to the row of the message it holds.
  ghost predicate BreakShape(s: Sys, w: nat, a: Action, mv: Move)
    requires w < |s.workers|
  {
    var pc, next := s.workers[w].pc, mv.next.pc;
    && (mv.write.Keep? || (Holds(pc) && mv.write.job == pc.m.jobId))
    && (Holds(pc) && Holds(next) ==> next.m == pc.m)
    && (!Holds(pc) && Holds(next) ==> next.Fetched?)
    && (Holds(pc) && pc.m.jobId in s.jobs ==>
          var before, after := s.jobs[pc.m.jobId].status, Written(s.jobs, mv.write)[pc.m.jobId].status;
          && (!Lawful(before, after) <==> Marks(a) && Breaks(pc, before))
          && (before == after && Holds(next) && Breaks(next, after) ==> Breaks(pc, before)))
  }

  lemma MoveHasBreakShape(c: Config, s: Sys, w: nat, a: Action)
    requires w < |s.workers| && Fits(s.workers[w].pc, s.workersReady, a)
    ensures BreakShape(s, w, a, WorkerMove(c, s, w, a))
  {
    if Marks(a) { MarkHasBreakShape(c, s, w, a); } else { OtherHasBreakShape(c, s, w, a); }
  }

  lemma MarkHasBreakShape(c: Config, s: Sys, w: nat, a: Action)
    requires w < |s.workers| && Fits(s.workers[w].pc, s.workersReady, a) && Marks(a)
    ensures BreakShape(s, w, a, WorkerMove(c, s, w, a))
  {
  }

  lemma OtherHasBreakShape(c: Config, s: Sys, w: nat, a: Action)
    requires w < |s.workers| && Fits(s.workers[w].pc, s.workersReady, a) && !Marks(a)
    ensures BreakShape(s, w, a, WorkerMove(c, s, w, a))
  {
  }

  // A step by a worker, by its move alone.
  lemma WorkIsMove(c: Config, s: Sys, l: Label, t: Sys) returns (mv: Move)
    requires Step(c, s, l, t) && l.Work?
    ensures t.workers == s.workers[l.w := mv.next] && t.jobs == Written(s.jobs, mv.write)
    ensures BreakShape(s, l.w, l.a, mv)
  {
    mv := WorkerMove(c, s, l.w, l.a);
    MoveHasBreakShape(c, s, l.w, l.a);
  }

  // The exact guard of an unlawful change: the mark of a worker the status has moved away from.
  predicate MarksAgainst(s: Sys, l: Label, j: string) {
    l.Work? && Marks(l.a) && BrokenBy(s, j, l.w)
  }

  lemma UnlawfulStepIff(c: Config, s: Sys, l: Label, t: Sys, j: string)
    requires Step(c, s, l, t) && j in s.jobs
    ensures j in t.jobs
    ensures !Lawful(s.jobs[j].status, t.jobs[j].status) <==> MarksAgainst(s, l, j)
  {
    if l.Work? {
      var mv := WorkIsMove(c, s, l, t);
      WrittenKeepsKeys(s.jobs, mv.write);
    } else {
      RowUntouched(c, s, l, t, j);
    }
  }

  // As long as the status stands still, nobody gets into the position to break it.
  lemma UnbrokenStays(c: Config, s: Sys, l: Label, t: Sys, j: string)
    requires Step(c, s, l, t) && j in s.jobs && !Broken(s, j)
    ensures j in t.jobs && Lawful(s.jobs[j].status, t.jobs[j].status)
    ensures t.jobs[j].status == s.jobs[j].status ==> !Broken(t, j)
  {
    UnlawfulStepIff(c, s, l, t, j);
    if l.Work? {
      var mv := WorkIsMove(c, s, l, t);
      forall w: nat | t.jobs[j].status == s.jobs[j].status && BrokenBy(t, j, w) ensures BrokenBy(s, j, w) {}
    } else {
      RowUntouched(c, s, l, t, j);
      forall w: nat | BrokenBy(t, j, w) ensures BrokenBy(s, j, w) {}
    }
  }

  // ---- Every continuation of a state ----

  // The labels lead from `s` to a state in which the job's status has changed for the first
  // time, and not as documented.
  ghost predicate Breaking(c: Config, s: Sys, ss: seq<Sys>, ls: seq<Label>, j: string)
    requires j in s.jobs
  {
    && Run(c, ss, ls) && ss[0] == s && ls != []
    && (forall i | 0 <= i < |ls| :: j in ss[i].jobs && ss[i].jobs[j].status == s.jobs[j].status)
    && j in ss[|ls|].jobs && !Lawful(s.jobs[j].status, ss[|ls|].jobs[j].status)
  }

  lemma {:induction false} UnbrokenRun(c: Config, ss: seq<Sys>, ls: seq<Label>, i: nat, j: string)
    requires Run(c, ss, ls) && i < |ss| && j in ss[0].jobs && !Broken(ss[0], j)
    requires forall k: nat | k < i :: j in ss[k].jobs && ss[k].jobs[j].status == ss[0].jobs[j].status
    ensures j in ss[i].jobs && Lawful(ss[0].jobs[j].status, ss[i].jobs[j].status)
    ensures ss[i].jobs[j].status == ss[0].jobs[j].status ==> !Broken(ss[i], j)
  {
    if i > 0 {
      UnbrokenRun(c, ss, ls, i - 1, j);
      assert Step(c, ss[i - 1], ls[i - 1], ss[i]);
      UnbrokenStays(c, ss[i - 1], ls[i - 1], ss[i], j);
    }
  }

  function BreakingAction(pc: Pc, status: JobStatus): Action {
    match pc
    case MarkingRunning(_) => MarkRunning
    case StampingStart(_) => StampStart(0)
    case Analysing(_) => Analyse(if status == COMPLETED then InvalidUrl else Analysed)
    case MarkingCompleted(_) => MarkCompleted
    case MarkingFailed(_, _) => MarkFailed
    case _ => MarkQueued
  }

  function StepsToBreak(pc: Pc): nat {
    if pc.StampingStart? then 3 else if pc.Analysing? then 2 else 1
  }

  // One step of the worker on its way to an unlawful mark.
  lemma BreakingStep(c: Config, s: Sys, w: nat, j: string)
    requires BrokenBy(s, j, w)
    ensures var a := BreakingAction(s.workers[w].pc, s.jobs[j].status);
            && Enabled(s, Work(w, a))
            && var t := Apply(c, s, Work(w, a));
            && j in t.jobs
            && if StepsToBreak(s.workers[w].pc) == 1 then !Lawful(s.jobs[j].status, t.jobs[j].status)
               else t.jobs[j].status == s.jobs[j].status && BrokenBy(t, j, w)
                    && StepsToBreak(t.workers[w].pc) == StepsToBreak(s.workers[w].pc) - 1
  {
    var a := BreakingAction(s.workers[w].pc, s.jobs[j].status);
    if StepsToBreak(s.workers[w].pc) == 1 {
      UnlawfulStepIff(c, s, Work(w, a), Apply(c, s, Work(w, a)), j);
    } else {
      BreakingPrepared(c, s, w, j);
    }
  }

  lemma BreakingPrepared(c: Config, s: Sys, w: nat, j: string)
    requires BrokenBy(s, j, w) && StepsToBreak(s.workers[w].pc) > 1
    ensures var a := BreakingAction(s.workers[w].pc, s.jobs[j].status);
            && Enabled(s, Work(w, a))
            && var t := Apply(c, s, Work(w, a));
            && j in t.jobs && t.jobs[j].status == s.jobs[j].status && BrokenBy(t, j, w)
            && StepsToBreak(t.workers[w].pc) == StepsToBreak(s.workers[w].pc) - 1
  {
  }

  // That worker alone gets there in at most three steps.
  lemma {:induction false} BreaksAlone(c: Config, s: Sys, w: nat, j: string) returns (ss: seq<Sys>, ls: seq<Label>)
    requires BrokenBy(s, j, w)
    ensures Breaking(c, s, ss, ls, j) && |ls| == StepsToBreak(s.workers[w].pc)
    ensures forall l | l in ls :: l.Work? && l.w == w && !IsFault(l)
    decreases StepsToBreak(s.workers[w].pc)
  {
    var l := Work(w, BreakingAction(s.workers[w].pc, s.jobs[j].status));
    BreakingStep(c, s, w, j);
    var t := Apply(c, s, l);
    assert Step(c, s, l, t);
    if StepsToBreak(s.workers[w].pc) == 1 {
      ss, ls := [s, t], [l];
    } else {
      var ss', ls' := BreaksAlone(c, t, w, j);
      ss, ls := Prepended(c, s, l, ss', ls');
    }
  }

  lemma Prepended(c: Config, s: Sys, l: Label, ss: seq<Sys>, ls: seq<Label>) returns (ss': seq<Sys>, ls': seq<Label>)
    requires Run(c, ss, ls) && Step(c, s, l, ss[0])
    ensures ss' == [s] + ss && ls' == [l] + ls && Run(c, ss', ls')
  {
    ss', ls' := [s] + ss, [l] + ls;
    forall i | 0 <= i < |ls'| ensures Step(c, ss'[i], ls'[i], ss'[i + 1]) {
      if i > 0 { assert Step(c, ss[i - 1], ls[i - 1], ss[i]); }
    }
  }

  // Over all continuations of a state: the next change of the job's status can be an
  // unlawful one if and only if some worker is already in the position to make it.
  lemma NextChangeIff(c: Config, s: Sys, j: string)
    requires j in s.jobs
    ensures (exists ss, ls :: Breaking(c, s, ss, ls, j)) <==> Broken(s, j)
  {
    if Broken(s, j) {
      var w: nat :| BrokenBy(s, j, w);
      var ss, ls := BreaksAlone(c, s, w, j);
    }
    forall ss, ls | Breaking(c, s, ss, ls, j) ensures Broken(s, j) {
      if !Broken(s, j) { UnbrokenRun(c, ss, ls, |ls|, j); }
    }
  }

  ghost predicate FinalIn(c: Config, s: Sys, ss: seq<Sys>, ls: seq<Label>, j: string) {
    Run(c, ss, ls) && ss[0] == s && j in s.jobs ==> j in ss[|ls|].jobs && ss[|ls|].jobs[j].status == s.jobs[j].status
  }

  // A terminal status survives every continuation, whatever faults follow, if and only if
  // no worker is in the position to break it.
  lemma FinalIff(c: Config, s: Sys, j: string)
    requires j in s.jobs && Terminal(s.jobs[j].status)
    ensures (forall ss, ls :: FinalIn(c, s, ss, ls, j)) <==> !Broken(s, j)
  {
    if Broken(s, j) {
      var w: nat :| BrokenBy(s, j, w);
      var ss, ls := BreaksAlone(c, s, w, j);
      assert !FinalIn(c, s, ss, ls, j);
    } else {
      forall ss, ls ensures FinalIn(c, s, ss, ls, j) {
        if Run(c, ss, ls) && ss[0] == s { TerminalStays(c, ss, ls, |ls|, j); }
      }
    }
  }

  lemma {:induction false} TerminalStays(c: Config, ss: seq<Sys>, ls: seq<Label>, i: nat, j: string)
    requires Run(c, ss, ls) && i < |ss| && j in ss[0].jobs && Terminal(ss[0].jobs[j].status) && !Broken(ss[0], j)
    ensures j in ss[i].jobs && ss[i].jobs[j].status == ss[0].jobs[j].status && !Broken(ss[i], j)
  {
    if i > 0 {
      TerminalStays(c, ss, ls, i - 1, j);
      assert Step(c, ss[i - 1], ls[i - 1], ss[i]);
      UnbrokenStays(c, ss[i - 1], ls[i - 1], ss[i], j);
    }
  }

  // ---- Without faults in the retry window nobody is in that position ----

  lemma FaithfulUnbroken(s: Sys, j: string)
    requires Faithful(s, j) && s.hist.windowFaults[j] == 0 && j in s.jobs
    ensures !Broken(s, j)
  {
    forall w: nat ensures !BrokenBy(s, j, w) {
      if Working(s, w, j) { assert Agrees(s.workers[w].pc, s.jobs[j].status); }
    }
  }

  // While no retry-window fault has hit the job, its status only makes documented moves.
  lemma EveryChangeLawful(c: Config, ss: seq<Sys>, ls: seq<Label>, i: nat, j: string)
    requires Execution(c, ss, ls) && i < |ls|
    requires ss[i].hist.windowFaults[j] == 0 && j in ss[i].jobs
    ensures j in ss[i + 1].jobs && Lawful(ss[i].jobs[j].status, ss[i + 1].jobs[j].status)
  {
    AlwaysTraced(c, ss, ls, i, j);
    FaithfulUnbroken(ss[i], j);
    UnlawfulStepIff(c, ss[i], ls[i], ss[i + 1], j);
  }

  // A status that became terminal before any retry-window fault hit the job is final,
  // whatever faults follow.
  lemma TerminalIsFinal(c: Config, ss: seq<Sys>, ls: seq<Label>, i: nat, k: nat, j: string)
    requires Execution(c, ss, ls) && i <= k < |ss|
    requires j in ss[i].jobs && Terminal(ss[i].jobs[j].status)
    requires ss[i].hist.windowFaults[j] == 0
    ensures j in ss[k].jobs && ss[k].jobs[j].status == ss[i].jobs[j].status
  {
    AlwaysTraced(c, ss, ls, i, j);
    FaithfulUnbroken(ss[i], j);
    FinalIff(c, ss[i], j);
    assert Run(c, ss[i..k + 1], ls[i..k]) by {
      forall n | 0 <= n < k - i ensures Step(c, ss[i..k + 1][n], ls[i..k][n], ss[i..k + 1][n + 1]) {
        assert Step(c, ss[i + n], ls[i + n], ss[i + n + 1]);
      }
    }
    assert FinalIn(c, ss[i], ss[i..k + 1], ls[i..k], j);
  }
}
