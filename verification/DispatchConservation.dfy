// What the counters say in runs without faults.
module DispatchConservation {
  import opened Common
  import opened RedisStreams
  import opened Dispatch
  import opened DispatchSafety
  import opened DispatchDuplicates
  import opened DispatchLifecycle

  predicate IsAcking(pc: Pc, cause: AckCause) {
    pc.Acking? && pc.cause == cause
  }

  // Workers about to acknowledge for the given cause.
  function AckingFor(s: Sys, cause: AckCause): set<nat> {
    set w | 0 <= w < |s.workers| && IsAcking(s.workers[w].pc, cause)
  }

  // ---- Without faults, messages only wait for queued jobs ----

  predicate JobQueued(s: Sys, j: string) {
    j in s.jobs && s.jobs[j].status == QUEUED
  }

  ghost predicate Calm(s: Sys) {
    && (forall w | 0 <= w < |s.workers| && Idle(s.workers[w].pc) :: Owned(s.redis, w) == {})
    && (forall w | 0 <= w < |s.workers| && s.workers[w].pc.Fetched? :: JobQueued(s, s.workers[w].pc.m.jobId))
    && (forall w | 0 <= w < |s.workers| :: !IsAcking(s.workers[w].pc, Settled))
    && (forall i | Pos(s.redis) <= i < |s.redis.stream| :: JobQueued(s, s.redis.stream[i].jobId))
    && (forall j | j in s.subs :: JobQueued(s, j))
  }

  ghost predicate CalmShape(s: Sys, w: nat, a: Action, mv: Move)
    requires w < |s.workers|
  {
    var pc, next := s.workers[w].pc, mv.next.pc;
    && (Holds(pc) && Idle(next) && !IsFault(Work(w, a)) ==> mv.cmd.XAck?)
    && (mv.cmd.Deliver? && !IsFault(Work(w, a)) ==> next.Fetched?)
    && (IsAcking(next, Settled) ==> pc.Fetched? && !JobQueued(s, pc.m.jobId))
    && (next.Fetched? ==> !Holds(pc))
    && (mv.cmd.XAdd? ==> mv.write.Keep?)
    && (mv.write.SetStatus? ==> Holds(pc) && !InWindow(pc) && mv.write.job == pc.m.jobId && !pc.Fetched?)
  }

  lemma MoveHasCalmShape(c: Config, s: Sys, w: nat, a: Action)
    requires w < |s.workers| && Fits(s.workers[w].pc, s.workersReady, a)
    ensures CalmShape(s, w, a, WorkerMove(c, s, w, a))
  {
  }

  ghost predicate AllTraced(s: Sys) {
    forall j :: Traced(s, j)
  }

  // A queued job some message waits for is not being worked on by anyone else.
  lemma WaitingJobUntouched(c: Config, s: Sys, w: nat, i: nat)
    requires Inv(c, s) && w < |s.workers| && Holds(s.workers[w].pc) && !InWindow(s.workers[w].pc)
    requires Live(s.redis, i) && !Windowed(s, i) && i != s.workers[w].pc.m.id
    requires Balanced(s, s.workers[w].pc.m.jobId) && s.hist.windowFaults[s.workers[w].pc.m.jobId] == 0
    ensures s.redis.stream[i].jobId != s.workers[w].pc.m.jobId
  {
    var j := s.workers[w].pc.m.jobId;
    if s.redis.stream[i].jobId == j {
      WorkingIsActive(c, s, w, j);
      AtMostOne(Active(s, j), i, s.workers[w].pc.m.id);
    }
  }

  lemma QueuedStays(c: Config, s: Sys, w: nat, a: Action, mv: Move, t: Sys, i: nat)
    requires Inv(c, s) && s.hist.windowFaults == multiset{}
    requires w < |s.workers| && CalmShape(s, w, a, mv) && t.jobs == Written(s.jobs, mv.write)
    requires Live(s.redis, i) && !Windowed(s, i) && JobQueued(s, s.redis.stream[i].jobId)
    requires Holds(s.workers[w].pc) ==> Balanced(s, s.workers[w].pc.m.jobId) && i != s.workers[w].pc.m.id
    ensures JobQueued(t, s.redis.stream[i].jobId)
  {
    WrittenKeepsKeys(s.jobs, mv.write);
    if mv.write.SetStatus? { WaitingJobUntouched(c, s, w, i); }
  }

  lemma WorkKeepsCalm(c: Config, s: Sys, w: nat, a: Action, mv: Move, t: Sys)
    requires Inv(c, s) && AllTraced(s) && Calm(s) && s.hist.windowFaults == multiset{}
    requires w < |s.workers| && Shape(s, w, mv) && CalmShape(s, w, a, mv) && !IsFault(Work(w, a))
    requires t.redis == Exec(s.redis, mv.cmd) && t.workers == s.workers[w := mv.next]
    requires t.jobs == Written(s.jobs, mv.write) && t.subs == s.subs
    ensures Calm(t)
  {
    assert Matches(s.redis, w, s.workers[w].pc);
    WrittenKeepsKeys(s.jobs, mv.write);
    forall v | 0 <= v < |t.workers| && Idle(t.workers[v].pc) ensures Owned(t.redis, v) == {} {
      if v == w { OwnsNothing(c, s, w, a, mv, t); }
      else { ExecKeepsMatch(s.redis, mv.cmd, v, ReadingNew); }
    }
    forall v | 0 <= v < |t.workers| && t.workers[v].pc.Fetched?
      ensures JobQueued(t, t.workers[v].pc.m.jobId)
    {
      FetchedQueued(c, s, w, a, mv, t, v);
    }
    forall i | Pos(t.redis) <= i < |t.redis.stream| ensures JobQueued(t, t.redis.stream[i].jobId) {
      if i == |s.redis.stream| {
        HeldIsLive(c, s, w);
        assert Traced(s, s.workers[w].pc.m.jobId) && Working(s, w, s.workers[w].pc.m.jobId);
      } else {
        if Holds(s.workers[w].pc) { assert Traced(s, s.workers[w].pc.m.jobId); }
        QueuedStays(c, s, w, a, mv, t, i);
      }
    }
    forall j | j in t.subs ensures JobQueued(t, j) {
      if mv.write.SetStatus? { HolderIsPublished(c, s, w); }
    }
  }

  lemma OwnsNothing(c: Config, s: Sys, w: nat, a: Action, mv: Move, t: Sys)
    requires Inv(c, s) && Calm(s)
    requires w < |s.workers| && Shape(s, w, mv) && CalmShape(s, w, a, mv) && !IsFault(Work(w, a))
    requires t.redis == Exec(s.redis, mv.cmd) && Idle(mv.next.pc)
    ensures Owned(t.redis, w) == {}
  {
    assert Matches(s.redis, w, s.workers[w].pc);
  }

  lemma FetchedQueued(c: Config, s: Sys, w: nat, a: Action, mv: Move, t: Sys, v: nat)
    requires Inv(c, s) && AllTraced(s) && Calm(s) && s.hist.windowFaults == multiset{}
    requires w < |s.workers| && Shape(s, w, mv) && CalmShape(s, w, a, mv) && !IsFault(Work(w, a))
    requires t.redis == Exec(s.redis, mv.cmd) && t.workers == s.workers[w := mv.next]
    requires t.jobs == Written(s.jobs, mv.write)
    requires v < |t.workers| && t.workers[v].pc.Fetched?
    ensures JobQueued(t, t.workers[v].pc.m.jobId)
  {
    if v == w {
      assert mv.cmd.Deliver?;
    } else {
      assert Matches(s.redis, v, s.workers[v].pc) && Matches(s.redis, w, s.workers[w].pc);
      if Holds(s.workers[w].pc) { assert Traced(s, s.workers[w].pc.m.jobId); }
      QueuedStays(c, s, w, a, mv, t, s.workers[v].pc.m.id);
    }
  }

  lemma SubmissionKeepsCalm(c: Config, s: Sys, l: Label, t: Sys)
    requires Inv(c, s) && Calm(s) && !l.Work? && Step(c, s, l, t)
    ensures Calm(t)
  {
    SubmissionHasShape(c, s, l);
    SubmissionCalm(c, s, SubmissionCmd(s, l), t);
  }

  lemma SubmissionCalm(c: Config, s: Sys, cmd: Cmd, t: Sys)
    requires Inv(c, s) && Calm(s) && SubmissionShape(s, cmd, t)
    requires forall j | j in t.subs && j !in s.jobs :: JobQueued(t, j)
    ensures Calm(t)
  {
    forall w | 0 <= w < |t.workers| && Idle(t.workers[w].pc) ensures Owned(t.redis, w) == {} {
      ExecKeepsMatch(s.redis, cmd, w, ReadingNew);
    }
  }

  // ---- The counters ----

  ghost predicate Conserved(s: Sys) {
    var k := s.counters;
    && |s.redis.stream| == k.submitted + k.retried + |AckingFor(s, Retried)|
    && k.submitted + |AckingFor(s, Completed)| + |AckingFor(s, Retried)|
         == k.completed + k.failed + Load(s.redis)
    && |s.redis.dead| == k.failed + |AckingFor(s, DeadLettered)|
    && k.failed == k.deadLettered
  }

  lemma AckingChange(s: Sys, w: nat, next: Worker, t: Sys, cause: AckCause)
    requires w < |s.workers| && t.workers == s.workers[w := next]
    ensures |AckingFor(t, cause)| == |AckingFor(s, cause)|
              - One(IsAcking(s.workers[w].pc, cause)) + One(IsAcking(next.pc, cause))
  {
    OneToggled(AckingFor(s, cause), AckingFor(t, cause), w);
  }

  // How one worker's fault-free move shows in the counters.
  ghost predicate CountShape(s: Sys, w: nat, mv: Move)
    requires w < |s.workers|
  {
    var pc, next, k, k' := s.workers[w].pc, mv.next.pc, s.counters, mv.counters;
    && k'.submitted == k.submitted
    && k'.retried == k.retried + One(IsAcking(pc, Retried))
    && k'.failed == k.failed + One(IsAcking(pc, DeadLettered))
    && k'.deadLettered == k.deadLettered + One(IsAcking(pc, DeadLettered))
    && k'.completed == k.completed + One(IsAcking(next, Completed))
    && (mv.cmd.XAdd? <==> IsAcking(next, Retried))
    && (mv.cmd.XAddDead? <==> IsAcking(next, DeadLettered))
    && (mv.cmd.XAck? <==> pc.Acking?)
    && (pc.Acking? ==> !next.Acking?)
  }

  lemma MoveHasCountShape(c: Config, s: Sys, w: nat, a: Action)
    requires w < |s.workers| && Fits(s.workers[w].pc, s.workersReady, a) && !IsFault(Work(w, a))
    requires Matches(s.redis, w, s.workers[w].pc)
    ensures CountShape(s, w, WorkerMove(c, s, w, a))
  {
  }

  lemma WorkConserves(c: Config, s: Sys, w: nat, mv: Move, t: Sys)
    requires Partitioned(s.redis) && Conserved(s)
    requires w < |s.workers| && Shape(s, w, mv) && CountShape(s, w, mv)
    requires Matches(s.redis, w, s.workers[w].pc) && !IsAcking(s.workers[w].pc, Settled)
    requires t.redis == Exec(s.redis, mv.cmd) && t.workers == s.workers[w := mv.next]
    requires t.counters == mv.counters
    ensures Conserved(t)
  {
    LoadAfter(s.redis, mv.cmd);
    AckingChange(s, w, mv.next, t, Retried);
    AckingChange(s, w, mv.next, t, Completed);
    AckingChange(s, w, mv.next, t, DeadLettered);
  }

  lemma SubmissionConserves(s: Sys, cmd: Cmd, t: Sys)
    requires Partitioned(s.redis) && Conserved(s) && SubmissionShape(s, cmd, t)
    requires t.counters == s.counters.(submitted := s.counters.submitted + One(cmd.XAdd?))
    ensures Conserved(t)
  {
    LoadAfter(s.redis, cmd);
    assert forall cause :: AckingFor(t, cause) == AckingFor(s, cause);
  }

  ghost predicate Accounted(s: Sys) {
    Clean(s) && AllTraced(s) && (s.hist.faults == 0 ==> Calm(s) && Conserved(s))
  }

  lemma CountedMove(c: Config, s: Sys, w: nat, a: Action, t: Sys) returns (mv: Move)
    requires Inv(c, s) && Step(c, s, Work(w, a), t) && !IsFault(Work(w, a))
    ensures Effect(s, w, a, mv, t) && Shape(s, w, mv) && CalmShape(s, w, a, mv) && CountShape(s, w, mv)
    ensures Matches(s.redis, w, s.workers[w].pc)
  {
    mv := WorkerMove(c, s, w, a);
    WorkHasEffect(c, s, w, a, t);
    assert Matches(s.redis, w, s.workers[w].pc);
    MoveHasShape(c, s, w, a);
    MoveHasCalmShape(c, s, w, a);
    MoveHasCountShape(c, s, w, a);
  }

  lemma StepKeepsAccount(c: Config, s: Sys, l: Label, t: Sys)
    requires Inv(c, s) && Accounted(s) && Step(c, s, l, t)
    ensures Accounted(t)
  {
    StepKeepsClean(c, s, l, t);
    forall j ensures Traced(t, j) { StepKeepsTraced(c, s, l, t, j); }
    FaultsCounted(c, s, l, t);
    if t.hist.faults == 0 {
      if l.Work? {
        var mv := CountedMove(c, s, l.w, l.a, t);
        WorkKeepsCalm(c, s, l.w, l.a, mv, t);
        WorkConserves(c, s, l.w, mv, t);
      } else {
        SubmissionKeepsCalm(c, s, l, t);
        SubmissionCounts(c, s, l, t);
      }
    }
  }

  lemma FaultsCounted(c: Config, s: Sys, l: Label, t: Sys)
    requires Step(c, s, l, t)
    ensures t.hist.faults == s.hist.faults + One(IsFault(l))
  {
  }

  lemma SubmissionCounts(c: Config, s: Sys, l: Label, t: Sys)
    requires Inv(c, s) && Conserved(s) && !l.Work? && !IsFault(l) && Step(c, s, l, t)
    ensures Conserved(t)
  {
    SubmissionHasShape(c, s, l);
    CountersAfter(c, s, l);
    SubmissionConserves(s, SubmissionCmd(s, l), t);
  }

  lemma CountersAfter(c: Config, s: Sys, l: Label)
    requires Enabled(s, l) && !l.Work? && !IsFault(l)
    ensures Apply(c, s, l).counters
            == s.counters.(submitted := s.counters.submitted + One(SubmissionCmd(s, l).XAdd?))
  {
  }

  lemma InitAccounted(c: Config, s: Sys)
    requires Init(c, s)
    ensures Accounted(s)
  {
    forall j ensures Traced(s, j) { InitBalanced(c, s, j); }
    assert forall cause :: AckingFor(s, cause) == {};
  }

  // In a run without faults the counters, the streams and the program counters agree.
  lemma CountersConserved(c: Config, ss: seq<Sys>, ls: seq<Label>, i: nat)
    requires Execution(c, ss, ls) && i < |ss| && ss[i].hist.faults == 0
    ensures Conserved(ss[i]) && Calm(ss[i])
  {
    forall s | Init(c, s) ensures Accounted(s) { InitAccounted(c, s); }
    forall s, l, t | Inv(c, s) && Accounted(s) && Step(c, s, l, t) ensures Accounted(t) {
      StepKeepsAccount(c, s, l, t);
    }
    Always(c, ss, ls, i, s => Accounted(s));
  }

  // ---- The same in terms of jobs ----

  // Jobs that still have a message no retry has replaced.
  function OpenJobs(s: Sys): set<string> {
    set i | 0 <= i < |s.redis.stream| && Live(s.redis, i) && !Windowed(s, i) :: s.redis.stream[i].jobId
  }

  function OpenIds(s: Sys): set<nat> {
    set i | 0 <= i < |s.redis.stream| && Live(s.redis, i) && !Windowed(s, i)
  }

  // A function that takes no value twice has as many values as arguments.
  lemma {:induction false} ImageSize<A, B>(args: set<A>, f: A -> B, image: set<B>)
    requires forall x, y | x in args && y in args && f(x) == f(y) :: x == y
    requires forall x | x in args :: f(x) in image
    requires forall y | y in image :: exists x :: x in args && f(x) == y
    ensures |image| == |args|
  {
    if args != {} {
      var x :| x in args;
      ImageSize(args - {x}, f, image - {f(x)});
    }
  }

  lemma OpenIdsPerJob(s: Sys)
    requires forall j :: |Active(s, j)| <= 1
    ensures |OpenIds(s)| == |OpenJobs(s)|
  {
    var jobOf := i => if 0 <= i < |s.redis.stream| then s.redis.stream[i].jobId else "";
    forall i: nat, k: nat | i in OpenIds(s) && k in OpenIds(s) && jobOf(i) == jobOf(k) ensures i == k {
      AtMostOne(Active(s, jobOf(i)), i, k);
    }
    forall j | j in OpenJobs(s) ensures exists i :: i in OpenIds(s) && jobOf(i) == j {
      var i :| i in OpenIds(s) && s.redis.stream[i].jobId == j;
      assert jobOf(i) == j;
    }
    ImageSize(OpenIds(s), jobOf, OpenJobs(s));
  }

  lemma OpenIdsCount(c: Config, s: Sys)
    requires Inv(c, s)
    ensures |OpenIds(s)| + |AckingFor(s, Retried)| == Load(s.redis)
  {
    var live := set i | 0 <= i < |s.redis.stream| && Live(s.redis, i);
    LoadCountsLive(s.redis);
    var windowed := live - OpenIds(s);
    assert live == OpenIds(s) + windowed;
    WindowedPerWorker(c, s, windowed);
  }

  lemma WindowedPerWorker(c: Config, s: Sys, windowed: set<nat>)
    requires Inv(c, s)
    requires forall i: nat :: i in windowed <==> Live(s.redis, i) && Windowed(s, i)
    ensures |windowed| == |AckingFor(s, Retried)|
  {
    var idOf := w => if 0 <= w < |s.workers| && Holds(s.workers[w].pc) then s.workers[w].pc.m.id else 0;
    var acking := AckingFor(s, Retried);
    forall w | w in acking
      ensures idOf(w) in windowed && idOf(w) in s.redis.pending && s.redis.pending[idOf(w)] == w
    {
      assert Matches(s.redis, w, s.workers[w].pc);
    }
    forall i | i in windowed ensures exists w :: w in acking && idOf(w) == i {
      var w := s.redis.pending[i];
      assert w in acking && idOf(w) == i;
    }
    ImageSize(acking, idOf, windowed);
  }

  // submitted = completed + failed + jobs still open, up to workers that have counted a
  // completion and not yet acknowledged it.
  lemma SubmissionsAccounted(c: Config, ss: seq<Sys>, ls: seq<Label>, i: nat)
    requires Execution(c, ss, ls) && i < |ss| && ss[i].hist.faults == 0
    ensures ss[i].counters.submitted + |AckingFor(ss[i], Completed)|
            == ss[i].counters.completed + ss[i].counters.failed + |OpenJobs(ss[i])|
  {
    CountersConserved(c, ss, ls, i);
    AlwaysSafe(c, ss, ls, i);
    FaultFree(c, ss, ls, i);
    forall j ensures |Active(ss[i], j)| <= 1 { AlwaysBalanced(c, ss, ls, i, j); }
    OpenIdsCount(c, ss[i]);
    OpenIdsPerJob(ss[i]);
  }
}
