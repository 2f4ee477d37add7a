// What every step keeps, under any interleaving and any queue fault or worker crash.
module DispatchSafety {
  import opened Common
  import opened RedisStreams
  import opened Dispatch

  // Nothing is added to the stream, or read from it, before the group exists.
  ghost predicate GroupFirst(s: Sys) {
    && (s.publisherReady || s.workersReady ==> s.redis.group.Some?)
    && (forall j | j in s.subs :: !s.subs[j].Ensuring? ==> s.redis.group.Some?)
    && (forall w | 0 <= w < |s.workers| ::
          s.workers[w].pc.ReadingHistory? || s.workers[w].pc.ReadingNew? || s.workers[w].pc.PublishingRetry?
          ==> s.redis.group.Some?)
  }

  // A worker's message is a pending entry of its own consumer, as the stream has it.
  predicate HoldsOwn(r: Redis, w: nat, m: Msg) {
    && m.id in r.pending && r.pending[m.id] == w
    && m.id < |r.stream| && r.stream[m.id] == Entry(m.jobId, m.attempt)
  }

  // Each consumer has at most one pending entry, and a busy worker's message is that entry.
  ghost predicate OneEach(c: Config, s: Sys) {
    && |s.workers| == c.workerCount
    && DistinctOwners(s.redis, c.workerCount)
    && forall w | 0 <= w < |s.workers| :: Matches(s.redis, w, s.workers[w].pc)
  }

  ghost predicate DistinctOwners(r: Redis, n: nat) {
    && (forall i | i in r.pending :: r.pending[i] < n)
    && (forall i, k | i in r.pending && k in r.pending && i != k :: r.pending[i] != r.pending[k])
  }

  predicate Matches(r: Redis, w: nat, pc: Pc) {
    && (Holds(pc) ==> HoldsOwn(r, w, pc.m))
    && (pc.ReadingNew? ==> Owned(r, w) == {})
  }

  // Retry numbers stay within the limit, and only used-up retries are reported as such.
  ghost predicate Bounded(c: Config, s: Sys) {
    && (forall i | 0 <= i < |s.redis.stream| :: 0 <= s.redis.stream[i].attempt <= c.maxRetries)
    && (forall d | d in s.redis.dead ::
          0 <= d.attempt <= c.maxRetries && (d.reason == MaxRetryExceeded ==> d.attempt == c.maxRetries))
    && (forall w | 0 <= w < |s.workers| :: LimitKnown(c, s.workers[w]))
  }

  predicate LimitKnown(c: Config, w: Worker) {
    && w.reason != MaxRetryExceeded
    && match w.pc
       case MarkingQueued(m) => m.attempt < c.maxRetries
       case EnsuringRetry(m) => m.attempt < c.maxRetries
       case PublishingRetry(m) => m.attempt < c.maxRetries
       case MarkingFailed(m, r) => r == MaxRetryExceeded ==> m.attempt >= c.maxRetries
       case StampingFailed(m, r) => r == MaxRetryExceeded ==> m.attempt >= c.maxRetries
       case PublishingDead(m, r) => r == MaxRetryExceeded ==> m.attempt >= c.maxRetries
       case _ => true
  }

  predicate Published(s: Sys, j: string) {
    exists i :: 0 <= i < |s.redis.stream| && s.redis.stream[i].jobId == j
  }

  ghost predicate Stored(s: Sys) {
    && (forall i | 0 <= i < |s.redis.stream| :: s.redis.stream[i].jobId in s.jobs)
    && (forall j | j in s.subs :: j in s.jobs && !Published(s, j))
  }

  // The worker has made up its mind to drop the message it holds.
  predicate Doomed(pc: Pc) {
    pc.StampingCompleted? || pc.StampingFailed? || pc.PublishingDead? || pc.Acking?
  }

  // Some live message of the job that no worker is about to drop.
  predicate Kept(s: Sys, j: string, i: nat) {
    && Live(s.redis, i) && s.redis.stream[i].jobId == j
    && forall w | 0 <= w < |s.workers| && Doomed(s.workers[w].pc) :: s.workers[w].pc.m.id != i
  }

  ghost predicate NoneLost(s: Sys) {
    forall j | j in s.jobs && Published(s, j) ::
      Terminal(s.jobs[j].status) || exists i :: Kept(s, j, i)
  }

  ghost predicate Inv(c: Config, s: Sys) {
    Partitioned(s.redis) && GroupFirst(s) && OneEach(c, s) && Bounded(c, s) && Stored(s)
  }

  lemma InitInv(c: Config, s: Sys)
    requires Init(c, s)
    ensures Inv(c, s) && NoneLost(s)
  {
  }

  lemma HeldIsLive(c: Config, s: Sys, w: nat)
    requires Inv(c, s) && w < |s.workers| && Holds(s.workers[w].pc)
    ensures Live(s.redis, s.workers[w].pc.m.id)
    ensures s.workers[w].pc.m.jobId in s.jobs
    ensures s.redis.group.Some?
  {
  }

  // What a worker's move can do to the stream and to the message it holds.
  ghost predicate Shape(s: Sys, w: nat, mv: Move)
    requires w < |s.workers|
  {
    var pc, next := s.workers[w].pc, mv.next.pc;
    && (mv.cmd.Deliver? ==>
          mv.cmd.consumer == w && pc.ReadingNew? && HasNew(s.redis) && (next.Polling? || next.Fetched?))
    && (mv.cmd.XAdd? ==>
          && pc.PublishingRetry? && mv.cmd.entry == Entry(pc.m.jobId, pc.m.attempt + 1)
          && (next.Polling? || next == Acking(pc.m, Retried)))
    && (mv.cmd.XAck? ==> pc.Acking? && mv.cmd.id == pc.m.id && next.Polling?)
    && (Holds(next) ==>
          if Holds(pc) then next.m == pc.m && (mv.cmd.Nop? || mv.cmd.CreateGroup? || mv.cmd.XAdd? || mv.cmd.XAddDead?)
          else if mv.cmd.Deliver? then HasNew(s.redis) && next.m == MsgAt(s.redis, Pos(s.redis))
          else pc.ReadingHistory? && mv.cmd.Nop? && Fetchable(s.redis, w, next.m))
    && (next.ReadingNew? ==> pc.ReadingHistory? && mv.cmd.Nop? && Owned(s.redis, w) == {})
    && (next.ReadingHistory? || next.PublishingRetry? ==> mv.ready)
    && (next.ReadingNew? || mv.ready ==> s.workersReady || mv.cmd.CreateGroup? || s.redis.group.Some?)
  }

  predicate Fetchable(r: Redis, w: nat, m: Msg) {
    m.id in Owned(r, w) && m.id < |r.stream| && m == MsgAt(r, m.id)
  }

  lemma MoveHasShape(c: Config, s: Sys, w: nat, a: Action)
    requires Partitioned(s.redis) && GroupFirst(s)
    requires w < |s.workers| && Fits(s.workers[w].pc, s.workersReady, a)
    ensures Shape(s, w, WorkerMove(c, s, w, a))
  {
    if a.ReadHistory? {
      assert Owned(s.redis, w) == set i | i in Owned(s.redis, w) && i < |s.redis.stream|;
    }
  }

  lemma MoveKeepsPartition(s: Sys, w: nat, mv: Move, t: Sys)
    requires Partitioned(s.redis) && GroupFirst(s)
    requires w < |s.workers| && Shape(s, w, mv)
    requires t.redis == Exec(s.redis, mv.cmd) && t.workers == s.workers[w := mv.next]
    requires t.subs == s.subs && t.publisherReady == s.publisherReady && t.workersReady == mv.ready
    ensures Partitioned(t.redis) && GroupFirst(t)
  {
    ExecKeepsPartition(s.redis, mv.cmd);
  }

  lemma MoveKeepsOneEach(c: Config, s: Sys, w: nat, mv: Move, t: Sys)
    requires Partitioned(s.redis) && OneEach(c, s)
    requires w < |s.workers| && Shape(s, w, mv)
    requires t.redis == Exec(s.redis, mv.cmd) && t.workers == s.workers[w := mv.next]
    ensures OneEach(c, t)
  {
    ExecKeepsOwners(s.redis, mv.cmd, c.workerCount);
    forall v | 0 <= v < |t.workers| ensures Matches(t.redis, v, t.workers[v].pc) {
      assert Matches(s.redis, v, s.workers[v].pc) && Matches(s.redis, w, s.workers[w].pc);
      if v == w {
        MoverMatches(s, w, mv);
      } else {
        ExecKeepsMatch(s.redis, mv.cmd, v, s.workers[v].pc);
      }
    }
  }

  lemma ExecKeepsOwners(r: Redis, cmd: Cmd, n: nat)
    requires Partitioned(r) && DistinctOwners(r, n)
    requires cmd.Deliver? ==> cmd.consumer < n && Owned(r, cmd.consumer) == {}
    ensures DistinctOwners(Exec(r, cmd), n)
  {
    if cmd.Deliver? {
      assert forall i | i in r.pending && r.pending[i] == cmd.consumer :: i in Owned(r, cmd.consumer);
    }
  }

  // A command for one consumer leaves the others' entries alone.
  lemma ExecKeepsMatch(r: Redis, cmd: Cmd, v: nat, pc: Pc)
    requires Partitioned(r) && Matches(r, v, pc)
    requires cmd.Deliver? ==> cmd.consumer != v
    requires cmd.XAck? ==> cmd.id !in r.pending || r.pending[cmd.id] != v
    ensures Matches(Exec(r, cmd), v, pc)
  {
    assert Owned(Exec(r, cmd), v) == Owned(r, v);
  }

  lemma MoverMatches(s: Sys, w: nat, mv: Move)
    requires Partitioned(s.redis) && w < |s.workers| && Shape(s, w, mv)
    requires Matches(s.redis, w, s.workers[w].pc)
    ensures Matches(Exec(s.redis, mv.cmd), w, mv.next.pc)
  {
  }

  lemma WrittenKeepsKeys(jobs: map<string, Job>, w: Write)
    ensures Written(jobs, w).Keys == jobs.Keys
  {
  }

  // ---- Retry limits ----

  ghost predicate Counted(c: Config, w: nat, me: Worker, mv: Move) {
    && LimitKnown(c, mv.next)
    && (mv.cmd.XAdd? ==> 0 <= mv.cmd.entry.attempt <= c.maxRetries)
    && (mv.cmd.XAddDead? ==>
          && 0 <= mv.cmd.deadEntry.attempt <= c.maxRetries
          && (mv.cmd.deadEntry.reason == MaxRetryExceeded ==> mv.cmd.deadEntry.attempt == c.maxRetries))
  }

  lemma MoveCounts(c: Config, s: Sys, w: nat, a: Action)
    requires OneEach(c, s) && Bounded(c, s)
    requires w < |s.workers| && Fits(s.workers[w].pc, s.workersReady, a)
    ensures Counted(c, w, s.workers[w], WorkerMove(c, s, w, a))
  {
    var me := s.workers[w];
    assert LimitKnown(c, me) && Matches(s.redis, w, me.pc);
    if Holds(me.pc) {
      assert 0 <= s.redis.stream[me.pc.m.id].attempt <= c.maxRetries;
    }
    MoverCounts(c, s, w, a);
  }

  lemma MoverCounts(c: Config, s: Sys, w: nat, a: Action)
    requires w < |s.workers| && Fits(s.workers[w].pc, s.workersReady, a)
    requires LimitKnown(c, s.workers[w])
    requires Holds(s.workers[w].pc) ==> 0 <= s.workers[w].pc.m.attempt <= c.maxRetries
    ensures Counted(c, w, s.workers[w], WorkerMove(c, s, w, a))
  {
  }

  lemma MoveKeepsBounded(c: Config, s: Sys, w: nat, mv: Move, t: Sys)
    requires Bounded(c, s)
    requires w < |s.workers| && Counted(c, w, s.workers[w], mv)
    requires t.redis == Exec(s.redis, mv.cmd) && t.workers == s.workers[w := mv.next]
    ensures Bounded(c, t)
  {
  }

  // ---- No accepted job is lost ----

  // When a worker gives a message up, and which statuses it writes while holding it.
  ghost predicate Decides(s: Sys, w: nat, mv: Move)
    requires w < |s.workers|
  {
    var pc, next := s.workers[w].pc, mv.next.pc;
    && (Doomed(next) && !Doomed(pc) ==>
          && Holds(pc) && next.m == pc.m
          && (|| (mv.cmd.XAdd? && mv.cmd.entry.jobId == pc.m.jobId)
              || pc.m.jobId !in s.jobs
              || (pc.m.jobId in s.jobs && Terminal(s.jobs[pc.m.jobId].status) && mv.write.Keep?)
              || (mv.write.SetStatus? && mv.write.job == pc.m.jobId && Terminal(mv.write.status))))
    && (Doomed(next) && Doomed(pc) ==> next.m == pc.m)
    && (mv.write.SetStatus? && !Terminal(mv.write.status) ==>
          Holds(pc) && !Doomed(pc) && mv.write.job == pc.m.jobId
          && (pc.m.jobId in s.jobs ==> Holds(next) && next.m == pc.m && !Doomed(next)))
    && (mv.cmd.XAck? ==> Doomed(pc))
  }

  lemma MoveDecides(c: Config, s: Sys, w: nat, a: Action)
    requires w < |s.workers| && Fits(s.workers[w].pc, s.workersReady, a)
    ensures Decides(s, w, WorkerMove(c, s, w, a))
  {
  }

  lemma MoveKeepsNoneLost(c: Config, s: Sys, w: nat, mv: Move, t: Sys)
    requires Partitioned(s.redis) && OneEach(c, s) && Stored(s) && NoneLost(s)
    requires w < |s.workers| && Shape(s, w, mv) && Decides(s, w, mv)
    requires t.redis == Exec(s.redis, mv.cmd) && t.workers == s.workers[w := mv.next]
    requires t.jobs == Written(s.jobs, mv.write)
    ensures NoneLost(t)
  {
    var pc := s.workers[w].pc;
    assert Matches(s.redis, w, pc);
    forall j | j in t.jobs && Published(t, j) && !Terminal(t.jobs[j].status)
      ensures exists i :: Kept(t, j, i)
    {
      if mv.cmd.XAdd? && mv.cmd.entry.jobId == j {
        NewEntryKept(c, s, w, mv, t);
      } else if mv.write.SetStatus? && mv.write.job == j {
        WriterKeeps(c, s, w, mv, t);
      } else {
        assert Published(s, j) by {
          var i :| 0 <= i < |t.redis.stream| && t.redis.stream[i].jobId == j;
          assert i < |s.redis.stream| && s.redis.stream[i].jobId == j;
        }
        var i :| Kept(s, j, i);
        StillKept(c, s, w, mv, t, j, i);
      }
    }
  }

  lemma NewEntryKept(c: Config, s: Sys, w: nat, mv: Move, t: Sys)
    requires Partitioned(s.redis) && OneEach(c, s)
    requires w < |s.workers| && Shape(s, w, mv) && mv.cmd.XAdd?
    requires t.redis == Exec(s.redis, mv.cmd) && t.workers == s.workers[w := mv.next]
    ensures Kept(t, mv.cmd.entry.jobId, |s.redis.stream|)
  {
    forall v | 0 <= v < |t.workers| && Doomed(t.workers[v].pc)
      ensures t.workers[v].pc.m.id != |s.redis.stream|
    {
      assert Matches(s.redis, v, s.workers[v].pc);
    }
  }

  // Whoever takes a job back out of a terminal status still holds one of its messages.
  lemma WriterKeeps(c: Config, s: Sys, w: nat, mv: Move, t: Sys)
    requires Partitioned(s.redis) && OneEach(c, s)
    requires w < |s.workers| && Shape(s, w, mv) && Decides(s, w, mv)
    requires t.redis == Exec(s.redis, mv.cmd) && t.workers == s.workers[w := mv.next]
    requires mv.write.SetStatus? && !Terminal(mv.write.status) && mv.write.job in s.jobs
    ensures exists i :: Kept(t, mv.write.job, i)
  {
    var m := s.workers[w].pc.m;
    assert Matches(s.redis, w, s.workers[w].pc);
    forall v | 0 <= v < |t.workers| && Doomed(t.workers[v].pc) ensures t.workers[v].pc.m.id != m.id {
      assert Matches(s.redis, v, s.workers[v].pc);
    }
    assert Live(t.redis, m.id);
    assert Kept(t, m.jobId, m.id);
  }

  lemma StillKept(c: Config, s: Sys, w: nat, mv: Move, t: Sys, j: string, i: nat)
    requires Partitioned(s.redis) && OneEach(c, s) && Stored(s)
    requires w < |s.workers| && Shape(s, w, mv) && Decides(s, w, mv)
    requires t.redis == Exec(s.redis, mv.cmd) && t.workers == s.workers[w := mv.next]
    requires j in s.jobs && !Terminal(s.jobs[j].status) && Kept(s, j, i)
    requires mv.cmd.XAdd? ==> mv.cmd.entry.jobId != j
    requires mv.write.SetStatus? ==> mv.write.job != j
    ensures Kept(t, j, i)
  {
    assert Matches(s.redis, w, s.workers[w].pc);
    assert Doomed(s.workers[w].pc) ==> s.workers[w].pc.m.id != i;
    assert Live(t.redis, i);
    forall v | 0 <= v < |t.workers| && Doomed(t.workers[v].pc) ensures t.workers[v].pc.m.id != i {
      if v != w { assert Doomed(s.workers[v].pc); }
    }
  }

  // ---- Submissions ----

  // What a submission's step does to the stream and the repository.
  ghost predicate SubmissionShape(s: Sys, cmd: Cmd, t: Sys) {
    && t.redis == Exec(s.redis, cmd) && t.workers == s.workers
    && (cmd.Nop? || cmd.CreateGroup? ||
        (cmd.XAdd? && cmd.entry.attempt == 0 && cmd.entry.jobId in s.subs
         && s.subs[cmd.entry.jobId].Adding? && cmd.entry.jobId !in t.subs))
    && (forall j | j in s.jobs :: j in t.jobs && t.jobs[j] == s.jobs[j])
    && (forall j | j in t.subs :: j in t.jobs && (j in s.subs || j !in s.jobs))
    && (t.publisherReady || t.workersReady ==> s.publisherReady || s.workersReady || cmd.CreateGroup?)
    && (forall j | j in t.subs && !t.subs[j].Ensuring? ::
          s.publisherReady || cmd.CreateGroup? || (j in s.subs && !s.subs[j].Ensuring?))
  }

  function SubmissionCmd(s: Sys, l: Label): Cmd
    requires Enabled(s, l) && !l.Work?
  {
    match l
    case SubEnsure(j, o) => Ensure(s.publisherReady, o).0
    case SubAdd(j, o) => if o == NotDone then Nop else XAdd(Entry(j, 0))
    case _ => Nop
  }

  lemma SubmissionHasShape(c: Config, s: Sys, l: Label)
    requires Enabled(s, l) && !l.Work? && Stored(s)
    ensures SubmissionShape(s, SubmissionCmd(s, l), Apply(c, s, l))
  {
    if l.SubAdd? {
      AddingHasShape(c, s, l);
    } else if l.SubEnsure? {
      EnsuringHasShape(c, s, l);
    } else {
      OtherHasShape(c, s, l);
    }
  }

  lemma OtherHasShape(c: Config, s: Sys, l: Label)
    requires Enabled(s, l) && !l.Work? && !l.SubAdd? && !l.SubEnsure? && Stored(s)
    ensures SubmissionShape(s, Nop, Apply(c, s, l))
  {
    if l.Save? {
      SavingHasShape(c, s, l);
    } else if l.SubCheck? {
      CheckingHasShape(c, s, l);
    }
  }

  lemma CheckingHasShape(c: Config, s: Sys, l: Label)
    requires Enabled(s, l) && l.SubCheck? && Stored(s)
    ensures SubmissionShape(s, Nop, Apply(c, s, l))
  {
  }

  lemma SavingHasShape(c: Config, s: Sys, l: Label)
    requires Enabled(s, l) && l.Save? && Stored(s)
    ensures SubmissionShape(s, Nop, Apply(c, s, l))
  {
  }

  lemma AddingHasShape(c: Config, s: Sys, l: Label)
    requires l.SubAdd? && Enabled(s, l) && Stored(s)
    ensures SubmissionShape(s, SubmissionCmd(s, l), Apply(c, s, l))
  {
  }

  lemma EnsuringHasShape(c: Config, s: Sys, l: Label)
    requires l.SubEnsure? && Enabled(s, l) && Stored(s)
    ensures SubmissionShape(s, SubmissionCmd(s, l), Apply(c, s, l))
  {
  }

  lemma SubmissionExecutes(c: Config, s: Sys, l: Label, t: Sys)
    requires Step(c, s, l, t) && !l.Work?
    ensures t.redis == Exec(s.redis, SubmissionCmd(s, l)) && t.workers == s.workers
  {
    if l.SubEnsure? { EnsuringExecutes(c, s, l, t); }
  }

  lemma EnsuringExecutes(c: Config, s: Sys, l: Label, t: Sys)
    requires Step(c, s, l, t) && l.SubEnsure?
    ensures t.redis == Exec(s.redis, SubmissionCmd(s, l)) && t.workers == s.workers
  {
  }

  // A step that no worker takes, by its command alone, and what it leaves of the record.
  lemma SubmissionIs(c: Config, s: Sys, l: Label, t: Sys) returns (cmd: Cmd)
    requires Step(c, s, l, t) && !l.Work? && Stored(s)
    ensures SubmissionShape(s, cmd, t)
    ensures t.hist.windowFaults == s.hist.windowFaults && t.hist.ended == s.hist.ended
    ensures t.hist.startCrashes == s.hist.startCrashes && t.hist.endCrashes == s.hist.endCrashes
    ensures t.hist.analyses == s.hist.analyses
    ensures t.hist.faults >= s.hist.faults
    ensures forall j | j in t.jobs && j !in s.jobs ::
              t.jobs[j].status == QUEUED && t.jobs[j].startedAt.None? && t.jobs[j].completedAt.None?
  {
    cmd := SubmissionCmd(s, l);
    SubmissionHasShape(c, s, l);
    RecordAfterSubmission(c, s, l);
  }

  lemma RecordAfterSubmission(c: Config, s: Sys, l: Label)
    requires Enabled(s, l) && !l.Work?
    ensures var t := Apply(c, s, l);
            && t.hist.windowFaults == s.hist.windowFaults && t.hist.ended == s.hist.ended
            && t.hist.startCrashes == s.hist.startCrashes && t.hist.endCrashes == s.hist.endCrashes
            && t.hist.analyses == s.hist.analyses
            && t.hist.faults >= s.hist.faults
            && forall j | j in t.jobs && j !in s.jobs ::
                 t.jobs[j].status == QUEUED && t.jobs[j].startedAt.None? && t.jobs[j].completedAt.None?
  {
  }

  lemma RowUntouched(c: Config, s: Sys, l: Label, t: Sys, j: string)
    requires Step(c, s, l, t) && !l.Work? && j in s.jobs
    ensures t.workers == s.workers && j in t.jobs && t.jobs[j] == s.jobs[j]
  {
  }

  // What a worker's step does to the state and to the record, by its move alone.
  ghost predicate Effect(s: Sys, w: nat, a: Action, mv: Move, t: Sys)
    requires w < |s.workers|
  {
    var pc := s.workers[w].pc;
    var job := if Holds(pc) then Some(pc.m.jobId) else None;
    && t.redis == Exec(s.redis, mv.cmd) && t.workers == s.workers[w := mv.next]
    && t.jobs == Written(s.jobs, mv.write) && t.counters == mv.counters
    && t.subs == s.subs && t.publisherReady == s.publisherReady && t.workersReady == mv.ready
    && t.hist.unchecked == s.hist.unchecked
    && t.hist.faults == s.hist.faults + One(IsFault(Work(w, a)))
    && (job.None? ==>
          && t.hist.windowFaults == s.hist.windowFaults && t.hist.ended == s.hist.ended
          && t.hist.startCrashes == s.hist.startCrashes && t.hist.endCrashes == s.hist.endCrashes
          && t.hist.analyses == s.hist.analyses)
    && (job.Some? ==>
          && t.hist.windowFaults == s.hist.windowFaults + If(IsWindowFault(pc, a), job.value)
          && t.hist.ended == s.hist.ended + If(IsEnd(pc, a), job.value)
          && t.hist.startCrashes == s.hist.startCrashes + If(a.Crash? && pc.StampingStart?, job.value)
          && t.hist.endCrashes == s.hist.endCrashes + If(a.Crash? && StampingEnd(pc), job.value)
          && t.hist.analyses == s.hist.analyses + If(a.Analyse?, job.value))
  }

  lemma WorkHasEffect(c: Config, s: Sys, w: nat, a: Action, t: Sys)
    requires Step(c, s, Work(w, a), t)
    ensures Effect(s, w, a, WorkerMove(c, s, w, a), t)
  {
  }

  lemma SubmissionKeepsGroup(s: Sys, cmd: Cmd, t: Sys)
    requires Partitioned(s.redis) && GroupFirst(s) && SubmissionShape(s, cmd, t)
    ensures Partitioned(t.redis) && GroupFirst(t)
  {
    ExecKeepsPartition(s.redis, cmd);
  }

  lemma SubmissionKeepsRest(c: Config, s: Sys, cmd: Cmd, t: Sys)
    requires Partitioned(s.redis) && OneEach(c, s) && Bounded(c, s) && Stored(s)
    requires SubmissionShape(s, cmd, t)
    ensures OneEach(c, t) && Bounded(c, t) && Stored(t)
  {
    ExecKeepsOwners(s.redis, cmd, c.workerCount);
    forall v | 0 <= v < |t.workers| ensures Matches(t.redis, v, t.workers[v].pc) {
      assert Matches(s.redis, v, s.workers[v].pc);
      ExecKeepsMatch(s.redis, cmd, v, s.workers[v].pc);
    }
  }

  lemma SubmissionKeepsNoneLost(c: Config, s: Sys, cmd: Cmd, t: Sys)
    requires Partitioned(s.redis) && OneEach(c, s) && Stored(s) && NoneLost(s)
    requires SubmissionShape(s, cmd, t)
    ensures NoneLost(t)
  {
    forall j | j in t.jobs && Published(t, j) && !Terminal(t.jobs[j].status)
      ensures exists i :: Kept(t, j, i)
    {
      if cmd.XAdd? && cmd.entry.jobId == j {
        forall v | 0 <= v < |t.workers| && Doomed(t.workers[v].pc)
          ensures t.workers[v].pc.m.id != |s.redis.stream|
        {
          assert Matches(s.redis, v, s.workers[v].pc);
        }
        assert Kept(t, j, |s.redis.stream|);
      } else {
        var k :| 0 <= k < |t.redis.stream| && t.redis.stream[k].jobId == j;
        assert k < |s.redis.stream| && s.redis.stream[k].jobId == j;
        assert Published(s, j);
        var i :| Kept(s, j, i);
        assert Live(t.redis, i);
        assert Kept(t, j, i);
      }
    }
  }

  // ---- Every step, every run ----

  lemma MoveKeepsStored(c: Config, s: Sys, w: nat, mv: Move, t: Sys)
    requires OneEach(c, s) && Stored(s)
    requires w < |s.workers| && Shape(s, w, mv)
    requires t.redis == Exec(s.redis, mv.cmd) && t.subs == s.subs
    requires t.jobs == Written(s.jobs, mv.write)
    ensures Stored(t)
  {
    WrittenKeepsKeys(s.jobs, mv.write);
    if mv.cmd.XAdd? {
      assert Matches(s.redis, w, s.workers[w].pc);
      assert Published(s, mv.cmd.entry.jobId);
    }
  }

  lemma StepKeepsInv(c: Config, s: Sys, l: Label, t: Sys)
    requires Inv(c, s) && Step(c, s, l, t)
    ensures Inv(c, t)
  {
    if l.Work? {
      var mv := WorkerMove(c, s, l.w, l.a);
      MoveHasShape(c, s, l.w, l.a);
      MoveCounts(c, s, l.w, l.a);
      MoveKeepsPartition(s, l.w, mv, t);
      MoveKeepsOneEach(c, s, l.w, mv, t);
      MoveKeepsBounded(c, s, l.w, mv, t);
      MoveKeepsStored(c, s, l.w, mv, t);
    } else {
      SubmissionHasShape(c, s, l);
      SubmissionKeepsGroup(s, SubmissionCmd(s, l), t);
      SubmissionKeepsRest(c, s, SubmissionCmd(s, l), t);
    }
  }

  lemma StepKeepsNoneLost(c: Config, s: Sys, l: Label, t: Sys)
    requires Inv(c, s) && NoneLost(s) && Step(c, s, l, t)
    ensures NoneLost(t)
  {
    if l.Work? {
      MoveHasShape(c, s, l.w, l.a);
      MoveDecides(c, s, l.w, l.a);
      MoveKeepsNoneLost(c, s, l.w, WorkerMove(c, s, l.w, l.a), t);
    } else {
      SubmissionHasShape(c, s, l);
      SubmissionKeepsNoneLost(c, s, SubmissionCmd(s, l), t);
    }
  }

  // The main safety result: in every state of every execution the invariant holds and no
  // job that reached the stream is lost.
  lemma {:induction false} AlwaysSafe(c: Config, ss: seq<Sys>, ls: seq<Label>, i: nat)
    requires Execution(c, ss, ls) && i < |ss|
    ensures Inv(c, ss[i]) && NoneLost(ss[i])
  {
    if i == 0 {
      InitInv(c, ss[0]);
    } else {
      AlwaysSafe(c, ss, ls, i - 1);
      assert Step(c, ss[i - 1], ls[i - 1], ss[i]);
      StepKeepsInv(c, ss[i - 1], ls[i - 1], ss[i]);
      StepKeepsNoneLost(c, ss[i - 1], ls[i - 1], ss[i]);
    }
  }

  // What holds at the start and is kept by every step from a safe state holds throughout.
  lemma {:induction false} Always(c: Config, ss: seq<Sys>, ls: seq<Label>, i: nat, p: Sys -> bool)
    requires Execution(c, ss, ls) && i < |ss|
    requires forall s | Init(c, s) :: p(s)
    requires forall s, l, t | Inv(c, s) && p(s) && Step(c, s, l, t) :: p(t)
    ensures Inv(c, ss[i]) && p(ss[i])
  {
    if i > 0 {
      Always(c, ss, ls, i - 1, p);
      assert Step(c, ss[i - 1], ls[i - 1], ss[i]);
    }
    assert p(ss[i]);
    AlwaysSafe(c, ss, ls, i);
  }

  // Every particular kind of fault is also counted as a fault.
  ghost predicate Clean(s: Sys) {
    s.hist.faults == 0 ==>
      && s.hist.windowFaults == multiset{} && s.hist.unchecked == 0
      && s.hist.startCrashes == multiset{} && s.hist.endCrashes == multiset{}
  }

  lemma StepKeepsClean(c: Config, s: Sys, l: Label, t: Sys)
    requires Clean(s) && Step(c, s, l, t)
    ensures Clean(t)
  {
    if l.Work? { WorkHasEffect(c, s, l.w, l.a, t); }
  }

  lemma FaultFree(c: Config, ss: seq<Sys>, ls: seq<Label>, i: nat)
    requires Execution(c, ss, ls) && i < |ss|
    ensures Clean(ss[i])
  {
    forall s, l, t | Inv(c, s) && Clean(s) && Step(c, s, l, t) ensures Clean(t) {
      StepKeepsClean(c, s, l, t);
    }
    Always(c, ss, ls, i, s => Clean(s));
  }
}
