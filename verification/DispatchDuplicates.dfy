// How many live messages one job can have.
module DispatchDuplicates {
  import opened Common
  import opened RedisStreams
  import opened Dispatch
  import opened DispatchSafety

  // The entry's consumer has published its retry and is about to acknowledge it.
  predicate Windowed(s: Sys, id: nat) {
    && id in s.redis.pending && s.redis.pending[id] < |s.workers|
    && InWindow(s.workers[s.redis.pending[id]].pc)
  }

  // The job's live messages, without those a retry has already replaced.
  function Active(s: Sys, j: string): (ids: set<nat>)
    ensures forall i: nat :: i in ids <==> i in LiveIds(s.redis, j) && !Windowed(s, i)
  {
    set i | i in LiveIds(s.redis, j) && !Windowed(s, i)
  }

  // The exact account: a published job has one active message, plus one for every fault
  // inside the retry window, minus one for every final acknowledgement.
  ghost predicate Balanced(s: Sys, j: string) {
    && |Active(s, j)| + s.hist.ended[j] == (if Published(s, j) then 1 else 0) + s.hist.windowFaults[j]
    && (!Published(s, j) ==> s.hist.windowFaults[j] == 0)
  }

  // How a worker's move changes the active messages of its job.
  function ActiveAfter(s: Sys, w: nat, a: Action, mv: Move): set<nat>
    requires w < |s.workers| && Holds(s.workers[w].pc)
  {
    var m := s.workers[w].pc.m;
    var before := Active(s, m.jobId);
    if mv.cmd.XAdd? then
      if InWindow(mv.next.pc) then before - {m.id} + {|s.redis.stream|}
      else before + {|s.redis.stream|}
    else if IsWindowFault(s.workers[w].pc, a) then before + {m.id}
    else if mv.cmd.XAck? then before - {m.id}
    else before
  }

  // When a move enters or leaves the retry window.
  ghost predicate WindowShape(s: Sys, w: nat, a: Action, mv: Move)
    requires w < |s.workers|
  {
    var pc, next := s.workers[w].pc, mv.next.pc;
    && (InWindow(next) ==> mv.cmd.XAdd? && Holds(pc) && !InWindow(pc))
    && (InWindow(pc) ==> next.Starting? || next.Polling?)
    && (InWindow(pc) && !IsWindowFault(pc, a) ==> mv.cmd.XAck?)
    && (InWindow(pc) && IsWindowFault(pc, a) ==> mv.cmd.Nop?)
    && (IsWindowFault(pc, a) && !InWindow(pc) ==> mv.cmd.XAdd? && !InWindow(next))
    && (Holds(pc) && mv.cmd.XAdd? && !InWindow(next) ==> IsWindowFault(pc, a))
    && (mv.cmd.XAdd? && InWindow(next) ==> !IsWindowFault(pc, a))
    && (IsEnd(pc, a) <==> mv.cmd.XAck? && !InWindow(pc))
    && (mv.cmd.XAdd? || mv.cmd.XAck? || IsWindowFault(pc, a) || IsEnd(pc, a) ==> Holds(pc))
  }

  lemma MoveHasWindowShape(c: Config, s: Sys, w: nat, a: Action)
    requires w < |s.workers| && Fits(s.workers[w].pc, s.workersReady, a)
    ensures WindowShape(s, w, a, WorkerMove(c, s, w, a))
  {
  }

  lemma ActiveChange(c: Config, s: Sys, w: nat, a: Action, mv: Move, t: Sys)
    requires Partitioned(s.redis) && OneEach(c, s) && GroupFirst(s)
    requires w < |s.workers| && Holds(s.workers[w].pc)
    requires Shape(s, w, mv) && WindowShape(s, w, a, mv)
    requires t.redis == Exec(s.redis, mv.cmd) && t.workers == s.workers[w := mv.next]
    ensures Active(t, s.workers[w].pc.m.jobId) == ActiveAfter(s, w, a, mv)
  {
    var j := s.workers[w].pc.m.jobId;
    assert Matches(s.redis, w, s.workers[w].pc);
    LiveIdsAfter(s.redis, mv.cmd, j);
    forall i: nat | i in LiveIds(t.redis, j) && i < |s.redis.stream| && i != s.workers[w].pc.m.id
      ensures Windowed(t, i) == Windowed(s, i)
    {
    }
  }

  lemma ActiveSame(c: Config, s: Sys, w: nat, a: Action, mv: Move, t: Sys, j: string)
    requires Partitioned(s.redis) && OneEach(c, s) && GroupFirst(s)
    requires w < |s.workers| && (Holds(s.workers[w].pc) ==> s.workers[w].pc.m.jobId != j)
    requires Shape(s, w, mv) && WindowShape(s, w, a, mv)
    requires t.redis == Exec(s.redis, mv.cmd) && t.workers == s.workers[w := mv.next]
    ensures Active(t, j) == Active(s, j)
  {
    assert Matches(s.redis, w, s.workers[w].pc);
    LiveIdsAfter(s.redis, mv.cmd, j);
    forall i: nat | i in LiveIds(t.redis, j) ensures Windowed(t, i) == Windowed(s, i) {
      if mv.cmd.Deliver? && i == Pos(s.redis) { assert !Windowed(t, i); }
    }
  }

  lemma PublishedAfter(s: Sys, cmd: Cmd, t: Sys, j: string)
    requires t.redis == Exec(s.redis, cmd)
    ensures Published(t, j) <==> Published(s, j) || (cmd.XAdd? && cmd.entry.jobId == j)
  {
    if Published(s, j) {
      var i :| 0 <= i < |s.redis.stream| && s.redis.stream[i].jobId == j;
      assert t.redis.stream[i].jobId == j;
    }
    if cmd.XAdd? && cmd.entry.jobId == j {
      assert t.redis.stream[|s.redis.stream|].jobId == j;
    }
  }

  lemma WindowMove(c: Config, s: Sys, w: nat, a: Action, t: Sys) returns (mv: Move)
    requires Inv(c, s) && Step(c, s, Work(w, a), t)
    ensures Effect(s, w, a, mv, t) && Shape(s, w, mv) && WindowShape(s, w, a, mv)
  {
    mv := WorkerMove(c, s, w, a);
    WorkHasEffect(c, s, w, a, t);
    MoveHasShape(c, s, w, a);
    MoveHasWindowShape(c, s, w, a);
  }

  lemma WorkKeepsBalance(c: Config, s: Sys, w: nat, a: Action, t: Sys, j: string)
    requires Inv(c, s) && Balanced(s, j) && Step(c, s, Work(w, a), t)
    ensures Balanced(t, j)
  {
    var mv := WindowMove(c, s, w, a, t);
    BalanceAfterMove(c, s, w, a, mv, t, j);
  }

  lemma BalanceAfterMove(c: Config, s: Sys, w: nat, a: Action, mv: Move, t: Sys, j: string)
    requires Inv(c, s) && Balanced(s, j)
    requires w < |s.workers| && Shape(s, w, mv) && WindowShape(s, w, a, mv)
    requires Effect(s, w, a, mv, t)
    ensures Balanced(t, j)
  {
    PublishedAfter(s, mv.cmd, t, j);
    if Holds(s.workers[w].pc) && s.workers[w].pc.m.jobId == j {
      HolderIsPublished(c, s, w);
      ActiveChange(c, s, w, a, mv, t);
      ActiveSize(c, s, w, a, mv);
    } else {
      ActiveSame(c, s, w, a, mv, t, j);
      if mv.cmd.XAdd? { assert mv.cmd.entry.jobId != j; }
    }
  }

  lemma HolderIsPublished(c: Config, s: Sys, w: nat)
    requires OneEach(c, s) && w < |s.workers| && Holds(s.workers[w].pc)
    ensures Published(s, s.workers[w].pc.m.jobId)
  {
    assert Matches(s.redis, w, s.workers[w].pc);
  }

  lemma ActiveSize(c: Config, s: Sys, w: nat, a: Action, mv: Move)
    requires Partitioned(s.redis) && OneEach(c, s)
    requires w < |s.workers| && Holds(s.workers[w].pc) && WindowShape(s, w, a, mv)
    ensures |ActiveAfter(s, w, a, mv)| + (if IsEnd(s.workers[w].pc, a) then 1 else 0)
            == |Active(s, s.workers[w].pc.m.jobId)| + (if IsWindowFault(s.workers[w].pc, a) then 1 else 0)
  {
    var pc := s.workers[w].pc;
    assert Matches(s.redis, w, pc);
    assert pc.m.id in LiveIds(s.redis, pc.m.jobId);
    assert Windowed(s, pc.m.id) <==> InWindow(pc);
    assert |s.redis.stream| !in Active(s, pc.m.jobId);
  }

  lemma SubmissionKeepsBalance(c: Config, s: Sys, cmd: Cmd, t: Sys, j: string)
    requires Inv(c, s) && Balanced(s, j) && SubmissionShape(s, cmd, t)
    requires t.hist.windowFaults == s.hist.windowFaults && t.hist.ended == s.hist.ended
    ensures Balanced(t, j)
  {
    PublishedAfter(s, cmd, t, j);
    if cmd.XAdd? && cmd.entry.jobId == j {
      FirstIsActive(s, cmd, t, j);
    } else {
      OthersKeepActive(s, cmd, t, j);
    }
  }

  lemma FirstIsActive(s: Sys, cmd: Cmd, t: Sys, j: string)
    requires Partitioned(s.redis) && s.redis.group.Some?
    requires t.redis == Exec(s.redis, cmd) && t.workers == s.workers && cmd.XAdd? && cmd.entry.jobId == j
    ensures |Active(t, j)| == |Active(s, j)| + 1
  {
    LiveIdsAfter(s.redis, cmd, j);
    assert |s.redis.stream| !in Active(s, j);
    assert Active(t, j) == Active(s, j) + {|s.redis.stream|};
  }

  lemma OthersKeepActive(s: Sys, cmd: Cmd, t: Sys, j: string)
    requires Partitioned(s.redis) && t.redis == Exec(s.redis, cmd) && t.workers == s.workers
    requires cmd.Nop? || cmd.CreateGroup? || (cmd.XAdd? && s.redis.group.Some? && cmd.entry.jobId != j)
    ensures LiveIds(t.redis, j) == LiveIds(s.redis, j) && Active(t, j) == Active(s, j)
    ensures forall i | i in LiveIds(s.redis, j) ::
              t.redis.stream[i] == s.redis.stream[i] && Windowed(t, i) == Windowed(s, i)
  {
    LiveIdsAfter(s.redis, cmd, j);
  }

  lemma StepKeepsBalance(c: Config, s: Sys, l: Label, t: Sys, j: string)
    requires Inv(c, s) && Balanced(s, j) && Step(c, s, l, t)
    ensures Balanced(t, j)
  {
    if l.Work? {
      WorkKeepsBalance(c, s, l.w, l.a, t, j);
    } else {
      var cmd := SubmissionIs(c, s, l, t);
      SubmissionKeepsBalance(c, s, cmd, t, j);
    }
  }

  lemma InitBalanced(c: Config, s: Sys, j: string)
    requires Init(c, s)
    ensures Balanced(s, j)
  {
    assert Active(s, j) == {};
  }

  // Duplicates are exactly accounted for, in every state of every execution.
  lemma AlwaysBalanced(c: Config, ss: seq<Sys>, ls: seq<Label>, i: nat, j: string)
    requires Execution(c, ss, ls) && i < |ss|
    ensures Balanced(ss[i], j)
  {
    forall s | Init(c, s) ensures Balanced(s, j) { InitBalanced(c, s, j); }
    forall s, l, t | Inv(c, s) && Balanced(s, j) && Step(c, s, l, t) ensures Balanced(t, j) {
      StepKeepsBalance(c, s, l, t, j);
    }
    Always(c, ss, ls, i, s => Balanced(s, j));
  }

  // Workers now between publishing a retry of the job and acknowledging its message.
  function WindowWorkers(s: Sys, j: string): set<nat> {
    set w | 0 <= w < |s.workers| && InWindow(s.workers[w].pc) && s.workers[w].pc.m.jobId == j
  }

  lemma LiveBound(c: Config, s: Sys, j: string)
    requires Inv(c, s) && Balanced(s, j)
    ensures |LiveIds(s.redis, j)| <= 1 + s.hist.windowFaults[j] + |WindowWorkers(s, j)|
  {
    var windowed := LiveIds(s.redis, j) - Active(s, j);
    assert Active(s, j) + windowed == LiveIds(s.redis, j);
    WindowedBound(c, s, j, windowed);
  }

  lemma WindowedBound(c: Config, s: Sys, j: string, windowed: set<nat>)
    requires OneEach(c, s)
    requires forall i | i in windowed :: i in LiveIds(s.redis, j) && Windowed(s, i)
    ensures |windowed| <= |WindowWorkers(s, j)|
  {
    var owner := map i | i in windowed :: s.redis.pending[i];
    forall i | i in windowed ensures owner[i] in WindowWorkers(s, j) {
      WindowedOwner(c, s, i);
    }
    PigeonHole(owner, WindowWorkers(s, j));
    assert owner.Keys == windowed && |owner| == |owner.Keys|;
  }

  lemma WindowedOwner(c: Config, s: Sys, i: nat)
    requires OneEach(c, s) && Windowed(s, i) && i < |s.redis.stream|
    ensures s.redis.pending[i] in WindowWorkers(s, s.redis.stream[i].jobId)
  {
    assert Matches(s.redis, s.redis.pending[i], s.workers[s.redis.pending[i]].pc);
  }

  predicate Working(s: Sys, w: nat, j: string) {
    w < |s.workers| && Holds(s.workers[w].pc) && !InWindow(s.workers[w].pc) && s.workers[w].pc.m.jobId == j
  }

  lemma WorkingIsActive(c: Config, s: Sys, w: nat, j: string)
    requires Inv(c, s) && Working(s, w, j)
    ensures s.workers[w].pc.m.id in Active(s, j)
    ensures s.redis.pending[s.workers[w].pc.m.id] == w
  {
    assert Matches(s.redis, w, s.workers[w].pc);
  }

  // Without a retry-window fault on the job, at most one message of it is active, so at
  // most one worker at a time works on it.
  lemma OneWorkerAtATime(c: Config, s: Sys, j: string, v: nat, w: nat)
    requires Inv(c, s) && Balanced(s, j) && s.hist.windowFaults[j] == 0
    requires Working(s, v, j) && Working(s, w, j)
    ensures v == w
  {
    WorkingIsActive(c, s, v, j);
    WorkingIsActive(c, s, w, j);
    AtMostOne(Active(s, j), s.workers[v].pc.m.id, s.workers[w].pc.m.id);
  }
}
