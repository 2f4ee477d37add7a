// What the invariants say about whole runs: accepted jobs, deliveries, and the pending list.
module DispatchRuns {
  import opened RedisStreams
  import opened Dispatch
  import opened DispatchSafety

  // ---- Accepted jobs ----

  lemma StepGrowsStream(c: Config, s: Sys, l: Label, t: Sys)
    requires Step(c, s, l, t)
    ensures s.redis.stream <= t.redis.stream
  {
    var cmd := StepExecutes(c, s, l, t);
    ExecGrowsStream(s.redis, cmd);
  }

  lemma StepExecutes(c: Config, s: Sys, l: Label, t: Sys) returns (cmd: Cmd)
    requires Step(c, s, l, t)
    ensures t.redis == Exec(s.redis, cmd)
  {
    if l.Work? {
      cmd := WorkerMove(c, s, l.w, l.a).cmd;
    } else {
      cmd := SubmissionCmd(s, l);
      SubmissionExecutes(c, s, l, t);
    }
  }

  lemma ExecGrowsStream(r: Redis, cmd: Cmd)
    ensures r.stream <= Exec(r, cmd).stream
  {
  }

  lemma {:induction false} Grows(streams: seq<seq<Entry>>, a: nat, b: nat)
    requires a <= b < |streams| && forall i | 0 <= i < |streams| - 1 :: streams[i] <= streams[i + 1]
    ensures streams[a] <= streams[b]
    decreases b
  {
    if a < b { Grows(streams, a, b - 1); }
  }

  lemma StreamGrows(c: Config, ss: seq<Sys>, ls: seq<Label>, a: nat, b: nat)
    requires Execution(c, ss, ls) && a <= b < |ss|
    ensures ss[a].redis.stream <= ss[b].redis.stream
  {
    var streams := seq(|ss|, i requires 0 <= i < |ss| => ss[i].redis.stream);
    forall i | 0 <= i < |ls| ensures streams[i] <= streams[i + 1] {
      StepGrowsStream(c, ss[i], ls[i], ss[i + 1]);
    }
    Grows(streams, a, b);
  }

  // A submission whose XADD took effect (answered or not) is, in every later state of every
  // execution, terminal or still has a live message nobody is about to drop.
  lemma AcceptedNeverLost(c: Config, ss: seq<Sys>, ls: seq<Label>, k: nat, i: nat)
    requires Execution(c, ss, ls) && k < i < |ss|
    requires ls[k].SubAdd? && ls[k].o != NotDone
    ensures var j := ls[k].job;
            j in ss[i].jobs && (Terminal(ss[i].jobs[j].status) || exists m :: Kept(ss[i], j, m))
  {
    var j, n := ls[k].job, |ss[k].redis.stream|;
    assert Step(c, ss[k], ls[k], ss[k + 1]);
    assert ss[k + 1].redis.stream[n].jobId == j;
    StreamGrows(c, ss, ls, k + 1, i);
    assert ss[i].redis.stream[n].jobId == j;
    AlwaysSafe(c, ss, ls, i);
  }

  // ---- Deliveries ----

  // The step hands out an entry no consumer has had before; `id` is that entry.
  predicate HandsOut(s: Sys, l: Label, id: nat) {
    l.Work? && l.a.ReadNew? && l.a.o != NotDone && HasNew(s.redis) && Pos(s.redis) == id
  }

  lemma MoveDelivers(c: Config, s: Sys, w: nat, a: Action)
    requires w < |s.workers| && Fits(s.workers[w].pc, s.workersReady, a)
    ensures WorkerMove(c, s, w, a).cmd.Deliver? <==> HandsOut(s, Work(w, a), Pos(s.redis))
    ensures WorkerMove(c, s, w, a).cmd.Deliver? ==> WorkerMove(c, s, w, a).cmd.consumer == w
  {
  }

  lemma ExecMovesPos(r: Redis, cmd: Cmd)
    requires Partitioned(r) && (cmd.Deliver? ==> HasNew(r))
    ensures Pos(Exec(r, cmd)) == Pos(r) + if cmd.Deliver? then 1 else 0
  {
  }

  lemma StepMovesPos(c: Config, s: Sys, l: Label, t: Sys)
    requires Inv(c, s) && Step(c, s, l, t)
    ensures Pos(t.redis) == Pos(s.redis) + if HandsOut(s, l, Pos(s.redis)) then 1 else 0
  {
    if l.Work? {
      MoveDelivers(c, s, l.w, l.a);
      ExecMovesPos(s.redis, WorkerMove(c, s, l.w, l.a).cmd);
    } else {
      SubmissionHasShape(c, s, l);
      ExecMovesPos(s.redis, SubmissionCmd(s, l));
    }
  }

  // A position that moves up by one at the marked steps passes each number once.
  lemma {:induction false} PassedOnce(pos: seq<nat>, marked: seq<bool>, i: nat, id: nat)
    requires |pos| == |marked| + 1 && pos[0] == 0 && i <= |marked|
    requires forall k | 0 <= k < |marked| :: pos[k + 1] == pos[k] + if marked[k] then 1 else 0
    ensures id < pos[i] <==> exists k :: 0 <= k < i && marked[k] && pos[k] == id
    ensures forall k, m | 0 <= k < i && 0 <= m < i && marked[k] && marked[m] && pos[k] == id == pos[m] :: k == m
  {
    if i > 0 {
      PassedOnce(pos, marked, i - 1, id);
      if id < pos[i] && id >= pos[i - 1] { assert marked[i - 1] && pos[i - 1] == id; }
    }
  }

  // Entries are handed out in stream order, each exactly once, none skipped: the ones handed
  // out so far are exactly those before the group's position.
  lemma HandedOutOnce(c: Config, ss: seq<Sys>, ls: seq<Label>, i: nat, id: nat)
    requires Execution(c, ss, ls) && i < |ss|
    ensures id < Pos(ss[i].redis) <==> exists k :: 0 <= k < i && HandsOut(ss[k], ls[k], id)
    ensures forall k, m | 0 <= k < i && 0 <= m < i && HandsOut(ss[k], ls[k], id) && HandsOut(ss[m], ls[m], id) :: k == m
  {
    var pos := seq(|ss|, k requires 0 <= k < |ss| => Pos(ss[k].redis));
    var marked := seq(|ls|, k requires 0 <= k < |ls| => HandsOut(ss[k], ls[k], Pos(ss[k].redis)));
    forall k | 0 <= k < |ls| ensures pos[k + 1] == pos[k] + if marked[k] then 1 else 0 {
      AlwaysSafe(c, ss, ls, k);
      StepMovesPos(c, ss[k], ls[k], ss[k + 1]);
    }
    PassedOnce(pos, marked, i, id);
    assert forall k | 0 <= k < i :: HandsOut(ss[k], ls[k], id) <==> marked[k] && pos[k] == id;
  }

  // The reply of a fresh read goes to one consumer, whose pending list it joins.
  lemma HandedOutIsPending(c: Config, s: Sys, l: Label, t: Sys, id: nat)
    requires Inv(c, s) && Step(c, s, l, t) && HandsOut(s, l, id)
    ensures id !in s.redis.pending && id !in s.redis.acked
    ensures t.redis.pending == s.redis.pending[id := l.w] && Owned(t.redis, l.w) == {id}
  {
    MoveHasShape(c, s, l.w, l.a);
    assert Matches(s.redis, l.w, s.workers[l.w].pc);
    assert forall i | i in s.redis.pending && s.redis.pending[i] == l.w :: i in Owned(s.redis, l.w);
  }
}
