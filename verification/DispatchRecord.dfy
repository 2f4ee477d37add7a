// The record of a run from the point of view of one actor: what it did, and what nobody else
// can have changed.
module DispatchRecord {
  import opened Common
  import opened RedisStreams
  import opened Dispatch
  import opened DispatchRuns
  import opened DispatchDraining
  import opened DispatchDrained
  import opened DispatchVerdicts
  import DispatchStamps

  datatype Actor = Submission(job: string) | Consumer(w: nat)

  predicate By(l: Label, actor: Actor) {
    match l
    case Save(j, _, _) => actor == Submission(j)
    case SubEnsure(j, _) => actor == Submission(j)
    case SubCheck(j, _) => actor == Submission(j)
    case SubAdd(j, _) => actor == Submission(j)
    case SubCrash(j) => actor == Submission(j)
    case Rebuild(_) => false
    case Work(w, _) => actor == Consumer(w)
  }

  // The control state of one actor.
  predicate SameActor(s: Sys, t: Sys, actor: Actor) {
    match actor
    case Submission(j) =>
      (j in s.subs <==> j in t.subs) && (j in s.subs ==> t.subs[j] == s.subs[j])
    case Consumer(w) => |t.workers| == |s.workers| && (w < |s.workers| ==> t.workers[w] == s.workers[w])
  }

  // Rows stay, with their URL, and so do entries and dead letters.
  ghost predicate NothingTaken(s: Sys, t: Sys) {
    && (forall j | j in s.jobs :: j in t.jobs && t.jobs[j].url == s.jobs[j].url)
    && (forall e | e in s.redis.stream :: e in t.redis.stream)
    && (forall d | d in s.redis.dead :: d in t.redis.dead)
  }

  lemma StepTakesNothing(c: Config, s: Sys, l: Label, t: Sys)
    requires Step(c, s, l, t)
    ensures NothingTaken(s, t)
  {
    forall j | j in s.jobs ensures j in t.jobs && t.jobs[j].url == s.jobs[j].url {
      DispatchStamps.StepKeepsRow(c, s, l, t, j);
    }
    var cmd := StepExecutes(c, s, l, t);
    ExecKeeps(s.redis, cmd);
  }

  lemma ExecKeeps(r: Redis, cmd: Cmd)
    ensures forall e | e in r.stream :: e in Exec(r, cmd).stream
    ensures forall d | d in r.dead :: d in Exec(r, cmd).dead
  {
  }

  lemma OthersKeepActor(c: Config, s: Sys, l: Label, t: Sys, actor: Actor)
    requires Step(c, s, l, t) && !By(l, actor)
    ensures SameActor(s, t, actor)
  {
    if !l.Work? { SubmissionsKeepActor(c, s, l, t, actor); }
  }

  lemma SubmissionsKeepActor(c: Config, s: Sys, l: Label, t: Sys, actor: Actor)
    requires Step(c, s, l, t) && !l.Work? && !By(l, actor)
    ensures SameActor(s, t, actor)
  {
    SameWorkers(c, s, l, t);
    if actor.Submission? { OtherSubmission(c, s, l, t, actor.job); }
  }

  lemma SameWorkers(c: Config, s: Sys, l: Label, t: Sys)
    requires Step(c, s, l, t) && !l.Work?
    ensures t.workers == s.workers
  {
  }

  lemma OtherSubmission(c: Config, s: Sys, l: Label, t: Sys, j: string)
    requires Step(c, s, l, t) && !l.Work? && !By(l, Submission(j))
    ensures (j in s.subs <==> j in t.subs) && (j in s.subs ==> t.subs[j] == s.subs[j])
  {
  }

  // ---- What an actor did ----

  // What the record says of a worker from position `from` on: the turns of its loop it has
  // begun and the commands it has issued; and of the current turn its commands, how many of
  // them failed, the last of them, whether its pending entries were read, the result of its
  // analysis, and its last mark.
  datatype Trail = Trail(
    from: nat, turns: nat, worked: nat,
    steps: nat, faults: nat, last: Option<Action>, history: bool,
    analysed: Option<Analysis>, mark: Option<Action>)

  function Fresh(from: nat): Trail {
    Trail(from, 0, 0, 0, 0, None, false, None, None)
  }

  predicate IsMark(a: Action) {
    a.MarkRunning? || a.MarkCompleted? || a.MarkQueued? || a.MarkFailed?
  }

  // A turn begins with EnsureGroup; the one after MarkQueued belongs to publishing a retry.
  function Then(t: Trail, w: nat, a: Action): Trail {
    var u := if a.EnsureGroup? && t.last != Some(MarkQueued)
             then Fresh(t.from).(turns := t.turns + 1, worked := t.worked) else t;
    Trail(u.from, u.turns, u.worked + 1, u.steps + 1, u.faults + One(IsFault(Work(w, a))), Some(a),
          u.history || a == ReadHistory(Done), if a.Analyse? then Some(a.result) else u.analysed,
          if IsMark(a) then Some(a) else u.mark)
  }

  function TrailOf(labels: seq<Label>, w: nat, from: nat): Trail {
    if |labels| <= from then Fresh(from)
    else
      var n := |labels| - 1;
      var t := TrailOf(labels[..n], w, from);
      if IsBy(labels[n], w) then Then(t, w, labels[n].a) else t
  }

  // All trails after one more command.
  function Extended(trails: seq<Trail>, l: Label): (extended: seq<Trail>)
    ensures |extended| == |trails|
  {
    if l.Work? && l.w < |trails| then trails[l.w := Then(trails[l.w], l.w, l.a)] else trails
  }

  // One command, the last of the trail `u`, lies between the two.
  predicate Follows(t: Trail, u: Trail, w: nat) {
    u.last.Some? && u == Then(t, w, u.last.value)
  }

  lemma RecordGrows(labels: seq<Label>, l: Label, w: nat, from: nat)
    ensures from <= |labels| ==>
              TrailOf(labels + [l], w, from) ==
              if IsBy(l, w) then Then(TrailOf(labels, w, from), w, l.a) else TrailOf(labels, w, from)
  {
    assert (labels + [l])[..|labels|] == labels;
  }

  lemma SameCrew(c: Config, s: Sys, l: Label, t: Sys)
    requires Step(c, s, l, t)
    ensures |t.workers| == |s.workers|
  {
  }

  lemma {:induction false} TrailCounts(labels: seq<Label>, w: nat, from: nat)
    requires from <= |labels|
    ensures TrailOf(labels, w, from).worked == Turns(labels, w, from, |labels|)
  {
    if from < |labels| {
      var n := |labels| - 1;
      TrailCounts(labels[..n], w, from);
      TurnsSame(labels[..n], labels, w, from, n);
    }
  }

  // Only a worker about to publish a retry has just marked its job QUEUED.
  lemma {:induction false} TrailFits(c: Config, ss: seq<Sys>, ls: seq<Label>, k: nat, w: nat, from: nat)
    requires Execution(c, ss, ls) && k < |ss| && w < |ss[k].workers|
    requires TrailOf(ls[..k], w, from).last == Some(MarkQueued)
    ensures ss[k].workers[w].pc.EnsuringRetry?
  {
    if k > 0 {
      assert Step(c, ss[k - 1], ls[k - 1], ss[k]);
      assert ls[..k][..k - 1] == ls[..k - 1];
      if IsBy(ls[k - 1], w) {
        QueuedIsEnsuring(c, ss[k - 1], w, ls[k - 1].a, ss[k]);
      } else {
        OtherWorkerStays(c, ss[k - 1], ls[k - 1], ss[k], w);
        TrailFits(c, ss, ls, k - 1, w, from);
      }
    }
  }

  lemma QueuedIsEnsuring(c: Config, s: Sys, w: nat, a: Action, t: Sys)
    requires Step(c, s, Work(w, a), t)
    ensures w < |t.workers| && (a == MarkQueued ==> t.workers[w].pc.EnsuringRetry?)
  {
  }

  // ---- What a worker's turn looks like ----

  // A turn ends at the first command that fails; or with the acknowledgement of the message
  // it read; or when its pending entries were read and there is no new one.
  predicate Ended(t: Trail, w: nat) {
    && t.last.Some? && t.faults == One(IsFault(Work(w, t.last.value)))
    && (t.faults == 0 ==> t.history && (t.last == Some(Action.Ack(Done)) || NothingRead(t)))
  }

  predicate NothingRead(t: Trail) {
    t.last == Some(ReadNew(Done)) && t.steps == 3
  }

  // The turn has gone on from `t` to `u` without a failure, or up to the first.
  predicate WentOn(t: Trail, u: Trail) {
    u.from == t.from && u.turns == t.turns && u.worked > t.worked && u.faults == t.faults && u.history == t.history
  }

  predicate WentToEnd(t: Trail, u: Trail, w: nat) {
    && u.from == t.from && u.turns == t.turns && u.worked > t.worked && u.history == t.history && u.last.Some?
    && u.faults == t.faults + One(IsFault(Work(w, u.last.value)))
    && (IsFault(Work(w, u.last.value)) || u.last == Some(Action.Ack(Done)))
  }
}
