// The repository, the queue object, the submission service and the worker in the form the
// program has them.  Between any two commands the rest of the system runs; every command
// is recorded, and the record is always an execution of the transition system, so the
// results about executions hold of the objects.
module DispatchCode {
  import opened Common
  import opened RedisStreams
  import opened Dispatch
  import opened DispatchSafety
  import opened DispatchVerdicts
  import opened DispatchDraining
  import opened DispatchDrained
  import opened DispatchRecord

  class InMemoryJobRepository {
    var jobs: map<string, Job>

    constructor ()
      ensures jobs == map[]
    {
      jobs := map[];
    }

    // emplace: an id that is already there keeps its row.
    method Save(id: string, job: Job)
      modifies this
      ensures jobs == if id in old(jobs) then old(jobs) else old(jobs)[id := job]
    {
      if id !in jobs { jobs := jobs[id := job]; }
    }

    method FindById(id: string) returns (job: Option<Job>)
      ensures job == if id in jobs then Some(jobs[id]) else None
    {
      job := if id in jobs then Some(jobs[id]) else None;
    }

    method UpdateStatus(id: string, status: JobStatus) returns (found: bool)
      modifies this
      ensures found == (id in old(jobs)) && jobs.Keys == old(jobs).Keys
      ensures jobs == Written(old(jobs), SetStatus(id, status))
      ensures found ==> jobs[id] == old(jobs)[id].(status := status)
      ensures forall k | k in jobs && k != id :: jobs[k] == old(jobs)[k]
    {
      found := id in jobs;
      if found { jobs := jobs[id := jobs[id].(status := status)]; }
    }

    method SetStartedAt(id: string, now: int) returns (found: bool)
      modifies this
      ensures found == (id in old(jobs)) && jobs.Keys == old(jobs).Keys
      ensures jobs == Written(old(jobs), Write.SetStartedAt(id, now))
      ensures found ==> jobs[id] == old(jobs)[id].(startedAt := Some(now))
      ensures forall k | k in jobs && k != id :: jobs[k] == old(jobs)[k]
    {
      found := id in jobs;
      if found { jobs := jobs[id := jobs[id].(startedAt := Some(now))]; }
    }

    method SetCompletedAt(id: string, now: int) returns (found: bool)
      modifies this
      ensures found == (id in old(jobs)) && jobs.Keys == old(jobs).Keys
      ensures jobs == Written(old(jobs), Write.SetCompletedAt(id, now))
      ensures found ==> jobs[id] == old(jobs)[id].(completedAt := Some(now))
      ensures forall k | k in jobs && k != id :: jobs[k] == old(jobs)[k]
    {
      found := id in jobs;
      if found { jobs := jobs[id := jobs[id].(completedAt := Some(now))]; }
    }
  }

  // The server both queue objects talk to.  `o` is what becomes of the command.
  class RedisServer {
    var state: Redis

    constructor ()
      ensures state == EMPTY_REDIS
    {
      state := EMPTY_REDIS;
    }

    method Send(cmd: Cmd, o: Outcome) returns (answered: bool)
      modifies this
      ensures state == if o == NotDone then old(state) else Exec(old(state), cmd)
      ensures answered == (o == Done)
    {
      if o != NotDone { state := Exec(state, cmd); }
      answered := o == Done;
    }
  }

  function Acknowledged(k: Counters, cause: AckCause): Counters {
    match cause
    case Retried => k.(retried := k.retried + 1)
    case DeadLettered => k.(failed := k.failed + 1, deadLettered := k.deadLettered + 1)
    case _ => k
  }

  class Metrics {
    var counters: Counters

    constructor ()
      ensures counters == Counters(0, 0, 0, 0, 0)
    {
      counters := Counters(0, 0, 0, 0, 0);
    }

    // The counters the caller of ack adds to when the acknowledgement succeeds.
    method CountAcknowledged(cause: AckCause)
      modifies this
      ensures counters == Acknowledged(old(counters), cause)
    {
      if cause == Retried {
        counters := counters.(retried := counters.retried + 1);
      } else if cause == DeadLettered {
        counters := counters.(failed := counters.failed + 1, deadLettered := counters.deadLettered + 1);
      }
    }
  }

  // The shared objects, and the state of the transition system they implement.
  class Cluster {
    const c: Config
    const repository: InMemoryJobRepository
    const redis: RedisServer
    const metrics: Metrics
    const publisherQueue: RedisStreamJobQueue
    const workerQueue: RedisStreamJobQueue
    // Where every worker and every submission is after the last recorded command, which none
    // of the objects holds, and how that was reached.
    var now: Sys
    ghost var states: seq<Sys>
    ghost var labels: seq<Label>
    // What the record says of every worker.
    ghost var trails: seq<Trail>

    ghost function Parts(): set<object> {
      {this, repository, redis, metrics, publisherQueue, workerQueue}
    }

    // The objects are in the state `s`.
    predicate Shows(s: Sys)
      reads repository, redis, metrics, publisherQueue, workerQueue
    {
      && repository.jobs == s.jobs && redis.state == s.redis && metrics.counters == s.counters
      && publisherQueue.groupEnsured == s.publisherReady && workerQueue.groupEnsured == s.workersReady
    }

    ghost predicate Recorded()
      reads this
    {
      && publisherQueue != workerQueue && Execution(c, states, labels) && states[|labels|] == now
      && |trails| == |now.workers|
      && forall w {:trigger TrailOf(labels, w, trails[w].from)} | 0 <= w < |trails| ::
           trails[w].from <= |labels| && trails[w] == TrailOf(labels, w, trails[w].from)
    }

    ghost predicate Valid()
      reads Parts()
    {
      Recorded() && Shows(now)
    }

    constructor (c: Config)
      ensures Valid() && fresh(Parts()) && this.c == c && labels == []
    {
      this.c := c;
      repository := new InMemoryJobRepository();
      redis := new RedisServer();
      metrics := new Metrics();
      publisherQueue := new RedisStreamJobQueue();
      workerQueue := new RedisStreamJobQueue();
      now := Sys(map[], EMPTY_REDIS, false, false, map[], seq(c.workerCount, _ => FRESH_WORKER),
                 Counters(0, 0, 0, 0, 0),
                 History(0, 0, 0, multiset{}, multiset{}, multiset{}, multiset{}, multiset{}));
      labels, trails := [], seq(c.workerCount, _ => Fresh(0));
      new;
      states := [now];
    }

    // The objects have just carried out the command of `l`.
    method Record(l: Label)
      requires Recorded() && Enabled(now, l) && Shows(Apply(c, now, l))
      modifies this
      ensures Valid() && now == Apply(c, old(now), l)
      ensures labels == old(labels) + [l] && states == old(states) + [now]
      ensures trails == Extended(old(trails), l)
    {
      var t := Apply(c, now, l);
      assert Step(c, now, l, t);
      ghost var states', labels', trails' := states + [t], labels + [l], Extended(trails, l);
      forall i | 0 <= i < |labels'| ensures Step(c, states'[i], labels'[i], states'[i + 1]) {}
      forall w | 0 <= w < |trails'| 
        ensures trails'[w].from <= |labels'| && trails'[w] == TrailOf(labels', w, trails'[w].from)
      {
        assert trails[w] == TrailOf(labels, w, trails[w].from);
        RecordGrows(labels, l, w, trails[w].from);
      }
      SameCrew(c, now, l, t);
      now, states, labels, trails := t, states', labels', trails';
    }

    // Whatever the other submissions, the other workers and the environment do meanwhile.
    method OthersRun(actor: Actor)
      requires Valid()
      modifies Parts()
      ensures Valid() && SameActor(old(now), now, actor) && NothingTaken(old(now), now)
      ensures actor.Consumer? && actor.w < |trails| ==> trails[actor.w] == old(trails)[actor.w]
    {
      var n: nat := *;
      while n > 0
        invariant Valid() && SameActor(old(now), now, actor) && NothingTaken(old(now), now)
        invariant |trails| == |old(trails)|
        invariant actor.Consumer? && actor.w < |trails| ==> trails[actor.w] == old(trails)[actor.w]
      {
        var l: Label := *;
        if Enabled(now, l) && !By(l, actor) {
          Perform(l, actor);
        }
        n := n - 1;
      }
    }

    method Perform(l: Label, ghost actor: Actor)
      requires Valid() && Enabled(now, l) && !By(l, actor)
      modifies Parts()
      ensures Valid() && now == Apply(c, old(now), l)
      ensures labels == old(labels) + [l] && states == old(states) + [now]
      ensures SameActor(old(now), now, actor) && NothingTaken(old(now), now)
      ensures trails == Extended(old(trails), l)
    {
      var t := Apply(c, now, l);
      OthersKeepActor(c, now, l, t, actor);
      StepTakesNothing(c, now, l, t);
      repository.jobs, redis.state, metrics.counters := t.jobs, t.redis, t.counters;
      publisherQueue.groupEnsured, workerQueue.groupEnsured := t.publisherReady, t.workersReady;
      Record(l);
    }

    // Count the commands of the worker from here on.
    ghost method Restart(w: nat)
      requires Valid() && w < |trails|
      modifies `trails
      ensures Valid() && trails == old(trails)[w := Fresh(|labels|)]
    {
      ghost var trails' := trails[w := Fresh(|labels|)];
      forall v | 0 <= v < |trails'|
        ensures trails'[v].from <= |labels| && trails'[v] == TrailOf(labels, v, trails'[v].from)
      {
        assert v != w ==> trails[v] == TrailOf(labels, v, trails[v].from);
      }
      trails := trails';
    }

    // A worker elsewhere has not just marked its job QUEUED.
    lemma TrailFitsNow(w: nat)
      requires Valid() && w < |now.workers| && !now.workers[w].pc.EnsuringRetry?
      ensures trails[w].last != Some(MarkQueued)
    {
      assert labels[..|labels|] == labels;
      assert trails[w] == TrailOf(labels, w, trails[w].from);
      if trails[w].last == Some(MarkQueued) { TrailFits(c, states, labels, |labels|, w, trails[w].from); }
    }

    // The last command of all.
    ghost function Last(): Label
      requires labels != []
      reads this
    {
      labels[|labels| - 1]
    }

    // The message a worker holds is pending for it, as the stream has it.
    lemma HeldIsPending(w: nat)
      requires Valid() && w < |now.workers| && Holds(now.workers[w].pc)
      ensures HoldsOwn(redis.state, w, now.workers[w].pc.m)
    {
      Guaranteed();
      assert Matches(now.redis, w, now.workers[w].pc);
    }

    // What the recorded execution guarantees of the objects right now.
    lemma Guaranteed()
      requires Valid()
      ensures Inv(c, now) && NoneLost(now)
    {
      AlwaysSafe(c, states, labels, |labels|);
    }

    // And what it comes to: after enough turns of every worker since the last submission,
    // whatever failed in between, the queue is empty and every published job is settled.
    lemma Settles(bounds: seq<nat>)
      requires Valid() && bounds != [] && FairStretches(c, states, labels, bounds)
      requires bounds[|bounds| - 1] == |labels|
      requires |bounds| > Remaining(c, states[bounds[0]])
                 + FaultPrice(c) * (now.hist.faults - states[bounds[0]].hist.faults)
      ensures Load(redis.state) == 0
      ensures forall j | Published(now, j) :: j in repository.jobs && Terminal(repository.jobs[j].status)
    {
      DrainsDespiteFaults(c, states, labels, bounds);
    }
  }

  // ---- The queue object ----

  ghost predicate WorkerAt(cl: Cluster, w: nat, pc: Pc)
    reads cl, cl.Parts()
  {
    cl.Valid() && w < |cl.now.workers| && cl.now.workers[w].pc == pc
  }

  ghost predicate SubmissionAt(cl: Cluster, j: string, pc: SubPc)
    reads cl, cl.Parts()
  {
    cl.Valid() && j in cl.now.subs && cl.now.subs[j] == pc
  }

  class RedisStreamJobQueue {
    var groupEnsured: bool

    constructor ()
      ensures !groupEnsured
    {
      groupEnsured := false;
    }

    method EnsureGroupCommand(redis: RedisServer, o: Outcome) returns (ok: bool)
      modifies this, redis
      ensures
        var (cmd, ready, answer) := Ensure(old(groupEnsured), o);
        redis.state == Exec(old(redis.state), cmd) && groupEnsured == ready && ok == answer
    {
      if groupEnsured { return true; }
      ok := redis.Send(CreateGroup, o);
      if ok { groupEnsured := true; }
    }

    // ensureConsumerGroup for a worker at the top of its loop, or about to publish a retry.
    method EnsureForWorker(cl: Cluster, w: nat, pc: Pc) returns (ok: bool)
      requires WorkerAt(cl, w, pc) && (pc.Starting? || pc.Polling? || pc.EnsuringRetry?)
      requires this == cl.workerQueue
      modifies cl.Parts()
      ensures WorkerAt(cl, w, if pc.Starting? || !ok then Polling
                              else if pc.Polling? then ReadingHistory else PublishingRetry(pc.m))
      ensures ok ==> cl.redis.state.group.Some?
      ensures SameFields(old(cl.now), cl.now, w)
      ensures Follows(old(cl.trails[w]), cl.trails[w], w)
      ensures cl.trails[w].last.value.EnsureGroup?
      ensures ok <==> cl.trails[w].last == Some(EnsureGroup(Done))
    {
      cl.OthersRun(Consumer(w));
      var o: Outcome := *;
      if groupEnsured { o := Done; }
      ok := EnsureGroupCommand(cl.redis, o);
      cl.Record(Work(w, EnsureGroup(o)));
      GroupIsThere(cl);
    }

    // A queue object that believes the group exists is right.
    lemma GroupIsThere(cl: Cluster)
      requires cl.Valid() && this == cl.workerQueue
      ensures groupEnsured ==> cl.redis.state.group.Some?
    {
      cl.Guaranteed();
    }

    method EnsureForSubmission(cl: Cluster, j: string) returns (ok: bool)
      requires SubmissionAt(cl, j, Ensuring) && this == cl.publisherQueue
      modifies cl.Parts()
      ensures if ok then SubmissionAt(cl, j, Checking) else cl.Valid() && j !in cl.now.subs
      ensures cl.labels != [] && cl.Last().SubEnsure? && cl.Last().job == j && (ok <==> cl.Last().o == Done)
      ensures j in old(cl.now).jobs ==> j in cl.now.jobs && cl.now.jobs[j].url == old(cl.now).jobs[j].url
    {
      cl.OthersRun(Submission(j));
      var o: Outcome := *;
      if groupEnsured { o := Done; }
      ok := EnsureGroupCommand(cl.redis, o);
      cl.Record(SubEnsure(j, o));
    }

    // XINFO GROUPS; a failed query lets the submission through.
    method IsBackpressured(cl: Cluster, j: string) returns (reject: bool, answered: bool)
      requires SubmissionAt(cl, j, Checking) && this == cl.publisherQueue
      modifies cl.Parts()
      ensures if reject then cl.Valid() && j !in cl.now.subs else SubmissionAt(cl, j, Adding)
      ensures reject <==> answered && Load(cl.redis.state) >= cl.c.maxBacklog
      ensures cl.labels != [] && cl.Last() == SubCheck(j, answered)
      ensures j in old(cl.now).jobs ==> j in cl.now.jobs && cl.now.jobs[j].url == old(cl.now).jobs[j].url
    {
      cl.OthersRun(Submission(j));
      answered := *;
      reject := answered && Load(cl.redis.state) >= cl.c.maxBacklog;
      cl.Record(SubCheck(j, answered));
    }

    // publishJob for a new submission (attempt 0), which the backlog limit applies to.
    method PublishJob(cl: Cluster, j: string) returns (ok: bool)
      requires SubmissionAt(cl, j, Ensuring) && this == cl.publisherQueue && j in cl.now.jobs
      modifies cl.Parts()
      ensures cl.Valid() && j !in cl.now.subs
      ensures j in cl.now.jobs && cl.now.jobs[j].url == old(cl.now).jobs[j].url
      ensures ok ==> Published(cl.now, j)
      // It succeeds exactly if the XADD was answered, and otherwise fails for a reason.
      ensures cl.labels != [] && (ok <==> cl.Last() == SubAdd(j, Done))
      ensures !ok ==> Refused(cl, j)
    {
      ok := EnsureForSubmission(cl, j);
      if !ok { return; }
      var reject, _ := IsBackpressured(cl, j);
      if reject { return false; }
      ok := AddJob(cl, j);
    }

    method AddJob(cl: Cluster, j: string) returns (ok: bool)
      requires SubmissionAt(cl, j, Adding) && this == cl.publisherQueue
      modifies cl.Parts()
      ensures cl.Valid() && j !in cl.now.subs
      ensures ok ==> Published(cl.now, j)
      ensures cl.labels != [] && cl.Last().SubAdd? && cl.Last().job == j && (ok <==> cl.Last() == SubAdd(j, Done))
      ensures j in old(cl.now).jobs ==> j in cl.now.jobs && cl.now.jobs[j].url == old(cl.now).jobs[j].url
    {
      cl.OthersRun(Submission(j));
      var o: Outcome := *;
      ghost var n := |cl.redis.state.stream|;
      ok := cl.redis.Send(XAdd(Entry(j, 0)), o);
      if ok {   // the submission's counter
        cl.metrics.counters := cl.metrics.counters.(submitted := cl.metrics.counters.submitted + 1);
      }
      cl.Record(SubAdd(j, o));
      assert ok ==> cl.now.redis.stream[n].jobId == j;
    }

    // publishJob for a retry: its attempt number is positive, so there is no backlog check.
    method PublishRetryOf(cl: Cluster, w: nat, m: Msg, attempt: int) returns (ok: bool)
      requires WorkerAt(cl, w, EnsuringRetry(m)) && this == cl.workerQueue && attempt == m.attempt + 1
      modifies cl.Parts()
      ensures WorkerAt(cl, w, if ok then Acking(m, Retried) else Polling)
      ensures ok ==> Entry(m.jobId, attempt) in cl.redis.state.stream && m.id in cl.redis.state.pending
      ensures SameFields(old(cl.now), cl.now, w)
      ensures var t, u := old(cl.trails[w]), cl.trails[w];
              t.last == Some(MarkQueued) ==>
                && u.mark == t.mark && u.last != Some(Action.Ack(Done))
                && if ok then WentOn(t, u) else WentToEnd(t, u, w)
    {
      ok := EnsureForWorker(cl, w, EnsuringRetry(m));
      if !ok { return; }
      assert attempt > 0 by {
        cl.Guaranteed();
        assert Matches(cl.now.redis, w, cl.now.workers[w].pc);
      }
      ok := AddRetry(cl, w, m, attempt);
    }

    method AddRetry(cl: Cluster, w: nat, m: Msg, attempt: int) returns (ok: bool)
      requires WorkerAt(cl, w, PublishingRetry(m)) && this == cl.workerQueue && attempt == m.attempt + 1
      modifies cl.Parts()
      ensures WorkerAt(cl, w, if ok then Acking(m, Retried) else Polling)
      ensures ok ==> Entry(m.jobId, attempt) in cl.redis.state.stream && m.id in cl.redis.state.pending
      ensures SameFields(old(cl.now), cl.now, w)
      ensures Follows(old(cl.trails[w]), cl.trails[w], w)
      ensures cl.trails[w].last.value.PublishRetry?
      ensures ok <==> cl.trails[w].last == Some(PublishRetry(Done))
    {
      cl.OthersRun(Consumer(w));
      var o: Outcome := *;
      ghost var n := |cl.redis.state.stream|;
      ok := cl.redis.Send(XAdd(Entry(m.jobId, attempt)), o);
      cl.Record(Work(w, PublishRetry(o)));
      if ok {
        assert cl.redis.state.stream[n] == Entry(m.jobId, attempt);
        cl.HeldIsPending(w);
      }
    }

    // The oldest entry the consumer already holds, else a new one.
    method ConsumeNext(cl: Cluster, w: nat) returns (message: Option<Msg>)
      requires WorkerAt(cl, w, Polling) && this == cl.workerQueue
      modifies cl.Parts()
      ensures WorkerAt(cl, w, if message.Some? then Fetched(message.value) else Polling)
      ensures message.Some? ==> HoldsOwn(cl.redis.state, w, message.value)
      ensures SameFields(old(cl.now), cl.now, w)
      // It is a new turn; without a failure there is a message, or nothing new to be had.
      ensures var t, u := old(cl.trails[w]), cl.trails[w];
              && u.from == t.from && u.turns == t.turns + 1 && u.worked > t.worked
              && (message.Some? ==> u.faults == 0 && u.history)
              && (message.None? ==> Ended(u, w) && (u.faults == 0 ==> NothingRead(u) && !HasNew(cl.redis.state)))
    {
      cl.TrailFitsNow(w);
      var ok := EnsureForWorker(cl, w, Polling);
      if !ok { return None; }
      message := ReadMessage(cl, w);
      if message.Some? { cl.HeldIsPending(w); }
    }

    method ReadMessage(cl: Cluster, w: nat) returns (message: Option<Msg>)
      requires WorkerAt(cl, w, ReadingHistory) && this == cl.workerQueue
      requires cl.trails[w].faults == 0 && cl.trails[w].steps == 1
      modifies cl.Parts()
      ensures WorkerAt(cl, w, if message.Some? then Fetched(message.value) else Polling)
      ensures SameFields(old(cl.now), cl.now, w)
      ensures var t, u := old(cl.trails[w]), cl.trails[w];
              && u.from == t.from && u.turns == t.turns && u.worked > t.worked
              && (message.Some? ==> u.faults == 0 && u.history)
              && (message.None? ==> Ended(u, w) && (u.faults == 0 ==> NothingRead(u) && !HasNew(cl.redis.state)))
    {
      var answered;
      answered, message := ReadPending(cl, w);
      if answered && message.None? { message := ReadFresh(cl, w); }
    }

    method ReadPending(cl: Cluster, w: nat)
      returns (answered: bool, message: Option<Msg>)
      requires WorkerAt(cl, w, ReadingHistory) && this == cl.workerQueue
      modifies cl.Parts()
      ensures WorkerAt(cl, w, if !answered then Polling
                              else if message.None? then ReadingNew else Fetched(message.value))
      ensures !answered ==> message.None?
      ensures SameFields(old(cl.now), cl.now, w)
      ensures Follows(old(cl.trails[w]), cl.trails[w], w)
      ensures cl.trails[w].last.value.ReadHistory?
      ensures answered <==> cl.trails[w].last == Some(ReadHistory(Done))
    {
      cl.OthersRun(Consumer(w));
      var o: Outcome := *;
      answered, message := o == Done, None;
      var mine := set i | i in Owned(cl.redis.state, w) && i < |cl.redis.state.stream|;
      if answered && mine != {} { message := Some(MsgAt(cl.redis.state, Least(mine))); }
      cl.Record(Work(w, ReadHistory(o)));
    }

    method ReadFresh(cl: Cluster, w: nat) returns (message: Option<Msg>)
      requires WorkerAt(cl, w, ReadingNew) && this == cl.workerQueue
      modifies cl.Parts()
      ensures WorkerAt(cl, w, if message.Some? then Fetched(message.value) else Polling)
      ensures SameFields(old(cl.now), cl.now, w)
      ensures Follows(old(cl.trails[w]), cl.trails[w], w)
      ensures cl.trails[w].last.value.ReadNew?
      ensures message.Some? ==> cl.trails[w].last == Some(ReadNew(Done))
      ensures message.None? && cl.trails[w].last == Some(ReadNew(Done)) ==> !HasNew(cl.redis.state)
    {
      cl.OthersRun(Consumer(w));
      var o: Outcome := *;
      message := None;
      if HasNew(cl.redis.state) && o == Done {
        message := Some(MsgAt(cl.redis.state, cl.redis.state.group.value));
      }
      var _ := cl.redis.Send(Deliver(w), o);
      cl.Record(Work(w, ReadNew(o)));
    }

    method Ack(cl: Cluster, w: nat, m: Msg, cause: AckCause) returns (ok: bool)
      requires WorkerAt(cl, w, Acking(m, cause)) && this == cl.workerQueue
      modifies cl.Parts()
      ensures WorkerAt(cl, w, Polling)
      ensures SameFields(old(cl.now), cl.now, w)
      ensures ok ==> m.id !in cl.redis.state.pending && m.id in cl.redis.state.acked
      ensures WentToEnd(old(cl.trails[w]), cl.trails[w], w) && cl.trails[w].mark == old(cl.trails[w]).mark
      ensures ok <==> cl.trails[w].last == Some(Action.Ack(Done))
      ensures NothingTaken(old(cl.now), cl.now)
    {
      cl.OthersRun(Consumer(w));
      cl.HeldIsPending(w);
      var o: Outcome := *;
      ok := AckCommand(cl, w, m, cause, o);
    }

    method AckCommand(cl: Cluster, w: nat, m: Msg, cause: AckCause, o: Outcome) returns (ok: bool)
      requires WorkerAt(cl, w, Acking(m, cause)) && this == cl.workerQueue && m.id in cl.redis.state.pending
      modifies cl.Parts()
      ensures WorkerAt(cl, w, Polling) && SameFields(old(cl.now), cl.now, w)
      ensures ok <==> o == Done
      ensures ok ==> m.id !in cl.redis.state.pending && m.id in cl.redis.state.acked
      ensures cl.labels == old(cl.labels) + [Work(w, Action.Ack(o))]
      ensures cl.trails[w] == Then(old(cl.trails[w]), w, Action.Ack(o))
      ensures NothingTaken(old(cl.now), cl.now)
    {
      var wasPending := m.id in cl.redis.state.pending;
      ok := cl.redis.Send(XAck(m.id), o);
      ok := ok && wasPending;
      if ok { cl.metrics.CountAcknowledged(cause); }
      AckApplied(cl.c, cl.now, w, m, cause, o);
      cl.Record(Work(w, Action.Ack(o)));
    }

    method PublishDeadLetter(cl: Cluster, w: nat, m: Msg, reason: Reason) returns (ok: bool)
      requires WorkerAt(cl, w, PublishingDead(m, reason)) && this == cl.workerQueue
      modifies cl.Parts()
      ensures WorkerAt(cl, w, if ok then Acking(m, DeadLettered) else Polling)
      ensures m.id in cl.redis.state.pending
      ensures ok ==> DeadEntry(m.jobId, m.attempt, m.id, reason) in cl.redis.state.dead
      ensures SameFields(old(cl.now), cl.now, w)
      ensures cl.trails[w].last.Some? && cl.trails[w].last.value.PublishDead?
      ensures ok <==> cl.trails[w].last == Some(PublishDead(Done))
      ensures cl.trails[w].mark == old(cl.trails[w]).mark
      ensures if ok then WentOn(old(cl.trails[w]), cl.trails[w]) else WentToEnd(old(cl.trails[w]), cl.trails[w], w)
    {
      cl.OthersRun(Consumer(w));
      cl.HeldIsPending(w);
      var o: Outcome := *;
      ghost var n := |cl.redis.state.dead|;
      ok := cl.redis.Send(XAddDead(DeadEntry(m.jobId, m.attempt, m.id, reason)), o);
      cl.Record(Work(w, PublishDead(o)));
      assert ok ==> cl.redis.state.dead[n] == DeadEntry(m.jobId, m.attempt, m.id, reason);
    }
  }

  // Why publishing failed: the group could not be made sure of, or XINFO was answered and the
  // backlog was at its limit, or the XADD was not answered.
  ghost predicate Refused(cl: Cluster, j: string)
    reads cl, cl.redis
  {
    && cl.labels != []
    && match cl.Last()
       case SubEnsure(id, o) => id == j && o != Done
       case SubCheck(id, answered) => id == j && answered && Load(cl.redis.state) >= cl.c.maxBacklog
       case SubAdd(id, o) => id == j && o != Done
       case _ => false
  }

  lemma AckApplied(c: Config, s: Sys, w: nat, m: Msg, cause: AckCause, o: Outcome)
    requires w < |s.workers| && s.workers[w].pc == Acking(m, cause)
    ensures var t := Apply(c, s, Work(w, Action.Ack(o)));
            && t.workers == s.workers[w := s.workers[w].(pc := Polling)] && t.jobs == s.jobs
            && t.publisherReady == s.publisherReady && t.workersReady == s.workersReady
            && t.redis == (if o == NotDone then s.redis else Exec(s.redis, XAck(m.id)))
            && t.counters == if o == Done && m.id in s.redis.pending then Acknowledged(s.counters, cause)
                             else s.counters
  {
  }

  // The worker's own fields are as before.
  predicate SameFields(s: Sys, t: Sys, w: nat) {
    w < |s.workers| && w < |t.workers|
    && t.workers[w].retryable == s.workers[w].retryable && t.workers[w].reason == s.workers[w].reason
  }

  // ---- The worker ----

  class JobWorker {
    const id: nat
    var lastFailureRetryable: bool
    var lastFailureReason: Reason

    constructor (id: nat)
      ensures this.id == id && lastFailureRetryable && lastFailureReason == ProcessingError
    {
      this.id := id;
      lastFailureRetryable, lastFailureReason := true, ProcessingError;
    }

    ghost predicate At(cl: Cluster, pc: Pc)
      reads this, cl, cl.Parts()
    {
      && WorkerAt(cl, id, pc) && this as object !in cl.Parts()
      && cl.now.workers[id].retryable == lastFailureRetryable
      && cl.now.workers[id].reason == lastFailureReason
    }

    // The fields say of a failed analysis whether trying again may help, and if not, why not.
    predicate Noted(result: Analysis)
      reads this
    {
      (lastFailureRetryable <==> !Permanent(result)) && (!lastFailureRetryable ==> Names(result, lastFailureReason))
    }

    method NoteFailure(result: Analysis)
      requires result != Analysed
      modifies this
      ensures Noted(result) && (lastFailureRetryable, lastFailureReason) == Verdict(result)
    {
      var (retryable, reason) := Verdict(result);
      lastFailureRetryable, lastFailureReason := retryable, reason;
    }

    // ---- Single commands ----

    method SetRunning(cl: Cluster, m: Msg) returns (found: bool)
      requires At(cl, MarkingRunning(m))
      modifies cl.Parts()
      ensures At(cl, if found then StampingStart(m)
                     else AfterFailure(cl.c, m, lastFailureRetryable, lastFailureReason))
      ensures found <==> m.jobId in cl.repository.jobs
      ensures WentOn(old(cl.trails[id]), cl.trails[id]) && cl.trails[id].last == Some(MarkRunning)
      ensures cl.trails[id].mark == Some(MarkRunning) && cl.trails[id].analysed == old(cl.trails[id]).analysed
    {
      cl.OthersRun(Consumer(id));
      found := cl.repository.UpdateStatus(m.jobId, RUNNING);
      cl.Record(Work(id, MarkRunning));
    }

    method SetStarted(cl: Cluster, m: Msg)
      requires At(cl, StampingStart(m))
      modifies cl.Parts()
      ensures At(cl, Analysing(m))
      ensures WentOn(old(cl.trails[id]), cl.trails[id])
      ensures cl.trails[id].last.Some? && cl.trails[id].last.value.StampStart?
      ensures cl.trails[id].mark == old(cl.trails[id]).mark && cl.trails[id].analysed == old(cl.trails[id]).analysed
    {
      cl.OthersRun(Consumer(id));
      var now: int := *;
      var _ := cl.repository.SetStartedAt(m.jobId, now);
      cl.Record(Work(id, StampStart(now)));
    }

    // What a failed analysis leaves in the worker's fields.
    method AnalyzeRepository(cl: Cluster, m: Msg) returns (ok: bool)
      requires At(cl, Analysing(m))
      modifies this, cl.Parts()
      ensures At(cl, if ok then MarkingCompleted(m)
                     else AfterFailure(cl.c, m, lastFailureRetryable, lastFailureReason))
      ensures WentOn(old(cl.trails[id]), cl.trails[id]) && cl.trails[id].last.Some?
      ensures cl.trails[id].last.value.Analyse? && cl.trails[id].analysed == Some(cl.trails[id].last.value.result)
      ensures ok <==> cl.trails[id].last == Some(Analyse(Analysed))
      ensures !ok ==> Noted(cl.trails[id].last.value.result)
    {
      cl.OthersRun(Consumer(id));
      var result: Analysis := *;
      ok := result == Analysed;
      if !ok { NoteFailure(result); }
      cl.Record(Work(id, Analyse(result)));
    }

    method SetCompleted(cl: Cluster, m: Msg) returns (found: bool)
      requires At(cl, MarkingCompleted(m))
      modifies cl.Parts()
      ensures At(cl, if found then StampingCompleted(m)
                     else AfterFailure(cl.c, m, lastFailureRetryable, lastFailureReason))
      ensures found <==> m.jobId in cl.repository.jobs
      ensures WentOn(old(cl.trails[id]), cl.trails[id]) && cl.trails[id].last == Some(MarkCompleted)
      ensures cl.trails[id].mark == Some(MarkCompleted) && cl.trails[id].analysed == old(cl.trails[id]).analysed
    {
      cl.OthersRun(Consumer(id));
      found := cl.repository.UpdateStatus(m.jobId, COMPLETED);
      cl.Record(Work(id, MarkCompleted));
    }

    method SetCompletedAt(cl: Cluster, m: Msg)
      requires At(cl, StampingCompleted(m))
      modifies cl.Parts()
      ensures At(cl, Acking(m, Completed))
      ensures WentOn(old(cl.trails[id]), cl.trails[id])
      ensures cl.trails[id].last.Some? && cl.trails[id].last.value.StampCompleted?
      ensures cl.trails[id].mark == old(cl.trails[id]).mark && cl.trails[id].analysed == old(cl.trails[id]).analysed
    {
      cl.OthersRun(Consumer(id));
      var now: int := *;
      var _ := cl.repository.SetCompletedAt(m.jobId, now);
      cl.metrics.counters := cl.metrics.counters.(completed := cl.metrics.counters.completed + 1);
      cl.Record(Work(id, StampCompleted(now)));
    }

    method SetQueued(cl: Cluster, m: Msg)
      requires At(cl, MarkingQueued(m))
      modifies cl.Parts()
      ensures At(cl, EnsuringRetry(m))
      ensures WentOn(old(cl.trails[id]), cl.trails[id]) && cl.trails[id].last == Some(MarkQueued)
      ensures cl.trails[id].mark == Some(MarkQueued) && cl.trails[id].analysed == old(cl.trails[id]).analysed
    {
      cl.OthersRun(Consumer(id));
      var _ := cl.repository.UpdateStatus(m.jobId, QUEUED);
      cl.Record(Work(id, MarkQueued));
    }

    method SetFailed(cl: Cluster, m: Msg, reason: Reason)
      requires At(cl, MarkingFailed(m, reason))
      modifies cl.Parts()
      ensures At(cl, StampingFailed(m, reason))
      ensures WentOn(old(cl.trails[id]), cl.trails[id]) && cl.trails[id].last == Some(MarkFailed)
      ensures cl.trails[id].mark == Some(MarkFailed) && cl.trails[id].analysed == old(cl.trails[id]).analysed
    {
      cl.OthersRun(Consumer(id));
      var _ := cl.repository.UpdateStatus(m.jobId, FAILED);
      cl.Record(Work(id, MarkFailed));
    }

    method SetFailedAt(cl: Cluster, m: Msg, reason: Reason)
      requires At(cl, StampingFailed(m, reason))
      modifies cl.Parts()
      ensures At(cl, PublishingDead(m, reason))
      ensures WentOn(old(cl.trails[id]), cl.trails[id])
      ensures cl.trails[id].last.Some? && cl.trails[id].last.value.StampFailed?
      ensures cl.trails[id].mark == old(cl.trails[id]).mark && cl.trails[id].analysed == old(cl.trails[id]).analysed
    {
      cl.OthersRun(Consumer(id));
      var now: int := *;
      var _ := cl.repository.SetCompletedAt(m.jobId, now);
      cl.Record(Work(id, StampFailed(now)));
    }

    // findById, and what the answer makes of the message.
    method Find(cl: Cluster, m: Msg) returns (job: Option<Job>)
      requires WorkerAt(cl, id, Fetched(m)) && this as object !in cl.Parts()
      modifies cl.Parts()
      ensures
        if job.None? || Terminal(job.value.status) then WorkerAt(cl, id, Acking(m, Settled))
        else
          && WorkerAt(cl, id, if job.value.status == RUNNING then Analysing(m) else MarkingRunning(m))
          && cl.now.workers[id].retryable && cl.now.workers[id].reason == ProcessingError
      ensures WentOn(old(cl.trails[id]), cl.trails[id])
    {
      cl.OthersRun(Consumer(id));
      job := cl.repository.FindById(m.jobId);
      cl.Record(Work(id, Action.Find));
    }

    // ---- The control flow ----

    // Runs the job of `m`, which findById returned as `job`.
    method ProcessJob(cl: Cluster, m: Msg, job: Job) returns (processed: bool)
      requires WorkerAt(cl, id, if job.status == RUNNING then Analysing(m) else MarkingRunning(m))
      requires cl.now.workers[id].retryable && cl.now.workers[id].reason == ProcessingError
      requires this as object !in cl.Parts()
      modifies this, cl.Parts()
      ensures processed ==> At(cl, Acking(m, Completed))
      ensures !processed ==> At(cl, AfterFailure(cl.c, m, lastFailureRetryable, lastFailureReason))
      ensures WentOn(old(cl.trails[id]), cl.trails[id])
      // Processed means analysed with success, marked and stamped.
      ensures processed <==> cl.trails[id].last.Some? && cl.trails[id].last.value.StampCompleted?
      ensures processed ==> cl.trails[id].analysed == Some(Analysed) && cl.trails[id].mark == Some(MarkCompleted)
      // Not processed means that the analysis failed, or that the row was missing at a mark.
      ensures !processed ==> FailedIn(cl, m)
    {
      lastFailureRetryable, lastFailureReason := true, ProcessingError;
      if job.status != RUNNING {
        var found := SetRunning(cl, m);
        if !found { return false; }
        SetStarted(cl, m);
      }
      var analysed := AnalyzeRepository(cl, m);
      if !analysed { return false; }
      var completed := SetCompleted(cl, m);
      if !completed { return false; }
      SetCompletedAt(cl, m);
      return true;
    }

    ghost predicate FailedIn(cl: Cluster, m: Msg)
      reads this, cl, cl.repository
    {
      && id < |cl.trails| && cl.trails[id].last.Some?
      && var last := cl.trails[id].last;
      && (|| (last.value.Analyse? && last.value.result != Analysed && Noted(last.value.result))
          || ((last.value.MarkRunning? || last.value.MarkCompleted?) && m.jobId !in cl.repository.jobs))
    }

    method HandleRetryOrDeadLetter(cl: Cluster, m: Msg) returns (handled: bool)
      requires At(cl, AfterFailure(cl.c, m, lastFailureRetryable, lastFailureReason))
      modifies cl.Parts()
      ensures At(cl, Polling)
      ensures WentToEnd(old(cl.trails[id]), cl.trails[id], id)
      ensures handled <==> cl.trails[id].last == Some(Action.Ack(Done))
      // A failure worth another try queues the job again and leaves the next attempt behind,
      // any other fails the job and leaves a dead letter.
      ensures lastFailureRetryable && m.attempt < cl.c.maxRetries ==> TriedAgain(cl, m, handled)
      ensures lastFailureRetryable && m.attempt >= cl.c.maxRetries ==> GivenUp(cl, m, MaxRetryExceeded, handled)
      ensures !lastFailureRetryable ==> GivenUp(cl, m, lastFailureReason, handled)
    {
      var nextAttempt := m.attempt + 1;
      if !lastFailureRetryable {
        handled := DeadLetter(cl, m, lastFailureReason);
      } else if nextAttempt <= cl.c.maxRetries {
        handled := Retry(cl, m, nextAttempt);
      } else {
        handled := DeadLetter(cl, m, MaxRetryExceeded);
      }
    }

    // The job is queued again, or failed; and once that is handled, the next attempt or the
    // dead letter is there.
    ghost predicate TriedAgain(cl: Cluster, m: Msg, handled: bool)
      reads this, cl, cl.Parts()
    {
      && id < |cl.trails| && cl.trails[id].mark == Some(MarkQueued)
      && (handled ==> Entry(m.jobId, m.attempt + 1) in cl.redis.state.stream && m.id in cl.redis.state.acked)
    }

    ghost predicate GivenUp(cl: Cluster, m: Msg, reason: Reason, handled: bool)
      reads this, cl, cl.Parts()
    {
      && id < |cl.trails| && cl.trails[id].mark == Some(MarkFailed)
      && (handled ==>
            DeadEntry(m.jobId, m.attempt, m.id, reason) in cl.redis.state.dead && m.id in cl.redis.state.acked)
    }

    method Retry(cl: Cluster, m: Msg, nextAttempt: int) returns (handled: bool)
      requires At(cl, MarkingQueued(m)) && nextAttempt == m.attempt + 1
      modifies cl.Parts()
      ensures At(cl, Polling)
      ensures WentToEnd(old(cl.trails[id]), cl.trails[id], id)
      ensures handled <==> cl.trails[id].last == Some(Action.Ack(Done))
      ensures TriedAgain(cl, m, handled)
    {
      SetQueued(cl, m);
      var published := cl.workerQueue.PublishRetryOf(cl, id, m, nextAttempt);
      if !published { return false; }
      handled := AckAt(cl, m, AckCause.Retried);
    }

    method DeadLetter(cl: Cluster, m: Msg, reason: Reason) returns (handled: bool)
      requires At(cl, MarkingFailed(m, reason))
      modifies cl.Parts()
      ensures At(cl, Polling)
      ensures WentToEnd(old(cl.trails[id]), cl.trails[id], id)
      ensures handled <==> cl.trails[id].last == Some(Action.Ack(Done))
      ensures GivenUp(cl, m, reason, handled)
    {
      SetFailed(cl, m, reason);
      SetFailedAt(cl, m, reason);
      handled := false;
      var published := cl.workerQueue.PublishDeadLetter(cl, id, m, reason);
      if published { handled := AckAt(cl, m, DeadLettered); }
    }

    method AckAt(cl: Cluster, m: Msg, cause: AckCause) returns (ok: bool)
      requires At(cl, Acking(m, cause))
      modifies cl.Parts()
      ensures At(cl, Polling)
      ensures WentToEnd(old(cl.trails[id]), cl.trails[id], id) && cl.trails[id].mark == old(cl.trails[id]).mark
      ensures ok <==> cl.trails[id].last == Some(Action.Ack(Done))
      ensures ok ==> m.id in cl.redis.state.acked
      ensures NothingTaken(old(cl.now), cl.now)
    {
      ok := cl.workerQueue.Ack(cl, id, m, cause);
    }

    // One turn of the worker's loop: it reads, and then, unless a command failed or there is
    // no message, goes on until it has acknowledged the message it read.
    method Turn(cl: Cluster)
      requires WorkerAt(cl, id, Polling) && this as object !in cl.Parts()
      modifies this, cl.Parts()
      ensures WorkerAt(cl, id, Polling)
      ensures Ended(cl.trails[id], id)
      ensures cl.trails[id].turns == old(cl.trails[id]).turns + 1
      ensures cl.trails[id].worked > old(cl.trails[id]).worked && cl.trails[id].from == old(cl.trails[id]).from
    {
      var message := cl.workerQueue.ConsumeNext(cl, id);
      if message.Some? { HandleMessage(cl, message.value); }
    }

    method HandleMessage(cl: Cluster, m: Msg)
      requires WorkerAt(cl, id, Fetched(m)) && this as object !in cl.Parts()
      modifies this, cl.Parts()
      ensures WorkerAt(cl, id, Polling)
      ensures WentToEnd(old(cl.trails[id]), cl.trails[id], id)
      ensures cl.trails[id].last == Some(Action.Ack(Done)) ==> m.id in cl.redis.state.acked
    {
      var job := Find(cl, m);
      if job.None? || Terminal(job.value.status) {
        var _ := cl.workerQueue.Ack(cl, id, m, Settled);
        return;
      }
      var processed := ProcessJob(cl, m, job.value);
      if processed {
        var _ := cl.workerQueue.Ack(cl, id, m, Completed);
      } else {
        var _ := HandleRetryOrDeadLetter(cl, m);
      }
    }

    // The worker's thread, for `turns` turns until it sees the shutdown request.  All along
    // the record is an execution, so no job that reached the stream is lost; and the worker
    // has taken every one of its turns, whatever the others did.
    method WorkerLoop(cl: Cluster, turns: nat)
      requires WorkerAt(cl, id, Starting) && this as object !in cl.Parts()
      modifies this, cl.Parts()
      ensures WorkerAt(cl, id, Polling)
      ensures Inv(cl.c, cl.now) && NoneLost(cl.now)
      ensures |old(cl.labels)| <= |cl.labels|
      ensures Turns(cl.labels, id, |old(cl.labels)|, |cl.labels|) > turns
      ensures cl.trails[id].from == |old(cl.labels)| && cl.trails[id].turns == turns + 1
      ensures turns > 0 ==> Ended(cl.trails[id], id)
    {
      cl.Restart(id);
      var _ := cl.workerQueue.EnsureForWorker(cl, id, Starting);
      for i := 0 to turns
        invariant WorkerAt(cl, id, Polling)
        invariant cl.trails[id].from == |old(cl.labels)| && cl.trails[id].turns == i + 1
        invariant cl.trails[id].worked > i
        invariant i > 0 ==> Ended(cl.trails[id], id)
      {
        Turn(cl);
      }
      cl.Guaranteed();
      assert cl.trails[id] == TrailOf(cl.labels, id, cl.trails[id].from);
      TrailCounts(cl.labels, id, |old(cl.labels)|);
    }
  }
}
