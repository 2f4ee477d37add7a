// The Redis commands the dispatch queue issues, as functions on the stream, its one
// consumer group and the dead-letter stream.  Entry ids are positions in the stream.
module RedisStreams {
  import opened Common

  datatype Reason =
    | ProcessingError | ProcessingException | AnalyzeException
    | InvalidRepositoryUrl
    | CloneLaunchFailure | CloneTimeout | CloneFileSizeLimit
    | CloneRetryableFailure | CloneNonRetryableFailure
    | MaxRetryExceeded

  datatype Entry = Entry(jobId: string, attempt: int)

  datatype DeadEntry = DeadEntry(jobId: string, attempt: int, originalId: nat, reason: Reason)

  // `group` is the group's last-delivered position, absent until XGROUP CREATE.
  // `pending` maps an entry id to the consumer it was delivered to.
  // `acked` records the ids XACK removed from `pending`; Redis itself forgets them.
  datatype Redis = Redis(
    stream: seq<Entry>,
    group: Option<nat>,
    pending: map<nat, nat>,
    acked: set<nat>,
    dead: seq<DeadEntry>)

  const EMPTY_REDIS := Redis([], None, map[], {}, [])

  datatype Cmd =
    | Nop
    | CreateGroup
    | Deliver(consumer: nat)
    | XAdd(entry: Entry)
    | XAck(id: nat)
    | XAddDead(deadEntry: DeadEntry)

  function Pos(r: Redis): nat {
    if r.group.Some? then r.group.value else 0
  }

  // XREADGROUP with ">" has something to hand out.
  predicate HasNew(r: Redis) {
    r.group.Some? && r.group.value < |r.stream|
  }

  // The ids a consumer holds, which XREADGROUP with "0" lists from the smallest up.
  function Owned(r: Redis, consumer: nat): set<nat> {
    set i | i in r.pending && r.pending[i] == consumer
  }

  function Exec(r: Redis, cmd: Cmd): Redis {
    match cmd
    case Nop => r
    // "$" starts the group after the last entry; BUSYGROUP leaves an existing group alone.
    case CreateGroup => if r.group.None? then r.(group := Some(|r.stream|)) else r
    case Deliver(w) =>
      if HasNew(r)
      then r.(group := Some(r.group.value + 1), pending := r.pending[r.group.value := w])
      else r
    case XAdd(e) => r.(stream := r.stream + [e])
    case XAck(id) =>
      if id in r.pending
      then r.(pending := r.pending - {id}, acked := r.acked + {id})
      else r
    case XAddDead(d) => r.(dead := r.dead + [d])
  }

  // What XINFO GROUPS reports: entries delivered and not acknowledged plus the lag.
  function Load(r: Redis): int {
    |r.pending| + |r.stream| - Pos(r)
  }

  // Entries some worker still has to deal with: undelivered or pending.
  predicate Live(r: Redis, i: nat) {
    i < |r.stream| && (Pos(r) <= i || i in r.pending)
  }

  function LiveIds(r: Redis, job: string): (s: set<nat>)
    ensures forall i: nat :: i in s <==> Live(r, i) && r.stream[i].jobId == job
  {
    set i | 0 <= i < |r.stream| && Live(r, i) && r.stream[i].jobId == job
  }

  // Every entry is exactly one of undelivered, pending for one consumer, acknowledged.
  ghost predicate Partitioned(r: Redis) {
    && (r.group.None? ==> r.stream == [])
    && Pos(r) <= |r.stream|
    && r.pending.Keys !! r.acked
    && (forall i: nat :: i in r.pending || i in r.acked <==> i < Pos(r))
  }

  lemma ExecKeepsPartition(r: Redis, cmd: Cmd)
    requires Partitioned(r)
    requires cmd.XAdd? ==> r.group.Some?
    ensures Partitioned(Exec(r, cmd))
  {
    var r' := Exec(r, cmd);
    match cmd
    case Deliver(w) =>
      if HasNew(r) { assert r'.pending.Keys == r.pending.Keys + {Pos(r)}; }
    case XAck(id) =>
      if id in r.pending { assert r'.pending.Keys == r.pending.Keys - {id}; }
    case _ =>
  }

  // XINFO's number is the number of live entries.
  lemma LoadCountsLive(r: Redis)
    requires Partitioned(r)
    ensures Load(r) == |set i | 0 <= i < |r.stream| && Live(r, i)|
  {
    var live := set i | 0 <= i < |r.stream| && Live(r, i);
    assert |r.pending| == |r.pending.Keys|;
    var undelivered := live - r.pending.Keys;
    assert live == r.pending.Keys + undelivered;
    IntervalSize(undelivered, Pos(r), |r.stream|);
  }

  lemma LoadAfter(r: Redis, cmd: Cmd)
    requires Partitioned(r)
    ensures Load(Exec(r, cmd)) ==
            match cmd
            case XAdd(_) => Load(r) + 1
            case XAck(id) => if id in r.pending then Load(r) - 1 else Load(r)
            case _ => Load(r)
  {
    var r' := Exec(r, cmd);
    match cmd
    case Deliver(w) =>
      if HasNew(r) {
        assert Pos(r) !in r.pending.Keys;
        assert r'.pending.Keys == r.pending.Keys + {Pos(r)};
        assert |r'.pending| == |r'.pending.Keys| && |r.pending| == |r.pending.Keys|;
      }
    case XAck(id) =>
      if id in r.pending {
        assert r'.pending.Keys == r.pending.Keys - {id};
        assert |r'.pending| == |r'.pending.Keys| && |r.pending| == |r.pending.Keys|;
      }
    case _ =>
  }

  // How a command changes the live entries of one job.
  function LiveAfter(r: Redis, cmd: Cmd, job: string): set<nat> {
    match cmd
    case XAdd(e) =>
      if e.jobId == job then LiveIds(r, job) + {|r.stream|} else LiveIds(r, job)
    case XAck(id) => LiveIds(r, job) - {id}
    case _ => LiveIds(r, job)
  }

  lemma LiveIdsAfter(r: Redis, cmd: Cmd, job: string)
    requires Partitioned(r)
    requires cmd.XAdd? ==> r.group.Some?
    requires cmd.XAck? ==> cmd.id in r.pending
    ensures LiveIds(Exec(r, cmd), job) == LiveAfter(r, cmd, job)
  {
    var r' := Exec(r, cmd);
    match cmd
    case XAck(id) =>
      assert r'.pending.Keys == r.pending.Keys - {id};
    case Deliver(w) =>
      if HasNew(r) { assert r'.pending.Keys == r.pending.Keys + {Pos(r)}; }
    case _ =>
  }
}
