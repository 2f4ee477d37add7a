// Once submissions stop and faults are finite, the queue empties.
module DispatchDraining {
  import opened Common
  import opened RedisStreams
  import opened Dispatch
  import opened DispatchSafety

  // How many commands a held message is away from its acknowledgement, at most.
  function Stage(pc: Pc): nat {
    match pc
    case Fetched(_) => 15
    case MarkingRunning(_) => 14
    case StampingStart(_) => 13
    case Analysing(_) => 12
    case MarkingCompleted(_) => 11
    case StampingCompleted(_) => 9
    case MarkingQueued(_) => 10
    case EnsuringRetry(_) => 9
    case PublishingRetry(_) => 8
    case MarkingFailed(_, _) => 10
    case StampingFailed(_, _) => 9
    case PublishingDead(_, _) => 8
    case Acking(_, _) => 1
    case _ => 16
  }

  // The work an entry still stands for: its remaining retries, then its stage.
  function Weight(c: Config, s: Sys, i: nat): nat
    requires i < |s.redis.stream|
  {
    var retries := if s.redis.stream[i].attempt <= c.maxRetries then c.maxRetries - s.redis.stream[i].attempt else 0;
    if !Live(s.redis, i) then 0
    else if i !in s.redis.pending || s.redis.pending[i] >= |s.workers| then 16 * retries + 17
    else
      var pc := s.workers[s.redis.pending[i]].pc;
      if InWindow(pc) then 1 else 16 * retries + Stage(pc)
  }

  function Weights(c: Config, s: Sys): seq<nat> {
    seq(|s.redis.stream|, i requires 0 <= i < |s.redis.stream| => Weight(c, s, i))
  }

  function Sum(a: seq<nat>): nat {
    if a == [] then 0 else Sum(a[..|a| - 1]) + a[|a| - 1]
  }

  function Remaining(c: Config, s: Sys): nat {
    Sum(Weights(c, s))
  }

  lemma SumAppend(a: seq<nat>, x: nat)
    ensures Sum(a + [x]) == Sum(a) + x
  {
    assert (a + [x])[..|a|] == a;
  }

  lemma {:induction false} SumUpdate(a: seq<nat>, k: nat, x: nat)
    requires k < |a|
    ensures Sum(a[k := x]) + a[k] == Sum(a) + x
  {
    var n := |a| - 1;
    if k == n {
      assert a[k := x][..n] == a[..n];
    } else {
      assert a[k := x][..n] == a[..n][k := x];
      SumUpdate(a[..n], k, x);
    }
  }

  lemma {:induction false} SumZero(a: seq<nat>)
    ensures Sum(a) == 0 <==> forall i | 0 <= i < |a| :: a[i] == 0
  {
    if a != [] {
      SumZero(a[..|a| - 1]);
      assert forall i | 0 <= i < |a| - 1 :: a[..|a| - 1][i] == a[i];
    }
  }

  // Nothing remains exactly when nothing is live.
  lemma RemainingZero(c: Config, s: Sys)
    requires Partitioned(s.redis)
    ensures Remaining(c, s) == 0 <==> Load(s.redis) == 0
  {
    SumZero(Weights(c, s));
    LoadCountsLive(s.redis);
    var live := set i | 0 <= i < |s.redis.stream| && Live(s.redis, i);
    if Remaining(c, s) == 0 {
      forall i | 0 <= i < |s.redis.stream| ensures !Live(s.redis, i) {
        assert Weights(c, s)[i] == 0;
      }
      assert live == {};
    }
    if Load(s.redis) == 0 {
      assert live == {};
      forall i | 0 <= i < |s.redis.stream| ensures Weights(c, s)[i] == 0 { assert i !in live; }
    }
  }

  function Cap(c: Config): nat {
    16 * c.maxRetries + 17
  }

  // A step by a worker that holds a message before or after it.
  predicate Productive(s: Sys, l: Label, t: Sys) {
    l.Work? && l.w < |s.workers| && l.w < |t.workers|
    && (Holds(s.workers[l.w].pc) || Holds(t.workers[l.w].pc))
  }

  // The entry a worker's move is about.
  function Touched(s: Sys, w: nat, mv: Move): nat
    requires w < |s.workers|
  {
    if Holds(s.workers[w].pc) then s.workers[w].pc.m.id
    else if Holds(mv.next.pc) then mv.next.pc.m.id
    else Pos(s.redis)
  }

  ghost predicate DrainShape(c: Config, s: Sys, w: nat, a: Action, mv: Move)
    requires w < |s.workers|
  {
    var pc, next := s.workers[w].pc, mv.next.pc;
    && (!IsFault(Work(w, a)) && Holds(pc) ==>
          (Holds(next) && Stage(next) < Stage(pc)) || mv.cmd.XAck?)
    && (InWindow(next) ==> mv.cmd.XAdd?)
    && (InWindow(pc) && !IsFault(Work(w, a)) ==> mv.cmd.XAck?)
    && (mv.cmd.XAdd? && !IsFault(Work(w, a)) ==> InWindow(next))
    && (!IsFault(Work(w, a)) && mv.cmd.Deliver? ==> next.Fetched?)
    && (!Holds(pc) && Holds(next) ==> next.Fetched?)
  }

  lemma MoveHasDrainShape(c: Config, s: Sys, w: nat, a: Action)
    requires w < |s.workers| && Fits(s.workers[w].pc, s.workersReady, a)
    ensures DrainShape(c, s, w, a, WorkerMove(c, s, w, a))
  {
  }

  lemma OtherWeightsSame(c: Config, s: Sys, w: nat, mv: Move, t: Sys, i: nat)
    requires Partitioned(s.redis) && OneEach(c, s) && i < |s.redis.stream|
    requires w < |s.workers| && Shape(s, w, mv)
    requires t.redis == Exec(s.redis, mv.cmd) && t.workers == s.workers[w := mv.next]
    requires i != Touched(s, w, mv)
    ensures Weight(c, t, i) == Weight(c, s, i)
  {
    assert Matches(s.redis, w, s.workers[w].pc);
  }

  lemma WorkWeights(c: Config, s: Sys, w: nat, mv: Move, t: Sys)
    requires Partitioned(s.redis) && OneEach(c, s)
    requires w < |s.workers| && Shape(s, w, mv) && Touched(s, w, mv) < |s.redis.stream|
    requires t.redis == Exec(s.redis, mv.cmd) && t.workers == s.workers[w := mv.next]
    ensures var k := Touched(s, w, mv);
            var rest := Weights(c, s)[k := Weight(c, t, k)];
            Weights(c, t) == if mv.cmd.XAdd? then rest + [Weight(c, t, |s.redis.stream|)] else rest
  {
    forall i | 0 <= i < |s.redis.stream| && i != Touched(s, w, mv)
      ensures Weight(c, t, i) == Weight(c, s, i)
    {
      OtherWeightsSame(c, s, w, mv, t, i);
    }
  }

  // What a fault-free productive step does to the entry it is about, and to a new one.
  lemma TouchedLighter(c: Config, s: Sys, w: nat, a: Action, mv: Move, t: Sys, k: nat)
    requires Inv(c, s) && !IsFault(Work(w, a))
    requires w < |s.workers| && Shape(s, w, mv) && DrainShape(c, s, w, a, mv)
    requires t.redis == Exec(s.redis, mv.cmd) && t.workers == s.workers[w := mv.next]
    requires Holds(s.workers[w].pc) || Holds(mv.next.pc)
    requires k == Touched(s, w, mv)
    ensures k < |s.redis.stream|
    ensures Weight(c, t, k) + (if mv.cmd.XAdd? then Weight(c, t, |s.redis.stream|) else 0) < Weight(c, s, k)
  {
    var pc := s.workers[w].pc;
    assert Matches(s.redis, w, pc) && LimitKnown(c, s.workers[w]);
    if mv.cmd.XAdd? {
      assert Weight(c, t, k) == 1;
      assert Weight(c, t, |s.redis.stream|) == 16 * (c.maxRetries - pc.m.attempt - 1) + 17;
    } else if mv.cmd.XAck? {
      assert !Live(t.redis, k);
    } else if Holds(pc) {
      assert t.redis.pending == s.redis.pending;
    } else {
      assert t.redis.pending[k] == w;
    }
  }

  // A fault-free productive step uses up some of the remaining work.
  lemma ProductiveDecreases(c: Config, s: Sys, w: nat, a: Action, mv: Move, t: Sys)
    requires Inv(c, s) && !IsFault(Work(w, a))
    requires w < |s.workers| && Shape(s, w, mv) && DrainShape(c, s, w, a, mv)
    requires t.redis == Exec(s.redis, mv.cmd) && t.workers == s.workers[w := mv.next]
    requires Holds(s.workers[w].pc) || Holds(mv.next.pc)
    ensures Remaining(c, t) < Remaining(c, s)
  {
    var k := Touched(s, w, mv);
    TouchedLighter(c, s, w, a, mv, t, k);
    RemainingAfter(c, s, w, mv, t);
  }

  lemma RemainingAfter(c: Config, s: Sys, w: nat, mv: Move, t: Sys)
    requires Partitioned(s.redis) && OneEach(c, s)
    requires w < |s.workers| && Shape(s, w, mv) && Touched(s, w, mv) < |s.redis.stream|
    requires t.redis == Exec(s.redis, mv.cmd) && t.workers == s.workers[w := mv.next]
    ensures var k := Touched(s, w, mv);
            Remaining(c, t) + Weight(c, s, k) == Remaining(c, s) + Weight(c, t, k)
              + (if mv.cmd.XAdd? then Weight(c, t, |s.redis.stream|) else 0)
  {
    var k := Touched(s, w, mv);
    WorkWeights(c, s, w, mv, t);
    SumUpdate(Weights(c, s), k, Weight(c, t, k));
    if mv.cmd.XAdd? {
      SumAppend(Weights(c, s)[k := Weight(c, t, k)], Weight(c, t, |s.redis.stream|));
    }
  }

  lemma WeightCapped(c: Config, s: Sys, i: nat)
    requires i < |s.redis.stream| && s.redis.stream[i].attempt >= 0
    ensures Weight(c, s, i) <= Cap(c)
  {
  }

  // A fault adds at most the weight of two fresh entries.
  lemma FaultAddsLittle(c: Config, s: Sys, w: nat, mv: Move, t: Sys)
    requires Inv(c, s)
    requires w < |s.workers| && Shape(s, w, mv)
    requires t.redis == Exec(s.redis, mv.cmd) && t.workers == s.workers[w := mv.next]
    ensures Remaining(c, t) <= Remaining(c, s) + 2 * Cap(c)
  {
    assert Matches(s.redis, w, s.workers[w].pc);
    var k := Touched(s, w, mv);
    if k < |s.redis.stream| {
      RemainingAfter(c, s, w, mv, t);
      WeightCapped(c, t, k);
      if mv.cmd.XAdd? { WeightCapped(c, t, |s.redis.stream|); }
    } else {
      IdleKeepsWeights(c, s, w, mv, t);
    }
  }

  lemma IdleKeepsWeights(c: Config, s: Sys, w: nat, mv: Move, t: Sys)
    requires Inv(c, s)
    requires w < |s.workers| && Shape(s, w, mv)
    requires t.redis == Exec(s.redis, mv.cmd) && t.workers == s.workers[w := mv.next]
    requires !Holds(s.workers[w].pc) && !Holds(mv.next.pc) && (mv.cmd.Deliver? ==> !HasNew(s.redis))
    ensures Remaining(c, t) == Remaining(c, s)
  {
    forall i | 0 <= i < |s.redis.stream| ensures Weight(c, t, i) == Weight(c, s, i) {}
    assert Weights(c, t) == Weights(c, s);
  }

  // The potential argument for one step that submits nothing.
  lemma StepPotential(c: Config, s: Sys, l: Label, t: Sys)
    requires Inv(c, s) && Step(c, s, l, t) && !l.SubAdd?
    ensures if IsFault(l) then Remaining(c, t) <= Remaining(c, s) + 2 * Cap(c)
            else Remaining(c, t) + One(Productive(s, l, t)) <= Remaining(c, s)
    ensures t.hist.faults == s.hist.faults + One(IsFault(l))
  {
    if l.Work? {
      var mv := WorkerMove(c, s, l.w, l.a);
      MoveHasShape(c, s, l.w, l.a);
      MoveHasDrainShape(c, s, l.w, l.a);
      if IsFault(l) {
        FaultAddsLittle(c, s, l.w, mv, t);
      } else if Productive(s, l, t) {
        ProductiveDecreases(c, s, l.w, l.a, mv, t);
      } else {
        IdleKeepsWeights(c, s, l.w, mv, t);
      }
    } else {
      SubmissionHasShape(c, s, l);
      SubmissionKeepsWeights(c, s, SubmissionCmd(s, l), t);
    }
  }

  lemma SubmissionKeepsWeights(c: Config, s: Sys, cmd: Cmd, t: Sys)
    requires Inv(c, s) && SubmissionShape(s, cmd, t) && !cmd.XAdd?
    ensures Remaining(c, t) == Remaining(c, s)
  {
    forall i | 0 <= i < |s.redis.stream| ensures Weight(c, t, i) == Weight(c, s, i) {}
    assert Weights(c, t) == Weights(c, s);
  }

  // ---- Whole runs without new submissions ----

  ghost predicate Quiet(ls: seq<Label>, a: nat, b: nat) {
    b <= |ls| && forall i | a <= i < b :: !ls[i].SubAdd?
  }

  ghost function ProductiveSteps(ss: seq<Sys>, ls: seq<Label>, a: nat, b: nat): nat
    requires a <= b <= |ls| < |ss|
  {
    if a == b then 0
    else ProductiveSteps(ss, ls, a, b - 1)
         + One(!IsFault(ls[b - 1]) && Productive(ss[b - 1], ls[b - 1], ss[b]))
  }

  // What StepPotential says of every step from a to b, for any measure of what remains.
  ghost predicate Descends(ss: seq<Sys>, ls: seq<Label>, remaining: Sys -> nat, cap: nat, a: nat, b: nat)
    requires a <= b <= |ls| < |ss|
  {
    forall i: nat | a <= i < b :: DescendsAt(ss, ls, remaining, cap, i)
  }

  ghost predicate DescendsAt(ss: seq<Sys>, ls: seq<Label>, remaining: Sys -> nat, cap: nat, i: nat)
    requires i < |ls| < |ss|
  {
    && ss[i + 1].hist.faults == ss[i].hist.faults + One(IsFault(ls[i]))
    && if IsFault(ls[i]) then remaining(ss[i + 1]) <= remaining(ss[i]) + cap
       else remaining(ss[i + 1]) + One(Productive(ss[i], ls[i], ss[i + 1])) <= remaining(ss[i])
  }

  lemma {:induction false} DescentBound(
      ss: seq<Sys>, ls: seq<Label>, remaining: Sys -> nat, cap: nat, a: nat, b: nat)
    requires a <= b <= |ls| < |ss| && Descends(ss, ls, remaining, cap, a, b)
    ensures ss[a].hist.faults <= ss[b].hist.faults
    ensures remaining(ss[b]) + ProductiveSteps(ss, ls, a, b)
            <= remaining(ss[a]) + cap * (ss[b].hist.faults - ss[a].hist.faults)
    decreases b
  {
    if a < b {
      DescentBound(ss, ls, remaining, cap, a, b - 1);
      ghost var k := ss[b - 1].hist.faults - ss[a].hist.faults;
      OneMoreFault(cap, k);
      assert DescendsAt(ss, ls, remaining, cap, b - 1);
    }
  }

  // Every command spent on a message is paid for by the work that remained at the start or
  // by a fault; so finitely many faults allow only finitely many such commands.
  lemma WorkIsBounded(c: Config, ss: seq<Sys>, ls: seq<Label>, a: nat, b: nat)
    requires Execution(c, ss, ls) && a <= b && Quiet(ls, a, b)
    ensures ss[a].hist.faults <= ss[b].hist.faults
    ensures Remaining(c, ss[b]) + ProductiveSteps(ss, ls, a, b)
            <= Remaining(c, ss[a]) + 2 * Cap(c) * (ss[b].hist.faults - ss[a].hist.faults)
  {
    AlwaysDescends(c, ss, ls, a, b);
    DescentBound(ss, ls, Measure(c), 2 * Cap(c), a, b);
  }

  ghost function Measure(c: Config): Sys -> nat {
    s => Remaining(c, s)
  }

  lemma AlwaysDescends(c: Config, ss: seq<Sys>, ls: seq<Label>, a: nat, b: nat)
    requires Execution(c, ss, ls) && a <= b && Quiet(ls, a, b)
    ensures Descends(ss, ls, Measure(c), 2 * Cap(c), a, b)
  {
    forall i: nat | a <= i < b ensures DescendsAt(ss, ls, Measure(c), 2 * Cap(c), i) {
      PotentialAt(c, ss, ls, i);
    }
  }

  lemma PotentialAt(c: Config, ss: seq<Sys>, ls: seq<Label>, i: nat)
    requires Execution(c, ss, ls) && i < |ls| && !ls[i].SubAdd?
    ensures if IsFault(ls[i]) then Remaining(c, ss[i + 1]) <= Remaining(c, ss[i]) + 2 * Cap(c)
            else Remaining(c, ss[i + 1]) + One(Productive(ss[i], ls[i], ss[i + 1])) <= Remaining(c, ss[i])
    ensures ss[i + 1].hist.faults == ss[i].hist.faults + One(IsFault(ls[i]))
  {
    AlwaysSafe(c, ss, ls, i);
    StepPotential(c, ss[i], ls[i], ss[i + 1]);
  }

  lemma OneMoreFault(cap: nat, faults: nat)
    ensures cap * (faults + 1) == cap * faults + cap
  {
  }

  // ---- Fair rounds empty the queue ----

  // A step by this worker fetches, or is about, a message within Distance steps of its own.
  predicate Chosen(s: Sys, w: nat) {
    && w < |s.workers| && s.redis.group.Some?
    && (Holds(s.workers[w].pc) || HasNew(s.redis) || Owned(s.redis, w) != {})
  }

  function Distance(pc: Pc): nat {
    match pc
    case Starting => 4
    case Polling => 3
    case ReadingHistory => 2
    case _ => 1
  }

  function Turns(ls: seq<Label>, w: nat, a: nat, b: nat): nat
    requires a <= b <= |ls|
  {
    if a == b then 0 else Turns(ls, w, a, b - 1) + One(ls[b - 1].Work? && ls[b - 1].w == w)
  }

  lemma SomeoneChosen(c: Config, s: Sys) returns (w: nat)
    requires Inv(c, s) && c.workerCount > 0 && Load(s.redis) > 0
    ensures Chosen(s, w)
  {
    if HasNew(s.redis) {
      w := 0;
    } else {
      assert s.redis.pending != map[];
      var i :| i in s.redis.pending;
      w := s.redis.pending[i];
      assert i in Owned(s.redis, w);
    }
  }

  ghost predicate IdleShape(s: Sys, w: nat, a: Action, mv: Move)
    requires w < |s.workers|
  {
    var pc, next := s.workers[w].pc, mv.next.pc;
    !Holds(pc) && !Holds(next) && !IsFault(Work(w, a)) ==>
      && (mv.cmd.Nop? || mv.cmd.CreateGroup?)
      && (pc.ReadingHistory? ==> next.ReadingNew? && Owned(s.redis, w) == {})
      && (pc.ReadingNew? ==> !HasNew(s.redis))
      && (!pc.ReadingNew? ==> Distance(next) + 1 == Distance(pc))
  }

  lemma MoveHasIdleShape(c: Config, s: Sys, w: nat, a: Action)
    requires Partitioned(s.redis)
    requires w < |s.workers| && Fits(s.workers[w].pc, s.workersReady, a)
    ensures IdleShape(s, w, a, WorkerMove(c, s, w, a))
  {
    if a.ReadHistory? {
      assert Owned(s.redis, w) == set i | i in Owned(s.redis, w) && i < |s.redis.stream|;
    }
  }

  lemma UnproductiveStep(c: Config, s: Sys, l: Label, t: Sys, w: nat)
    requires Inv(c, s) && Step(c, s, l, t) && Chosen(s, w)
    requires !IsFault(l) && !l.SubAdd? && !Productive(s, l, t)
    ensures Chosen(t, w)
    ensures Distance(t.workers[w].pc) + One(l.Work? && l.w == w) == Distance(s.workers[w].pc)
  {
    if l.Work? {
      MoveHasIdleShape(c, s, l.w, l.a);
      assert Matches(s.redis, w, s.workers[w].pc);
    }
  }

  lemma {:induction false} Stalled(c: Config, ss: seq<Sys>, ls: seq<Label>, a: nat, b: nat, w: nat)
    requires Execution(c, ss, ls) && a <= b && Quiet(ls, a, b)
    requires ss[b].hist.faults == ss[a].hist.faults && ProductiveSteps(ss, ls, a, b) == 0
    requires Chosen(ss[a], w)
    ensures Chosen(ss[b], w)
    ensures Distance(ss[b].workers[w].pc) + Turns(ls, w, a, b) == Distance(ss[a].workers[w].pc)
    decreases b
  {
    if a < b {
      AlwaysSafe(c, ss, ls, b - 1);
      WorkIsBounded(c, ss, ls, a, b - 1);
      StepPotential(c, ss[b - 1], ls[b - 1], ss[b]);
      Stalled(c, ss, ls, a, b - 1, w);
      UnproductiveStep(c, ss[b - 1], ls[b - 1], ss[b], w);
    }
  }

  // In a round every worker takes at least four steps; no command fails.
  ghost predicate Round(c: Config, ss: seq<Sys>, ls: seq<Label>, a: nat, b: nat) {
    && a <= b <= |ls| < |ss| && Quiet(ls, a, b) && ss[b].hist.faults == ss[a].hist.faults
    && forall w | 0 <= w < c.workerCount :: Turns(ls, w, a, b) >= 4
  }

  lemma RoundIsProductive(c: Config, ss: seq<Sys>, ls: seq<Label>, a: nat, b: nat)
    requires Execution(c, ss, ls) && c.workerCount > 0 && Round(c, ss, ls, a, b)
    requires Inv(c, ss[a]) && Load(ss[a].redis) > 0
    ensures ProductiveSteps(ss, ls, a, b) > 0
  {
    var w := SomeoneChosen(c, ss[a]);
    if ProductiveSteps(ss, ls, a, b) == 0 {
      Stalled(c, ss, ls, a, b, w);
    }
  }

  lemma RoundProgresses(c: Config, ss: seq<Sys>, ls: seq<Label>, a: nat, b: nat)
    requires Execution(c, ss, ls) && c.workerCount > 0 && Round(c, ss, ls, a, b)
    ensures Remaining(c, ss[b]) <= Remaining(c, ss[a])
    ensures Remaining(c, ss[a]) > 0 ==> Remaining(c, ss[b]) < Remaining(c, ss[a])
  {
    CalmDescent(c, ss, ls, a, b);
    if Remaining(c, ss[a]) > 0 {
      AlwaysSafe(c, ss, ls, a);
      LoadNatural(c, ss[a]);
      RoundIsProductive(c, ss, ls, a, b);
    }
  }

  lemma CalmDescent(c: Config, ss: seq<Sys>, ls: seq<Label>, a: nat, b: nat)
    requires Execution(c, ss, ls) && a <= b <= |ls| < |ss| && Quiet(ls, a, b)
    requires ss[b].hist.faults == ss[a].hist.faults
    ensures Remaining(c, ss[b]) + ProductiveSteps(ss, ls, a, b) <= Remaining(c, ss[a])
  {
    AlwaysDescends(c, ss, ls, a, b);
    CalmBound(ss, ls, Measure(c), 2 * Cap(c), a, b);
  }

  lemma {:induction false} CalmBound(
      ss: seq<Sys>, ls: seq<Label>, remaining: Sys -> nat, cap: nat, a: nat, b: nat)
    requires a <= b <= |ls| < |ss| && Descends(ss, ls, remaining, cap, a, b)
    ensures ss[a].hist.faults <= ss[b].hist.faults
    ensures ss[b].hist.faults == ss[a].hist.faults ==>
              remaining(ss[b]) + ProductiveSteps(ss, ls, a, b) <= remaining(ss[a])
    decreases b
  {
    if a < b {
      CalmBound(ss, ls, remaining, cap, a, b - 1);
      assert DescendsAt(ss, ls, remaining, cap, b - 1);
    }
  }

  lemma LoadNatural(c: Config, s: Sys)
    requires Partitioned(s.redis)
    ensures Load(s.redis) >= 0 && (Remaining(c, s) > 0 ==> Load(s.redis) > 0)
  {
    RemainingZero(c, s);
    LoadCountsLive(s.redis);
  }

  // `bounds` marks the ends of consecutive rounds.  As many rounds as work remained at the
  // start leave the queue empty, and then every published job is COMPLETED or FAILED.
  lemma {:induction false} RoundsDrain(c: Config, ss: seq<Sys>, ls: seq<Label>, bounds: seq<nat>, k: nat)
    requires Execution(c, ss, ls) && c.workerCount > 0 && k < |bounds|
    requires forall i | 0 <= i < |bounds| :: bounds[i] < |ss|
    requires forall i | 0 <= i < |bounds| - 1 :: Round(c, ss, ls, bounds[i], bounds[i + 1])
    ensures Remaining(c, ss[bounds[k]]) == 0 || Remaining(c, ss[bounds[k]]) + k <= Remaining(c, ss[bounds[0]])
    decreases k
  {
    if k > 0 {
      RoundsDrain(c, ss, ls, bounds, k - 1);
      RoundProgresses(c, ss, ls, bounds[k - 1], bounds[k]);
    }
  }

  lemma Drains(c: Config, ss: seq<Sys>, ls: seq<Label>, bounds: seq<nat>)
    requires Execution(c, ss, ls) && c.workerCount > 0 && bounds != []
    requires forall i | 0 <= i < |bounds| :: bounds[i] < |ss|
    requires forall i | 0 <= i < |bounds| - 1 :: Round(c, ss, ls, bounds[i], bounds[i + 1])
    requires |bounds| > Remaining(c, ss[bounds[0]])
    ensures var t := ss[bounds[|bounds| - 1]];
            Load(t.redis) == 0 && forall j | Published(t, j) :: j in t.jobs && Terminal(t.jobs[j].status)
  {
    var k := |bounds| - 1;
    RoundsDrain(c, ss, ls, bounds, k);
    AlwaysSafe(c, ss, ls, bounds[k]);
    RemainingZero(c, ss[bounds[k]]);
    EmptyMeansSettled(c, ss[bounds[k]]);
  }

  lemma EmptyMeansSettled(c: Config, s: Sys)
    requires Inv(c, s) && NoneLost(s) && Load(s.redis) == 0
    ensures forall j | Published(s, j) :: j in s.jobs && Terminal(s.jobs[j].status)
  {
    LoadCountsLive(s.redis);
    assert (set i | 0 <= i < |s.redis.stream| && Live(s.redis, i)) == {};
    assert forall i: nat :: !Live(s.redis, i);
  }
}
