// The queue empties despite finitely many faults, and from every reachable state it can.
module DispatchDrained {
  import opened Common
  import opened RedisStreams
  import opened Dispatch
  import opened DispatchSafety
  import opened DispatchDraining

  // ---- Despite faults ----

  // Every worker takes at least four steps; commands may fail, workers may crash.
  ghost predicate Fair(c: Config, ss: seq<Sys>, ls: seq<Label>, a: nat, b: nat) {
    && a <= b <= |ls| < |ss| && Quiet(ls, a, b)
    && forall w | 0 <= w < c.workerCount :: Turns(ls, w, a, b) >= 4
  }

  lemma EmptyAddsNothing(c: Config, s: Sys, w: nat, a: Action)
    requires Inv(c, s) && Load(s.redis) == 0
    requires w < |s.workers| && Fits(s.workers[w].pc, s.workersReady, a)
    ensures !WorkerMove(c, s, w, a).cmd.XAdd?
  {
    MoveHasShape(c, s, w, a);
    NothingLive(s);
    if Holds(s.workers[w].pc) { HeldIsLive(c, s, w); }
  }

  lemma NothingLive(s: Sys)
    requires Partitioned(s.redis) && Load(s.redis) == 0
    ensures forall i: nat :: !Live(s.redis, i)
  {
    LoadCountsLive(s.redis);
    var live := set i | 0 <= i < |s.redis.stream| && Live(s.redis, i);
    assert live == {};
    forall i: nat ensures !Live(s.redis, i) { assert i !in live; }
  }

  lemma EmptyStepStays(c: Config, s: Sys, l: Label, t: Sys)
    requires Inv(c, s) && Step(c, s, l, t) && !l.SubAdd? && Load(s.redis) == 0
    requires Inv(c, t)
    ensures Load(t.redis) == 0
  {
    LoadNatural(c, t);
    if l.Work? {
      EmptyAddsNothing(c, s, l.w, l.a);
      LoadAfter(s.redis, WorkerMove(c, s, l.w, l.a).cmd);
    } else {
      SubmissionHasShape(c, s, l);
      LoadAfter(s.redis, SubmissionCmd(s, l));
    }
  }

  lemma EmptyAt(c: Config, ss: seq<Sys>, ls: seq<Label>, i: nat)
    requires Execution(c, ss, ls) && i < |ls| && !ls[i].SubAdd? && Load(ss[i].redis) == 0
    ensures Load(ss[i + 1].redis) == 0
  {
    AlwaysSafe(c, ss, ls, i);
    AlwaysSafe(c, ss, ls, i + 1);
    EmptyStepStays(c, ss[i], ls[i], ss[i + 1]);
  }

  lemma {:induction false} ZeroStays(loads: seq<int>, a: nat, b: nat)
    requires a <= b < |loads| && loads[a] == 0
    requires forall i | a <= i < b && loads[i] == 0 :: loads[i + 1] == 0
    ensures loads[b] == 0
    decreases b
  {
    if a < b { ZeroStays(loads, a, b - 1); }
  }

  // Without new submissions an empty queue stays empty, whatever fails.
  lemma EmptyStays(c: Config, ss: seq<Sys>, ls: seq<Label>, a: nat, b: nat)
    requires Execution(c, ss, ls) && a <= b && Quiet(ls, a, b) && Load(ss[a].redis) == 0
    ensures Load(ss[b].redis) == 0
  {
    var loads := seq(|ss|, i requires 0 <= i < |ss| => Load(ss[i].redis));
    forall i | a <= i < b && loads[i] == 0 ensures loads[i + 1] == 0 { EmptyAt(c, ss, ls, i); }
    ZeroStays(loads, a, b);
  }

  lemma RemainingStaysZero(c: Config, ss: seq<Sys>, ls: seq<Label>, a: nat, b: nat)
    requires Execution(c, ss, ls) && a <= b && Quiet(ls, a, b) && Remaining(c, ss[a]) == 0
    ensures Remaining(c, ss[b]) == 0
  {
    AlwaysSafe(c, ss, ls, a);
    AlwaysSafe(c, ss, ls, b);
    RemainingZero(c, ss[a]);
    EmptyStays(c, ss, ls, a, b);
    RemainingZero(c, ss[b]);
  }

  // What one fault may add to the work that remains, and the round it may spoil.
  function FaultPrice(c: Config): nat {
    2 * Cap(c) + 1
  }

  // What one fair round may do to the work that remains, given the faults it saw.
  predicate Paid(before: nat, after: nat, faults: nat, price: nat) {
    if before == 0 then after == 0 else after + 1 <= before + price * faults
  }

  lemma FaultsNeverFall(c: Config, ss: seq<Sys>, ls: seq<Label>, a: nat, b: nat)
    requires Execution(c, ss, ls) && a <= b && Quiet(ls, a, b)
    ensures ss[a].hist.faults <= ss[b].hist.faults
  {
    WorkIsBounded(c, ss, ls, a, b);
  }

  lemma FairRound(c: Config, ss: seq<Sys>, ls: seq<Label>, a: nat, b: nat)
    requires Execution(c, ss, ls) && c.workerCount > 0 && Fair(c, ss, ls, a, b)
    ensures ss[a].hist.faults <= ss[b].hist.faults
    ensures Paid(Remaining(c, ss[a]), Remaining(c, ss[b]), ss[b].hist.faults - ss[a].hist.faults, FaultPrice(c))
  {
    FaultsNeverFall(c, ss, ls, a, b);
    if Remaining(c, ss[a]) == 0 {
      RemainingStaysZero(c, ss, ls, a, b);
    } else if ss[b].hist.faults == ss[a].hist.faults {
      CalmRoundPaid(c, ss, ls, a, b);
    } else {
      FaultyRoundPaid(c, ss, ls, a, b);
    }
  }

  lemma CalmRoundPaid(c: Config, ss: seq<Sys>, ls: seq<Label>, a: nat, b: nat)
    requires Execution(c, ss, ls) && c.workerCount > 0 && Fair(c, ss, ls, a, b)
    requires Remaining(c, ss[a]) > 0 && ss[b].hist.faults == ss[a].hist.faults
    ensures Paid(Remaining(c, ss[a]), Remaining(c, ss[b]), 0, FaultPrice(c))
  {
    assert Round(c, ss, ls, a, b);
    RoundProgresses(c, ss, ls, a, b);
  }

  lemma FaultyRoundPaid(c: Config, ss: seq<Sys>, ls: seq<Label>, a: nat, b: nat)
    requires Execution(c, ss, ls) && a <= b && Quiet(ls, a, b)
    requires Remaining(c, ss[a]) > 0 && ss[b].hist.faults > ss[a].hist.faults
    ensures Paid(Remaining(c, ss[a]), Remaining(c, ss[b]), ss[b].hist.faults - ss[a].hist.faults, FaultPrice(c))
  {
    var faults := ss[b].hist.faults - ss[a].hist.faults;
    Rise(c, ss, ls, a, b, 2 * Cap(c), faults);
    FaultsPaid(Remaining(c, ss[a]), Remaining(c, ss[b]), faults, 2 * Cap(c));
  }

  lemma Rise(c: Config, ss: seq<Sys>, ls: seq<Label>, a: nat, b: nat, raise: nat, faults: nat)
    requires Execution(c, ss, ls) && a <= b && Quiet(ls, a, b)
    requires raise == 2 * Cap(c) && faults == ss[b].hist.faults - ss[a].hist.faults
    ensures Remaining(c, ss[b]) <= Remaining(c, ss[a]) + raise * faults
  {
    AlwaysDescends(c, ss, ls, a, b);
    DescentBound(ss, ls, Measure(c), raise, a, b);
  }

  lemma FaultsPaid(before: nat, after: nat, faults: nat, raise: nat)
    requires before > 0 && faults > 0 && after <= before + raise * faults
    ensures Paid(before, after, faults, raise + 1)
  {
    assert (raise + 1) * faults == raise * faults + faults;
  }

  predicate PaidNext(work: seq<nat>, faults: seq<nat>, i: nat, price: nat)
    requires |work| == |faults| && i + 1 < |work|
  {
    faults[i] <= faults[i + 1] && Paid(work[i], work[i + 1], faults[i + 1] - faults[i], price)
  }

  lemma {:induction false} RoundsPaid(work: seq<nat>, faults: seq<nat>, price: nat, k: nat)
    requires |work| == |faults| && k < |work|
    requires forall i: nat | i + 1 < |work| :: PaidNext(work, faults, i, price)
    ensures faults[0] <= faults[k]
    ensures work[k] == 0 || work[k] + k <= work[0] + price * (faults[k] - faults[0])
    decreases k
  {
    if k > 0 {
      RoundsPaid(work, faults, price, k - 1);
      assert PaidNext(work, faults, k - 1, price);
      Distribute(price, faults[k - 1] - faults[0], faults[k] - faults[k - 1]);
    }
  }

  lemma Distribute(n: nat, a: nat, b: nat)
    ensures n * (a + b) == n * a + n * b
  {
  }

  // Fair stretches from each bound to the next.
  ghost predicate FairStretches(c: Config, ss: seq<Sys>, ls: seq<Label>, bounds: seq<nat>) {
    && Execution(c, ss, ls) && c.workerCount > 0
    && (forall i | 0 <= i < |bounds| :: bounds[i] < |ss|)
    && forall i | 0 <= i < |bounds| - 1 :: Fair(c, ss, ls, bounds[i], bounds[i + 1])
  }

  ghost function WorkAt(c: Config, ss: seq<Sys>, bounds: seq<nat>): (work: seq<nat>)
    requires forall i | 0 <= i < |bounds| :: bounds[i] < |ss|
    ensures |work| == |bounds|
  {
    seq(|bounds|, i requires 0 <= i < |bounds| => Remaining(c, ss[bounds[i]]))
  }

  ghost function FaultsAt(ss: seq<Sys>, bounds: seq<nat>): (faults: seq<nat>)
    requires forall i | 0 <= i < |bounds| :: bounds[i] < |ss|
    ensures |faults| == |bounds|
  {
    seq(|bounds|, i requires 0 <= i < |bounds| => ss[bounds[i]].hist.faults)
  }

  lemma StretchPaid(c: Config, ss: seq<Sys>, ls: seq<Label>, bounds: seq<nat>, i: nat)
    requires FairStretches(c, ss, ls, bounds) && i + 1 < |bounds|
    ensures PaidNext(WorkAt(c, ss, bounds), FaultsAt(ss, bounds), i, FaultPrice(c))
  {
    FairRound(c, ss, ls, bounds[i], bounds[i + 1]);
  }

  lemma FairRounds(c: Config, ss: seq<Sys>, ls: seq<Label>, bounds: seq<nat>, k: nat)
    requires FairStretches(c, ss, ls, bounds) && k < |bounds|
    ensures var work, faults := WorkAt(c, ss, bounds), FaultsAt(ss, bounds);
            && faults[0] <= faults[k]
            && (work[k] == 0 || work[k] + k <= work[0] + FaultPrice(c) * (faults[k] - faults[0]))
  {
    var work, faults := WorkAt(c, ss, bounds), FaultsAt(ss, bounds);
    forall i: nat | i + 1 < |bounds| ensures PaidNext(work, faults, i, FaultPrice(c)) {
      StretchPaid(c, ss, ls, bounds, i);
    }
    RoundsPaid(work, faults, FaultPrice(c), k);
  }

  // In a stretch without new submissions, as many fair rounds as the work at its start plus a
  // constant per fault leave the queue empty, and every published job COMPLETED or FAILED.
  lemma DrainsDespiteFaults(c: Config, ss: seq<Sys>, ls: seq<Label>, bounds: seq<nat>)
    requires FairStretches(c, ss, ls, bounds) && bounds != []
    requires |bounds| > Remaining(c, ss[bounds[0]])
               + FaultPrice(c) * (ss[bounds[|bounds| - 1]].hist.faults - ss[bounds[0]].hist.faults)
    ensures Drained(ss[bounds[|bounds| - 1]])
  {
    FairRounds(c, ss, ls, bounds, |bounds| - 1);
    NothingRemaining(c, ss, ls, bounds[|bounds| - 1]);
  }

  lemma NothingRemaining(c: Config, ss: seq<Sys>, ls: seq<Label>, i: nat)
    requires Execution(c, ss, ls) && i < |ss| && Remaining(c, ss[i]) == 0
    ensures Drained(ss[i])
  {
    AlwaysSafe(c, ss, ls, i);
    RemainingZero(c, ss[i]);
    EmptyMeansSettled(c, ss[i]);
  }

  ghost predicate Drained(s: Sys) {
    Load(s.redis) == 0 && forall j | Published(s, j) :: j in s.jobs && Terminal(s.jobs[j].status)
  }

  // ---- From every reachable state ----

  // What a worker can always do next without anything failing.
  function CalmAction(pc: Pc): Action {
    match pc
    case Starting => EnsureGroup(Done)
    case Polling => EnsureGroup(Done)
    case EnsuringRetry(_) => EnsureGroup(Done)
    case ReadingHistory => ReadHistory(Done)
    case ReadingNew => ReadNew(Done)
    case Fetched(_) => Find
    case MarkingRunning(_) => MarkRunning
    case StampingStart(_) => StampStart(0)
    case Analysing(_) => Analyse(Analysed)
    case MarkingCompleted(_) => MarkCompleted
    case StampingCompleted(_) => StampCompleted(0)
    case MarkingQueued(_) => MarkQueued
    case PublishingRetry(_) => PublishRetry(Done)
    case MarkingFailed(_, _) => MarkFailed
    case StampingFailed(_, _) => StampFailed(0)
    case PublishingDead(_, _) => PublishDead(Done)
    case Acking(_, _) => Ack(Done)
  }

  lemma CalmActionEnabled(s: Sys, w: nat)
    requires w < |s.workers|
    ensures var l := Work(w, CalmAction(s.workers[w].pc)); Enabled(s, l) && !IsFault(l)
  {
  }

  // A continuation of an execution, from a on, in which only workers step and nothing fails.
  datatype Trace = Trace(ss: seq<Sys>, ls: seq<Label>)

  ghost predicate Calm(c: Config, t: Trace, a: nat) {
    && Execution(c, t.ss, t.ls) && a <= |t.ls|
    && t.ss[|t.ls|].hist.faults == t.ss[a].hist.faults
    && forall i | a <= i < |t.ls| :: t.ls[i].Work? && !IsFault(t.ls[i])
  }

  predicate Continues(t: Trace, u: Trace) {
    t.ss <= u.ss && t.ls <= u.ls
  }

  function TurnsFrom(t: Trace, w: nat, a: nat): nat
    requires a <= |t.ls|
  {
    Turns(t.ls, w, a, |t.ls|)
  }

  lemma {:induction false} TurnsSame(ls: seq<Label>, ls': seq<Label>, w: nat, a: nat, b: nat)
    requires ls <= ls' && a <= b <= |ls|
    ensures Turns(ls', w, a, b) == Turns(ls, w, a, b)
    decreases b
  {
    if a < b { TurnsSame(ls, ls', w, a, b - 1); }
  }

  lemma FaultFreeStep(c: Config, s: Sys, l: Label)
    requires Enabled(s, l) && !IsFault(l)
    ensures Apply(c, s, l).hist.faults == s.hist.faults
  {
  }

  lemma NextTurn(ls: seq<Label>, l: Label, v: nat, a: nat)
    requires a <= |ls| && l.Work?
    ensures Turns(ls + [l], v, a, |ls| + 1) == Turns(ls, v, a, |ls|) + One(l.w == v)
  {
    TurnsSame(ls, ls + [l], v, a, |ls|);
  }

  lemma CalmFurther(c: Config, t: Trace, a: nat, l: Label, u: Trace)
    requires Calm(c, t, a) && Execution(c, u.ss, u.ls) && l.Work? && !IsFault(l)
    requires t.ss <= u.ss && u.ls == t.ls + [l]
    requires u.ss[|u.ls|].hist.faults == t.ss[|t.ls|].hist.faults
    ensures Calm(c, u, a)
  {
    assert u.ss[a] == t.ss[a];
  }

  lemma OneTurn(c: Config, t: Trace, a: nat, w: nat) returns (u: Trace)
    requires Calm(c, t, a) && w < c.workerCount
    ensures Calm(c, u, a) && Continues(t, u)
    ensures exists l: Label :: l.Work? && l.w == w && u.ls == t.ls + [l]
  {
    AlwaysSafe(c, t.ss, t.ls, |t.ls|);
    var s := t.ss[|t.ls|];
    var l := Work(w, CalmAction(s.workers[w].pc));
    CalmActionEnabled(s, w);
    FaultFreeStep(c, s, l);
    u := Stepped(c, t, l);
    CalmFurther(c, t, a, l, u);
  }

  lemma TurnsAfter(t: Trace, u: Trace, a: nat, w: nat, v: nat)
    requires a <= |t.ls|
    requires exists l: Label :: l.Work? && l.w == w && u.ls == t.ls + [l]
    ensures TurnsFrom(u, v, a) == TurnsFrom(t, v, a) + One(v == w)
  {
    var l: Label :| l.Work? && l.w == w && u.ls == t.ls + [l];
    NextTurn(t.ls, l, v, a);
  }

  lemma Stepped(c: Config, t: Trace, l: Label) returns (u: Trace)
    requires Execution(c, t.ss, t.ls) && Enabled(t.ss[|t.ls|], l)
    ensures t.ss <= u.ss && u.ls == t.ls + [l] && Execution(c, u.ss, u.ls)
    ensures u.ss[|u.ls|] == Apply(c, t.ss[|t.ls|], l)
  {
    u := Trace(t.ss + [Apply(c, t.ss[|t.ls|], l)], t.ls + [l]);
    forall i | 0 <= i < |u.ls| ensures Step(c, u.ss[i], u.ls[i], u.ss[i + 1]) {
      if i < |t.ls| { assert Step(c, t.ss[i], t.ls[i], t.ss[i + 1]); }
    }
  }

  lemma ContinuesFurther(t: Trace, u: Trace, v: Trace)
    requires Continues(t, u) && Continues(u, v)
    ensures Continues(t, v)
  {
  }

  // n turns of worker w.
  lemma {:induction false} SomeTurns(c: Config, t: Trace, a: nat, w: nat, n: nat) returns (u: Trace)
    requires Calm(c, t, a) && w < c.workerCount
    ensures Calm(c, u, a) && Continues(t, u)
    ensures forall v: nat :: TurnsFrom(u, v, a) >= TurnsFrom(t, v, a) + (if v == w then n else 0)
    decreases n
  {
    if n == 0 {
      u := t;
    } else {
      var t1 := SomeTurns(c, t, a, w, n - 1);
      u := OneTurn(c, t1, a, w);
      ContinuesFurther(t, t1, u);
      forall v: nat ensures TurnsFrom(u, v, a) >= TurnsFrom(t, v, a) + (if v == w then n else 0) {
        TurnsAfter(t1, u, a, w, v);
      }
    }
  }

  // Four turns of each of the first n workers.
  lemma {:induction false} EachInTurn(c: Config, t: Trace, n: nat) returns (u: Trace)
    requires Execution(c, t.ss, t.ls) && n <= c.workerCount
    ensures Calm(c, u, |t.ls|) && Continues(t, u)
    ensures forall w: nat | w < n :: TurnsFrom(u, w, |t.ls|) >= 4
    decreases n
  {
    if n == 0 {
      u := t;
    } else {
      var t1 := EachInTurn(c, t, n - 1);
      u := SomeTurns(c, t1, |t.ls|, n - 1, 4);
      ContinuesFurther(t, t1, u);
    }
  }

  // A calm stretch in which everyone has had four turns is a round.
  lemma CalmIsRound(c: Config, t: Trace, a: nat)
    requires Calm(c, t, a) && c.workerCount > 0
    requires forall w: nat | w < c.workerCount :: TurnsFrom(t, w, a) >= 4
    requires Remaining(c, t.ss[a]) > 0
    ensures Remaining(c, t.ss[|t.ls|]) < Remaining(c, t.ss[a])
  {
    assert Quiet(t.ls, a, |t.ls|);
    forall w | 0 <= w < c.workerCount ensures Turns(t.ls, w, a, |t.ls|) >= 4 {
      assert TurnsFrom(t, w, a) >= 4;
    }
    RoundProgresses(c, t.ss, t.ls, a, |t.ls|);
  }

  lemma CalmTogether(c: Config, t: Trace, u: Trace, a: nat, b: nat)
    requires Calm(c, t, a) && Calm(c, u, b) && b == |t.ls| && Continues(t, u)
    ensures Calm(c, u, a)
  {
    assert u.ss[a] == t.ss[a] && u.ss[b] == t.ss[b];
    forall i | a <= i < |u.ls| ensures u.ls[i].Work? && !IsFault(u.ls[i]) {
      if i < b { assert u.ls[i] == t.ls[i]; }
    }
  }

  // From the end of every execution the workers alone, with nothing failing, can empty the
  // queue and settle every published job: draining is always possible.
  lemma {:induction false} CanDrain(c: Config, t: Trace) returns (u: Trace)
    requires Execution(c, t.ss, t.ls) && c.workerCount > 0
    ensures Calm(c, u, |t.ls|) && Continues(t, u) && Drained(u.ss[|u.ls|])
    decreases Remaining(c, t.ss[|t.ls|])
  {
    if Remaining(c, t.ss[|t.ls|]) == 0 {
      u := t;
      NothingRemaining(c, t.ss, t.ls, |t.ls|);
    } else {
      var t1 := EachInTurn(c, t, c.workerCount);
      assert t1.ss[|t.ls|] == t.ss[|t.ls|];
      CalmIsRound(c, t1, |t.ls|);
      u := CanDrain(c, t1);
      CalmTogether(c, t1, u, |t.ls|, |t1.ls|);
      ContinuesFurther(t, t1, u);
    }
  }
}
