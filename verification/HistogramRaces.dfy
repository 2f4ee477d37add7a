// The job histogram without a lock: observers add to its buckets one after the other while a
// rendering loads them one after the other.
module HistogramRaces {
  import opened Common
  import opened Histograms

  const STEPS: nat := |BOUNDS| + 2   // every bucket, the count, the sum

  // An observation and how many of its steps are done.
  datatype Obs = Obs(v: real, done: nat)

  // `loads` and `sumLoad` are what the current rendering has loaded: the buckets, the count
  // for the +Inf line, the sum, and the count again.  `seen` and `sumSeen` are an auxiliary
  // record of how far the observations were at each load; no step reads it.
  datatype State = State(
    obs: seq<Obs>, buckets: seq<nat>, count: nat, sum: real,
    loads: seq<nat>, sumLoad: Option<real>, seen: seq<seq<Obs>>, sumSeen: seq<Obs>)

  const ZEROS: seq<nat> := [0, 0, 0, 0, 0, 0, 0, 0, 0, 0, 0]

  const AT_REST := State([], ZEROS, 0, 0.0, [], None, [], [])

  datatype Label =
    | Begin(v: real)
    | Advance(k: nat)
    | Scrape
    | Load

  predicate Enabled(s: State, l: Label) {
    match l
    case Begin(v) => v >= 0.0
    case Advance(k) => k < |s.obs| && s.obs[k].done < STEPS && |s.buckets| == |BOUNDS|
    case Scrape => true
    case Load => |s.loads| <= |BOUNDS| + 1 && |s.buckets| == |BOUNDS|
  }

  function Apply(s: State, l: Label): State
    requires Enabled(s, l)
  {
    match l
    case Begin(v) => s.(obs := s.obs + [Obs(v, 0)])
    case Advance(k) =>
      var o := s.obs[k];
      var t := s.(obs := s.obs[k := o.(done := o.done + 1)]);
      if o.done < |BOUNDS| then
        if o.v <= BOUNDS[o.done] then t.(buckets := s.buckets[o.done := s.buckets[o.done] + 1]) else t
      else if o.done == |BOUNDS| then t.(count := s.count + 1)
      else t.(sum := s.sum + o.v)
    case Scrape => s.(loads := [], sumLoad := None, seen := [], sumSeen := [])
    case Load =>
      var n := |s.loads|;
      if n < |BOUNDS| then s.(loads := s.loads + [s.buckets[n]], seen := s.seen + [s.obs])
      else if n == |BOUNDS| || s.sumLoad.Some? then s.(loads := s.loads + [s.count], seen := s.seen + [s.obs])
      else s.(sumLoad := Some(s.sum), sumSeen := s.obs)
  }

  // The labels `ls` lead through the states `ss`.
  ghost predicate Path(ss: seq<State>, ls: seq<Label>) {
    && |ss| == |ls| + 1
    && forall i | 0 <= i < |ls| :: Enabled(ss[i], ls[i]) && ss[i + 1] == Apply(ss[i], ls[i])
  }

  ghost predicate Run(ss: seq<State>, ls: seq<Label>) {
    Path(ss, ls) && ss[0] == AT_REST
  }

  // ---- What the numbers stand for ----

  // Place i counts a value: a bucket those up to its bound, the count (place 11) all.
  predicate Under(v: real, i: nat) {
    i >= |BOUNDS| || v <= BOUNDS[i]
  }

  // The observations that have been counted at place i.
  function In(obs: seq<Obs>, i: nat): (ks: set<nat>)
    ensures forall k: nat :: k in ks <==> k < |obs| && obs[k].done > i && Under(obs[k].v, i)
  {
    set k | 0 <= k < |obs| && obs[k].done > i && Under(obs[k].v, i)
  }

  // Observations only begin and advance.
  ghost predicate Grew(a: seq<Obs>, b: seq<Obs>) {
    |a| <= |b| && forall k | 0 <= k < |a| :: a[k].v == b[k].v && a[k].done <= b[k].done
  }

  ghost predicate Counted(s: State) {
    && |s.buckets| == |BOUNDS|
    && (forall i: nat | i <= |BOUNDS| :: Number(s, i) == |In(s.obs, i)|)
    && s.sum == SumIn(s.obs)
  }

  // The values already added to the sum.
  function SumIn(obs: seq<Obs>): real {
    if obs == [] then 0.0
    else
      var n := |obs| - 1;
      SumIn(obs[..n]) + Added(obs[n])
  }

  function Added(o: Obs): real {
    if o.done == STEPS then o.v else 0.0
  }

  lemma {:induction false} SumAfter(obs: seq<Obs>, k: nat, o: Obs)
    requires k < |obs|
    ensures SumIn(obs[k := o]) == SumIn(obs) - Added(obs[k]) + Added(o)
  {
    var n := |obs| - 1;
    if k < n {
      SumAfter(obs[..n], k, o);
      assert obs[k := o][..n] == obs[..n][k := o];
    } else {
      assert obs[k := o][..n] == obs[..n];
    }
  }

  lemma {:induction false} SumOfAll(obs: seq<Obs>)
    requires AllDone(obs)
    ensures SumIn(obs) == Total(Values(obs))
  {
    if obs != [] {
      var n := |obs| - 1;
      SumOfAll(obs[..n]);
      assert Values(obs)[..n] == Values(obs[..n]);
    }
  }

  // The last load but one and the last are both of the count.
  function Place(n: nat): nat {
    if n < |BOUNDS| then n else |BOUNDS|
  }

  ghost predicate Read(s: State) {
    && |s.seen| == |s.loads| <= |BOUNDS| + 2
    && (forall n: nat | n < |s.loads| :: s.loads[n] == |In(s.seen[n], Place(n))|)
    && (forall n: nat | n < |s.loads| :: Grew(s.seen[n], s.obs))
    && (forall n: nat, m: nat | n <= m < |s.loads| :: Grew(s.seen[n], s.seen[m]))
    && (s.sumLoad.Some? ==> s.sumLoad.value == SumIn(s.sumSeen))
  }

  function Number(s: State, i: nat): nat
    requires i <= |BOUNDS| == |s.buckets|
  {
    if i < |BOUNDS| then s.buckets[i] else s.count
  }

  lemma AdvanceCounts(obs: seq<Obs>, k: nat, i: nat)
    requires k < |obs| && i <= |BOUNDS|
    ensures var o := obs[k];
            |In(obs[k := o.(done := o.done + 1)], i)| == |In(obs, i)| + if o.done == i && Under(o.v, i) then 1 else 0
  {
    var o := obs[k];
    assert In(obs[k := o.(done := o.done + 1)], i) == In(obs, i) + (if o.done == i && Under(o.v, i) then {k} else {});
  }

  lemma NumberAdvances(s: State, k: nat, i: nat)
    requires Enabled(s, Advance(k)) && i <= |BOUNDS|
    ensures var t := Apply(s, Advance(k));
            |t.buckets| == |BOUNDS| && t.obs == s.obs[k := s.obs[k].(done := s.obs[k].done + 1)]
            && Number(t, i) == Number(s, i) + if s.obs[k].done == i && Under(s.obs[k].v, i) then 1 else 0
  {
  }

  lemma AdvanceKeepsCounted(s: State, k: nat)
    requires Counted(s) && Enabled(s, Advance(k))
    ensures Counted(Apply(s, Advance(k)))
  {
    forall i: nat | i <= |BOUNDS|
      ensures var t := Apply(s, Advance(k)); |t.buckets| == |BOUNDS| && Number(t, i) == |In(t.obs, i)|
    {
      NumberAdvances(s, k, i);
      AdvanceCounts(s.obs, k, i);
    }
    AdvanceAdds(s, k);
  }

  lemma AdvanceAdds(s: State, k: nat)
    requires s.sum == SumIn(s.obs) && Enabled(s, Advance(k))
    ensures Apply(s, Advance(k)).sum == SumIn(Apply(s, Advance(k)).obs)
  {
    var o := s.obs[k];
    SumAfter(s.obs, k, o.(done := o.done + 1));
  }

  lemma StepKeepsCounted(s: State, l: Label)
    requires Counted(s) && Enabled(s, l)
    ensures Counted(Apply(s, l))
  {
    match l
    case Begin(v) =>
      var t := Apply(s, l);
      forall i: nat ensures In(t.obs, i) == In(s.obs, i) {}
      assert t.obs[..|s.obs|] == s.obs;
    case Advance(k) => AdvanceKeepsCounted(s, k);
    case _ =>
  }

  lemma StepGrows(s: State, l: Label)
    requires Enabled(s, l)
    ensures Grew(s.obs, Apply(s, l).obs)
  {
  }

  lemma GrewFurther(a: seq<Obs>, b: seq<Obs>, c: seq<Obs>)
    requires Grew(a, b) && Grew(b, c)
    ensures Grew(a, c)
  {
  }

  lemma LoadIsRead(s: State)
    requires Counted(s) && Read(s) && Enabled(s, Load)
    ensures Read(Apply(s, Load))
  {
    if s.sumLoad.Some? || |s.loads| <= |BOUNDS| { NumberIsRead(s, Apply(s, Load)); }
  }

  lemma NumberIsRead(s: State, t: State)
    requires Counted(s) && Read(s) && |s.loads| <= |BOUNDS| + 1 && t.obs == s.obs
    requires t.loads == s.loads + [Number(s, Place(|s.loads|))] && t.seen == s.seen + [s.obs]
    requires t.sumLoad == s.sumLoad && t.sumSeen == s.sumSeen
    ensures Read(t)
  {
    assert t.loads[|s.loads|] == Number(s, Place(|s.loads|));
  }

  lemma GrowthKeepsRead(s: State, t: State)
    requires Read(s) && Grew(s.obs, t.obs) && t.loads == s.loads && t.seen == s.seen
    requires t.sumLoad == s.sumLoad && t.sumSeen == s.sumSeen
    ensures Read(t)
  {
    forall n: nat | n < |t.loads| ensures Grew(t.seen[n], t.obs) { GrewFurther(s.seen[n], s.obs, t.obs); }
  }

  lemma StepKeepsRead(s: State, l: Label)
    requires Counted(s) && Read(s) && Enabled(s, l)
    ensures Read(Apply(s, l))
  {
    StepGrows(s, l);
    match l
    case Load => LoadIsRead(s);
    case Scrape =>
    case _ => GrowthKeepsRead(s, Apply(s, l));
  }

  // In every interleaving every number is the number of observations counted there so far,
  // and a rendering has loaded each of them as it was at its own moment.
  lemma {:induction false} AlwaysRead(ss: seq<State>, ls: seq<Label>, i: nat)
    requires Run(ss, ls) && i < |ss|
    ensures Counted(ss[i]) && Read(ss[i])
  {
    if i == 0 {
      forall n: nat ensures In(ss[0].obs, n) == {} {}
    } else {
      AlwaysRead(ss, ls, i - 1);
      StepKeepsCounted(ss[i - 1], ls[i - 1]);
      StepKeepsRead(ss[i - 1], ls[i - 1]);
    }
  }

  // ---- When a reading goes down ----

  // Values up to the bound of place i - 1 are also up to that of place i.  Between the two
  // loads `a` grows into `b`.  Three kinds of observations make the numbers differ:
  // those that stood between the two places all the while, and are missing at the second,
  function Stood(a: seq<Obs>, b: seq<Obs>, i: nat): set<nat>
    requires i > 0
  {
    set k | 0 <= k < |a| && k < |b| && a[k].done == i && b[k].done == i && Under(a[k].v, i - 1)
  }

  // those that came past both meanwhile, and are missing at the first,
  function Passed(a: seq<Obs>, b: seq<Obs>, i: nat): set<nat>
    requires i > 0
  {
    set k | 0 <= k < |b| && b[k].done > i && Under(b[k].v, i - 1) && (k < |a| ==> a[k].done < i)
  }

  // and the finished business of the interval itself: counted at place i, and not the
  // concern of place i - 1.
  function OfInterval(b: seq<Obs>, i: nat): set<nat>
    requires i > 0
  {
    set k | 0 <= k < |b| && b[k].done > i && Under(b[k].v, i) && !Under(b[k].v, i - 1)
  }

  lemma UnderNext(v: real, i: nat)
    requires 0 < i && Under(v, i - 1)
    ensures Under(v, i)
  {
    if i < |BOUNDS| { BoundsAscend(i - 1, i); }
  }

  // What two neighbouring loads differ by.
  lemma NeighboursDiffer(a: seq<Obs>, b: seq<Obs>, i: nat)
    requires Grew(a, b) && 0 < i
    ensures |In(b, i)| - |In(a, i - 1)| == |OfInterval(b, i)| + |Passed(a, b, i)| - |Stood(a, b, i)|
  {
    var common := In(a, i - 1) * In(b, i);
    forall k | k in In(a, i - 1) ensures Under(a[k].v, i) { UnderNext(a[k].v, i); }
    assert In(a, i - 1) == common + Stood(a, b, i);
    SecondOnly(a, b, i);
    assert In(b, i) == common + (OfInterval(b, i) + Passed(a, b, i));
    assert OfInterval(b, i) !! Passed(a, b, i);
  }

  lemma SecondOnly(a: seq<Obs>, b: seq<Obs>, i: nat)
    requires Grew(a, b) && 0 < i
    ensures In(b, i) - In(a, i - 1) == OfInterval(b, i) + Passed(a, b, i)
  {
    forall k | k in Passed(a, b, i) ensures Under(b[k].v, i) { UnderNext(b[k].v, i); }
  }

  // A rendering reads less at one place than at the place before (for place 11, a +Inf line
  // below the last bucket) if and only if more observations stood between the two, from the
  // one load to the other, than the interval holds and came past meanwhile.
  lemma ReadsDownIff(s: State, i: nat)
    requires Read(s) && 0 < i <= |BOUNDS| && i < |s.loads|
    ensures s.loads[i] as int - s.loads[i - 1] ==
              |OfInterval(s.seen[i], i)| + |Passed(s.seen[i - 1], s.seen[i], i)| - |Stood(s.seen[i - 1], s.seen[i], i)|
    ensures s.loads[i] < s.loads[i - 1] <==>
              |Stood(s.seen[i - 1], s.seen[i], i)|
              > |OfInterval(s.seen[i], i)| + |Passed(s.seen[i - 1], s.seen[i], i)|
  {
    NeighboursDiffer(s.seen[i - 1], s.seen[i], i);
  }

  // ---- When a reading can go down ----

  // Observations go on until place i is loaded, with a smaller number than place i - 1.
  ghost predicate FallsNext(s: State, ss: seq<State>, ls: seq<Label>, i: nat) {
    && Path(ss, ls) && ss[0] == s && ls != [] && ls[|ls| - 1] == Load
    && (forall n | 0 <= n < |ls| - 1 :: ls[n].Begin? || ls[n].Advance?)
    && 0 < i < |ss[|ls|].loads| && ss[|ls|].loads[i] < ss[|ls|].loads[i - 1]
  }

  // In the state in which place i - 1 has just been loaded: the next number can be smaller
  // in some continuation if and only if more observations now stand between the two places
  // than the interval already holds.  Whatever else happens only helps.
  lemma CanFallIff(s: State, i: nat)
    requires Counted(s) && Read(s) && 0 < i <= |BOUNDS| && |s.loads| == i && s.seen[i - 1] == s.obs
    ensures (exists ss, ls :: FallsNext(s, ss, ls, i)) <==> |Stood(s.obs, s.obs, i)| > |OfInterval(s.obs, i)|
  {
    assert Passed(s.obs, s.obs, i) == {};
    if |Stood(s.obs, s.obs, i)| > |OfInterval(s.obs, i)| {
      FallsAtOnce(s, i);
    }
    forall ss, ls | FallsNext(s, ss, ls, i) ensures |Stood(s.obs, s.obs, i)| > |OfInterval(s.obs, i)| {
      FallNeeds(s, ss, ls, i);
    }
  }

  lemma FallsAtOnce(s: State, i: nat)
    requires Counted(s) && Read(s) && 0 < i <= |BOUNDS| && |s.loads| == i && s.seen[i - 1] == s.obs
    requires |Stood(s.obs, s.obs, i)| > |OfInterval(s.obs, i)|
    ensures exists ss, ls :: FallsNext(s, ss, ls, i)
  {
    var t := Apply(s, Load);
    LoadIsRead(s);
    assert Passed(s.obs, s.obs, i) == {};
    ReadsDownIff(t, i);
    assert FallsNext(s, [s, t], [Load], i);
  }

  lemma FallNeeds(s: State, ss: seq<State>, ls: seq<Label>, i: nat)
    requires Counted(s) && Read(s) && 0 < i <= |BOUNDS| && |s.loads| == i && s.seen[i - 1] == s.obs
    requires FallsNext(s, ss, ls, i)
    ensures |Stood(s.obs, s.obs, i)| > |OfInterval(s.obs, i)|
  {
    var n := |ls| - 1;
    ObserversOnly(ss, ls, n);
    var u := ss[n];
    LoadIsRead(u);
    ReadsDownIff(ss[n + 1], i);
    StandingFalls(s.obs, u.obs, i);
  }

  // Observers do not touch what has been loaded.
  lemma {:induction false} ObserversOnly(ss: seq<State>, ls: seq<Label>, n: nat)
    requires Path(ss, ls) && n <= |ls| && Counted(ss[0]) && Read(ss[0])
    requires forall m | 0 <= m < n :: ls[m].Begin? || ls[m].Advance?
    ensures Counted(ss[n]) && Read(ss[n]) && Grew(ss[0].obs, ss[n].obs)
    ensures ss[n].loads == ss[0].loads && ss[n].seen == ss[0].seen && ss[n].sumLoad == ss[0].sumLoad
  {
    if n > 0 {
      ObserversOnly(ss, ls, n - 1);
      StepKeepsCounted(ss[n - 1], ls[n - 1]);
      StepKeepsRead(ss[n - 1], ls[n - 1]);
      StepGrows(ss[n - 1], ls[n - 1]);
      GrewFurther(ss[0].obs, ss[n - 1].obs, ss[n].obs);
    }
  }

  // While observations go on, those that stand become fewer and the interval fills.
  lemma StandingFalls(a: seq<Obs>, b: seq<Obs>, i: nat)
    requires Grew(a, b) && 0 < i
    ensures |Stood(a, b, i)| <= |Stood(a, a, i)| && |OfInterval(a, i)| <= |OfInterval(b, i)|
  {
    SubsetSize(Stood(a, b, i), Stood(a, a, i));
    SubsetSize(OfInterval(a, i), OfInterval(b, i));
  }

  // One observation, two of its steps done, is enough.
  lemma ReadsDown() returns (ss: seq<State>, ls: seq<Label>)
    ensures Run(ss, ls) && ss[|ls|].loads == [0, 1, 0]
  {
    var s3 := HalfObserved();
    var s1 := Apply(AT_REST, Begin(0.02));
    var s2 := Apply(s1, Advance(0));
    var s4 := Apply(s3, Scrape);
    var s5 := Apply(s4, Load);
    var s6 := Apply(s5, Load);
    var s7 := Apply(s6, Load);
    ss := [AT_REST, s1, s2, s3, s4, s5, s6, s7];
    ls := [Begin(0.02), Advance(0), Advance(0), Scrape, Load, Load, Load];
  }

  lemma HalfObserved() returns (s: State)
    ensures Enabled(AT_REST, Begin(0.02)) && var s1 := Apply(AT_REST, Begin(0.02));
            Enabled(s1, Advance(0)) && var s2 := Apply(s1, Advance(0));
            Enabled(s2, Advance(0)) && s == Apply(s2, Advance(0))
    ensures s.buckets == [0, 1, 0, 0, 0, 0, 0, 0, 0, 0, 0]
  {
    var s1 := Apply(AT_REST, Begin(0.02));
    var s2 := Apply(s1, Advance(0));
    assert s2.obs == [Obs(0.02, 1)] && s2.buckets == ZEROS;
    s := Apply(s2, Advance(0));
  }

  // ---- When nothing overlaps ----

  function Values(obs: seq<Obs>): seq<real> {
    seq(|obs|, k requires 0 <= k < |obs| => obs[k].v)
  }

  predicate AllDone(obs: seq<Obs>) {
    forall k | 0 <= k < |obs| :: obs[k].done == STEPS
  }

  function Whole(obs: seq<Obs>, i: nat): (ks: set<nat>)
    ensures forall k: nat :: k in ks <==> k < |obs| && Under(obs[k].v, i)
  {
    set k | 0 <= k < |obs| && Under(obs[k].v, i)
  }

  lemma {:induction false} WholeIsAtMost(obs: seq<Obs>, i: nat)
    requires i < |BOUNDS|
    ensures |Whole(obs, i)| == AtMost(Values(obs), BOUNDS[i])
  {
    if obs == [] {
      assert Whole(obs, i) == {};
    } else {
      var n := |obs| - 1;
      WholeIsAtMost(obs[..n], i);
      assert Values(obs)[..n] == Values(obs[..n]);
      assert Whole(obs, i) == Whole(obs[..n], i) + (if Under(obs[n].v, i) then {n} else {});
    }
  }

  lemma WholeIsAll(obs: seq<Obs>)
    ensures |Whole(obs, |BOUNDS|)| == |obs|
  {
    IntervalSize(Whole(obs, |BOUNDS|), 0, |obs|);
  }

  // Each load saw the same observations, all of them finished.
  ghost predicate NothingOverlaps(s: State) {
    && (forall n: nat | n < |s.seen| :: s.seen[n] == s.obs && AllDone(s.obs))
    && (s.sumLoad.Some? ==> s.sumSeen == s.obs)
  }

  // From `a`, where it starts, to `b` nothing but the rendering's loads happens.
  ghost predicate QuietlyLoaded(ss: seq<State>, ls: seq<Label>, a: nat, b: nat) {
    && Run(ss, ls) && a < b <= |ls| && ls[a] == Scrape && AllDone(ss[a].obs)
    && forall i | a < i < b :: ls[i] == Load
  }

  lemma {:induction false} QuietRendering(ss: seq<State>, ls: seq<Label>, a: nat, b: nat)
    requires QuietlyLoaded(ss, ls, a, b)
    ensures Read(ss[b]) && NothingOverlaps(ss[b]) && ss[b].obs == ss[a].obs
    decreases b
  {
    AlwaysRead(ss, ls, b);
    if a + 1 < b {
      QuietRendering(ss, ls, a, b - 1);
      assert ss[b] == Apply(ss[b - 1], Load);
    } else {
      assert ss[b] == Apply(ss[a], Scrape);
    }
  }

  // In any run, a rendering that starts when every observation so far is finished, and that
  // none overlaps, reads exactly the histogram of the values observed.
  lemma QuietReading(ss: seq<State>, ls: seq<Label>, a: nat, b: nat)
    requires QuietlyLoaded(ss, ls, a, b) && |ss[b].loads| == |BOUNDS| + 2
    ensures Cumulative(ss[b].loads[..|BOUNDS|], Values(ss[a].obs))
    ensures ss[b].loads[|BOUNDS|] == |ss[a].obs| && ss[b].loads[|BOUNDS| + 1] == |ss[a].obs|
    ensures ss[b].sumLoad.Some? ==> ss[b].sumLoad.value == Total(Values(ss[a].obs))
  {
    QuietRendering(ss, ls, a, b);
    QuietLoads(ss[b]);
  }

  lemma QuietLoads(s: State)
    requires Read(s) && |s.loads| == |BOUNDS| + 2 && NothingOverlaps(s)
    ensures Cumulative(s.loads[..|BOUNDS|], Values(s.obs))
    ensures s.loads[|BOUNDS|] == |s.obs| && s.loads[|BOUNDS| + 1] == |s.obs|
    ensures s.sumLoad.Some? ==> s.sumLoad.value == Total(Values(s.obs))
  {
    assert s.seen[0] == s.obs && AllDone(s.obs);
    SumOfAll(s.obs);
    forall i: nat | i < |BOUNDS| ensures s.loads[i] == AtMost(Values(s.obs), BOUNDS[i]) {
      assert s.seen[i] == s.obs;
      assert In(s.obs, i) == Whole(s.obs, i);
      WholeIsAtMost(s.obs, i);
    }
    assert In(s.obs, |BOUNDS|) == Whole(s.obs, |BOUNDS|);
    WholeIsAll(s.obs);
    assert Place(|BOUNDS| + 1) == |BOUNDS|;
    assert s.seen[|BOUNDS|] == s.obs && s.seen[|BOUNDS| + 1] == s.obs;
  }

  // ---- How far off a reading can be ----

  // The observations that were not finished when the first load was made.
  function Overlapping(s: State): set<nat> {
    set k | 0 <= k < |s.obs| && !(|s.seen| > 0 && k < |s.seen[0]| && s.seen[0][k].done > |BOUNDS|)
  }

  lemma LoadNearly(s: State, n: nat)
    requires Read(s) && n < |s.loads| && n <= |BOUNDS|
    ensures |Whole(s.obs, n)| - |Overlapping(s)| <= s.loads[n] <= |Whole(s.obs, n)|
  {
    var read := In(s.seen[n], n);
    assert Grew(s.seen[0], s.seen[n]) && Grew(s.seen[n], s.obs);
    SubsetSize(read, Whole(s.obs, n));
    forall k | k in Whole(s.obs, n) - Overlapping(s) ensures k in read {
      assert k < |s.seen[0]| && s.seen[0][k].done > |BOUNDS|;
    }
    SubsetSize(Whole(s.obs, n) - Overlapping(s), read);
    var rest := Whole(s.obs, n) - Overlapping(s);
    assert Whole(s.obs, n) == rest + Whole(s.obs, n) * Overlapping(s);
    SubsetSize(Whole(s.obs, n) * Overlapping(s), Overlapping(s));
  }

  function Change(loads: seq<nat>, i: nat): int
    requires i < |loads|
  {
    loads[i] as int - (if i == 0 then 0 else loads[i - 1])
  }

  // What the page makes of two neighbouring loads is off by at most the number of
  // observations the rendering overlapped.
  lemma IntervalNearly(s: State, i: nat)
    requires Read(s) && i < |BOUNDS| && i < |s.loads|
    ensures var shown := Max(0, Change(s.loads, i));
            Interval(Values(s.obs), i) - |Overlapping(s)| <= shown <= Interval(Values(s.obs), i) + |Overlapping(s)|
  {
    LoadNearly(s, i);
    WholeIsAtMost(s.obs, i);
    if i > 0 {
      LoadNearly(s, i - 1);
      WholeIsAtMost(s.obs, i - 1);
      BoundsAscend(i - 1, i);
      BetweenIsDifference(Values(s.obs), BOUNDS[i - 1], BOUNDS[i]);
    }
  }

  // ---- The program ----

  predicate Others(l: Label, mine: Option<nat>) {
    l.Begin? || (l.Advance? && mine != Some(l.k))
  }

  // The atomic fields of the histogram.  `now` says how far every observation in flight and
  // the current rendering are; that is the callers' state, which no field here holds.
  class JobHistogram {
    const buckets: array<nat>
    var count: nat
    var sum: real
    var now: State
    ghost var states: seq<State>
    ghost var labels: seq<Label>

    ghost predicate Recorded()
      reads this
    {
      Run(states, labels) && states[|labels|] == now && |now.buckets| == |BOUNDS|
    }

    ghost predicate Valid()
      reads this, buckets
    {
      Recorded() && Shows(now)
    }

    predicate Shows(s: State)
      reads this, buckets
    {
      buckets[..] == s.buckets && count == s.count && sum == s.sum
    }

    constructor ()
      ensures Valid() && fresh(buckets) && now == AT_REST
    {
      buckets := new nat[|BOUNDS|](_ => 0);
      count, sum, now, labels := 0, 0.0, AT_REST, [];
      states := [AT_REST];
    }

    // The fields have just been changed, or read, as `l` says.
    method Record(l: Label)
      requires Recorded() && Enabled(now, l) && Shows(Apply(now, l))
      modifies `now, `states, `labels
      ensures Valid() && now == Apply(old(now), l)
      ensures labels == old(labels) + [l] && states == old(states) + [now]
    {
      ghost var states', labels' := states + [Apply(now, l)], labels + [l];
      forall i | 0 <= i < |labels'|
        ensures Enabled(states'[i], labels'[i]) && states'[i + 1] == Apply(states'[i], labels'[i])
      {
      }
      now, states, labels := Apply(now, l), states', labels';
    }

    // One atomic step of an observation.
    method Perform(l: Label)
      requires Valid() && Enabled(now, l) && (l.Begin? || l.Advance?)
      modifies this, buckets
      ensures Valid() && now == Apply(old(now), l)
    {
      if l.Advance? {
        var o := now.obs[l.k];
        if o.done < |BOUNDS| {
          if o.v <= BOUNDS[o.done] { buckets[o.done] := buckets[o.done] + 1; }
        } else if o.done == |BOUNDS| {
          count := count + 1;
        } else {
          sum := sum + o.v;   // the compare-and-exchange that succeeds
        }
      }
      Record(l);
    }

    // Whatever the other observers do meanwhile.
    method OthersObserve(mine: Option<nat>)
      requires Valid()
      modifies this, buckets
      ensures Valid() && Grew(old(now).obs, now.obs)
      ensures now.loads == old(now).loads && now.sumLoad == old(now).sumLoad
      ensures mine.Some? && mine.value < |old(now).obs| ==> now.obs[mine.value] == old(now).obs[mine.value]
    {
      var n: nat := *;
      while n > 0
        invariant Valid() && Grew(old(now).obs, now.obs)
        invariant now.loads == old(now).loads && now.sumLoad == old(now).sumLoad
        invariant mine.Some? && mine.value < |old(now).obs| ==> now.obs[mine.value] == old(now).obs[mine.value]
      {
        var l: Label := *;
        if Enabled(now, l) && Others(l, mine) {
          StepGrows(now, l);
          GrewFurther(old(now).obs, now.obs, Apply(now, l).obs);
          Perform(l);
        }
        n := n - 1;
      }
    }

    // Other observations may come between any two of this one's steps; in the end it is
    // counted everywhere it should be, like all that began before.
    method ObserveJobProcessingDurationSeconds(seconds: real)
      requires Valid()
      modifies this, buckets
      ensures Valid() && Counted(now) && Grew(old(now).obs, now.obs)
      ensures seconds >= 0.0 ==> exists k: nat :: |old(now).obs| <= k < |now.obs| && now.obs[k] == Obs(seconds, STEPS)
      ensures seconds < 0.0 ==> now == old(now)
    {
      if seconds < 0.0 {
        AlwaysRead(states, labels, |labels|);
        return;
      }
      OthersObserve(None);
      var k := |now.obs|;
      Perform(Begin(seconds));
      for i := 0 to STEPS
        invariant Valid() && Grew(old(now).obs, now.obs)
        invariant |old(now).obs| <= k < |now.obs| && now.obs[k] == Obs(seconds, i)
      {
        OthersObserve(Some(k));
        StepGrows(now, Advance(k));
        GrewFurther(old(now).obs, now.obs, Apply(now, Advance(k)).obs);
        Perform(Advance(k));
      }
      AlwaysRead(states, labels, |labels|);
    }
  }
}
