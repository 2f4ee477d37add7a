// The active-jobs gauge, whose decrement reads, compares and writes in separate steps.
module Gauge {
  // Where one processing scope is: before its increment or after its decrement, running,
  // or inside decrementJobsActive with the value it loaded.
  datatype Scope = Outside | Inside | Loaded(current: int)

  datatype State = State(gauge: int, scopes: seq<Scope>)

  datatype Label =
    | Increment(t: nat)
    | Load(t: nat)
    | Store(t: nat)      // the clamp: store 0
    | Subtract(t: nat)

  predicate Enabled(s: State, l: Label) {
    l.t < |s.scopes| &&
    match l
    case Increment(t) => s.scopes[t].Outside?
    case Load(t) => s.scopes[t].Inside?
    case Store(t) => s.scopes[t].Loaded? && s.scopes[t].current <= 0
    case Subtract(t) => s.scopes[t].Loaded? && s.scopes[t].current > 0
  }

  function Apply(s: State, l: Label): State
    requires Enabled(s, l)
  {
    match l
    case Increment(t) => State(s.gauge + 1, s.scopes[t := Inside])
    case Load(t) => s.(scopes := s.scopes[t := Loaded(s.gauge)])
    case Store(t) => State(0, s.scopes[t := Outside])
    case Subtract(t) => State(s.gauge - 1, s.scopes[t := Outside])
  }

  ghost predicate Run(ss: seq<State>, ls: seq<Label>) {
    && |ss| == |ls| + 1
    && ss[0].gauge == 0 && (forall t | 0 <= t < |ss[0].scopes| :: ss[0].scopes[t].Outside?)
    && forall i | 0 <= i < |ls| :: Enabled(ss[i], ls[i]) && ss[i + 1] == Apply(ss[i], ls[i])
  }

  // The scopes that incremented the gauge and have not subtracted yet.
  function Open(s: State): set<nat> {
    set t | 0 <= t < |s.scopes| && !s.scopes[t].Outside?
  }

  ghost predicate Exact(s: State) {
    && s.gauge == |Open(s)|
    && forall t | 0 <= t < |s.scopes| && s.scopes[t].Loaded? :: s.scopes[t].current > 0
  }

  lemma StepKeepsExact(s: State, l: Label)
    requires Exact(s) && Enabled(s, l)
    ensures Exact(Apply(s, l))
  {
    var t := Apply(s, l);
    match l
    case Increment(i) => assert Open(t) == Open(s) + {i};
    case Load(i) =>
      assert Open(t) == Open(s);
      assert i in Open(s);
    case Store(_) =>
    case Subtract(i) => assert Open(t) == Open(s) - {i};
  }

  // Under any interleaving the gauge is the number of open scopes and never clamps.
  lemma {:induction false} GaugeExact(ss: seq<State>, ls: seq<Label>, i: nat)
    requires Run(ss, ls) && i < |ss|
    ensures Exact(ss[i])
    ensures i < |ls| ==> !ls[i].Store?
  {
    if i == 0 {
      assert Open(ss[0]) == {};
    } else {
      GaugeExact(ss, ls, i - 1);
      StepKeepsExact(ss[i - 1], ls[i - 1]);
    }
  }
}
