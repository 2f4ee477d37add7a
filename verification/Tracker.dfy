// The browser's analysis tracker: one tracked job, a generation counter that retires old
// poll loops, and every suspended continuation (request, timer) as an entry of `calls`.
module Tracker {
  import opened Common

  datatype Phase = Idle | Submitting | Polling | Done | Failed

  // What is suspended: a request in flight, or a timer.  A tick remembers its generation.
  datatype Call =
    | Submission
    | JobFetch(generation: nat, job: string)
    | AnalysisFetch(generation: nat, job: string)
    | DetailsFetch(job: string)
    | Timer(generation: nat, job: string)

  // A call that belongs to some poll loop, and to the one of generation g.
  predicate Looping(c: Call) {
    c.JobFetch? || c.AnalysisFetch? || c.Timer?
  }

  predicate Carries(c: Call, g: nat) {
    Looping(c) && c.generation == g
  }

  datatype Reply =
    | Threw
    | Refused                  // an unsuccessful payload
    | Accepted(jobId: string)
    | JobCompleted | JobFailed | JobOther
    | Loaded                   // analysis or details
    | Empty                    // a successful payload without data
    | Fired

  predicate Answers(c: Call, r: Reply) {
    match c
    case Submission => r.Threw? || r.Refused? || (r.Accepted? && r.jobId != "")
    case JobFetch(_, _) => r.Threw? || r.Refused? || r.JobCompleted? || r.JobFailed? || r.JobOther?
    case AnalysisFetch(_, _) => r.Threw? || r.Refused? || r.Loaded? || r.Empty?
    case DetailsFetch(_) => r.Threw? || r.Refused? || r.Loaded? || r.Empty?
    case Timer(_, _) => r.Fired?
  }

  // analysis, details and record hold the id of the job they were fetched for.
  datatype State = State(
    phase: Phase,
    active: Option<string>,
    generation: nat,
    pollTimeout: Option<nat>,
    analysis: Option<string>,
    record: Option<string>,
    details: Option<string>,
    calls: map<nat, Call>,
    nextCall: nat,
    mounted: bool)

  const START := State(Idle, None, 0, None, None, None, None, map[], 0, true)

  datatype Event =
    | Submit(valid: bool)
    | Load(jobId: string)
    | Resolve(id: nat, reply: Reply)
    | Unmount

  // ---- What each piece of the hook does to the state ----

  function Spawned(s: State, c: Call): State {
    s.(calls := s.calls[s.nextCall := c], nextCall := s.nextCall + 1)
  }

  function Stopped(s: State): State {
    s.(generation := s.generation + 1, pollTimeout := None,
       calls := if s.pollTimeout.Some? then s.calls - {s.pollTimeout.value} else s.calls)
  }

  function Refreshed(s: State, j: string): State {
    if j == "" then s else Spawned(s, DetailsFetch(j))
  }

  predicate Current(s: State, g: nat, j: string) {
    g == s.generation && s.active == Some(j)
  }

  function Ticked(s: State, g: nat, j: string): State {
    if Current(s, g, j) then Spawned(s, JobFetch(g, j)) else s
  }

  function Polled(s: State, j: string): State {
    Ticked(Stopped(s), Stopped(s).generation, j)
  }

  function AfterJob(s: State, g: nat, j: string, r: Reply): State {
    if !Current(s, g, j) then s
    else if r.Threw? || r.Refused? then s.(phase := Failed)
    else
      var t := Refreshed(s.(record := Some(j)), j);
      if r.JobCompleted? then Spawned(t, AnalysisFetch(g, j))
      else if r.JobFailed? then t.(phase := Failed)
      else
        var u := t.(phase := Polling);
        Spawned(u, Timer(g, j)).(pollTimeout := Some(u.nextCall))
  }

  function AfterAnalysis(s: State, g: nat, j: string, r: Reply): State {
    if r.Threw? then (if Current(s, g, j) then s.(phase := Failed) else s)
    else if s.active != Some(j) then s
    else if r.Refused? then s.(phase := Failed)
    else Refreshed(s.(analysis := if r.Empty? then None else Some(j), phase := Done), j)
  }

  function AfterDetails(s: State, j: string, r: Reply): State {
    if r.Loaded? && s.active == Some(j) then s.(details := Some(j)) else s
  }

  function Tracking(s: State, j: string): State {
    Polled(Refreshed(s, j), j)
  }

  function AfterSubmission(s: State, r: Reply): State {
    if r.Accepted? then Tracking(s.(active := Some(r.jobId), record := Some(r.jobId)), r.jobId)
    else s.(phase := Failed)
  }

  function Submitted(s: State, valid: bool): State {
    if !valid then s.(phase := Failed)
    else Spawned(Stopped(s).(active := None, phase := Submitting, analysis := None,
                             record := None, details := None), Submission)
  }

  function LoadedJob(s: State, j: string): State {
    Tracking(Stopped(s).(active := Some(j), phase := Polling, analysis := None,
                         record := Some(j), details := None), j)
  }

  function Resolved(s: State, id: nat, r: Reply): State
    requires id in s.calls
  {
    var rest := s.(calls := s.calls - {id});
    match s.calls[id]
    case Submission => AfterSubmission(rest, r)
    case JobFetch(g, j) => AfterJob(rest, g, j, r)
    case AnalysisFetch(g, j) => AfterAnalysis(rest, g, j, r)
    case DetailsFetch(j) => AfterDetails(rest, j, r)
    case Timer(g, j) => Ticked(rest, g, j)
  }

  predicate Possible(s: State, e: Event) {
    e.Resolve? ==> e.id in s.calls && Answers(s.calls[e.id], e.reply)
  }

  // No second job is started while a submission is in flight.
  predicate Allowed(s: State, e: Event) {
    e.Submit? || e.Load? ==> NoSubmission(s)
  }

  // The page: the form is disabled while busy, and a route is not loaded while submitting.
  predicate Guarded(s: State, e: Event) {
    match e
    case Submit(_) => s.mounted && !s.phase.Submitting? && !s.phase.Polling?
    case Load(_) => s.mounted && !s.phase.Submitting?
    case Resolve(_, _) => true
    case Unmount => s.mounted
  }

  function Next(s: State, e: Event): State
    requires Possible(s, e)
  {
    match e
    case Submit(valid) => Submitted(s, valid)
    case Load(j) => LoadedJob(s, j)
    case Resolve(id, r) => Resolved(s, id, r)
    case Unmount => Stopped(s).(mounted := false)
  }

  // The events `es` lead through the states `ss`.
  ghost predicate Path(ss: seq<State>, es: seq<Event>) {
    && |ss| == |es| + 1
    && forall i | 0 <= i < |es| ::
         Possible(ss[i], es[i]) && Allowed(ss[i], es[i]) && ss[i + 1] == Next(ss[i], es[i])
  }

  ghost predicate Run(ss: seq<State>, es: seq<Event>) {
    Path(ss, es) && ss[0] == START
  }

  // Only requests are answered, and timers fire, from the state `s` on.
  ghost predicate Answered(s: State, ss: seq<State>, es: seq<Event>) {
    Path(ss, es) && ss[0] == s && forall e | e in es :: e.Resolve?
  }

  // ---- The invariant ----

  // At most one continuation carries the current generation, and it is the active job's.
  ghost predicate OneLoop(s: State) {
    && (forall a, b | a in s.calls && b in s.calls
          && Carries(s.calls[a], s.generation) && Carries(s.calls[b], s.generation) :: a == b)
    && (forall a | a in s.calls && Carries(s.calls[a], s.generation) :: s.active == Some(s.calls[a].job))
  }

  // Stored results belong to the active job.
  ghost predicate Owned(s: State) {
    && (s.analysis.Some? ==> s.analysis == s.active)
    && (s.details.Some? ==> s.details == s.active)
    && (s.record.Some? ==> s.record == s.active)
  }

  // Generations and ids only grow; a pending timer is the one clearTimeout would clear.
  ghost predicate Ordered(s: State) {
    && (s.pollTimeout.Some? ==>
          && s.pollTimeout.value < s.nextCall
          && (s.pollTimeout.value in s.calls ==> s.calls[s.pollTimeout.value].Timer?))
    && forall a | a in s.calls ::
      && a < s.nextCall
      && (Looping(s.calls[a]) ==> s.calls[a].generation <= s.generation)
      && (s.calls[a].Timer? ==> s.calls[a].generation == s.generation && s.pollTimeout == Some(a))
  }

  // A submission in flight is the only one, nothing is active, and the page knows.
  ghost predicate OneSubmission(s: State) {
    forall a | a in s.calls && s.calls[a].Submission? ::
      && s.phase.Submitting? && s.active == None
      && forall b | b in s.calls && s.calls[b].Submission? :: a == b
  }

  // While the page says it is waiting, something is in flight that will end the wait.
  ghost predicate NotStuck(s: State) {
    && (s.mounted && s.phase.Polling? ==>
          exists a :: a in s.calls && Carries(s.calls[a], s.generation))
    && (s.mounted && s.phase.Submitting? ==>
          exists a :: a in s.calls && (s.calls[a].Submission? || Carries(s.calls[a], s.generation)))
  }

  ghost predicate Inv(s: State) {
    Ordered(s) && OneLoop(s) && OneSubmission(s) && Owned(s) && NotStuck(s)
  }

  // ---- Every step keeps it ----

  // Dropping a call keeps the orderly part; whether someone still waits is decided later.
  ghost predicate Steady(s: State) {
    Ordered(s) && OneLoop(s) && OneSubmission(s) && Owned(s)
  }

  // No continuation carries the current generation.
  ghost predicate Quiet(s: State) {
    forall a | a in s.calls :: !Carries(s.calls[a], s.generation)
  }

  predicate NoSubmission(s: State) {
    forall a | a in s.calls :: !s.calls[a].Submission?
  }

  lemma DroppedSteady(s: State, id: nat)
    requires Steady(s) && id in s.calls
    ensures var t := s.(calls := s.calls - {id});
            && Steady(t)
            && (s.calls[id].Submission? ==> NoSubmission(t))
            && (Carries(s.calls[id], s.generation) ==> Quiet(t))
  {
  }

  lemma StoppedQuiet(s: State)
    requires Ordered(s)
    ensures Ordered(Stopped(s)) && Quiet(Stopped(s)) && OneLoop(Stopped(s))
    ensures NoSubmission(s) ==> NoSubmission(Stopped(s))
  {
  }

  lemma RefreshedSteady(s: State, j: string)
    requires Steady(s)
    ensures var t := Refreshed(s, j);
            Steady(t) && (Quiet(s) ==> Quiet(t)) && (NoSubmission(s) ==> NoSubmission(t))
    ensures s.calls.Keys <= Refreshed(s, j).calls.Keys
    ensures forall a | a in s.calls :: Refreshed(s, j).calls[a] == s.calls[a]
  {
  }

  // Adding a continuation of the current generation where there was none.
  lemma LoopSpawned(s: State, c: Call)
    requires Steady(s) && Quiet(s) && Looping(c) && !c.Timer?
    requires Current(s, c.generation, c.job)
    ensures Inv(Spawned(s, c))
  {
    var t := Spawned(s, c);
    assert Carries(t.calls[s.nextCall], t.generation);
  }

  lemma TimerSpawned(s: State, g: nat, j: string)
    requires Steady(s) && Quiet(s) && Current(s, g, j)
    ensures Inv(Spawned(s, Timer(g, j)).(pollTimeout := Some(s.nextCall)))
  {
    var t := Spawned(s, Timer(g, j)).(pollTimeout := Some(s.nextCall));
    assert Carries(t.calls[s.nextCall], t.generation);
    forall a | a in t.calls && t.calls[a].Timer? ensures a == s.nextCall {
      if a != s.nextCall { assert Carries(s.calls[a], s.generation); }
    }
  }

  // pollJob: whatever was running before is retired, one new loop runs.
  lemma TrackingInv(s: State, j: string)
    requires Ordered(s) && NoSubmission(s) && Owned(s) && s.active == Some(j)
    ensures Inv(Tracking(s, j))
  {
    var r := Refreshed(s, j);
    assert Ordered(r) && NoSubmission(r);
    StoppedQuiet(r);
    var t := Stopped(r);
    assert Steady(t);
    LoopSpawned(t, JobFetch(t.generation, j));
  }

  // A job that starts being tracked is asked for under a new generation, and so are its
  // details; every earlier loop is left behind.
  lemma TrackingAsks(s: State, j: string)
    requires Ordered(s) && s.active == Some(j)
    ensures var t := Tracking(s, j);
            && (exists a :: a in t.calls && t.calls[a] == JobFetch(t.generation, j))
            && (j != "" ==> exists a :: a in t.calls && t.calls[a] == DetailsFetch(j))
            && forall a | a in s.calls :: !Carries(s.calls[a], t.generation)
  {
    var r := Refreshed(s, j);
    var t := Tracking(s, j);
    assert t.calls[Stopped(r).nextCall] == JobFetch(t.generation, j);
    if j != "" {
      assert r.calls[s.nextCall] == DetailsFetch(j);
      assert t.calls[s.nextCall] == DetailsFetch(j);
    }
  }

  function Dropped(s: State, id: nat): State {
    s.(calls := s.calls - {id})
  }

  // An answer nobody waits for ends no wait.
  lemma DroppedInv(s: State, id: nat)
    requires Inv(s) && id in s.calls && !s.calls[id].Submission?
    requires !Carries(s.calls[id], s.generation)
    ensures Inv(Dropped(s, id))
  {
    DroppedSteady(s, id);
    var t := Dropped(s, id);
    if s.mounted && s.phase.Polling? {
      var a :| a in s.calls && Carries(s.calls[a], s.generation);
      assert a in t.calls && Carries(t.calls[a], t.generation);
    }
    if s.mounted && s.phase.Submitting? {
      var a :| a in s.calls && (s.calls[a].Submission? || Carries(s.calls[a], s.generation));
      assert a in t.calls && (t.calls[a].Submission? || Carries(t.calls[a], t.generation));
    }
  }

  lemma JobAnswered(s: State, id: nat, r: Reply)
    requires Inv(s) && id in s.calls && s.calls[id].JobFetch?
    ensures Inv(AfterJob(Dropped(s, id), s.calls[id].generation, s.calls[id].job, r))
  {
    if !Current(s, s.calls[id].generation, s.calls[id].job) {
      DroppedInv(s, id);
    } else if !r.Threw? && !r.Refused? {
      JobRead(s, id, r);
    } else {
      DroppedSteady(s, id);
    }
  }

  lemma JobRead(s: State, id: nat, r: Reply)
    requires Inv(s) && id in s.calls && s.calls[id].JobFetch? && !r.Threw? && !r.Refused?
    requires Current(s, s.calls[id].generation, s.calls[id].job)
    ensures Inv(AfterJob(Dropped(s, id), s.calls[id].generation, s.calls[id].job, r))
  {
    var g, j := s.calls[id].generation, s.calls[id].job;
    var rest := Dropped(s, id).(record := Some(j));
    DroppedSteady(s, id);
    RefreshedSteady(rest, j);
    if r.JobCompleted? {
      LoopSpawned(Refreshed(rest, j), AnalysisFetch(g, j));
    } else if !r.JobFailed? {
      assert NoSubmission(rest);
      TimerSpawned(Refreshed(rest, j).(phase := Polling), g, j);
    }
  }

  lemma AnalysisAnswered(s: State, id: nat, r: Reply)
    requires Inv(s) && id in s.calls && s.calls[id].AnalysisFetch?
    ensures Inv(AfterAnalysis(Dropped(s, id), s.calls[id].generation, s.calls[id].job, r))
  {
    var g, j := s.calls[id].generation, s.calls[id].job;
    if !r.Threw? && s.active == Some(j) {
      if r.Refused? { DroppedSteady(s, id); } else { AnalysisStored(s, id, r); }
    } else if Carries(s.calls[id], s.generation) {
      DroppedSteady(s, id);
    } else {
      DroppedInv(s, id);
    }
  }

  lemma AnalysisStored(s: State, id: nat, r: Reply)
    requires Inv(s) && id in s.calls && s.calls[id].AnalysisFetch? && s.active == Some(s.calls[id].job)
    ensures var j := s.calls[id].job;
            Inv(Refreshed(Dropped(s, id).(analysis := if r.Empty? then None else Some(j), phase := Done), j))
  {
    var j := s.calls[id].job;
    DroppedSteady(s, id);
    assert NoSubmission(s);
    RefreshedSteady(Dropped(s, id).(analysis := if r.Empty? then None else Some(j), phase := Done), j);
  }

  lemma TimerFired(s: State, id: nat)
    requires Inv(s) && id in s.calls && s.calls[id].Timer?
    ensures Inv(Ticked(Dropped(s, id), s.calls[id].generation, s.calls[id].job))
  {
    assert Carries(s.calls[id], s.generation);
    DroppedSteady(s, id);
    LoopSpawned(Dropped(s, id), JobFetch(s.generation, s.calls[id].job));
  }

  lemma SubmissionAnswered(s: State, id: nat, r: Reply)
    requires Inv(s) && id in s.calls && s.calls[id].Submission?
    ensures Inv(AfterSubmission(Dropped(s, id), r))
  {
    DroppedSteady(s, id);
    if r.Accepted? {
      TrackingInv(Dropped(s, id).(active := Some(r.jobId), record := Some(r.jobId)), r.jobId);
    }
  }

  lemma SubmitInv(s: State, valid: bool)
    requires Inv(s) && NoSubmission(s)
    ensures Inv(Submitted(s, valid))
  {
    if valid {
      StoppedQuiet(s);
      var t := Submitted(s, valid);
      assert t.calls[Stopped(s).nextCall].Submission?;
    }
  }

  lemma LoadInv(s: State, j: string)
    requires Inv(s) && NoSubmission(s)
    ensures Inv(LoadedJob(s, j))
  {
    StoppedQuiet(s);
    TrackingInv(Stopped(s).(active := Some(j), phase := Polling, analysis := None,
                            record := Some(j), details := None), j);
  }

  lemma StepKeepsInv(s: State, e: Event)
    requires Inv(s) && Possible(s, e) && Allowed(s, e)
    ensures Inv(Next(s, e))
  {
    match e
    case Submit(valid) => SubmitInv(s, valid);
    case Load(j) => LoadInv(s, j);
    case Unmount => StoppedQuiet(s);
    case Resolve(id, r) =>
      match s.calls[id]
      case Submission => SubmissionAnswered(s, id, r);
      case JobFetch(_, _) => JobAnswered(s, id, r);
      case AnalysisFetch(_, _) => AnalysisAnswered(s, id, r);
      case Timer(_, _) => TimerFired(s, id);
      case DetailsFetch(_) => DroppedInv(s, id);
  }

  lemma {:induction false} PathKeepsInv(ss: seq<State>, es: seq<Event>, i: nat)
    requires Path(ss, es) && Inv(ss[0]) && i < |ss|
    ensures Inv(ss[i])
  {
    if i > 0 {
      PathKeepsInv(ss, es, i - 1);
      StepKeepsInv(ss[i - 1], es[i - 1]);
    }
  }

  // In every order of events and answers in which no second job is started while a
  // submission is in flight.
  lemma AlwaysTracked(ss: seq<State>, es: seq<Event>, i: nat)
    requires Run(ss, es) && i < |ss|
    ensures Inv(ss[i])
  {
    PathKeepsInv(ss, es, i);
  }

  // The page's own guards see to that.
  lemma {:induction false} PageIsTracked(ss: seq<State>, es: seq<Event>, i: nat)
    requires |ss| == |es| + 1 && ss[0] == START && i < |ss|
    requires forall k | 0 <= k < |es| ::
               Possible(ss[k], es[k]) && Guarded(ss[k], es[k]) && ss[k + 1] == Next(ss[k], es[k])
    ensures Run(ss[..i + 1], es[..i]) && Inv(ss[i])
  {
    if i > 0 {
      PageIsTracked(ss, es, i - 1);
      assert Allowed(ss[i - 1], es[i - 1]);
      StepKeepsInv(ss[i - 1], es[i - 1]);
      forall k | 0 <= k < i ensures Possible(ss[k], es[k]) && Allowed(ss[k], es[k]) {
        if k < i - 1 { assert ss[..i][k] == ss[k] && es[..i - 1][k] == es[k]; }
      }
    }
  }

  // ---- What each answer comes to ----

  // The one continuation of the current poll loop.
  ghost predicate OnlyLoop(t: State, c: Call) {
    && Carries(c, t.generation) && t.active == Some(c.job)
    && exists a :: a in t.calls && t.calls[a] == c && OnlyCarrier(t, a)
  }

  ghost predicate OnlyCarrier(t: State, a: nat) {
    forall b | b in t.calls && Carries(t.calls[b], t.generation) :: b == a
  }

  predicate SameResults(s: State, t: State) {
    t.active == s.active && t.generation == s.generation && t.analysis == s.analysis && t.details == s.details
  }

  lemma TheLoop(t: State, a: nat)
    requires Inv(t) && a in t.calls && Carries(t.calls[a], t.generation)
    ensures OnlyLoop(t, t.calls[a])
  {
  }

  // A current answer about the job: a job that is not finished goes on being polled, by one
  // timer; a finished one has its analysis fetched; and anything else ends the loop.
  lemma JobAnswerMeans(s: State, id: nat, r: Reply)
    requires Inv(s) && id in s.calls && s.calls[id].JobFetch? && Answers(s.calls[id], r)
    ensures
      var t, g, j := Next(s, Resolve(id, r)), s.calls[id].generation, s.calls[id].job;
      if !Current(s, g, j) then t == Dropped(s, id)
      else
        && SameResults(s, t)
        && (r.JobOther? ==>
              && t.phase == Polling && t.record == Some(j) && OnlyLoop(t, Timer(g, j))
              && t.pollTimeout.Some? && t.pollTimeout.value in t.calls
              && t.calls[t.pollTimeout.value] == Timer(g, j))
        && (r.JobCompleted? ==> t.phase == s.phase && t.record == Some(j) && OnlyLoop(t, AnalysisFetch(g, j)))
        && (r.JobFailed? ==> t.phase == Failed && t.record == Some(j) && Quiet(t))
        && (r.Threw? || r.Refused? ==> t.phase == Failed && t.record == s.record && Quiet(t))
  {
    var t, g, j := Next(s, Resolve(id, r)), s.calls[id].generation, s.calls[id].job;
    if Current(s, g, j) {
      StepKeepsInv(s, Resolve(id, r));
      DroppedSteady(s, id);
      if r.JobOther? || r.JobCompleted? {
        var a := t.nextCall - 1;
        assert a in t.calls && Carries(t.calls[a], t.generation);
        TheLoop(t, a);
      }
    }
  }

  lemma TimerMeans(s: State, id: nat)
    requires Inv(s) && id in s.calls && s.calls[id].Timer?
    ensures var t := Next(s, Resolve(id, Fired));
            && SameResults(s, t) && t.phase == s.phase && t.record == s.record
            && OnlyLoop(t, JobFetch(s.generation, s.calls[id].job))
  {
    StepKeepsInv(s, Resolve(id, Fired));
    assert Carries(s.calls[id], s.generation);
    var t := Next(s, Resolve(id, Fired));
    TheLoop(t, s.nextCall);
  }

  // The analysis is stored and shown if it is the active job's, whichever loop asked for it;
  // a failed request matters only to the current loop.
  lemma AnalysisAnswerMeans(s: State, id: nat, r: Reply)
    requires Inv(s) && id in s.calls && s.calls[id].AnalysisFetch? && Answers(s.calls[id], r)
    ensures
      var t, g, j := Next(s, Resolve(id, r)), s.calls[id].generation, s.calls[id].job;
      && t.active == s.active && t.generation == s.generation && t.details == s.details && t.record == s.record
      && (Current(s, g, j) ==> Quiet(t))
      && (if s.active == Some(j) && (r.Loaded? || r.Empty?) then
            t.phase == Done && t.analysis == (if r.Loaded? then Some(j) else None)
          else
            && t.analysis == s.analysis
            && t.phase == if (s.active == Some(j) && r.Refused?) || (Current(s, g, j) && r.Threw?) then Failed
                          else s.phase)
  {
    DroppedSteady(s, id);
  }

  lemma DetailsAnswerMeans(s: State, id: nat, r: Reply)
    requires id in s.calls && s.calls[id].DetailsFetch? && Answers(s.calls[id], r)
    ensures var t, j := Next(s, Resolve(id, r)), s.calls[id].job;
            t == if r.Loaded? && s.active == Some(j) then Dropped(s, id).(details := Some(j)) else Dropped(s, id)
  {
  }

  lemma SubmissionAnswerMeans(s: State, id: nat, r: Reply)
    requires Inv(s) && id in s.calls && s.calls[id].Submission? && Answers(s.calls[id], r)
    ensures
      var t := Next(s, Resolve(id, r));
      && NoSubmission(t) && t.analysis == s.analysis && t.details == s.details
      && (r.Accepted? ==>
            && t.phase == s.phase && t.active == Some(r.jobId) && t.record == Some(r.jobId)
            && t.generation > s.generation && OnlyLoop(t, JobFetch(t.generation, r.jobId)))
      && (!r.Accepted? ==> t.phase == Failed && t.active == None && t.record == s.record && Quiet(t))
  {
    var t := Next(s, Resolve(id, r));
    StepKeepsInv(s, Resolve(id, r));
    DroppedSteady(s, id);
    if r.Accepted? {
      TrackingAsks(Dropped(s, id).(active := Some(r.jobId), record := Some(r.jobId)), r.jobId);
      var a :| a in t.calls && t.calls[a] == JobFetch(t.generation, r.jobId);
      TheLoop(t, a);
    }
  }

  lemma SubmitMeans(s: State, valid: bool)
    requires Inv(s) && NoSubmission(s)
    ensures
      var t := Next(s, Submit(valid));
      if !valid then t == s.(phase := Failed)
      else
        && t.phase == Submitting && t.active == None && t.analysis == None && t.record == None && t.details == None
        && Quiet(t) && t.generation > s.generation
        && exists a :: a in t.calls && t.calls[a].Submission?
  {
    StepKeepsInv(s, Submit(valid));
    if valid {
      var t := Next(s, Submit(valid));
      assert t.calls[s.nextCall].Submission?;
    }
  }

  lemma LoadMeans(s: State, j: string)
    requires Inv(s) && NoSubmission(s)
    ensures
      var t := Next(s, Load(j));
      && t.phase == Polling && t.active == Some(j) && t.analysis == None && t.record == Some(j) && t.details == None
      && t.generation > s.generation && OnlyLoop(t, JobFetch(t.generation, j))
      && (j != "" ==> exists a :: a in t.calls && t.calls[a] == DetailsFetch(j))
  {
    var t := Next(s, Load(j));
    StepKeepsInv(s, Load(j));
    StoppedQuiet(s);
    TrackingAsks(Stopped(s).(active := Some(j), phase := Polling, analysis := None,
                             record := Some(j), details := None), j);
    var a :| a in t.calls && t.calls[a] == JobFetch(t.generation, j);
    TheLoop(t, a);
  }

  // ---- What the page says, over whole runs ----

  // The events after which the page says something new, and what.
  predicate Decides(s: State, e: Event, phase: Phase) {
    match e
    case Submit(valid) => phase == if valid then Submitting else Failed
    case Load(_) => phase == Polling
    case Unmount => false
    case Resolve(id, r) =>
      id in s.calls &&
      match s.calls[id]
      case Submission => !r.Accepted? && phase == Failed
      case JobFetch(g, j) =>
        Current(s, g, j) && ((r.JobOther? && phase == Polling) || (!r.JobOther? && !r.JobCompleted? && phase == Failed))
      case AnalysisFetch(g, j) =>
        || (s.active == Some(j) && (r.Loaded? || r.Empty?) && phase == Done)
        || (s.active == Some(j) && r.Refused? && phase == Failed)
        || (Current(s, g, j) && r.Threw? && phase == Failed)
      case DetailsFetch(_) => false
      case Timer(_, _) => false
  }

  lemma StepDecides(s: State, e: Event)
    requires Possible(s, e)
    ensures Decides(s, e, Next(s, e).phase)
            || (Next(s, e).phase == s.phase && forall p :: !Decides(s, e, p))
  {
    if e.Load? || (e.Resolve? && s.calls[e.id].Submission? && e.reply.Accepted?) { TrackingKeepsPhase(s, e); }
  }

  lemma TrackingKeepsPhase(s: State, e: Event)
    requires Possible(s, e) && (e.Load? || (e.Resolve? && s.calls[e.id].Submission? && e.reply.Accepted?))
    ensures Next(s, e).phase == if e.Load? then Polling else s.phase
  {
  }

  ghost predicate DecidedAt(ss: seq<State>, es: seq<Event>, k: nat, i: nat) {
    && k < i <= |es| < |ss| && Decides(ss[k], es[k], ss[i].phase)
    && forall m, p | k < m < i :: !Decides(ss[m], es[m], p)
  }

  // What the page says is what the last such event decided; so it says that something went
  // wrong only after an invalid submission or an answer that says so.
  lemma {:induction false} PhaseIsLastDecision(ss: seq<State>, es: seq<Event>, i: nat)
    requires Run(ss, es) && i < |ss|
    ensures (exists k :: DecidedAt(ss, es, k, i))
            || (ss[i].phase == Idle && forall m, p | 0 <= m < i :: !Decides(ss[m], es[m], p))
  {
    if i > 0 {
      var n := i - 1;
      PhaseIsLastDecision(ss, es, n);
      assert Possible(ss[n], es[n]) && ss[i] == Next(ss[n], es[n]);
      StepDecides(ss[n], es[n]);
      if Decides(ss[n], es[n], ss[i].phase) {
        assert DecidedAt(ss, es, n, i);
      } else if exists k :: DecidedAt(ss, es, k, n) {
        var k :| DecidedAt(ss, es, k, n);
        assert DecidedAt(ss, es, k, i);
      }
    }
  }

  // n answers that the job is not finished, each followed by the timer, then its end.
  predicate Story(es: seq<Event>, n: nat) {
    && |es| == 2 * n + 2 && es[0].Resolve? && es[1].Resolve?
    && if n == 0 then es[0].reply == JobCompleted && es[1].reply == Loaded
       else es[0].reply == JobOther && es[1].reply == Fired && Story(es[2..], n - 1)
  }

  predicate Again(es: seq<Event>) {
    |es| == 2 && es[0].Resolve? && es[0].reply == JobOther && es[1].Resolve? && es[1].reply == Fired
  }

  lemma StoryFurther(round: seq<Event>, rest: seq<Event>, n: nat)
    requires Again(round) && n > 0 && Story(rest, n - 1)
    ensures Story(round + rest, n)
  {
    assert (round + rest)[2..] == rest;
  }

  ghost predicate AsksAbout(s: State, id: nat, j: string) {
    && Inv(s) && id in s.calls && s.calls[id].JobFetch? && s.calls[id].job == j
    && Current(s, s.calls[id].generation, j)
  }

  // Where answers in this order lead, if they are possible.
  function After(s: State, es: seq<Event>): Option<State>
    decreases |es|
  {
    if es == [] then Some(s)
    else if !es[0].Resolve? || !Possible(s, es[0]) then None
    else After(Next(s, es[0]), es[1..])
  }

  lemma {:induction false} AfterThen(s: State, es: seq<Event>, t: State, more: seq<Event>)
    requires After(s, es) == Some(t)
    ensures After(s, es + more) == After(t, more)
    decreases |es|
  {
    if es == [] {
      assert es + more == more;
    } else {
      assert (es + more)[1..] == es[1..] + more;
      AfterThen(Next(s, es[0]), es[1..], t, more);
    }
  }

  lemma AfterTwo(s: State, e1: Event, e2: Event)
    requires e1.Resolve? && e2.Resolve? && Possible(s, e1) && Possible(Next(s, e1), e2)
    ensures After(s, [e1, e2]) == Some(Next(Next(s, e1), e2))
  {
    assert [e1, e2][1..] == [e2] && [e2][1..] == [];
    assert After(Next(s, e1), [e2]) == After(Next(Next(s, e1), e2), []);
  }

  // However often the job turns out not to be finished, as long as it is answered it ends with
  // its analysis on the page.
  lemma {:induction false} PollsUntilDone(s: State, id: nat, j: string, n: nat) returns (es: seq<Event>, t: State)
    requires AsksAbout(s, id, j)
    ensures Story(es, n) && After(s, es) == Some(t)
    ensures t.phase == Done && t.analysis == Some(j) && Quiet(t)
    decreases n
  {
    if n == 0 {
      es, t := Finishes(s, id, j);
    } else {
      var round, u, b := PollsAgain(s, id, j);
      var rest;
      rest, t := PollsUntilDone(u, b, j, n - 1);
      es := round + rest;
      AfterThen(s, round, u, rest);
      StoryFurther(round, rest, n);
    }
  }

  lemma Finishes(s: State, id: nat, j: string) returns (es: seq<Event>, t: State)
    requires AsksAbout(s, id, j)
    ensures Story(es, 0) && After(s, es) == Some(t)
    ensures t.phase == Done && t.analysis == Some(j) && Quiet(t)
  {
    var e1 := Resolve(id, JobCompleted);
    var u := Next(s, e1);
    JobAnswerMeans(s, id, JobCompleted);
    StepKeepsInv(s, e1);
    var a :| a in u.calls && u.calls[a] == AnalysisFetch(s.calls[id].generation, j);
    AnalysisAnswerMeans(u, a, Loaded);
    var e2 := Resolve(a, Loaded);
    es, t := [e1, e2], Next(u, e2);
    AfterTwo(s, e1, e2);
  }

  lemma PollsAgain(s: State, id: nat, j: string) returns (es: seq<Event>, u: State, b: nat)
    requires AsksAbout(s, id, j)
    ensures Again(es) && After(s, es) == Some(u) && AsksAbout(u, b, j)
  {
    var e1 := Resolve(id, JobOther);
    var t := Next(s, e1);
    JobAnswerMeans(s, id, JobOther);
    StepKeepsInv(s, e1);
    var a := t.pollTimeout.value;
    TimerMeans(t, a);
    var e2 := Resolve(a, Fired);
    StepKeepsInv(t, e2);
    es, u := [e1, e2], Next(t, e2);
    AfterTwo(s, e1, e2);
    b :| b in u.calls && u.calls[b] == JobFetch(s.calls[id].generation, j);
  }

  // ---- What the page shows when it is done ----

  predicate Shown(s: State) {
    s.phase.Done? ==> s.analysis.Some?
  }

  // The active job's analysis is answered with success and no data, which the hook does not
  // look at.
  predicate Hollow(s: State, e: Event) {
    && e.Resolve? && e.id in s.calls && s.calls[e.id].AnalysisFetch? && e.reply.Empty?
    && s.active == Some(s.calls[e.id].job)
  }

  lemma StepKeepsShown(s: State, e: Event)
    requires Possible(s, e) && Shown(s)
    ensures Shown(Next(s, e)) <==> !Hollow(s, e)
  {
  }

  // The page has a result whenever it is done if and only if no such answer ever came.
  lemma AlwaysShownIff(ss: seq<State>, es: seq<Event>)
    requires Run(ss, es)
    ensures (forall i | 0 <= i < |ss| :: Shown(ss[i])) <==> (forall i | 0 <= i < |es| :: !Hollow(ss[i], es[i]))
  {
    if forall i | 0 <= i < |ss| :: Shown(ss[i]) {
      forall i | 0 <= i < |es| ensures !Hollow(ss[i], es[i]) {
        assert Shown(ss[i]) && Shown(ss[i + 1]);
        StepKeepsShown(ss[i], es[i]);
      }
    }
    if forall i | 0 <= i < |es| :: !Hollow(ss[i], es[i]) {
      forall i | 0 <= i < |ss| ensures Shown(ss[i]) { ShownUpTo(ss, es, i); }
    }
  }

  lemma {:induction false} ShownUpTo(ss: seq<State>, es: seq<Event>, i: nat)
    requires Run(ss, es) && i < |ss| && forall k | 0 <= k < |es| :: !Hollow(ss[k], es[k])
    ensures Shown(ss[i])
  {
    if i > 0 {
      ShownUpTo(ss, es, i - 1);
      StepKeepsShown(ss[i - 1], es[i - 1]);
    }
  }

  // ---- What the guard is for ----

  // The rest of one job's life, ended by an old submission's answer.
  lemma Overtaken(s: State, a: nat, id: nat) returns (ss: seq<State>, es: seq<Event>)
    requires Ordered(s) && id in s.calls && s.calls[id].Submission?
    requires a in s.calls && s.calls[a].JobFetch? && Current(s, s.calls[a].generation, s.calls[a].job)
    ensures Answered(s, ss, es) && !Owned(ss[|es|])
  {
    var j := s.calls[a].job;
    var s1 := Next(s, Resolve(a, JobCompleted));
    var b := s1.nextCall - 1;
    assert s1.calls[b] == AnalysisFetch(s.generation, j) && s1.active == Some(j);
    assert id in s1.calls && s1.calls[id].Submission?;
    var s2 := Next(s1, Resolve(b, Loaded));
    assert id in s2.calls && s2.calls[id].Submission?;
    assert s2.analysis == Some(j);
    var x := if j == "a" then "b" else "a";
    var s3 := Next(s2, Resolve(id, Accepted(x)));
    assert s3.active == Some(x) && s3.analysis == Some(j);
    ss, es := [s, s1, s2, s3], [Resolve(a, JobCompleted), Resolve(b, Loaded), Resolve(id, Accepted(x))];
  }

  // Tracking another job while the submission `id` is in flight.
  lemma TrackingOvertaken(s: State, j: string, id: nat) returns (ss: seq<State>, es: seq<Event>)
    requires Ordered(s) && s.active == Some(j) && id in s.calls && s.calls[id].Submission?
    ensures Answered(Tracking(s, j), ss, es) && !Owned(ss[|es|])
  {
    TrackingAsks(s, j);
    var r := Refreshed(s, j);
    assert Ordered(r) && id in r.calls && r.calls[id].Submission?;
    StoppedQuiet(r);
    var t := Tracking(s, j);
    assert id in t.calls && t.calls[id].Submission?;
    var a :| a in t.calls && t.calls[a] == JobFetch(t.generation, j);
    ss, es := Overtaken(t, a, id);
  }

  lemma LoadOvertaken(s: State, j: string, id: nat) returns (ss: seq<State>, es: seq<Event>)
    requires Ordered(s) && id in s.calls && s.calls[id].Submission?
    ensures Answered(LoadedJob(s, j), ss, es) && !Owned(ss[|es|])
  {
    StoppedQuiet(s);
    ss, es := TrackingOvertaken(Stopped(s).(active := Some(j), phase := Polling, analysis := None,
                                            record := Some(j), details := None), j, id);
  }

  lemma SubmitOvertaken(s: State, id: nat) returns (ss: seq<State>, es: seq<Event>)
    requires Ordered(s) && id in s.calls && s.calls[id].Submission?
    ensures Answered(Submitted(s, true), ss, es) && !Owned(ss[|es|])
  {
    StoppedQuiet(s);
    var t := Submitted(s, true);
    var n := s.nextCall;
    assert t.calls[n].Submission? && id != n && Ordered(t);
    var u := Dropped(t, n).(active := Some("a"), record := Some("a"));
    var ss', es' := TrackingOvertaken(u, "a", id);
    assert Next(t, Resolve(n, Accepted("a"))) == Tracking(u, "a");
    ss, es := [t] + ss', [Resolve(n, Accepted("a"))] + es';
    forall i | 0 <= i < |es|
      ensures Possible(ss[i], es[i]) && Allowed(ss[i], es[i]) && ss[i + 1] == Next(ss[i], es[i])
    {
      if i > 0 { assert Possible(ss'[i - 1], es'[i - 1]); }
    }
  }

  // Starting a job leaves stored results with the job they belong to, whatever is answered
  // in whatever order afterwards, if and only if no submission is in flight.
  lemma GuardIff(s: State, e: Event)
    requires Inv(s) && (e.Load? || e == Submit(true))
    ensures (forall ss, es | Answered(Next(s, e), ss, es) :: Owned(ss[|es|])) <==> NoSubmission(s)
  {
    if NoSubmission(s) {
      StepKeepsInv(s, e);
      forall ss, es | Answered(Next(s, e), ss, es) ensures Owned(ss[|es|]) { PathKeepsInv(ss, es, |es|); }
    } else {
      var id :| id in s.calls && s.calls[id].Submission?;
      var ss, es;
      if e.Load? { ss, es := LoadOvertaken(s, e.jobId, id); } else { ss, es := SubmitOvertaken(s, id); }
      assert Answered(Next(s, e), ss, es);
    }
  }

  // Such a run from the start: a load slips in while a submission is in flight; the
  // submission's answer then takes over the active job and leaves the other job's analysis.
  lemma GuardNeeded() returns (ss: seq<State>, es: seq<Event>)
    ensures |es| == 5 && |ss| == 6 && ss[0] == START
    ensures forall i | 0 <= i < |es| :: Possible(ss[i], es[i]) && ss[i + 1] == Next(ss[i], es[i])
    ensures es[1].Load? && forall i | 0 <= i < 5 :: Guarded(ss[i], es[i]) <==> i != 1
    ensures !Owned(ss[|es|])
  {
    var s1 := Next(START, Submit(true));
    var s2 := Next(s1, Load("a"));
    assert s2.calls[2] == JobFetch(3, "a") && s2.active == Some("a") && s2.generation == 3;
    var s3 := Next(s2, Resolve(2, JobCompleted));
    assert s3.calls[4] == AnalysisFetch(3, "a");
    var s4 := Next(s3, Resolve(4, Loaded));
    assert s4.calls[0].Submission? && s4.analysis == Some("a");
    var s5 := Next(s4, Resolve(0, Accepted("b")));
    assert s5.active == Some("b") && s5.analysis == Some("a");
    ss := [START, s1, s2, s3, s4, s5];
    es := [Submit(true), Load("a"), Resolve(2, JobCompleted), Resolve(4, Loaded), Resolve(0, Accepted("b"))];
  }

  // ---- After the page is gone ----

  lemma AnswerKeepsQuiet(s: State, e: Event)
    requires e.Resolve? && Possible(s, e) && Quiet(s) && NoSubmission(s)
    ensures Quiet(Next(s, e)) && NoSubmission(Next(s, e))
  {
  }

  lemma {:induction false} AnswersKeepQuiet(s: State, ss: seq<State>, es: seq<Event>, i: nat)
    requires Answered(s, ss, es) && i < |ss| && Quiet(s) && NoSubmission(s)
    ensures Quiet(ss[i]) && NoSubmission(ss[i])
  {
    if i > 0 {
      AnswersKeepQuiet(s, ss, es, i - 1);
      AnswerKeepsQuiet(ss[i - 1], es[i - 1]);
    }
  }

  // Unmounting ends the poll loop; another one can run afterwards if and only if a
  // submission is in flight, whose acceptance starts it.
  lemma PollsAfterUnmountIff(s: State)
    requires Inv(s)
    ensures Quiet(Next(s, Unmount))
    ensures (exists ss, es :: Answered(Next(s, Unmount), ss, es) && !Quiet(ss[|es|])) <==> !NoSubmission(s)
  {
    var t := Next(s, Unmount);
    StoppedQuiet(s);
    if NoSubmission(s) {
      forall ss, es | Answered(t, ss, es) ensures Quiet(ss[|es|]) { AnswersKeepQuiet(t, ss, es, |es|); }
    } else {
      var id :| id in s.calls && s.calls[id].Submission?;
      assert t.calls[id].Submission?;
      var u := Dropped(t, id).(active := Some("a"), record := Some("a"));
      TrackingAsks(u, "a");
      var v := Next(t, Resolve(id, Accepted("a")));
      assert v == Tracking(u, "a");
      assert Answered(t, [t, v], [Resolve(id, Accepted("a"))]) && !Quiet([t, v][1]);
    }
  }

  // ---- The hook ----

  // The refs and state of useAnalysisJob, and the browser's table of suspended continuations.
  // A method that awaits ends at its await; the continuation is a method of its own.
  class AnalysisJob {
    var phase: Phase
    var activeJobId: Option<string>
    var pollGeneration: nat
    var pollTimeout: Option<nat>
    var analysis: Option<string>
    var job: Option<string>
    var jobDetails: Option<string>
    var calls: map<nat, Call>
    var nextCall: nat
    var mounted: bool

    constructor ()
      ensures Now() == START
    {
      phase, activeJobId, pollGeneration, pollTimeout := Idle, None, 0, None;
      analysis, job, jobDetails := None, None, None;
      calls, nextCall, mounted := map[], 0, true;
    }

    function Now(): State
      reads this
    {
      State(phase, activeJobId, pollGeneration, pollTimeout, analysis, job, jobDetails,
            calls, nextCall, mounted)
    }

    method Suspend(c: Call) returns (id: nat)
      modifies `calls, `nextCall
      ensures id == old(nextCall) && Now() == Spawned(old(Now()), c)
    {
      id := nextCall;
      calls := calls[id := c];
      nextCall := nextCall + 1;
    }

    method StopPolling()
      modifies `pollGeneration, `pollTimeout, `calls
      ensures Now() == Stopped(old(Now()))
    {
      pollGeneration := pollGeneration + 1;
      if pollTimeout.Some? { calls := calls - {pollTimeout.value}; }
      pollTimeout := None;
    }

    method RefreshJobDetails(jobId: string)
      modifies `calls, `nextCall
      ensures Now() == Refreshed(old(Now()), jobId)
    {
      if jobId == "" { return; }
      var _ := Suspend(DetailsFetch(jobId));
    }

    method DetailsArrived(jobId: string, reply: Reply)
      modifies `jobDetails
      ensures Now() == AfterDetails(old(Now()), jobId, reply)
    {
      if activeJobId != Some(jobId) { return; }
      if reply.Loaded? { jobDetails := Some(jobId); }
    }

    method IsCurrent(generation: nat, jobId: string) returns (current: bool)
      ensures current == Current(Now(), generation, jobId)
    {
      return generation == pollGeneration && activeJobId == Some(jobId);
    }

    method Tick(generation: nat, jobId: string)
      modifies `calls, `nextCall
      ensures Now() == Ticked(old(Now()), generation, jobId)
    {
      var current := IsCurrent(generation, jobId);
      if !current { return; }
      var _ := Suspend(JobFetch(generation, jobId));
    }

    method PollJob(jobId: string)
      modifies `pollGeneration, `pollTimeout, `calls, `nextCall
      ensures Now() == Polled(old(Now()), jobId)
    {
      StopPolling();
      Tick(pollGeneration, jobId);
    }

    method JobArrived(generation: nat, jobId: string, reply: Reply)
      modifies `phase, `job, `pollTimeout, `calls, `nextCall
      ensures Now() == AfterJob(old(Now()), generation, jobId, reply)
    {
      var current := IsCurrent(generation, jobId);
      if !current { return; }
      if reply.Threw? || reply.Refused? {
        phase := Failed;
        return;
      }
      job := Some(jobId);
      RefreshJobDetails(jobId);
      if reply.JobCompleted? {
        var _ := Suspend(AnalysisFetch(generation, jobId));
        return;
      }
      if reply.JobFailed? {
        phase := Failed;
        return;
      }
      phase := Polling;
      var id := Suspend(Timer(generation, jobId));
      pollTimeout := Some(id);
    }

    method AnalysisArrived(generation: nat, jobId: string, reply: Reply)
      modifies `phase, `analysis, `calls, `nextCall
      ensures Now() == AfterAnalysis(old(Now()), generation, jobId, reply)
    {
      if reply.Threw? {
        var current := IsCurrent(generation, jobId);
        if current { phase := Failed; }
        return;
      }
      if activeJobId != Some(jobId) { return; }
      if reply.Refused? {
        phase := Failed;
        return;
      }
      analysis := if reply.Empty? then None else Some(jobId);
      phase := Done;
      RefreshJobDetails(jobId);
    }

    method SubmissionAnswered(reply: Reply)
      modifies `phase, `activeJobId, `job, `pollGeneration, `pollTimeout, `calls, `nextCall
      ensures Now() == AfterSubmission(old(Now()), reply)
    {
      if !reply.Accepted? {
        phase := Failed;
        return;
      }
      activeJobId := Some(reply.jobId);
      job := Some(reply.jobId);
      RefreshJobDetails(reply.jobId);
      PollJob(reply.jobId);
    }

    method Submit(valid: bool)
      modifies this
      ensures Now() == Submitted(old(Now()), valid)
    {
      if !valid {
        phase := Failed;
        return;
      }
      StopPolling();
      activeJobId := None;
      phase := Submitting;
      analysis, job, jobDetails := None, None, None;
      var _ := Suspend(Submission);
    }

    method Load(jobId: string)
      modifies this
      ensures Now() == LoadedJob(old(Now()), jobId)
    {
      StopPolling();
      activeJobId := Some(jobId);
      phase := Polling;
      analysis, job, jobDetails := None, Some(jobId), None;
      RefreshJobDetails(jobId);
      PollJob(jobId);
    }

    // One event of the page or the browser, run to its next await.
    method Handle(e: Event)
      requires Possible(Now(), e)
      modifies this
      ensures Now() == Next(old(Now()), e)
      ensures old(Inv(Now()) && Allowed(Now(), e)) ==> Inv(Now())
    {
      if Inv(Now()) && Allowed(Now(), e) { StepKeepsInv(Now(), e); }
      match e {
        case Submit(valid) => Submit(valid);
        case Load(jobId) => Load(jobId);
        case Unmount =>
          StopPolling();
          mounted := false;
        case Resolve(id, reply) =>
          var c := calls[id];
          calls := calls - {id};
          match c {
            case Submission => SubmissionAnswered(reply);
            case JobFetch(g, j) => JobArrived(g, j, reply);
            case AnalysisFetch(g, j) => AnalysisArrived(g, j, reply);
            case DetailsFetch(j) => DetailsArrived(j, reply);
            case Timer(g, j) => Tick(g, j);
          }
      }
    }
  }
}
