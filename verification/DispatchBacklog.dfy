// How far the backlog can pass its limit, although the check and the XADD are separate
// commands and retries are not checked at all.
module DispatchBacklog {
  import opened Common
  import opened RedisStreams
  import opened Dispatch
  import opened DispatchSafety
  import opened DispatchDuplicates

  // Submissions that passed the check and have not added their entry.
  function Passed(s: Sys): set<string> {
    set j | j in s.subs && s.subs[j].Adding?
  }

  function InWindowNow(s: Sys): set<nat> {
    set w | 0 <= w < |s.workers| && InWindow(s.workers[w].pc)
  }

  ghost predicate Limited(c: Config, s: Sys) {
    && |s.subs| <= s.hist.maxSubmitting
    && Load(s.redis) + |Passed(s)| <= c.maxBacklog - 1 + s.hist.maxSubmitting
         + |InWindowNow(s)| + |s.hist.windowFaults| + s.hist.unchecked
  }

  lemma WindowChange(s: Sys, w: nat, next: Worker, t: Sys)
    requires w < |s.workers| && t.workers == s.workers[w := next]
    ensures |InWindowNow(t)| == |InWindowNow(s)| - One(InWindow(s.workers[w].pc)) + One(InWindow(next.pc))
  {
    OneToggled(InWindowNow(s), InWindowNow(t), w);
  }

  lemma WorkKeepsLimit(c: Config, s: Sys, w: nat, a: Action, mv: Move, t: Sys)
    requires Partitioned(s.redis) && OneEach(c, s) && Limited(c, s)
    requires w < |s.workers| && Shape(s, w, mv) && WindowShape(s, w, a, mv)
    requires Effect(s, w, a, mv, t) && t.hist.maxSubmitting >= s.hist.maxSubmitting
    ensures Limited(c, t)
  {
    assert Matches(s.redis, w, s.workers[w].pc);
    LoadAfter(s.redis, mv.cmd);
    WindowChange(s, w, mv.next, t);
    assert Passed(t) == Passed(s);
  }

  function PassedAfter(c: Config, s: Sys, l: Label): set<string>
    requires Enabled(s, l) && !l.Work?
  {
    match l
    case SubCheck(j, answered) =>
      if answered && Load(s.redis) >= c.maxBacklog then Passed(s) else Passed(s) + {j}
    case SubAdd(j, _) => Passed(s) - {j}
    case SubCrash(j) => Passed(s) - {j}
    case _ => Passed(s)
  }

  lemma PassedChange(c: Config, s: Sys, l: Label, subs: map<string, SubPc>)
    requires Enabled(s, l) && !l.Work? && subs == Core(c, s, l).subs
    ensures (set j | j in subs && subs[j].Adding?) == PassedAfter(c, s, l)
  {
  }

  lemma SubmissionKeepsLimit(c: Config, s: Sys, l: Label, cmd: Cmd, t: Sys)
    requires Partitioned(s.redis) && Limited(c, s) && c.maxBacklog > 0
    requires Enabled(s, l) && !l.Work? && cmd == SubmissionCmd(s, l)
    requires t.redis == Exec(s.redis, cmd) && t.workers == s.workers
    requires Passed(t) == PassedAfter(c, s, l)
    requires t.hist.windowFaults == s.hist.windowFaults
    requires t.hist.unchecked == s.hist.unchecked + One(l.SubCheck? && !l.answered)
    requires |t.subs| <= t.hist.maxSubmitting && s.hist.maxSubmitting <= t.hist.maxSubmitting
    ensures Limited(c, t)
  {
    LoadAfter(s.redis, cmd);
    assert InWindowNow(t) == InWindowNow(s);
    SubsetSize(Passed(t), t.subs.Keys);
  }

  lemma StepKeepsLimit(c: Config, s: Sys, l: Label, t: Sys)
    requires Inv(c, s) && Limited(c, s) && c.maxBacklog > 0 && Step(c, s, l, t)
    ensures Limited(c, t)
  {
    if l.Work? {
      var mv := WindowMove(c, s, l.w, l.a, t);
      SubmittingGrows(c, s, l, t);
      WorkKeepsLimit(c, s, l.w, l.a, mv, t);
    } else {
      SubmittingKeepsLimit(c, s, l, t);
    }
  }

  lemma SubmittingKeepsLimit(c: Config, s: Sys, l: Label, t: Sys)
    requires Inv(c, s) && Limited(c, s) && c.maxBacklog > 0 && Step(c, s, l, t) && !l.Work?
    ensures Limited(c, t)
  {
    PassedChange(c, s, l, t.subs);
    SubmittingGrows(c, s, l, t);
    SubmissionEffect(c, s, l, t);
    SubmissionKeepsLimit(c, s, l, SubmissionCmd(s, l), t);
  }

  lemma SubmissionEffect(c: Config, s: Sys, l: Label, t: Sys)
    requires Step(c, s, l, t) && !l.Work?
    ensures t.redis == Exec(s.redis, SubmissionCmd(s, l)) && t.workers == s.workers
    ensures t.hist.windowFaults == s.hist.windowFaults
    ensures t.hist.unchecked == s.hist.unchecked + One(l.SubCheck? && !l.answered)
  {
    SubmissionExecutes(c, s, l, t);
  }

  lemma SubmittingGrows(c: Config, s: Sys, l: Label, t: Sys)
    requires Step(c, s, l, t)
    ensures |t.subs| <= t.hist.maxSubmitting && s.hist.maxSubmitting <= t.hist.maxSubmitting
  {
  }

  lemma InitLimited(c: Config, s: Sys)
    requires Init(c, s) && c.maxBacklog > 0
    ensures Limited(c, s)
  {
    assert Passed(s) == {} && InWindowNow(s) == {};
  }

  lemma AlwaysLimited(c: Config, ss: seq<Sys>, ls: seq<Label>, i: nat)
    requires Execution(c, ss, ls) && i < |ss| && c.maxBacklog > 0
    ensures Limited(c, ss[i])
  {
    forall s | Init(c, s) ensures Limited(c, s) { InitLimited(c, s); }
    forall s, l, t | Inv(c, s) && Limited(c, s) && Step(c, s, l, t) ensures Limited(c, t) {
      StepKeepsLimit(c, s, l, t);
    }
    Always(c, ss, ls, i, s => Limited(c, s));
  }

  // With at most `submitters` submissions at a time, every XINFO answered and no fault in
  // the retry window, pending + lag stays within B - 1 + P + W.
  lemma BacklogBound(c: Config, ss: seq<Sys>, ls: seq<Label>, i: nat, submitters: nat)
    requires Execution(c, ss, ls) && i < |ss| && c.maxBacklog > 0
    requires ss[i].hist.maxSubmitting <= submitters
    requires ss[i].hist.unchecked == 0 && ss[i].hist.windowFaults == multiset{}
    ensures Load(ss[i].redis) <= c.maxBacklog - 1 + submitters + c.workerCount
  {
    AlwaysLimited(c, ss, ls, i);
    AlwaysSafe(c, ss, ls, i);
    BoundedSize(InWindowNow(ss[i]), c.workerCount);
  }
}
