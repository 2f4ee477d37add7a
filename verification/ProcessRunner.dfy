// The parent side of the process runner, against an operating system that may answer every
// call in every way it is allowed to.
module ProcessRunner {
  type byte = x: int | 0 <= x < 256

  datatype Errno = EINTR | EAGAIN | OtherErrno   // ECHILD is one of the others

  datatype Status = Exited(code: int) | Signalled(signal: int) | OtherStatus

  datatype PollAnswer = Ready | Quiet | PollError(errno: Errno)
  datatype ReadAnswer = Bytes(chunk: seq<byte>) | EndOfFile | ReadError(errno: Errno)
  datatype PipeAnswer = Polled(poll: PollAnswer) | Got(read: ReadAnswer)
  datatype WaitAnswer = NotYet | Ended(status: Status) | WaitError(errno: Errno)

  // Missing: waitpid reported that there is no such child to wait for.
  datatype Child = NotForked | Running | Reaped(status: Status) | Missing

  const BUFFER: nat := 4096
  const NS_PER_MS: int := 1000000

  // What memory is needed for: finding the program and preparing its arguments, the error
  // texts, the output, and the text of the catch handler.
  datatype Purpose = SetUp | PipeText | ForkText | Append | WaitText | HandlerText

  // What the parent has asked for.
  datatype Request = APipe | AChild

  // An answer fixed in advance, for runs that are to be exhibited.
  datatype Reply =
    | AllocReply(ok: bool) | PipeReply(r: int, w: int) | ForkReply(ok: bool) | ClockReply(now: int)
    | PollReply(poll: PollAnswer) | ReadReply(read: ReadAnswer) | WaitReply(wait: WaitAnswer)

  // The calls the runner makes and what they leave behind.  Preconditions are the promises
  // the runner must keep: only open descriptors are closed or read, and a child that has
  // been reaped is neither signalled nor waited for.  A call takes its answer from `planned`
  // if that starts with one for it, and otherwise answers as it likes.
  class Kernel {
    var open: set<int>
    var readEnd: int              // of the pipe, or -1 before there is one
    var writeEnd: int
    var asked: set<Request>
    var answers: seq<PipeAnswer>  // what poll and read said, in order
    var child: Child
    var signals: nat
    var strays: nat               // signals sent after the child was reported missing
    var received: seq<byte>
    var lastRead: nat             // how many of them came with the last read
    var readings: seq<int>        // steady_clock, in nanoseconds
    var interruptions: nat        // how often a blocking waitpid will still be interrupted
    var failed: set<Purpose>      // allocations that threw
    var planned: seq<Reply>

    // Before a run.
    ghost predicate Clean()
      reads this
    {
      && child == NotForked && signals == 0 && strays == 0 && received == [] && readings == [] && failed == {}
      && asked == {} && answers == []
    }

    constructor (planned: seq<Reply>, interruptions: nat)
      ensures Clean() && open == {} && this.planned == planned
    {
      open, child, signals, strays, received, lastRead := {}, NotForked, 0, 0, [], 0;
      readings, this.interruptions, failed, this.planned := [], interruptions, {}, planned;
      readEnd, writeEnd, asked, answers := -1, -1, {}, [];
    }

    method Allocate(p: Purpose) returns (ok: bool)
      modifies `failed, `planned
      ensures failed == old(failed) + if ok then {} else {p}
      ensures old(planned) != [] && old(planned)[0].AllocReply? ==>
                ok == old(planned)[0].ok && planned == old(planned)[1..]
    {
      ok := *;
      if planned != [] && planned[0].AllocReply? { ok, planned := planned[0].ok, planned[1..]; }
      if !ok { failed := failed + {p}; }
    }

    method Pipe() returns (r: int, w: int, ok: bool)
      modifies `open, `readEnd, `writeEnd, `asked, `planned
      ensures asked == old(asked) + {APipe} && (ok ==> readEnd == r && writeEnd == w)
      ensures ok ==> r >= 0 && w >= 0 && r != w && r !in old(open) && w !in old(open)
      ensures open == if ok then old(open) + {r, w} else old(open)
      ensures old(planned) != [] && old(planned)[0] == PipeReply(3, 4) ==>
                (3 !in old(open) && 4 !in old(open) ==> ok) && planned == old(planned)[1..]
    {
      r, w := *, *;
      if planned != [] && planned[0].PipeReply? { r, w, planned := planned[0].r, planned[0].w, planned[1..]; }
      ok := r >= 0 && w >= 0 && r != w && r !in open && w !in open;
      if ok { open, readEnd, writeEnd := open + {r, w}, r, w; }
      asked := asked + {APipe};
    }

    method Close(fd: int)
      requires fd in open
      modifies `open
      ensures open == old(open) - {fd}
    {
      open := open - {fd};
    }

    method Fork() returns (ok: bool)
      requires child == NotForked
      modifies `child, `asked, `planned
      ensures asked == old(asked) + {AChild}
      ensures child == if ok then Running else NotForked
      ensures old(planned) != [] && old(planned)[0].ForkReply? ==>
                ok == old(planned)[0].ok && planned == old(planned)[1..]
    {
      ok := *;
      if planned != [] && planned[0].ForkReply? { ok, planned := planned[0].ok, planned[1..]; }
      if ok { child := Running; }
      asked := asked + {AChild};
    }

    // Time passes between any two readings.
    method Clock() returns (now: int)
      modifies `readings, `planned
      ensures readings == old(readings) + [now]
      ensures old(readings) != [] ==> now > old(readings)[|old(readings)| - 1]
      ensures old(planned) != [] && old(planned)[0].ClockReply? ==>
                && planned == old(planned)[1..]
                && (old(readings) == [] || old(planned)[0].now > old(readings)[|old(readings)| - 1] ==>
                      now == old(planned)[0].now)
    {
      now := *;
      if planned != [] && planned[0].ClockReply? { now, planned := planned[0].now, planned[1..]; }
      if readings != [] && now <= readings[|readings| - 1] { now := readings[|readings| - 1] + 1; }
      readings := readings + [now];
    }

    // As long as the parent has the write end open there is no end of file.
    ghost predicate Readable(fd: int)
      reads this
    {
      fd in open && fd == readEnd && writeEnd !in open
    }

    method Poll(fd: int, timeoutMs: int) returns (answer: PollAnswer)
      requires Readable(fd) && 1 <= timeoutMs <= 1000
      modifies `answers, `planned
      ensures answers == old(answers) + [Polled(answer)]
      ensures old(planned) != [] && old(planned)[0].PollReply? ==>
                answer == old(planned)[0].poll && planned == old(planned)[1..]
    {
      answer := *;
      if planned != [] && planned[0].PollReply? { answer, planned := planned[0].poll, planned[1..]; }
      answers := answers + [Polled(answer)];
    }

    method Read(fd: int) returns (answer: ReadAnswer)
      requires Readable(fd)
      modifies `received, `lastRead, `answers, `planned
      ensures answers == old(answers) + [Got(answer)]
      ensures answer.Bytes? ==> 1 <= |answer.chunk| <= BUFFER && lastRead == |answer.chunk|
      ensures !answer.Bytes? ==> lastRead == old(lastRead)
      ensures received == old(received) + if answer.Bytes? then answer.chunk else []
      ensures old(planned) != [] && old(planned)[0].ReadReply? ==>
                && planned == old(planned)[1..]
                && (Fits(old(planned)[0].read) ==> answer == old(planned)[0].read)
    {
      answer := *;
      if planned != [] && planned[0].ReadReply? { answer, planned := planned[0].read, planned[1..]; }
      if !Fits(answer) { answer := EndOfFile; }
      if answer.Bytes? { received, lastRead := received + answer.chunk, |answer.chunk|; }
      answers := answers + [Got(answer)];
    }

    method Kill()
      requires child.Running? || child.Missing?
      modifies `signals, `strays
      ensures signals == old(signals) + 1
      ensures strays == old(strays) + if child.Missing? then 1 else 0
    {
      signals := signals + 1;
      if child.Missing? { strays := strays + 1; }
    }

    method WaitPid(block: bool) returns (answer: WaitAnswer)
      requires child.Running? || child.Missing?
      modifies `child, `interruptions, `planned
      ensures block ==> !answer.NotYet?
      ensures old(child).Missing? ==> answer.WaitError?
      ensures child == if answer.Ended? then Reaped(answer.status)
                       else if answer.WaitError? && answer.errno != EINTR then Missing
                       else old(child)
      ensures interruptions <= old(interruptions)
      ensures block && answer == WaitError(EINTR) ==> interruptions < old(interruptions)
      ensures old(planned) != [] && old(planned)[0] == WaitReply(WaitError(OtherErrno)) ==>
                answer == WaitError(OtherErrno) && planned == old(planned)[1..]
    {
      answer := *;
      if planned != [] && planned[0].WaitReply? { answer, planned := planned[0].wait, planned[1..]; }
      if child.Missing? && !answer.WaitError? { answer := WaitError(OtherErrno); }
      if block && (answer.NotYet? || (answer == WaitError(EINTR) && interruptions == 0)) {
        answer := WaitError(OtherErrno);
      }
      if block && answer == WaitError(EINTR) { interruptions := interruptions - 1; }
      if answer.Ended? { child := Reaped(answer.status); }
      else if answer.WaitError? && answer.errno != EINTR { child := Missing; }
    }
  }

  predicate Fits(answer: ReadAnswer) {
    answer.Bytes? ==> 1 <= |answer.chunk| <= BUFFER
  }

  // After such an answer there is nothing more to be read.
  predicate Final(answer: PipeAnswer) {
    match answer
    case Polled(poll) => poll.PollError? && poll.errno != EINTR
    case Got(read) => read.EndOfFile? || (read.ReadError? && read.errno == OtherErrno)
  }

  // Reading goes on until the first final answer, and whenever poll reports data, and only
  // then, there is a read.
  ghost predicate Listened(answers: seq<PipeAnswer>) {
    && (forall i | 0 <= i < |answers| - 1 :: !Final(answers[i]))
    && (forall i | 0 <= i < |answers| :: Prompted(answers, i))
    && (answers != [] ==> answers[|answers| - 1] != Polled(Ready))
  }

  predicate Prompted(answers: seq<PipeAnswer>, i: nat)
    requires i < |answers|
  {
    answers[i].Got? <==> i > 0 && answers[i - 1] == Polled(Ready)
  }

  predicate ReadToEnd(answers: seq<PipeAnswer>) {
    answers != [] && Final(answers[|answers| - 1])
  }

  datatype RunError = NoError | EmptyArgv | NotFound | PipeFailed | ForkFailed | WaitFailed | RunnerError

  datatype ProcessResult = ProcessResult(
    started: bool, timedOut: bool, outputTruncated: bool,
    exitCode: int, termSignal: int, output: seq<byte>, error: RunError)

  const BLANK := ProcessResult(false, false, false, -1, 0, [], NoError)

  predicate Succeeded(r: ProcessResult) {
    r.started && !r.timedOut && r.termSignal == 0 && r.exitCode == 0
  }

  // duration_cast<milliseconds> drops the fraction.
  function Remaining(deadline: int, now: int): int {
    if deadline >= now then (deadline - now) / NS_PER_MS else -((now - deadline) / NS_PER_MS)
  }

  // No reading after the first, which sets the deadline, showed the time to be up.
  ghost predicate Timely(readings: seq<int>, timeout: nat) {
    forall i | 1 <= i < |readings| :: Remaining(readings[0] + timeout * NS_PER_MS, readings[i]) > 0
  }

  ghost predicate LastLate(readings: seq<int>, timeout: nat) {
    |readings| > 1 && Remaining(readings[0] + timeout * NS_PER_MS, readings[|readings| - 1]) <= 0
  }

  function First(s: seq<byte>, cap: nat): seq<byte> {
    if |s| <= cap then s else s[..cap]
  }

  // The output is the capped beginning of the first k bytes read, flagged iff that cut it.
  predicate Kept(r: ProcessResult, received: seq<byte>, k: nat, cap: nat) {
    k <= |received| && r.output == First(received[..k], cap) && r.outputTruncated == (k > cap)
  }

  function WithStatus(r: ProcessResult, status: Status): ProcessResult {
    match status
    case Exited(code) => r.(exitCode := code)
    case Signalled(signal) => r.(termSignal := signal)
    case OtherStatus => r
  }

  // The result says about the child what became of it.
  predicate Reports(r: ProcessResult, child: Child) {
    match child
    case Reaped(Exited(code)) => r.exitCode == code && r.termSignal == 0
    case Reaped(Signalled(signal)) => r.exitCode == -1 && r.termSignal == signal
    case _ => r.exitCode == -1 && r.termSignal == 0
  }

  method CloseQuietly(os: Kernel, fd: int) returns (closed: int)
    requires fd >= 0 ==> fd in os.open
    modifies os`open
    ensures closed < 0 && os.open == if fd >= 0 then old(os.open) - {fd} else old(os.open)
  {
    if fd >= 0 {
      os.Close(fd);
      return -1;
    }
    return fd;
  }

  method KillAndReap(os: Kernel, before: ProcessResult) returns (result: ProcessResult)
    requires os.child.Running? || os.child.Missing?
    requires before.exitCode == -1 && before.termSignal == 0
    modifies os`signals, os`strays, os`child, os`interruptions, os`planned
    ensures os.child.Reaped? || os.child.Missing?
    ensures os.signals == old(os.signals) + 2
    ensures os.strays == old(os.strays) + if old(os.child).Missing? then 2 else 0
    ensures old(os.child).Missing? ==> os.child.Missing?
    ensures result == before.(exitCode := result.exitCode, termSignal := result.termSignal)
    ensures Reports(result, os.child)
  {
    result := before;
    os.Kill();
    os.Kill();
    var answer := os.WaitPid(true);
    while answer == WaitError(EINTR)
      invariant !answer.NotYet? && os.signals == old(os.signals) + 2
      invariant os.strays == old(os.strays) + if old(os.child).Missing? then 2 else 0
      invariant os.child == if answer.Ended? then Reaped(answer.status)
                            else if answer == WaitError(EINTR) then old(os.child) else Missing
      invariant old(os.child).Missing? ==> answer.WaitError?
      decreases os.interruptions, answer == WaitError(EINTR)
    {
      answer := os.WaitPid(true);
    }
    if answer.Ended? { result := WithStatus(result, answer.status); }
  }

  // result.output.append of what still fits.
  function Appended(r: ProcessResult, chunk: seq<byte>, cap: nat): ProcessResult {
    var room := if cap > |r.output| then cap - |r.output| else 0;
    var keep := if room < |chunk| then room else |chunk|;
    var grown := r.(output := r.output + chunk[..keep]);
    if keep < |chunk| then grown.(outputTruncated := true) else grown
  }

  lemma AppendedKept(r: ProcessResult, received: seq<byte>, chunk: seq<byte>, cap: nat)
    requires Kept(r, received, |received|, cap)
    ensures Kept(Appended(r, chunk, cap), received + chunk, |received + chunk|, cap)
  {
    var all := received + chunk;
    assert all[..|all|] == all && received[..|received|] == received;
    if |received| < cap {
      assert |all| > cap ==> all[..cap] == received + chunk[..cap - |received|];
    } else {
      assert all[..cap] == received[..cap];
      assert chunk[..0] == [];
    }
  }

  // The output, exactly: everything the cap leaves of what was read, unless the append of
  // the last chunk threw; then that chunk is missing, and it would have been kept.
  ghost predicate Captured(r: ProcessResult, os: Kernel, cap: nat)
    reads os
  {
    if Append in os.failed then
      && 0 < os.lastRead <= |os.received| && |os.received| - os.lastRead < cap
      && Kept(r, os.received, |os.received| - os.lastRead, cap)
    else Kept(r, os.received, |os.received|, cap)
  }

  lemma CapturedIff(r: ProcessResult, os: Kernel, cap: nat)
    requires Captured(r, os, cap)
    ensures r.output == First(os.received, cap) <==> Append !in os.failed
    ensures Append in os.failed ==> |r.output| < |First(os.received, cap)| && !r.outputTruncated
  {
  }

  // result.output.append of what still fits of the bytes just read.
  method AppendChunk(os: Kernel, chunk: seq<byte>, cap: nat, before: ProcessResult, ghost received: seq<byte>)
    returns (result: ProcessResult, threw: bool)
    requires os.failed == {} && Kept(before, received, |received|, cap)
    requires os.received == received + chunk && os.lastRead == |chunk| > 0
    modifies os`failed, os`planned
    ensures os.failed == if threw then {Append} else {}
    ensures Captured(result, os, cap)
    ensures result == before.(output := result.output, outputTruncated := result.outputTruncated)
    ensures [AllocReply(false)] <= old(os.planned) && |received| < cap ==>
              threw && os.planned == old(os.planned)[1..]
  {
    result, threw := before, false;
    AppendedKept(before, received, chunk, cap);
    var room := if cap > |result.output| then cap - |result.output| else 0;
    var keep := if room < |chunk| then room else |chunk|;
    var ok := true;
    if keep > 0 { ok := os.Allocate(Append); }
    if ok {
      result := result.(output := result.output + chunk[..keep]);
      if keep < |chunk| { result := result.(outputTruncated := true); }
    } else {
      threw := true;
      assert os.received[..|received|] == received[..|received|];
    }
  }

  // One read: whether to go on, and whether the append threw.
  method ReadOnce(os: Kernel, fd: int, cap: nat, before: ProcessResult)
    returns (result: ProcessResult, more: bool, threw: bool)
    requires os.Readable(fd) && os.failed == {} && Kept(before, os.received, |os.received|, cap)
    modifies os`received, os`lastRead, os`answers, os`failed, os`planned
    ensures os.failed == if threw then {Append} else {}
    ensures Captured(result, os, cap)
    ensures |os.answers| == |old(os.answers)| + 1 && os.answers[..|old(os.answers)|] == old(os.answers)
    ensures os.answers[|os.answers| - 1].Got? && (!threw ==> (more <==> !Final(os.answers[|os.answers| - 1])))
    ensures result == before.(output := result.output, outputTruncated := result.outputTruncated)
    ensures END_OF_FILE <= old(os.planned) ==>
              !more && !threw && os.planned == old(os.planned)[1..] && os.received == old(os.received)
    ensures NO_ROOM <= old(os.planned) && |old(os.received)| < cap ==> threw && os.planned == old(os.planned)[2..]
  {
    result, more, threw := before, true, false;
    var answer := os.Read(fd);
    match answer {
      case Bytes(chunk) => result, threw := AppendChunk(os, chunk, cap, before, old(os.received));
      case EndOfFile => more := false;
      case ReadError(errno) => more := errno == EINTR || errno == EAGAIN;
    }
  }

  // ---- Runs fixed in advance ----

  const LAUNCHED := [PipeReply(3, 4), ForkReply(true)]
  const READY := [ClockReply(1), PollReply(Ready)]
  const END_OF_FILE := [ReadReply(EndOfFile)]
  // waitpid reports the child missing, and there is no memory for the text that says so.
  const NO_TEXT := [WaitReply(WaitError(OtherErrno)), AllocReply(false)]
  // A full buffer arrives, and there is no memory to keep it.
  const NO_ROOM := [ReadReply(Bytes(seq(BUFFER, _ => 65))), AllocReply(false)]

  const MISSES := READY + END_OF_FILE + NO_TEXT
  const LOSES := READY + NO_ROOM

  // Everything goes well up to `course`.
  function Planned(course: seq<Reply>): seq<Reply> {
    [AllocReply(true)] + (LAUNCHED + ([ClockReply(0)] + course))
  }

  // One look at the clock and, if there is time left, one wait for the child's output.
  method PollOnce(os: Kernel, fd: int, deadline: int) returns (late: bool, ready: PollAnswer)
    requires os.Readable(fd) && os.readings != []
    modifies os`readings, os`answers, os`planned
    ensures if late then os.answers == old(os.answers) else os.answers == old(os.answers) + [Polled(ready)]
    ensures |os.readings| == |old(os.readings)| + 1 && os.readings[..|old(os.readings)|] == old(os.readings)
    ensures os.readings[|os.readings| - 1] > old(os.readings)[|old(os.readings)| - 1]
    ensures late <==> Remaining(deadline, os.readings[|os.readings| - 1]) <= 0
    ensures READY <= old(os.planned) && old(os.readings) == [0] && Remaining(deadline, 1) > 0 ==>
              !late && ready == Ready && os.planned == old(os.planned)[2..]
  {
    ready := Quiet;
    var now := os.Clock();
    var remaining := Remaining(deadline, now);
    late := remaining <= 0;
    if !late { ready := os.Poll(fd, if remaining < 1000 then remaining else 1000); }
  }

  // Read until end of file, an error, or the deadline.
  method Drain(os: Kernel, fd: int, timeout: nat, cap: nat, before: ProcessResult)
    returns (result: ProcessResult, threw: bool)
    requires os.Readable(fd) && os.received == [] && |os.readings| == 1 && os.failed == {} && os.answers == []
    requires before.output == [] && !before.outputTruncated && !before.timedOut
    modifies os`received, os`lastRead, os`readings, os`answers, os`failed, os`planned
    // It stops at the first final answer, and before that only at the deadline or a throw.
    ensures Listened(os.answers) && (!threw ==> (result.timedOut <==> !ReadToEnd(os.answers)))
    ensures |os.readings| >= 1 && os.readings[0] == old(os.readings)[0]
    ensures result.timedOut ==> LastLate(os.readings, timeout) && !threw
    ensures !result.timedOut ==> Timely(os.readings, timeout)
    ensures os.failed == if threw then {Append} else {}
    ensures Captured(result, os, cap)
    ensures result == before.(output := result.output, outputTruncated := result.outputTruncated,
                              timedOut := result.timedOut)
    ensures timeout >= 2 && old(os.readings) == [0] && READY + END_OF_FILE <= old(os.planned) ==>
              !threw && !result.timedOut && os.planned == old(os.planned)[3..]
    ensures timeout >= 2 && old(os.readings) == [0] && cap > 0 && READY + NO_ROOM <= old(os.planned) ==>
              threw && os.planned == old(os.planned)[4..]
  {
    var deadline := os.readings[0] + timeout * NS_PER_MS;
    result, threw := before, false;
    var more := true;
    ghost var ends := timeout >= 2 && os.readings == [0] && READY + END_OF_FILE <= os.planned;
    ghost var loses := timeout >= 2 && os.readings == [0] && cap > 0 && READY + NO_ROOM <= os.planned;
    while more && !threw
      invariant |os.readings| >= 1 && os.readings[0] == old(os.readings)[0]
      invariant Timely(os.readings, timeout) && !result.timedOut
      invariant Listened(os.answers) && (!threw ==> (more <==> !ReadToEnd(os.answers)))
      invariant os.failed == if threw then {Append} else {}
      invariant Captured(result, os, cap)
      invariant result == before.(output := result.output, outputTruncated := result.outputTruncated)
      invariant ends ==> !threw && if more then os.planned == old(os.planned) && os.readings == [0]
                                   else os.planned == old(os.planned)[3..]
      invariant loses ==> if threw then os.planned == old(os.planned)[4..]
                          else more && os.planned == old(os.planned) && os.readings == [0] && os.received == []
      decreases deadline - os.readings[|os.readings| - 1]
    {
      var late;
      result, late, more, threw := DrainOnce(os, fd, deadline, cap, result);
      if late {
        result := result.(timedOut := true);
        return;
      }
    }
  }

  // One turn of the read loop.
  method DrainOnce(os: Kernel, fd: int, deadline: int, cap: nat, before: ProcessResult)
    returns (result: ProcessResult, late: bool, more: bool, threw: bool)
    requires os.Readable(fd) && os.readings != [] && os.failed == {} && Kept(before, os.received, |os.received|, cap)
    requires Listened(os.answers) && !ReadToEnd(os.answers)
    modifies os`received, os`lastRead, os`readings, os`answers, os`failed, os`planned
    ensures Listened(os.answers)
    ensures late ==> !ReadToEnd(os.answers)
    ensures !late && !threw ==> (more <==> !ReadToEnd(os.answers))
    ensures |os.readings| == |old(os.readings)| + 1 && os.readings[..|old(os.readings)|] == old(os.readings)
    ensures os.readings[|os.readings| - 1] > old(os.readings)[|old(os.readings)| - 1]
    ensures late <==> Remaining(deadline, os.readings[|os.readings| - 1]) <= 0
    ensures late ==> !threw
    ensures os.failed == if threw then {Append} else {}
    ensures Captured(result, os, cap)
    ensures result == before.(output := result.output, outputTruncated := result.outputTruncated)
    ensures READY + END_OF_FILE <= old(os.planned) && old(os.readings) == [0] && Remaining(deadline, 1) > 0 ==>
              !late && !threw && !more && os.planned == old(os.planned)[3..]
    ensures READY + NO_ROOM <= old(os.planned) && old(os.readings) == [0] && Remaining(deadline, 1) > 0
              && |old(os.received)| < cap ==>
              !late && threw && os.planned == old(os.planned)[4..]
  {
    result, more, threw := before, true, false;
    var ready;
    late, ready := PollOnce(os, fd, deadline);
    if late { return; }
    if ready != Ready { PollListened(old(os.answers), ready); }
    match ready {
      case Ready =>
        result, more, threw := ReadOnce(os, fd, cap, result);
        ReadListened(old(os.answers), os.answers);
      case Quiet =>
      case PollError(errno) => more := errno == EINTR;
    }
  }

  lemma ReadListened(before: seq<PipeAnswer>, after: seq<PipeAnswer>)
    requires Listened(before) && !ReadToEnd(before)
    requires |after| == |before| + 2 && after[..|before| + 1] == before + [Polled(Ready)]
    requires after[|after| - 1].Got?
    ensures Listened(after)
  {
    var n := |before|;
    var polled := before + [Polled(Ready)];
    assert after == polled + [after[n + 1]];
    forall i | 0 <= i < |after| ensures Prompted(after, i) {
      assert i < n ==> after[i] == before[i] && Prompted(before, i);
      assert i == n ==> after[i] == polled[i];
      assert 0 < i <= n ==> after[i - 1] == before[i - 1];
    }
    forall i | 0 <= i < |after| - 1 ensures !Final(after[i]) {
      assert after[i] == polled[i];
    }
  }

  lemma PollListened(before: seq<PipeAnswer>, ready: PollAnswer)
    requires Listened(before) && !ReadToEnd(before) && ready != Ready
    ensures Listened(before + [Polled(ready)])
  {
    var after := before + [Polled(ready)];
    forall i | 0 <= i < |after| ensures Prompted(after, i) {
      assert i < |before| ==> after[i] == before[i] && Prompted(before, i);
      assert i > 0 ==> after[i - 1] == before[i - 1];
    }
  }

  // What the clock says and what the result says about the deadline.
  ghost predicate Clocked(r: ProcessResult, readings: seq<int>, timeout: nat) {
    && |readings| >= 1
    && (r.timedOut ==> LastLate(readings, timeout))
    && (!r.timedOut ==> Timely(readings, timeout))
  }

  // Poll for the child's exit until it is reaped, reported missing, or the deadline passes.
  method AwaitExit(os: Kernel, timeout: nat, before: ProcessResult)
    returns (result: ProcessResult, reaped: bool, threw: bool)
    requires os.child.Running? && Clocked(before, os.readings, timeout) && os.failed == {}
    requires before.exitCode == -1 && before.termSignal == 0 && before.error == NoError
    modifies os`child, os`interruptions, os`readings, os`failed, os`planned
    ensures |os.readings| >= 1 && os.readings[0] == old(os.readings)[0]
    ensures Clocked(result, os.readings, timeout)
    ensures before.timedOut ==> result.timedOut
    ensures reaped ==> !threw && !result.timedOut && (os.child.Reaped? || os.child.Missing?)
    ensures !threw ==> result.error == if os.child.Missing? then WaitFailed else NoError
    ensures !reaped && !threw ==> result.timedOut && os.child.Running?
    ensures threw ==> !result.timedOut && os.child.Missing?
    ensures os.failed == if threw then {WaitText} else {}
    ensures Reports(result, os.child) && result.error != RunnerError
    ensures result == before.(exitCode := result.exitCode, termSignal := result.termSignal,
                              timedOut := result.timedOut, error := result.error)
    ensures !before.timedOut && NO_TEXT <= old(os.planned) ==> threw && os.planned == old(os.planned)[2..]
  {
    var deadline := os.readings[0] + timeout * NS_PER_MS;
    result, reaped, threw := before, false, false;
    while !result.timedOut && !reaped && !threw
      invariant |os.readings| >= 1 && os.readings[0] == old(os.readings)[0]
      invariant Clocked(result, os.readings, timeout)
      invariant before.timedOut ==> result.timedOut
      invariant reaped ==> !threw && !result.timedOut && (os.child.Reaped? || os.child.Missing?)
      invariant !threw ==> result.error == if os.child.Missing? then WaitFailed else NoError
      invariant !reaped && !threw ==> os.child.Running?
      invariant threw ==> !result.timedOut && os.child.Missing?
      invariant os.failed == if threw then {WaitText} else {}
      invariant Reports(result, os.child) && result.error != RunnerError
      invariant result == before.(exitCode := result.exitCode, termSignal := result.termSignal,
                                  timedOut := result.timedOut, error := result.error)
      invariant !before.timedOut && NO_TEXT <= old(os.planned) ==>
                  if threw then os.planned == old(os.planned)[2..]
                  else !result.timedOut && !reaped && os.planned == old(os.planned)
      decreases !result.timedOut && !reaped && !threw, deadline - os.readings[|os.readings| - 1]
    {
      var waited := os.WaitPid(false);
      if waited.Ended? {
        result := WithStatus(result, waited.status);
        reaped := true;
      } else if waited.WaitError? && waited.errno != EINTR {
        var ok := os.Allocate(WaitText);
        if ok {
          result := result.(error := WaitFailed);
          reaped := true;
        } else {
          threw := true;
        }
      } else {
        var now := os.Clock();
        if Remaining(deadline, now) <= 0 { result := result.(timedOut := true); }
      }
    }
  }

  // What a caller may rely on however the run ended.  The child is signalled exactly when
  // the deadline passed or memory ran out while it was being supervised; and a child that
  // had been reported missing exactly when it was the text of that report there was no
  // memory for.
  ghost predicate Sound(r: ProcessResult, os: Kernel, timeout: nat, cap: nat)
    reads os
  {
    && (r.started <==> !os.child.NotForked?)
    && !os.child.Running?
    && Reports(r, os.child)
    && (r.started ==> Clocked(r, os.readings, timeout))
    && (!r.started ==> os.signals == 0 && r == BLANK.(error := r.error) && r.error != NoError)
    && (os.failed != {} <==> r.error == RunnerError)
    && (forall p, q | p in os.failed && q in os.failed :: p == q)
    && HandlerText !in os.failed
    && os.signals == (if r.timedOut || Append in os.failed || WaitText in os.failed then 2 else 0)
    && os.strays == (if WaitText in os.failed then 2 else 0)
    && (WaitText in os.failed ==> os.child.Missing? && !r.timedOut)
    && Listened(os.answers)
    && (r.started && !r.timedOut && Append !in os.failed ==> ReadToEnd(os.answers))
    && (os.failed == {} ==> Told(r, os))
    && (Append in os.failed ==> r.started && !r.timedOut)
    && Captured(r, os, cap)
  }

  // Which error is reported.
  ghost predicate Told(r: ProcessResult, os: Kernel)
    reads os
  {
    && (r.started ==> r.error == if os.child.Missing? && !r.timedOut then WaitFailed else NoError)
    && (r.error == PipeFailed <==> os.asked == {APipe})
    && (r.error == ForkFailed <==> !r.started && os.asked == {APipe, AChild})
    && (r.error == EmptyArgv || r.error == NotFound ==> os.asked == {})
  }

  // What a catch handler finds: the descriptors and whether there is a child to reap.
  datatype Progress = Progress(readEnd: int, writeEnd: int, forked: bool, reaped: bool)

  function Ends(p: Progress): set<int> {
    (if p.readEnd >= 0 then {p.readEnd} else {}) + (if p.writeEnd >= 0 then {p.writeEnd} else {})
  }

  // Before the fork there is nothing to reap; afterwards the child is running, or missing if
  // it was the text of that report there was no memory for.
  ghost predicate Thrown(r: ProcessResult, p: Progress, os: Kernel, timeout: nat, cap: nat)
    reads os
  {
    && os.signals == 0 && os.strays == 0 && !p.reaped
    && r.started == p.forked && !r.timedOut && Reports(r, os.child)
    && (if p.forked then
          && Clocked(r, os.readings, timeout)
          && ((os.failed == {Append} && os.child.Running? && Ends(p) != {})
              || (os.failed == {WaitText} && os.child.Missing? && Ends(p) == {}))
        else
          && r == BLANK && os.child.NotForked?
          && (((os.failed == {SetUp} || os.failed == {PipeText}) && Ends(p) == {})
              || (os.failed == {ForkText} && Ends(p) != {})))
    && Captured(r, os, cap)
    && Listened(os.answers) && (os.failed == {WaitText} ==> ReadToEnd(os.answers))
  }

  // The parent's part of the try block.
  method Supervise(os: Kernel, readEnd: int, timeout: nat, cap: nat)
    returns (result: ProcessResult, p: Progress, threw: bool)
    requires readEnd >= 0 && os.Readable(readEnd) && os.child.Running?
    requires os.signals == 0 && os.strays == 0 && os.received == [] && os.readings == []
    requires os.failed == {} && os.answers == [] && os.asked == {APipe, AChild}
    modifies os
    ensures !threw ==> Sound(result, os, timeout, cap) && os.open == old(os.open) - {readEnd} && os.failed == {}
    ensures threw ==> Thrown(result, p, os, timeout, cap) && p.forked && p.writeEnd < 0
                      && (p.readEnd == readEnd || p.readEnd < 0)
                      && os.open == old(os.open) - ({readEnd} - Ends(p))
    ensures timeout >= 2 && [ClockReply(0)] + MISSES <= old(os.planned) ==>
              threw && os.failed == {WaitText} && os.planned == old(os.planned)[|MISSES| + 1..]
    ensures timeout >= 2 && cap > 0 && [ClockReply(0)] + LOSES <= old(os.planned) ==>
              threw && os.failed == {Append} && os.planned == old(os.planned)[|LOSES| + 1..]
  {
    result, p := BLANK.(started := true), Progress(readEnd, -1, true, false);
    var _ := os.Clock();
    result, threw := Drain(os, readEnd, timeout, cap, result);
    if threw { return; }
    var closed := CloseQuietly(os, readEnd);
    p := p.(readEnd := closed);
    result, p, threw := Await(os, timeout, cap, result, p);
  }

  // The wait loop, and the kill if it ended at the deadline.
  method Await(os: Kernel, timeout: nat, cap: nat, before: ProcessResult, at: Progress)
    returns (result: ProcessResult, p: Progress, threw: bool)
    requires os.child.Running? && Clocked(before, os.readings, timeout) && before.started
    requires before.exitCode == -1 && before.termSignal == 0 && before.error == NoError
    requires os.signals == 0 && os.strays == 0 && os.failed == {}
    requires Kept(before, os.received, |os.received|, cap)
    requires at.forked && !at.reaped && Ends(at) == {}
    requires os.asked == {APipe, AChild} && before.error == NoError
    requires Listened(os.answers) && (before.timedOut <==> !ReadToEnd(os.answers))
    modifies os`child, os`interruptions, os`readings, os`failed, os`signals, os`strays, os`planned
    ensures os.failed == if threw then {WaitText} else {}
    ensures !threw ==> Sound(result, os, timeout, cap)
    ensures threw ==> Thrown(result, p, os, timeout, cap) && p == at
    ensures !before.timedOut && NO_TEXT <= old(os.planned) ==> threw && os.planned == old(os.planned)[2..]
  {
    var reaped: bool;
    p := at;
    result, reaped, threw := AwaitExit(os, timeout, before);
    assert Kept(result, os.received, |os.received|, cap);
    if threw { return; }
    if !reaped { result := KillAndReap(os, result); }
    p := p.(reaped := true);
    assert Kept(result, os.received, |os.received|, cap);
  }

  lemma Unstarted(r: ProcessResult, os: Kernel, timeout: nat, cap: nat)
    requires os.child.NotForked? && os.signals == 0 && os.strays == 0 && os.received == [] && os.failed == {}
    requires r == BLANK.(error := r.error) && r.error != NoError && r.error != RunnerError
    requires os.answers == [] && Told(r, os)
    ensures Sound(r, os, timeout, cap)
  {
    assert Kept(r, os.received, 0, cap);
  }

  // From pipe2 to fork: both ends open and a child running, or an error, or a throw.
  method Launch(os: Kernel)
    returns (result: ProcessResult, p: Progress, threw: bool)
    requires os.Clean()
    modifies os`open, os`readEnd, os`writeEnd, os`asked, os`child, os`failed, os`planned
    ensures p.forked ==> os.readEnd == p.readEnd && os.writeEnd == p.writeEnd && os.asked == {APipe, AChild}
    ensures !threw && !p.forked ==> Told(result, os)
    ensures threw ==> (os.failed == {PipeText} && Ends(p) == {}) || (os.failed == {ForkText} && Ends(p) != {})
    ensures !threw ==> os.failed == {}
    ensures threw ==> result == BLANK && !p.forked && !p.reaped
    ensures !threw && !p.forked ==> result == BLANK.(error := result.error) && os.open == old(os.open)
                                    && (result.error == PipeFailed || result.error == ForkFailed)
    ensures p.forked ==> !threw && p.readEnd >= 0 && p.writeEnd >= 0
    ensures os.child == if p.forked then Running else NotForked
    ensures threw || p.forked ==> os.open == old(os.open) + Ends(p) && Ends(p) !! old(os.open) && Distinct(p)
    ensures LAUNCHED <= old(os.planned) && 3 !in old(os.open) && 4 !in old(os.open) ==>
              p.forked && os.planned == old(os.planned)[2..]
  {
    result, p, threw := BLANK, Progress(-1, -1, false, false), false;
    var r, w, piped := os.Pipe();
    if !piped {
      result, threw := Failed(os, PipeFailed, PipeText);
      return;
    }
    p := p.(readEnd := r, writeEnd := w);
    var forked := os.Fork();
    if forked {
      p := p.(forked := true);
      return;
    }
    result, threw := Failed(os, ForkFailed, ForkText);
    if threw { return; }
    var _ := CloseQuietly(os, r);
    var _ := CloseQuietly(os, w);
    assert os.open == old(os.open);
  }

  predicate Distinct(p: Progress) {
    p.readEnd >= 0 && p.writeEnd >= 0 ==> p.readEnd != p.writeEnd
  }

  // Record a launch error; building its text may throw.
  method Failed(os: Kernel, error: RunError, text: Purpose) returns (result: ProcessResult, threw: bool)
    modifies os`failed, os`planned
    ensures os.failed == old(os.failed) + if threw then {text} else {}
    ensures result == if threw then BLANK else BLANK.(error := error)
  {
    result := BLANK;
    var ok := os.Allocate(text);
    threw := !ok;
    if ok { result := result.(error := error); }
  }

  // The body of the try block.
  method Attempt(os: Kernel, argv: seq<string>, found: bool, timeout: nat, cap: nat)
    returns (result: ProcessResult, p: Progress, threw: bool)
    requires os.Clean()
    modifies os
    ensures argv == [] ==> !threw && result == BLANK.(error := EmptyArgv)
    ensures argv != [] && !found ==>
              if threw then os.failed == {SetUp} else result == BLANK.(error := NotFound)
    ensures !threw ==> Sound(result, os, timeout, cap) && os.open == old(os.open) && os.failed == {}
    ensures threw ==> Thrown(result, p, os, timeout, cap) && Distinct(p)
                      && os.open == old(os.open) + Ends(p) && Ends(p) !! old(os.open)
    ensures found && old(Fixed(os, argv, timeout, cap, MISSES)) ==>
              threw && os.failed == {WaitText} && os.planned == old(os.planned)[|Planned(MISSES)|..]
    ensures found && old(Fixed(os, argv, timeout, cap, LOSES)) ==>
              threw && os.failed == {Append} && os.planned == old(os.planned)[|Planned(LOSES)|..]
  {
    result, p, threw := BLANK, Progress(-1, -1, false, false), false;
    if argv == [] {
      result := result.(error := EmptyArgv);
      Unstarted(result, os, timeout, cap);
      return;
    }
    var ok := os.Allocate(SetUp);   // the search, its error text, arguments and environment
    if !ok {
      assert Kept(result, os.received, 0, cap);
      return result, p, true;
    }
    if !found {
      result := result.(error := NotFound);
      Unstarted(result, os, timeout, cap);
      return;
    }
    result, p, threw := LaunchAndSupervise(os, timeout, cap);
  }

  method LaunchAndSupervise(os: Kernel, timeout: nat, cap: nat)
    returns (result: ProcessResult, p: Progress, threw: bool)
    requires os.Clean()
    modifies os
    ensures !threw ==> Sound(result, os, timeout, cap) && os.open == old(os.open) && os.failed == {}
    ensures threw ==> Thrown(result, p, os, timeout, cap) && Distinct(p)
                      && os.open == old(os.open) + Ends(p) && Ends(p) !! old(os.open)
    ensures timeout >= 2 && old(os.open) == {} && LAUNCHED + ([ClockReply(0)] + MISSES) <= old(os.planned) ==>
              threw && os.failed == {WaitText} && os.planned == old(os.planned)[|MISSES| + 3..]
    ensures timeout >= 2 && old(os.open) == {} && cap > 0 && LAUNCHED + ([ClockReply(0)] + LOSES) <= old(os.planned) ==>
              threw && os.failed == {Append} && os.planned == old(os.planned)[|LOSES| + 3..]
  {
    result, p, threw := Launch(os);
    if threw {
      assert Kept(result, os.received, 0, cap);
      return;
    }
    if !p.forked {
      Unstarted(result, os, timeout, cap);
      return;
    }
    ghost var launched := p;
    var _ := CloseQuietly(os, p.writeEnd);
    assert os.open == old(os.open) + {launched.readEnd};
    result, p, threw := Supervise(os, p.readEnd, timeout, cap);
  }

  // The calls for which the fixed runs are worked out.  Output up to 15 bytes needs no memory.
  ghost predicate Fixed(os: Kernel, argv: seq<string>, timeout: nat, cap: nat, course: seq<Reply>)
    reads os
  {
    argv != [] && timeout >= 2 && cap >= 16 && os.open == {} && Planned(course) <= os.planned
  }

  // What is said about the memory for the text of the catch handler.
  predicate Says(planned: seq<Reply>, at: nat, ok: bool) {
    at < |planned| && planned[at] == AllocReply(ok)
  }

  // The catch handler and the clean-up after it.  The function is noexcept: if there is no
  // memory for the handler's own text, the exception ends the whole process.
  method Recover(os: Kernel, before: ProcessResult, p: Progress, timeout: nat, cap: nat, ghost others: set<int>)
    returns (result: ProcessResult, died: bool)
    requires Thrown(before, p, os, timeout, cap) && Distinct(p)
    requires os.open == others + Ends(p) && Ends(p) !! others
    modifies os`open, os`child, os`interruptions, os`signals, os`strays, os`failed, os`planned
    ensures died <==> HandlerText in os.failed
    ensures !died ==> os.open == others && Sound(result, os, timeout, cap) && os.failed == old(os.failed)
    ensures !died && !p.forked ==> os.child == old(os.child)
    ensures died ==> Abandoned(os, others) && os.failed == old(os.failed) + {HandlerText}
    ensures forall ok | Says(old(os.planned), 0, ok) :: died == !ok
  {
    result := before;
    var ok := os.Allocate(HandlerText);
    died := !ok;
    if died { return; }
    result := CleanUp(os, result.(error := RunnerError), p, timeout, cap, others);
  }

  method CleanUp(os: Kernel, before: ProcessResult, p: Progress, timeout: nat, cap: nat, ghost others: set<int>)
    returns (result: ProcessResult)
    requires Thrown(before.(error := NoError), p, os, timeout, cap) && before.error == RunnerError && Distinct(p)
    requires os.open == others + Ends(p) && Ends(p) !! others
    modifies os`open, os`child, os`interruptions, os`signals, os`strays, os`planned
    ensures os.open == others && Sound(result, os, timeout, cap)
    ensures !p.forked ==> os.child == old(os.child)
  {
    result := before;
    if p.forked && !p.reaped { result := KillAndReap(os, result); }
    var _ := CloseQuietly(os, p.readEnd);
    var _ := CloseQuietly(os, p.writeEnd);
    assert Captured(result, os, cap);
  }

  // What is left behind when the run ends the whole process: memory was missing twice, once
  // while there was work to clean up after, and nothing has been.
  ghost predicate Abandoned(os: Kernel, before: set<int>)
    reads os
  {
    && os.signals == 0
    && ((os.failed == {Append, HandlerText} && os.child.Running? && before < os.open)
        || (os.failed == {WaitText, HandlerText} && os.child.Missing? && os.open == before)
        || (os.failed == {ForkText, HandlerText} && os.child.NotForked? && before < os.open)
        || ((os.failed == {SetUp, HandlerText} || os.failed == {PipeText, HandlerText})
            && os.child.NotForked? && os.open == before))
  }

  // On every path on which the run returns, every descriptor it opened is closed once and
  // nothing else is; the child, if there is one, is reaped once or was reported missing.
  method Run(os: Kernel, argv: seq<string>, found: bool, timeout: nat, cap: nat)
    returns (result: ProcessResult, died: bool)
    requires os.Clean()
    modifies os
    ensures died <==> HandlerText in os.failed
    ensures died ==> Abandoned(os, old(os.open))
    ensures !died ==> os.open == old(os.open) && Sound(result, os, timeout, cap)
    ensures argv == [] ==> !died && result == BLANK.(error := EmptyArgv)
    ensures argv != [] && !found && !died ==>
              result == BLANK.(error := if SetUp in os.failed then RunnerError else NotFound)
    // succeeded() is a normal exit with status 0 that was seen before the deadline.
    ensures !died ==> (Succeeded(result) <==> os.child == Reaped(Exited(0)) && !result.timedOut)
    ensures !died && Succeeded(result) ==> Timely(os.readings, timeout)
    // The output is what the cap leaves of everything read iff no append threw.
    ensures !died ==> (result.output == First(os.received, cap) <==> Append !in os.failed)
    ensures found && old(Fixed(os, argv, timeout, cap, MISSES)) ==>
              && WaitText in os.failed
              && forall ok | Says(old(os.planned), |Planned(MISSES)|, ok) :: died == !ok
    ensures found && old(Fixed(os, argv, timeout, cap, LOSES)) ==>
              && Append in os.failed
              && forall ok | Says(old(os.planned), |Planned(LOSES)|, ok) :: died == !ok
  {
    var p, threw;
    died := false;
    result, p, threw := Attempt(os, argv, found, timeout, cap);
    ghost var rest := os.planned;
    assert forall n: nat, ok | Says(old(os.planned), n, ok) && rest == old(os.planned)[n..] :: Says(rest, 0, ok);
    if threw {
      result, died := Recover(os, result, p, timeout, cap, old(os.open));
    }
    if !died {
      SuccessMeans(result, os, timeout, cap);
      CapturedIff(result, os, cap);
    }
  }

  lemma SuccessMeans(r: ProcessResult, os: Kernel, timeout: nat, cap: nat)
    requires Sound(r, os, timeout, cap)
    ensures Succeeded(r) <==> os.child == Reaped(Exited(0)) && !r.timedOut
    ensures Succeeded(r) ==> Timely(os.readings, timeout)
  {
  }

  // A run in which a child that was reported missing is signalled twice.
  method StraySignals(argv: seq<string>, timeout: nat, cap: nat)
    returns (os: Kernel, result: ProcessResult, died: bool)
    requires argv != [] && timeout >= 2 && cap >= 16
    ensures !died && os.child.Missing? && os.strays == 2 && !result.timedOut && result.error == RunnerError
  {
    os := new Kernel(Planned(MISSES) + [AllocReply(true)], 0);
    assert Says(os.planned, |Planned(MISSES)|, true);
    result, died := Run(os, argv, true, timeout, cap);
  }

  // A run whose output lacks bytes that were read and had room.
  method LostOutput(argv: seq<string>, timeout: nat, cap: nat)
    returns (os: Kernel, result: ProcessResult, died: bool)
    requires argv != [] && timeout >= 2 && cap >= 16
    ensures !died && result.error == RunnerError
    ensures |result.output| < |First(os.received, cap)| && !result.outputTruncated
  {
    os := new Kernel(Planned(LOSES) + [AllocReply(true)], 0);
    assert Says(os.planned, |Planned(LOSES)|, true);
    result, died := Run(os, argv, true, timeout, cap);
    CapturedIff(result, os, cap);
  }

  // A run that ends the whole process and leaves its child running.
  method EndsProcess(argv: seq<string>, timeout: nat, cap: nat) returns (os: Kernel, died: bool)
    requires argv != [] && timeout >= 2 && cap >= 16
    ensures died && os.child.Running? && os.signals == 0
  {
    os := new Kernel(Planned(LOSES) + [AllocReply(false)], 0);
    assert Says(os.planned, |Planned(LOSES)|, false);
    var _, died' := Run(os, argv, true, timeout, cap);
    died := died';
  }
}
