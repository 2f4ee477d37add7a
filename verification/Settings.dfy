// The numbers read from the environment, and the worker pool they size.
module Settings {
  import opened Common
  import opened Text

  const DEFAULT_WORKERS: nat := 4
  const MAX_WORKERS: nat := 16
  const DEFAULT_RETRIES: nat := 3
  const DEFAULT_BACKLOG: nat := 64
  const LLONG_MAX: int := 0x7fff_ffff_ffff_ffff

  // WORKER_COUNT: always between 1 and 16, and the given number when it is.
  method ResolveWorkerCount(raw: Option<string>) returns (count: nat)
    ensures 1 <= count <= MAX_WORKERS
    ensures forall n: nat | 1 <= n <= MAX_WORKERS && raw == Some(Digits(n)) :: count == n
    ensures forall n: nat | MAX_WORKERS < n <= INT_MAX && raw == Some(Digits(n)) :: count == MAX_WORKERS
    ensures raw.None? || Stoi(raw.value).None? || Stoi(raw.value).value <= 0 ==> count == DEFAULT_WORKERS
    ensures raw.Some? && Stoi(raw.value).Some? && 0 < Stoi(raw.value).value <= MAX_WORKERS ==>
              count == Stoi(raw.value).value
    ensures raw.Some? && Stoi(raw.value).Some? && Stoi(raw.value).value > MAX_WORKERS ==> count == MAX_WORKERS
  {
    if raw.None? { return DEFAULT_WORKERS; }
    forall n: nat ensures LeadingInt(Digits(n)) == Some(n) { LeadingIntOfText(n); }
    var parsed := Stoi(raw.value);
    if parsed.None? || parsed.value <= 0 { return DEFAULT_WORKERS; }
    count := parsed.value;
    if count > MAX_WORKERS { count := MAX_WORKERS; }
  }

  // JOB_MAX_RETRIES: never negative, and any other number is taken as it is.
  method MaxRetryAttempts(raw: Option<string>) returns (retries: nat)
    ensures forall n: nat | n <= INT_MAX && raw == Some(Digits(n)) :: retries == n
    ensures raw.None? || Stoi(raw.value).None? || Stoi(raw.value).value < 0 ==> retries == DEFAULT_RETRIES
    ensures raw.Some? && Stoi(raw.value).Some? && Stoi(raw.value).value >= 0 ==> retries == Stoi(raw.value).value
  {
    if raw.None? { return DEFAULT_RETRIES; }
    forall n: nat ensures LeadingInt(Digits(n)) == Some(n) { LeadingIntOfText(n); }
    var parsed := Stoi(raw.value);
    if parsed.None? || parsed.value < 0 { return DEFAULT_RETRIES; }
    return parsed.value;
  }

  // JOB_MAX_BACKLOG: at least 1.
  method ResolveMaxBacklog(raw: Option<string>) returns (backlog: nat)
    ensures backlog >= 1
    ensures forall n: nat | 1 <= n <= LLONG_MAX && raw == Some(Digits(n)) :: backlog == n
    ensures raw.None? || LeadingInt(raw.value).None? || !(0 < LeadingInt(raw.value).value <= LLONG_MAX) ==>
              backlog == DEFAULT_BACKLOG
    ensures raw.Some? && LeadingInt(raw.value).Some? && 0 < LeadingInt(raw.value).value <= LLONG_MAX ==>
              backlog == LeadingInt(raw.value).value
  {
    if raw.None? { return DEFAULT_BACKLOG; }
    forall n: nat ensures LeadingInt(Digits(n)) == Some(n) { LeadingIntOfText(n); }
    var parsed := LeadingInt(raw.value);
    if parsed.None? || parsed.value > LLONG_MAX || parsed.value <= 0 { return DEFAULT_BACKLOG; }
    return parsed.value;
  }

  // ---- The worker pool ----

  function ConsumerName(prefix: string, i: nat): string {
    prefix + Digits(i + 1)
  }

  lemma ConsumerNamesDistinct(prefix: string, i: nat, k: nat)
    requires ConsumerName(prefix, i) == ConsumerName(prefix, k)
    ensures i == k
  {
    assert ConsumerName(prefix, i)[|prefix|..] == Digits(i + 1);
    assert ConsumerName(prefix, k)[|prefix|..] == Digits(k + 1);
    DigitsInjective(i + 1, k + 1);
  }

  class PooledWorker {
    const consumerName: string
    var running: bool

    constructor (consumerName: string)
      ensures this.consumerName == consumerName && !running
    {
      this.consumerName := consumerName;
      running := false;
    }

    method Start()
      modifies this
      ensures running
    {
      running := true;
    }

    method Stop()
      modifies this
      ensures !running
    {
      running := false;
    }
  }

  class JobWorkerPool {
    const workerCount: nat
    const consumerPrefix: string
    var running: bool
    var workers: seq<PooledWorker>

    ghost predicate Valid()
      reads this, workers
    {
      if running then
        && |workers| == workerCount
        && (forall i | 0 <= i < |workers| ::
              workers[i].running && workers[i].consumerName == ConsumerName(consumerPrefix, i))
      else workers == []
    }

    constructor (workerCount: nat, consumerPrefix: string)
      ensures Valid() && !running
      ensures this.workerCount == workerCount && this.consumerPrefix == consumerPrefix
    {
      this.workerCount, this.consumerPrefix := workerCount, consumerPrefix;
      running, workers := false, [];
    }

    // A started pool runs one worker per consumer name; starting again changes nothing.
    method Start()
      requires Valid()
      modifies this
      ensures Valid() && running
      ensures old(running) ==> workers == old(workers)
    {
      if running { return; }
      var started: seq<PooledWorker> := [];
      for i := 0 to workerCount
        invariant |started| == i
        invariant forall k | 0 <= k < i :: fresh(started[k])
        invariant forall k | 0 <= k < i ::
                    !started[k].running && started[k].consumerName == ConsumerName(consumerPrefix, k)
      {
        var worker := new PooledWorker(ConsumerName(consumerPrefix, i));
        started := started + [worker];
      }
      workers, running := started, true;
      for i := 0 to |started|
        invariant workers == started && running
        invariant forall k | 0 <= k < |started| :: fresh(started[k])
        invariant forall k | 0 <= k < i :: started[k].running
      {
        started[i].Start();
      }
    }

    method Stop()
      requires Valid()
      modifies this, workers
      ensures Valid() && !running
      ensures forall w | w in old(workers) :: !w.running
    {
      if !running { return; }
      var local := workers;
      for i := 0 to |local|
        invariant workers == local && running
        invariant forall k | 0 <= k < i :: !local[k].running
      {
        local[i].Stop();
      }
      workers, running := [], false;
    }

    // No two running workers share a consumer name.
    lemma NamesDistinct(i: nat, k: nat)
      requires Valid() && i < |workers| && k < |workers|
      requires workers[i].consumerName == workers[k].consumerName
      ensures i == k
    {
      ConsumerNamesDistinct(consumerPrefix, i, k);
    }
  }
}
