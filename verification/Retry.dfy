/** Retrying a send with growing delays, and the rate-limited calls a retried send is made of. */
module Retries {
  import opened Options
  import opened BucketSpec
  import opened TokenBuckets

  datatype Attempt<E> = Succeeded | Failed(error: E)

  datatype Outcome<E> = Sent | GaveUp(error: E) | Cancelled

  /** Delays are in nanoseconds. */
  datatype RetryOptions = RetryOptions(maxAttempts: int, baseDelay: int)

  const DefaultRetryOptions := RetryOptions(3, 500_000_000)

  function Filled(opts: Option<RetryOptions>): RetryOptions {
    var o := if opts == None then DefaultRetryOptions else opts.value;
    RetryOptions(if o.maxAttempts <= 0 then 3 else o.maxAttempts, if o.baseDelay <= 0 then 500_000_000 else o.baseDelay)
  }

  /** Three attempts and half a second, for missing options and for settings that are not positive. */
  lemma FilledMeaning(opts: Option<RetryOptions>)
    ensures opts == None ==> Filled(opts) == RetryOptions(3, 500_000_000)
    ensures opts.Some? ==> Filled(opts).maxAttempts == (if opts.value.maxAttempts > 0 then opts.value.maxAttempts else 3)
    ensures opts.Some? ==> Filled(opts).baseDelay == (if opts.value.baseDelay > 0 then opts.value.baseDelay else 500_000_000)
  {
  }

  function Pow3(n: nat): nat {
    if n == 0 then 1 else 3 * Pow3(n - 1)
  }

  /** Attempt k is the last: it succeeded, its error is not worth another, there are no more, or the
      context is cancelled while waiting for the next. */
  predicate Last<E>(r: Attempt<E>, k: nat, retryable: E -> bool, max: int, cancelled: bool) {
    r == Succeeded || k >= max || !retryable(r.error) || cancelled
  }

  function Result<E>(r: Attempt<E>, k: nat, retryable: E -> bool, max: int): Outcome<E> {
    if r == Succeeded then Sent
    else if k >= max || !retryable(r.error) then GaveUp(r.error)
    else Cancelled
  }

  /** `attempts` are the numbers the operation was called with, `waited` the delays between them. */
  method Retry<E>(op: nat -> Attempt<E>, retryable: E -> bool, cancelled: nat -> bool, opts: Option<RetryOptions>)
    returns (outcome: Outcome<E>, attempts: seq<nat>, waited: int)
    ensures 1 <= |attempts| <= Filled(opts).maxAttempts
    ensures forall i :: 0 <= i < |attempts| ==> attempts[i] == i + 1
    ensures Last(op(|attempts|), |attempts|, retryable, Filled(opts).maxAttempts, cancelled(|attempts|))
    ensures forall k: nat :: 1 <= k < |attempts| ==> !Last(op(k), k, retryable, Filled(opts).maxAttempts, cancelled(k))
    ensures outcome == Result(op(|attempts|), |attempts|, retryable, Filled(opts).maxAttempts)
    ensures outcome == Sent <==> op(|attempts|) == Succeeded
    ensures outcome.GaveUp? ==>
      op(|attempts|) == Failed(outcome.error) && (|attempts| == Filled(opts).maxAttempts || !retryable(outcome.error))
    ensures outcome == Cancelled ==>
      cancelled(|attempts|) && op(|attempts|).Failed? && |attempts| < Filled(opts).maxAttempts && retryable(op(|attempts|).error)
    ensures 2 * waited == Filled(opts).baseDelay * (Pow3(|attempts| - 1) - 1)
  {
    var o := if opts == None then DefaultRetryOptions else opts.value;
    var max := o.maxAttempts;
    if max <= 0 {
      max := 3;
    }
    var base := o.baseDelay;
    if base <= 0 {
      base := 500_000_000;
    }
    attempts, waited := [], 0;
    var attempt := 1;
    while true
      invariant 1 <= attempt <= max && |attempts| == attempt - 1
      invariant forall i :: 0 <= i < |attempts| ==> attempts[i] == i + 1
      invariant forall k: nat :: 1 <= k < attempt ==> !Last(op(k), k, retryable, max, cancelled(k))
      invariant 2 * waited == base * (Pow3(attempt - 1) - 1)
      decreases max - attempt
    {
      attempts := attempts + [attempt];
      var err := op(attempt);
      if err == Succeeded {
        return Sent, attempts, waited;
      }
      if attempt >= max || !retryable(err.error) {
        return GaveUp(err.error), attempts, waited;
      }
      if cancelled(attempt) {
        return Cancelled, attempts, waited;
      }
      DelaySum(base, attempt);
      waited := waited + base * Pow3(attempt - 1);
      attempt := attempt + 1;
    }
  }

  lemma DelaySum(base: int, k: nat)
    requires k >= 1
    ensures base * (Pow3(k - 1) - 1) + 2 * (base * Pow3(k - 1)) == base * (Pow3(k) - 1)
  {
    assert Pow3(k) == 3 * Pow3(k - 1);
  }

  // ---------- calls ----------

  /** What an HTTP call comes to: it may fail before it is made, for want of an access token. */
  datatype Reply<E> = Fine | Unmade(error: E) | Refused(error: E, qpsLimit: bool)

  /** What a send leaves behind: the tokens it was granted, and its HTTP calls. */
  datatype Entry = Grant(at: real) | Http(at: real)

  function AttemptOf<E>(r: Reply<E>): Attempt<E> {
    if r.Fine? then Succeeded else Failed(r.error)
  }

  function Calls(log: seq<Entry>): nat {
    if log == [] then 0 else (if log[0].Http? then 1 else 0) + Calls(log[1..])
  }

  function GrantsOf(log: seq<Entry>): seq<real> {
    if log == [] then [] else (if log[0].Grant? then [log[0].at] else []) + GrantsOf(log[1..])
  }

  /** Every call follows its own grant. */
  predicate Paid(log: seq<Entry>) {
    if log == [] then true
    else if log[0].Http? then false
    else if |log| > 1 && log[1].Http? then log[1].at == log[0].at && Paid(log[2..])
    else Paid(log[1..])
  }

  lemma {:induction false} CallsConcat(a: seq<Entry>, b: seq<Entry>)
    ensures Calls(a + b) == Calls(a) + Calls(b)
  {
    AppendUnfolds(a, b);
    if a != [] {
      CallsConcat(a[1..], b);
    }
  }

  lemma {:induction false} GrantsConcat(a: seq<Entry>, b: seq<Entry>)
    ensures GrantsOf(a + b) == GrantsOf(a) + GrantsOf(b)
  {
    AppendUnfolds(a, b);
    if a != [] {
      GrantsConcat(a[1..], b);
    }
  }

  lemma {:induction false} PaidConcat(a: seq<Entry>, b: seq<Entry>)
    requires Paid(a) && Paid(b)
    ensures Paid(a + b)
    decreases |a|
  {
    AppendUnfolds(a, b);
    if a != [] {
      if |a| > 1 && a[1].Http? {
        PaidConcat(a[2..], b);
        assert (a + b)[1] == a[1] && (a + b)[2..] == a[2..] + b;
      } else {
        PaidConcat(a[1..], b);
        if |a| > 1 {
          assert (a + b)[1] == a[1];
        }
      }
    }
  }

  /** In any window there are no more calls than grants. */
  function CallsIn(log: seq<Entry>, t1: real, t2: real): nat {
    if log == [] then 0 else (if log[0].Http? && t1 <= log[0].at <= t2 then 1 else 0) + CallsIn(log[1..], t1, t2)
  }

  lemma {:induction false} PaidCalls(log: seq<Entry>, t1: real, t2: real)
    requires Paid(log)
    ensures CallsIn(log, t1, t2) <= CountIn(GrantsOf(log), t1, t2)
    decreases |log|
  {
    if log != [] {
      var g := log[0].at;
      assert forall rest: seq<real> {:trigger [g] + rest} :: ([g] + rest)[0] == g && ([g] + rest)[1..] == rest;
      if |log| > 1 && log[1].Http? {
        PaidCalls(log[2..], t1, t2);
        assert log[1..][1..] == log[2..];
        assert [] + GrantsOf(log[2..]) == GrantsOf(log[2..]);
      } else {
        PaidCalls(log[1..], t1, t2);
      }
    }
  }

  /** How the two waits of a call are timed; see TokenBucket.WaitFor. */
  datatype Waits = Waits(late: nat -> real, patience: nat)

  ghost predicate Forward(w: Waits) {
    forall i :: w.late(i) >= 0.0
  }

  /** One call: wait for a token; on a QPS refusal back off, wait again and call once more. `es` is
      the call's part of the bucket's run, and the grants of the log are the tokens that run grants. */
  method CallRaw<E>(bucket: TokenBucket, start: real, w1: Waits, w2: Waits, first: Reply<E>, second: Reply<E>, cancelError: E)
    returns (result: Attempt<E>, now: real, log: seq<Entry>, ghost es: seq<Event>)
    requires Sane(bucket.View(), bucket.rate, start) && Forward(w1) && Forward(w2)
    modifies bucket
    ensures Leads(old(bucket.View()), es, bucket.rate, start, bucket.View(), now, GrantsOf(log)) && now >= start
    ensures Paid(log) && Calls(log) <= 2
    ensures Calls(log) == 2 ==>
      first.Refused? && first.qpsLimit && |log| == 4 && log[3].at >= log[1].at + 2.0
    ensures result == Succeeded ==> Calls(log) >= 1
    ensures bucket.rate >= 1.0 && w1.patience >= 2 && w2.patience >= 2 ==>
      result == AttemptOf(if first.Refused? && first.qpsLimit then second else first)
    ensures bucket.rate < 1.0 ==> log == [] && result == Failed(cancelError)
  {
    hide Leads, Paid, Calls, GrantsOf, Sane;
    ghost var b0, rate := bucket.View(), bucket.rate;
    var granted, sleeps;
    granted, now, sleeps, es := bucket.WaitFor(start, w1.late, w1.patience);
    EmptyLog();
    if !granted {
      return Failed(cancelError), now, [], es;
    }
    log := LogCall(first, now);
    if !(first.Refused? && first.qpsLimit) {
      return AttemptOf(first), now, log, es;
    }
    var before := now;
    ghost var b1 := bucket.View();
    bucket.TriggerBackoff(now);
    ghost var b2 := bucket.View();
    BackingOff(b0, es, rate, start, b1, now, [now]);
    ghost var es1 := es + [BacksOff(now)];
    ghost var more;
    granted, now, sleeps, more := bucket.WaitFor(now, w2.late, w2.patience);
    LeadsOn(b0, es1, rate, start, b2, before, [before], more, bucket.View(), now, if granted then [now] else []);
    es := es1 + more;
    if !granted {
      assert [before] + [] == [before];
      return Failed(cancelError), now, log, es;
    }
    var again := LogCall(second, now);
    CallsConcat(log, again);
    GrantsConcat(log, again);
    PaidConcat(log, again);
    log := log + again;
    return AttemptOf(second), now, log, es;
  }

  lemma EmptyLog()
    ensures Calls([]) == 0 && GrantsOf([]) == [] && Paid([])
  {
  }

  lemma BackingOff(b: Bucket, es: seq<Event>, rate: real, start: real, b1: Bucket, now: real, granted: seq<real>)
    requires Leads(b, es, rate, start, b1, now, granted)
    ensures Leads(b, es + [BacksOff(now)], rate, start, Backoff(now), now, granted) && Sane(Backoff(now), rate, now)
  {
    LeadsByOne(b1, BacksOff(now), rate, now);
    LeadsOn(b, es, rate, start, b1, now, granted, [BacksOff(now)], Backoff(now), now, []);
    assert granted + [] == granted;
  }

  lemma OneEntry(e: Entry)
    ensures Calls([e]) == (if e.Http? then 1 else 0) && GrantsOf([e]) == if e.Grant? then [e.at] else []
    ensures e.Grant? ==> Paid([e])
  {
    var rest := [e][1..];
    assert rest == [];
    assert Calls(rest) == 0 && GrantsOf(rest) == [] && Paid(rest);
  }

  /** The log of one granted call. */
  method LogCall<E>(r: Reply<E>, now: real) returns (log: seq<Entry>)
    ensures log == [Grant(now)] + if r.Unmade? then [] else [Http(now)]
    ensures Paid(log) && GrantsOf(log) == [now] && Calls(log) == if r.Unmade? then 0 else 1
  {
    log := [Grant(now)];
    OneEntry(Grant(now));
    if !r.Unmade? {
      OneEntry(Http(now));
      CallsConcat(log, [Http(now)]);
      GrantsConcat(log, [Http(now)]);
      log := log + [Http(now)];
      assert log[2..] == [];
    }
  }

  // ---------- a retried send ----------

  /** What attempt k meets: its two replies and waits, how late its backoff timer fires, and whether
      the context is cancelled during that backoff. */
  datatype World<E> = World(first: Reply<E>, second: Reply<E>, w1: Waits, w2: Waits, late: real, cancelled: bool)

  /** The first k delays together; Retry sums them up as base * (3^k - 1) / 2. */
  function Delays(base: nat, k: nat): nat {
    if k == 0 then 0 else Delays(base, k - 1) + base * Pow3(k - 1)
  }

  lemma {:induction false} DelaysInAll(base: nat, k: nat)
    ensures 2 * Delays(base, k) == base * (Pow3(k) - 1)
  {
    if k > 0 {
      DelaysInAll(base, k - 1);
      DelaySum(base, k);
    }
  }

  lemma NoDelay(base: nat)
    ensures Seconds(Delays(base, 0)) == 0.0
  {
  }

  function Seconds(nanos: nat): real { nanos as real / 1_000_000_000.0 }

  /** A retried send over one bucket: it stops as Retry does, and its HTTP calls, at most two an
      attempt, each use up a token the bucket granted to it. */
  method Send<E>(bucket: TokenBucket, start: real, world: nat -> World<E>, retryable: E -> bool, opts: Option<RetryOptions>, cancelError: E)
    returns (outcome: Outcome<E>, now: real, log: seq<Entry>, results: seq<Attempt<E>>, ghost es: seq<Event>)
    requires Sane(bucket.View(), bucket.rate, start)
    requires forall k :: Forward(world(k).w1) && Forward(world(k).w2) && world(k).late >= 0.0
    modifies bucket
    ensures Leads(old(bucket.View()), es, bucket.rate, start, bucket.View(), now, GrantsOf(log))
    ensures Paid(log) && Calls(log) <= 2 * |results| && 1 <= |results| <= Filled(opts).maxAttempts
    ensures var max, k := Filled(opts).maxAttempts, |results|;
      && Last(results[k - 1], k, retryable, max, world(k).cancelled)
      && (forall i :: 0 <= i < k - 1 ==> !Last(results[i], i + 1, retryable, max, world(i + 1).cancelled))
      && outcome == Result(results[k - 1], k, retryable, max)
      && (outcome == Sent <==> results[k - 1] == Succeeded)
      && (outcome.GaveUp? ==> results[k - 1] == Failed(outcome.error) && (k == max || !retryable(outcome.error)))
      && (outcome == Cancelled ==> world(k).cancelled && results[k - 1].Failed? && k < max && retryable(results[k - 1].error))
    ensures now >= start + Seconds(Delays(Filled(opts).baseDelay, |results| - 1))
    ensures outcome == Sent ==> Calls(log) >= 1
    ensures bucket.rate < 1.0 ==> log == [] && outcome != Sent
  {
    hide Leads, Paid, Calls, GrantsOf, Sane, Forward, Seconds, Delays;
    NoDelay(Filled(opts).baseDelay);
    var max, base := Filled(opts).maxAttempts, Filled(opts).baseDelay;
    ghost var b0, rate := bucket.View(), bucket.rate;
    now, log, results, es := start, [], [], [];
    EmptyLog();
    LeadsNowhere(b0, rate, start);
    while true
      invariant |results| < max
      invariant Leads(b0, es, rate, start, bucket.View(), now, GrantsOf(log)) && Sane(bucket.View(), rate, now)
      invariant Paid(log) && Calls(log) <= 2 * |results|
      invariant forall i :: 0 <= i < |results| ==> !Last(results[i], i + 1, retryable, max, world(i + 1).cancelled)
      invariant now >= start + Seconds(Delays(base, |results|))
      invariant rate < 1.0 ==> log == []
      decreases max - |results|
    {
      var attempt := |results| + 1;
      var w := world(attempt);
      ghost var b1, t1 := bucket.View(), now;
      var err, calls;
      ghost var more;
      err, now, calls, more := CallRaw(bucket, now, w.w1, w.w2, w.first, w.second, cancelError);
      LeadsOn(b0, es, rate, start, b1, t1, GrantsOf(log), more, bucket.View(), now, GrantsOf(calls));
      CallsConcat(log, calls);
      GrantsConcat(log, calls);
      PaidConcat(log, calls);
      log, es, results := log + calls, es + more, results + [err];
      if err == Succeeded {
        return Sent, now, log, results, es;
      }
      if attempt >= max || !retryable(err.error) {
        return GaveUp(err.error), now, log, results, es;
      }
      if w.cancelled {
        return Cancelled, now, log, results, es;
      }
      Wait(b0, es, rate, start, bucket.View(), now, GrantsOf(log), base, attempt, w.late);
      now := now + Seconds(base * Pow3(attempt - 1)) + w.late;
    }
  }

  lemma Wait(b0: Bucket, es: seq<Event>, rate: real, start: real, b: Bucket, now: real, granted: seq<real>, base: nat, attempt: nat, late: real)
    requires Leads(b0, es, rate, start, b, now, granted) && attempt >= 1 && late >= 0.0
    ensures Seconds(Delays(base, attempt)) == Seconds(Delays(base, attempt - 1)) + Seconds(base * Pow3(attempt - 1))
    ensures var later := now + Seconds(base * Pow3(attempt - 1)) + late;
      Leads(b0, es, rate, start, b, later, granted) && Sane(b, rate, later)
  {
    assert Seconds(base * Pow3(attempt - 1)) >= 0.0;
    LeadsLater(b0, es, rate, start, b, now, granted, now + Seconds(base * Pow3(attempt - 1)) + late);
  }

  /** So in any window a send makes no more HTTP calls than the bucket grants in it: the rate plus
      what it earns. */
  lemma SendWithinRate(b: Bucket, es: seq<Event>, rate: real, start: real, b': Bucket, now: real, log: seq<Entry>, t1: real, t2: real)
    requires Sane(b, rate, start) && Leads(b, es, rate, start, b', now, GrantsOf(log)) && Paid(log) && t1 <= t2
    ensures CallsIn(log, t1, t2) <= GrantedIn(b, es, rate, t1, t2)
    ensures CallsIn(log, t1, t2) as real <= rate + rate * (t2 - t1)
  {
    PaidCalls(log, t1, t2);
    GrantedIsCount(b, es, rate, t1, t2);
    WindowBound(b, es, rate, start, t1, t2);
  }
}
