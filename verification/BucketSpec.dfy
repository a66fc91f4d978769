/** A token bucket with backoff, on real numbers: seconds and tokens. */
module BucketSpec {
  const BackoffSpan := 2.0

  datatype Bucket = Bucket(tokens: real, lastRefill: real, backoffEnd: real)

  /** What one pass of a waiter's loop comes to. */
  datatype Turn = Granted | SleepFor(span: real)

  function Full(rate: real, now: real): Bucket {
    Bucket(rate, now, now)
  }

  function Min(a: real, b: real): real { if a <= b then a else b }

  /** Tokens earned in a span, and the span it takes to earn tokens. */
  function Earned(span: real, rate: real): real { span * rate }

  function SpanFor(tokens: real, rate: real): real
    requires rate > 0.0
  {
    tokens / rate
  }

  function Refill(b: Bucket, rate: real, now: real): Bucket {
    if now > b.lastRefill then b.(tokens := Min(b.tokens + Earned(now - b.lastRefill, rate), rate), lastRefill := now)
    else b
  }

  function Take(b: Bucket, rate: real, now: real): (Bucket, Turn)
    requires rate > 0.0
  {
    if now < b.backoffEnd then (b, SleepFor(b.backoffEnd - now))
    else
      var r := Refill(b, rate, now);
      if r.tokens >= 1.0 then (r.(tokens := r.tokens - 1.0), Granted)
      else (r, SleepFor(SpanFor(1.0 - r.tokens, rate)))
  }

  function Backoff(now: real): Bucket {
    Bucket(0.0, now + BackoffSpan, now + BackoffSpan)
  }

  /** Between operations at times up to `clock`: within capacity, and refilled into the future only
      by a backoff, no further than that backoff reaches. */
  predicate Sane(b: Bucket, rate: real, clock: real) {
    && rate > 0.0 && 0.0 <= b.tokens <= rate
    && (b.lastRefill <= clock || b.lastRefill == b.backoffEnd)
    && b.lastRefill <= clock + BackoffSpan && b.backoffEnd <= clock + BackoffSpan
    && b.backoffEnd <= b.lastRefill
  }

  // ---------- runs: any number of waiters, each pass of their loops an event ----------

  datatype Event = Takes(at: real) | BacksOff(at: real)

  predicate Monotone(es: seq<Event>, clock: real)
    decreases |es|
  {
    es == [] || (es[0].at >= clock && Monotone(es[1..], es[0].at))
  }

  predicate Grants(b: Bucket, e: Event, rate: real)
    requires rate > 0.0
  {
    e.Takes? && Take(b, rate, e.at).1 == Granted
  }

  function Step(b: Bucket, e: Event, rate: real): Bucket
    requires rate > 0.0
  {
    if e.Takes? then Take(b, rate, e.at).0 else Backoff(e.at)
  }

  function Run(b: Bucket, es: seq<Event>, rate: real): Bucket
    requires rate > 0.0
    decreases |es|
  {
    if es == [] then b else Run(Step(b, es[0], rate), es[1..], rate)
  }

  /** How many tokens the run grants from t1 to t2. */
  function GrantedIn(b: Bucket, es: seq<Event>, rate: real, t1: real, t2: real): nat
    requires rate > 0.0
    decreases |es|
  {
    if es == [] then 0
    else (if Grants(b, es[0], rate) && t1 <= es[0].at <= t2 then 1 else 0) + GrantedIn(Step(b, es[0], rate), es[1..], rate, t1, t2)
  }

  /** When the run grants tokens. */
  function GrantTimes(b: Bucket, es: seq<Event>, rate: real): seq<real>
    requires rate > 0.0
    decreases |es|
  {
    if es == [] then []
    else (if Grants(b, es[0], rate) then [es[0].at] else []) + GrantTimes(Step(b, es[0], rate), es[1..], rate)
  }

  function CountIn(times: seq<real>, t1: real, t2: real): nat {
    if times == [] then 0 else (if t1 <= times[0] <= t2 then 1 else 0) + CountIn(times[1..], t1, t2)
  }

  lemma {:induction false} GrantedIsCount(b: Bucket, es: seq<Event>, rate: real, t1: real, t2: real)
    requires rate > 0.0
    ensures GrantedIn(b, es, rate, t1, t2) == CountIn(GrantTimes(b, es, rate), t1, t2)
    decreases |es|
  {
    hide Step, Grants;
    if es != [] {
      GrantedIsCount(Step(b, es[0], rate), es[1..], rate, t1, t2);
      var rest := GrantTimes(Step(b, es[0], rate), es[1..], rate);
      assert ([es[0].at] + rest)[1..] == rest;
      assert [] + rest == rest;
    }
  }

  /** Part of a bucket's run: from b at `start` to b' at `now`, with the tokens granted on the way. */
  ghost predicate Leads(b: Bucket, es: seq<Event>, rate: real, start: real, b': Bucket, now: real, granted: seq<real>) {
    && Sane(b', rate, now) && now >= start
    && Monotone(es, start) && (forall e :: e in es ==> start <= e.at <= now)
    && b' == Run(b, es, rate) && granted == GrantTimes(b, es, rate)
  }

  lemma {:induction false} MonotoneConcat(es: seq<Event>, start: real, more: seq<Event>, now: real)
    requires Monotone(es, start) && Monotone(more, now) && now >= start && forall e :: e in es ==> e.at <= now
    ensures Monotone(es + more, start)
    decreases |es|
  {
    if es == [] {
      assert es + more == more;
    } else {
      assert (es + more)[1..] == es[1..] + more;
      MonotoneConcat(es[1..], es[0].at, more, now);
    }
  }

  lemma {:induction false} RunConcat(b: Bucket, es: seq<Event>, more: seq<Event>, rate: real)
    requires rate > 0.0
    ensures Run(b, es + more, rate) == Run(Run(b, es, rate), more, rate)
    ensures GrantTimes(b, es + more, rate) == GrantTimes(b, es, rate) + GrantTimes(Run(b, es, rate), more, rate)
    decreases |es|
  {
    hide Step, Grants;
    if es == [] {
      assert es + more == more;
    } else {
      assert (es + more)[1..] == es[1..] + more;
      RunConcat(Step(b, es[0], rate), es[1..], more, rate);
    }
  }

  lemma LeadsOn(b: Bucket, es: seq<Event>, rate: real, start: real, b1: Bucket, t1: real, g1: seq<real>,
                more: seq<Event>, b2: Bucket, t2: real, g2: seq<real>)
    requires Leads(b, es, rate, start, b1, t1, g1) && Leads(b1, more, rate, t1, b2, t2, g2)
    ensures Leads(b, es + more, rate, start, b2, t2, g1 + g2)
  {
    hide Sane, Run, GrantTimes, Monotone;
    SaneRate(b2, rate, t2);
    MonotoneConcat(es, start, more, t1);
    RunConcat(b, es, more, rate);
  }

  lemma SaneRate(b: Bucket, rate: real, clock: real)
    requires Sane(b, rate, clock)
    ensures rate > 0.0
  {
  }

  /** Time passes and nothing else happens. */
  lemma LeadsLater(b: Bucket, es: seq<Event>, rate: real, start: real, b': Bucket, now: real, granted: seq<real>, later: real)
    requires Leads(b, es, rate, start, b', now, granted) && later >= now
    ensures Leads(b, es, rate, start, b', later, granted)
  {
  }

  lemma LeadsNowhere(b: Bucket, rate: real, now: real)
    requires Sane(b, rate, now)
    ensures Leads(b, [], rate, now, b, now, [])
  {
  }

  lemma LeadsByOne(b: Bucket, e: Event, rate: real, now: real)
    requires Sane(b, rate, now) && e.at == now
    ensures Leads(b, [e], rate, now, Step(b, e, rate), now, if Grants(b, e, rate) then [now] else [])
  {
    StepSane(b, e, rate, now);
    hide Step, Grants, Sane;
    assert [e][1..] == [];
    var b' := Step(b, e, rate);
    assert Run(b, [e], rate) == Run(b', [], rate) == b';
    assert GrantTimes(b', [], rate) == [];
    assert GrantTimes(b, [e], rate) == (if Grants(b, e, rate) then [e.at] else []) + GrantTimes(b', [], rate);
    assert Monotone([], now) && Monotone([e], now);
  }

  /** The potential: the most that can still be granted by time t. */
  function Budget(b: Bucket, rate: real, t: real): real {
    b.tokens + if t > b.lastRefill then Earned(t - b.lastRefill, rate) else 0.0
  }

  lemma EarnedAdds(a: real, b: real, c: real, rate: real)
    requires rate >= 0.0 && a <= b <= c
    ensures Earned(c - a, rate) == Earned(b - a, rate) + Earned(c - b, rate)
    ensures Earned(b - a, rate) >= 0.0 && Earned(c - b, rate) >= 0.0
  {
    assert (c - a) * rate == (b - a) * rate + (c - b) * rate;
  }

  lemma SpanEarns(tokens: real, rate: real)
    requires rate > 0.0 && tokens > 0.0
    ensures SpanFor(tokens, rate) > 0.0 && Earned(SpanFor(tokens, rate), rate) == tokens
  {
  }

  lemma StepSane(b: Bucket, e: Event, rate: real, clock: real)
    requires Sane(b, rate, clock) && e.at >= clock
    ensures Sane(Step(b, e, rate), rate, e.at)
  {
    hide Earned, SpanFor;
    if e.at > b.lastRefill {
      EarnedAdds(b.lastRefill, e.at, e.at, rate);
    }
  }

  lemma RefillSpends(b: Bucket, rate: real, now: real, t: real)
    requires rate > 0.0 && now <= t
    ensures Budget(Refill(b, rate, now), rate, t) <= Budget(b, rate, t)
  {
    hide Earned;
    if now > b.lastRefill {
      EarnedAdds(b.lastRefill, now, t, rate);
    }
  }

  lemma {:induction false} StepSpends(b: Bucket, e: Event, rate: real, clock: real, t: real)
    requires Sane(b, rate, clock) && clock <= e.at <= t
    ensures Budget(Step(b, e, rate), rate, t) + (if Grants(b, e, rate) then 1.0 else 0.0) <= Budget(b, rate, t)
  {
    hide Earned, SpanFor;
    if e.Takes? {
      RefillSpends(b, rate, e.at, t);
    } else if t > e.at + BackoffSpan {
      EarnedAdds(b.lastRefill, e.at + BackoffSpan, t, rate);
    } else {
      NonNegative(b, rate, t);
    }
  }

  /** No run grants more than its budget by time t. */
  lemma {:induction false} GrantsWithinBudget(b: Bucket, es: seq<Event>, rate: real, clock: real, t1: real, t: real)
    requires Sane(b, rate, clock) && Monotone(es, clock)
    ensures GrantedIn(b, es, rate, t1, t) as real <= Budget(b, rate, t)
    decreases |es|
  {
    if es != [] {
      var e := es[0];
      StepSane(b, e, rate, clock);
      GrantsWithinBudget(Step(b, e, rate), es[1..], rate, e.at, t1, t);
      if e.at <= t {
        StepSpends(b, e, rate, clock, t);
      } else {
        NothingAfter(b, es, rate, t1, t);
        NonNegative(b, rate, t);
      }
    } else {
      NonNegative(b, rate, t);
    }
  }

  lemma NonNegative(b: Bucket, rate: real, t: real)
    requires rate > 0.0 && b.tokens >= 0.0
    ensures Budget(b, rate, t) >= 0.0
  {
    hide Earned;
    if t > b.lastRefill {
      EarnedAdds(b.lastRefill, t, t, rate);
    }
  }

  lemma {:induction false} NothingAfter(b: Bucket, es: seq<Event>, rate: real, t1: real, t: real)
    requires rate > 0.0 && Monotone(es, t) && (es != [] ==> es[0].at > t)
    ensures GrantedIn(b, es, rate, t1, t) == 0
    decreases |es|
  {
    if es != [] {
      NothingAfterLater(es);
      NothingAfter(Step(b, es[0], rate), es[1..], rate, t1, t);
    }
  }

  lemma NothingAfterLater(es: seq<Event>)
    requires es != [] && Monotone(es, es[0].at)
    ensures |es| > 1 ==> es[1].at >= es[0].at
  {
  }

  lemma EarnedIs(span: real, rate: real)
    ensures Earned(span, rate) == rate * span
  {
  }

  /** On every run, in every window, however many waiters and backoffs: at most rate tokens plus
      what the rate earns in the window. */
  lemma {:induction false} WindowBound(b: Bucket, es: seq<Event>, rate: real, clock: real, t1: real, t2: real)
    requires Sane(b, rate, clock) && Monotone(es, clock) && t1 <= t2
    ensures GrantedIn(b, es, rate, t1, t2) as real <= rate + rate * (t2 - t1)
  {
    hide GrantedIn, Sane, Monotone;
    WindowEarned(b, es, rate, clock, t1, t2);
    EarnedIs(t2 - t1, rate);
  }

  lemma {:induction false} WindowEarned(b: Bucket, es: seq<Event>, rate: real, clock: real, t1: real, t2: real)
    requires Sane(b, rate, clock) && Monotone(es, clock) && t1 <= t2
    ensures GrantedIn(b, es, rate, t1, t2) as real <= rate + Earned(t2 - t1, rate)
    decreases |es|
  {
    hide Earned, SpanFor, Budget;
    EarnedAdds(t1, t2, t2, rate);
    if es != [] {
      var e := es[0];
      StepSane(b, e, rate, clock);
      if !Grants(b, e, rate) || e.at < t1 {
        WindowEarned(Step(b, e, rate), es[1..], rate, e.at, t1, t2);
      } else if e.at > t2 {
        NothingAfter(b, es, rate, t1, t2);
      } else {
        GrantsWithinBudget(b, es, rate, clock, t1, t2);
        FirstGrantInWindow(b, es, rate, clock, t1, t2);
      }
    }
  }

  lemma FirstGrantInWindow(b: Bucket, es: seq<Event>, rate: real, clock: real, t1: real, t2: real)
    requires Sane(b, rate, clock) && Monotone(es, clock) && es != []
    requires t1 <= es[0].at <= t2 && Grants(b, es[0], rate)
    ensures GrantedIn(b, es, rate, t1, t2) as real <= rate + Earned(t2 - t1, rate)
  {
    var e := es[0];
    StepSane(b, e, rate, clock);
    GrantsWithinBudget(Step(b, e, rate), es[1..], rate, e.at, t1, t2);
    FirstGrantBudget(b, rate, e.at, clock, t1, t2);
  }

  lemma FirstGrantBudget(b: Bucket, rate: real, at: real, clock: real, t1: real, t2: real)
    requires Sane(b, rate, clock) && clock <= at && t1 <= at <= t2 && Take(b, rate, at).1 == Granted
    ensures 1.0 + Budget(Take(b, rate, at).0, rate, t2) <= rate + Earned(t2 - t1, rate)
  {
    hide Earned, SpanFor;
    var r := Refill(b, rate, at);
    StepSane(b, Takes(at), rate, clock);
    EarnedAdds(t1, t2, t2, rate);
    if t2 > r.lastRefill {
      EarnedAdds(t1, r.lastRefill, t2, rate);
    }
  }

  /** After a backoff at time t nothing is granted for two seconds, and at most what the rate earns
      after that, whatever else happens. */
  lemma AfterBackoff(es: seq<Event>, rate: real, t: real, d: real)
    requires rate > 0.0 && Monotone(es, t) && d >= 0.0
    ensures GrantedIn(Backoff(t), es, rate, t, t + 2.0 + d) as real <= rate * d
    ensures GrantedIn(Backoff(t), es, rate, t, t + 2.0) == 0
  {
    hide Earned, Step, Grants, GrantedIn;
    GrantsWithinBudget(Backoff(t), es, rate, t, t, t + BackoffSpan + d);
    GrantsWithinBudget(Backoff(t), es, rate, t, t, t + BackoffSpan);
    assert (t + BackoffSpan + d) - (t + BackoffSpan) == d;
    EarnedAdds(0.0, d, d, rate);
    EarnedIs(d, rate);
    assert d - 0.0 == d;
  }

  // ---------- what a bucket gives at once ----------

  function Times(e: Event, n: nat): seq<Event> {
    if n == 0 then [] else [e] + Times(e, n - 1)
  }

  /** Takers that come at once are served as long as whole tokens last: the first floor(tokens). */
  lemma {:induction false} BurstExactly(b: Bucket, rate: real, now: real, n: nat)
    requires rate > 0.0 && b.lastRefill == now && b.backoffEnd <= now && b.tokens >= 0.0
    ensures |GrantTimes(b, Times(Takes(now), n), rate)| == if n <= b.tokens.Floor then n else b.tokens.Floor
    decreases n
  {
    if n > 0 {
      var e := Takes(now);
      assert ([e] + Times(e, n - 1))[1..] == Times(e, n - 1);
      BurstExactly(Step(b, e, rate), rate, now, n - 1);
      if b.tokens >= 1.0 {
        assert (b.tokens - 1.0).Floor == b.tokens.Floor - 1;
      }
    }
  }

  /** A bucket nobody has used for a second, and whose backoff has ended, is full. */
  lemma IdleFills(b: Bucket, rate: real, clock: real, now: real)
    requires Sane(b, rate, clock) && now >= b.lastRefill + 1.0
    ensures Refill(b, rate, now) == Bucket(rate, now, b.backoffEnd) && b.backoffEnd <= now
  {
    var span := now - b.lastRefill;
    hide Earned;
    EarnedAdds(0.0, 1.0, span, rate);
    EarnedIs(1.0, rate);
    assert 1.0 - 0.0 == 1.0 && span - 0.0 == span;
  }

  /** With a rate below one token a second the bucket never holds a whole token: no run ever grants.
      With a rate of one or more the first taker is served. */
  lemma {:induction false} SlowNeverGrants(b: Bucket, es: seq<Event>, rate: real, clock: real, t1: real, t2: real)
    requires Sane(b, rate, clock) && Monotone(es, clock) && rate < 1.0
    ensures GrantedIn(b, es, rate, t1, t2) == 0
    decreases |es|
  {
    if es != [] {
      StepSane(b, es[0], rate, clock);
      SlowNeverGrants(Step(b, es[0], rate), es[1..], rate, es[0].at, t1, t2);
    }
  }

  lemma {:induction false} EverGrants(rate: real, now: real)
    requires rate > 0.0
    ensures rate >= 1.0 <==> exists es, t2 :: Monotone(es, now) && GrantedIn(Full(rate, now), es, rate, now, t2) > 0
  {
    if rate >= 1.0 {
      FullGrants(rate, now);
    } else {
      forall es, t2 | Monotone(es, now)
        ensures GrantedIn(Full(rate, now), es, rate, now, t2) == 0
      {
        SlowNeverGrants(Full(rate, now), es, rate, now, now, t2);
      }
    }
  }

  /** The first taker of a full bucket is served. */
  lemma FullGrants(rate: real, now: real)
    requires rate >= 1.0
    ensures Monotone([Takes(now)], now) && GrantedIn(Full(rate, now), [Takes(now)], rate, now, now) == 1
  {
    var b, e := Full(rate, now), Takes(now);
    assert Grants(b, e, rate);
    assert [e][1..] == [];
    assert GrantedIn(Step(b, e, rate), [], rate, now, now) == 0;
    assert Monotone([], now);
  }

  /** Who has slept as long as told, outside a backoff, is served, if nobody else took a token. */
  lemma OneSleepSuffices(b: Bucket, rate: real, now: real, later: real)
    requires Sane(b, rate, now) && rate >= 1.0 && now >= b.backoffEnd
    requires Take(b, rate, now).1.SleepFor? && later >= now + Take(b, rate, now).1.span
    ensures later > now && Take(Take(b, rate, now).0, rate, later).1 == Granted
  {
    SleepExactly(b, rate, now, later);
    hide Earned, SpanFor;
    SpanEarns(1.0 - Refill(b, rate, now).tokens, rate);
  }

  /** The sleep is neither too long nor too short: a waiter that looks again is served exactly if it
      has slept that long; and during a backoff nobody is, whose sleep is what is left of it. */
  lemma SleepExactly(b: Bucket, rate: real, now: real, later: real)
    requires Sane(b, rate, now) && rate >= 1.0 && now <= later && Take(b, rate, now).1.SleepFor?
    ensures var (b', turn) := Take(b, rate, now);
      if now < b.backoffEnd then now + turn.span == b.backoffEnd && (later < b.backoffEnd ==> Take(b', rate, later).1 != Granted)
      else Take(b', rate, later).1 == Granted <==> later >= now + turn.span
  {
    hide Earned, SpanFor;
    if now >= b.backoffEnd {
      var r := Refill(b, rate, now);
      var span := SpanFor(1.0 - r.tokens, rate);
      SpanEarns(1.0 - r.tokens, rate);
      assert now + span - now == span;
      if later >= now + span {
        EarnedAdds(now, now + span, later, rate);
      } else if later > now {
        EarnedLess(now, later, now + span, rate);
      }
    }
  }

  /** Alone after a backoff, a waiter finds its token exactly two seconds and the time for one token
      later. */
  lemma BackoffExactly(t: real, rate: real, later: real)
    requires rate >= 1.0 && later >= t
    ensures Take(Backoff(t), rate, later).1 == Granted <==> rate * (later - (t + 2.0)) >= 1.0
  {
    EarnedIs(later - (t + 2.0), rate);
    if later < t + 2.0 {
      EarnedLess(later, later, t + 2.0, rate);
      assert (t + 2.0 - later) * rate > 0.0;
    }
  }

  lemma EarnedLess(a: real, b: real, c: real, rate: real)
    requires rate > 0.0 && a <= b < c
    ensures Earned(b - a, rate) < Earned(c - a, rate)
  {
    assert (c - a) * rate == (b - a) * rate + (c - b) * rate;
    assert (c - b) * rate > 0.0;
  }
}
