/** The global limiter of card calls, as the object its waiters share. */
module TokenBuckets {
  import opened BucketSpec

  class TokenBucket {
    const rate: real
    var tokens: real
    var lastRefill: real
    var backoffEnd: real

    ghost function View(): Bucket
      reads this
    {
      Bucket(tokens, lastRefill, backoffEnd)
    }

    constructor (rate: real, now: real)
      requires rate > 0.0
      ensures View() == Full(rate, now) && this.rate == rate && Sane(View(), rate, now)
    {
      this.rate := rate;
      tokens, lastRefill, backoffEnd := rate, now, now;
    }

    method RefillLocked(now: real)
      modifies this
      ensures View() == Refill(old(View()), rate, now)
    {
      var elapsed := now - lastRefill;
      if elapsed > 0.0 {
        tokens := tokens + Earned(elapsed, rate);
        if tokens > rate {
          tokens := rate;
        }
        lastRefill := now;
      }
    }

    method TriggerBackoff(now: real)
      modifies this
      ensures View() == Backoff(now)
    {
      backoffEnd := now + BackoffSpan;
      tokens := 0.0;
      lastRefill := backoffEnd;
    }

    /** One pass of the waiting loop, under the mutex. */
    method Poll(now: real) returns (turn: Turn)
      requires rate > 0.0
      modifies this
      ensures (View(), turn) == Take(old(View()), rate, now)
    {
      if now < backoffEnd {
        return SleepFor(backoffEnd - now);
      }
      RefillLocked(now);
      if tokens >= 1.0 {
        tokens := tokens - 1.0;
        return Granted;
      }
      return SleepFor(SpanFor(1.0 - tokens, rate));
    }

    /** A waiter that no other waiter interferes with, from time `start`. Sleep number i lasts
        late(i) longer than asked for; the context is cancelled during sleep number `patience`.
        `es` is the waiter's part of the bucket's run. */
    method WaitFor(start: real, late: nat -> real, patience: nat) returns (granted: bool, now: real, sleeps: nat, ghost es: seq<Event>)
      requires Sane(View(), rate, start)
      requires forall i :: late(i) >= 0.0
      modifies this
      ensures Leads(old(View()), es, rate, start, View(), now, if granted then [now] else [])
      ensures now >= start && (!granted ==> sleeps == patience)
      ensures !granted && rate >= 1.0 ==> patience < if start < old(backoffEnd) then 2 else 1
      ensures granted ==> now >= old(backoffEnd) && backoffEnd == old(backoffEnd)
      ensures rate >= 1.0 ==> sleeps <= if start < old(backoffEnd) then 2 else 1
      ensures rate < 1.0 ==> !granted
    {
      hide Phase, Take, Run, GrantTimes, Monotone, Leads, Sane;
      now, sleeps, es := start, 0, [];
      ghost var first := View();
      NoTurns(first, rate, start);
      while true
        invariant sleeps <= patience && Waiting(first, View(), rate, start, now, es)
        invariant Phase(View(), rate, now, sleeps, start < first.backoffEnd)
        decreases patience - sleeps
      {
        ghost var was := View();
        var turn := Poll(now);
        TurnTaken(first, was, rate, start, now, es, sleeps);
        es := es + [Takes(now)];
        if turn == Granted {
          return true, now, sleeps, es;
        }
        if sleeps == patience {
          return false, now, sleeps, es;
        }
        SleepTaken(first, was, rate, start, now, es, sleeps, now + turn.span + late(sleeps));
        now := now + turn.span + late(sleeps);
        sleeps := sleeps + 1;
      }
    }
  }

  /** A waiter at time `now`: its passes so far are a run without a grant. */
  ghost predicate Waiting(first: Bucket, b: Bucket, rate: real, start: real, now: real, es: seq<Event>) {
    Leads(first, es, rate, start, b, now, []) && Sane(b, rate, now) && now >= start && b.backoffEnd == first.backoffEnd && rate > 0.0
  }

  /** A waiter sleeps once for a backoff and, with a rate of one or more, once for a token. */
  ghost predicate Phase(b: Bucket, rate: real, now: real, sleeps: nat, backingOff: bool)
    requires rate > 0.0
  {
    && (sleeps == 0 ==> (backingOff <==> now < b.backoffEnd))
    && (sleeps >= 1 ==> now >= b.backoffEnd)
    && (rate >= 1.0 ==>
          && sleeps <= (if backingOff then 2 else 1)
          && (sleeps == (if backingOff then 2 else 1) ==> Take(b, rate, now).1 == Granted))
  }

  lemma NoTurns(b: Bucket, rate: real, start: real)
    requires Sane(b, rate, start)
    ensures Waiting(b, b, rate, start, start, []) && Phase(b, rate, start, 0, start < b.backoffEnd)
  {
    LeadsNowhere(b, rate, start);
  }

  lemma TurnTaken(first: Bucket, b: Bucket, rate: real, start: real, now: real, es: seq<Event>, sleeps: nat)
    requires Waiting(first, b, rate, start, now, es) && Phase(b, rate, now, sleeps, start < first.backoffEnd)
    ensures var (b', turn) := Take(b, rate, now);
      var es' := es + [Takes(now)];
      && Leads(first, es', rate, start, b', now, if turn == Granted then [now] else []) && b'.backoffEnd == first.backoffEnd
      && (turn == Granted ==> now >= first.backoffEnd && rate >= 1.0)
      && (turn != Granted ==> Waiting(first, b', rate, start, now, es'))
      && (rate >= 1.0 ==>
            var most := if start < first.backoffEnd then 2 else 1;
            sleeps <= most && (turn != Granted ==> sleeps < most))
  {
    var granted := if Take(b, rate, now).1 == Granted then [now] else [];
    LeadsByOne(b, Takes(now), rate, now);
    TakeKeepsBackoff(b, rate, now);
    LeadsOn(first, es, rate, start, b, now, [], [Takes(now)], Take(b, rate, now).0, now, granted);
    assert [] + granted == granted;
  }

  lemma TakeKeepsBackoff(b: Bucket, rate: real, now: real)
    requires Sane(b, rate, now)
    ensures Take(b, rate, now).0.backoffEnd == b.backoffEnd
    ensures Take(b, rate, now).1 == Granted ==> now >= b.backoffEnd && rate >= 1.0
  {
    StepSane(b, Takes(now), rate, now);
  }

  lemma SleepTaken(first: Bucket, b: Bucket, rate: real, start: real, now: real, es: seq<Event>, sleeps: nat, later: real)
    requires Sane(b, rate, now) && Phase(b, rate, now, sleeps, start < first.backoffEnd) && b.backoffEnd == first.backoffEnd
    requires var (b', turn) := Take(b, rate, now);
      turn != Granted && later >= now + turn.span && Waiting(first, b', rate, start, now, es)
    ensures Waiting(first, Take(b, rate, now).0, rate, start, later, es)
    ensures Phase(Take(b, rate, now).0, rate, later, sleeps + 1, start < first.backoffEnd)
  {
    hide Earned, SpanFor, Run, Monotone, GrantTimes, Leads;
    var (b', turn) := Take(b, rate, now);
    SleepIsForward(b, rate, now);
    LeadsLater(first, es, rate, start, b', now, [], later);
    if now >= b.backoffEnd && rate >= 1.0 {
      OneSleepSuffices(b, rate, now, later);
    }
  }

  lemma SleepIsForward(b: Bucket, rate: real, now: real)
    requires Sane(b, rate, now) && Take(b, rate, now).1.SleepFor?
    ensures Take(b, rate, now).1.span > 0.0
  {
    hide Earned, SpanFor;
    if now >= b.backoffEnd {
      SpanEarns(1.0 - Refill(b, rate, now).tokens, rate);
    }
  }
}
