/** The older cache, the newer one and the ideal they stand for, on the same runs of checks and
    sweeps. */
module DedupAgreement {
  import opened Options
  import opened Recency
  import opened SeenRuns
  import opened Dedupers

  /** SeenCache on one event: check, and mark on a miss. */
  function NewStep(t: Trace, e: Event, ttl: int, max: nat): (Trace, bool) {
    match e
    case Check(keys, now) =>
      var (t', dup) := LookUp(t, keys, now);
      (if dup then t' else MarkKeys(t', keys, now, ttl, max), dup)
    case Tick(now, _) => (t.(list := Sweep(t.list, now)), false)
  }

  /** That is what SeenCache.CheckAndMark does when both its halves read the clock at once. */
  lemma NewStepIsCheckAndMark(t: Trace, keys: seq<Key>, now: int, ttl: int, max: nat)
    ensures var (s, hit) := Has(t.list, keys, now);
      var (t', dup) := NewStep(t, Check(keys, now), ttl, max);
      dup == hit.Some? && t'.list == if dup then s else AddAll(s, keys, now + ttl, max)
  {
    MarkKeysMarks(LookUp(t, keys, now).0, keys, now, ttl, max);
  }

  /** The promise: a check is a duplicate exactly when one of its keys was marked less than TTL
      ago. Nothing is ever forgotten. */
  ghost function IdealStep(marks: map<Key, int>, e: Event, ttl: int): (map<Key, int>, bool) {
    match e
    case Check(keys, now) =>
      var dup := MarkedWithin(marks, keys, now, ttl);
      (if dup then marks else MarkAll(marks, keys, now), dup)
    case Tick(_, _) => (marks, false)
  }

  ghost function NewAnswers(t: Trace, es: seq<Event>, ttl: int, max: nat): seq<bool>
    decreases |es|
  {
    if es == [] then []
    else var (t', a) := NewStep(t, es[0], ttl, max); [a] + NewAnswers(t', es[1..], ttl, max)
  }

  ghost function OldAnswers(o: Old, es: seq<Event>, ttl: int, max: nat): seq<bool>
    decreases |es|
  {
    if es == [] then []
    else var (o', a) := OldStep(o, es[0], ttl, max); [a] + OldAnswers(o', es[1..], ttl, max)
  }

  ghost function IdealAnswers(marks: map<Key, int>, es: seq<Event>, ttl: int): seq<bool>
    decreases |es|
  {
    if es == [] then []
    else var (m', a) := IdealStep(marks, es[0], ttl); [a] + IdealAnswers(m', es[1..], ttl)
  }

  /** No event happens exactly TTL after one of the given times, or after an earlier event. */
  ghost predicate OffBoundary(times: set<int>, es: seq<Event>, ttl: int)
    decreases |es|
  {
    es == [] || (es[0].now - ttl !in times && OffBoundary(times + {es[0].now}, es[1..], ttl))
  }

  ghost function NonEmptyKeys(keys: seq<Key>): set<Key> {
    set k | k in keys && k != ""
  }

  /** Neither cache goes over its bound at this event: what it holds and what a miss adds fit. */
  ghost predicate FitsNow(t: Trace, o: Old, e: Event, ttl: int, newMax: nat, oldMax: nat) {
    e.Check? ==>
      && (!LookUp(t, e.keys, e.now).1 ==> |Expiry(LookUp(t, e.keys, e.now).0.list).Keys + NonEmptyKeys(e.keys)| <= newMax)
      && (!Hit(o.seen, e.keys, e.now, ttl) ==> |MarkAll(o.seen, e.keys, e.now)| <= oldMax)
  }

  ghost predicate Fits(t: Trace, o: Old, es: seq<Event>, ttl: int, newMax: nat, oldMax: nat)
    decreases |es|
  {
    es == [] ||
    (FitsNow(t, o, es[0], ttl, newMax, oldMax)
     && Fits(NewStep(t, es[0], ttl, newMax).0, OldStep(o, es[0], ttl, oldMax).0, es[1..], ttl, newMax, oldMax))
  }

  ghost predicate KeysFrom(es: seq<Event>, u: set<Key>) {
    forall e, k :: e in es && e.Check? && k in e.keys && k != "" ==> k in u
  }

  /** How the three states correspond; `max` is a bound the new cache never reaches. */
  ghost predicate Agree(t: Trace, seen: map<Key, int>, marks: map<Key, int>, times: set<int>, clock: int, ttl: int, max: nat, u: set<Key>) {
    && Inv(t, clock, ttl, max) && Within(t, u) && t.marks == marks
    && (forall k :: k in seen ==> k in marks && seen[k] == marks[k])
    && (forall k :: k in marks && k !in seen ==> clock - marks[k] > ttl)
    && (forall k :: k in marks ==> marks[k] in times)
  }

  lemma {:induction false} AgreeStep(t: Trace, o: Old, marks: map<Key, int>, e: Event,
                  times: set<int>, clock: int, ttl: int, max: nat, u: set<Key>, newMax: nat, oldMax: nat)
    requires Agree(t, o.seen, marks, times, clock, ttl, max, u) && clock <= e.now && KeysFrom([e], u)
    requires 0 < max && |u| <= max && newMax <= max && ttl > 0 && e.now - ttl !in times
    requires FitsNow(t, o, e, ttl, newMax, oldMax)
    ensures NewStep(t, e, ttl, newMax).1 == OldStep(o, e, ttl, oldMax).1 == IdealStep(marks, e, ttl).1
    ensures Agree(NewStep(t, e, ttl, newMax).0, OldStep(o, e, ttl, oldMax).0.seen, IdealStep(marks, e, ttl).0,
                  times + {e.now}, e.now, ttl, max, u)
  {
    Later(t, clock, e.now, ttl, max);
    match e
    case Tick(now, _) =>
      SweepKeeps(t, now, ttl, max);
    case Check(keys, now) =>
      assert forall k :: k in keys && k != "" ==> k in u by { assert e in [e]; }
      CheckAgrees(t, o, marks, keys, times, now, clock, ttl, max, u);
      if !LookUp(t, keys, now).1 {
        var t' := LookUp(t, keys, now).0;
        MarkFits(t', keys, now, ttl, newMax, max);
        AgreeMark(t', o.seen, marks, keys, times, now, ttl, max, u);
      }
  }

  lemma CheckAgrees(t: Trace, o: Old, marks: map<Key, int>, keys: seq<Key>,
                    times: set<int>, now: int, clock: int, ttl: int, max: nat, u: set<Key>)
    requires Agree(t, o.seen, marks, times, clock, ttl, max, u) && Inv(t, now, ttl, max) && clock <= now
    requires (forall k :: k in keys && k != "" ==> k in u) && |u| <= max && now - ttl !in times
    ensures LookUp(t, keys, now).1 == Hit(o.seen, keys, now, ttl) == MarkedWithin(marks, keys, now, ttl)
    ensures Agree(LookUp(t, keys, now).0, o.seen, marks, times, now, ttl, max, u)
  {
    LookExact(t, keys, now, clock, ttl, max, u);
    LookKeeps(t, keys, now, ttl, max);
    LookWithin(t, keys, now, u);
    HitAgrees(o.seen, marks, keys, times, now, clock, ttl);
  }

  lemma {:induction false} AgreeMark(t: Trace, seen: map<Key, int>, marks: map<Key, int>, keys: seq<Key>,
                  times: set<int>, now: int, ttl: int, max: nat, u: set<Key>)
    requires Agree(t, seen, marks, times, now, ttl, max, u) && 0 < max
    requires forall k :: k in keys && k != "" ==> k in u
    ensures Agree(MarkKeys(t, keys, now, ttl, max), MarkAll(seen, keys, now), MarkAll(marks, keys, now),
                  times + {now}, now, ttl, max, u)
  {
    MarkKeeps(t, keys, now, ttl, max);
    MarkWithin(t, keys, now, ttl, max, u);
    MarkKeysMarks(t, keys, now, ttl, max);
    MarkAllMeaning(marks, keys, now);
    MarkAllMeaning(seen, keys, now);
  }

  /** A mark that fits does not depend on the bound. */
  lemma {:induction false} MarkFits(t: Trace, keys: seq<Key>, now: int, ttl: int, newMax: nat, max: nat)
    requires NoDup(t.list) && newMax <= max
    requires |Expiry(t.list).Keys + NonEmptyKeys(keys)| <= newMax
    ensures MarkKeys(t, keys, now, ttl, newMax) == MarkKeys(t, keys, now, ttl, max)
    decreases |keys|
  {
    if keys != [] {
      var k := keys[0];
      hide AddOne, NoDup, Expiry;
      MoreKeys(Expiry(t.list).Keys, keys);
      if k == "" {
        MarkFits(t, keys[1..], now, ttl, newMax, max);
      } else {
        AddFits(t.list, k, now + ttl, newMax, max);
        MarkFits(MarkKey(t, k, now, ttl, max), keys[1..], now, ttl, newMax, max);
      }
    }
  }

  lemma MoreKeys(held: set<Key>, keys: seq<Key>)
    requires keys != []
    ensures keys[0] == "" ==> held + NonEmptyKeys(keys) == held + NonEmptyKeys(keys[1..])
    ensures keys[0] != "" ==>
      && held + NonEmptyKeys(keys) == held + {keys[0]} + NonEmptyKeys(keys[1..])
      && |held + {keys[0]}| <= |held + NonEmptyKeys(keys)|
  {
    if keys[0] != "" {
      SubsetSize(held + {keys[0]}, held + NonEmptyKeys(keys));
    }
  }

  lemma AddFits(s: Entries, k: Key, expiresAt: int, newMax: nat, max: nat)
    requires NoDup(s) && newMax <= max && |Expiry(s).Keys + {k}| <= newMax
    ensures var r := AddOne(s, k, expiresAt, max);
      r == AddOne(s, k, expiresAt, newMax) && NoDup(r) && Expiry(r).Keys == Expiry(s).Keys + {k}
  {
    LookupIsMap(s, k);
    if k in Expiry(s) {
      AddHeld(s, k, expiresAt, newMax);
      AddHeld(s, k, expiresAt, max);
    } else {
      SizeIsLength(s);
      AddNew(s, k, expiresAt, newMax);
      AddNew(s, k, expiresAt, max);
    }
  }

  lemma {:induction false} AddHeld(s: Entries, k: Key, expiresAt: int, max: nat)
    requires NoDup(s) && k in Expiry(s) && IndexOf(s, k) < |s|
    ensures var r := AddOne(s, k, expiresAt, max);
      r == [Entry(k, expiresAt)] + Without(s, IndexOf(s, k)) && NoDup(r) && Expiry(r).Keys == Expiry(s).Keys + {k}
  {
    var i := IndexOf(s, k);
    WithoutEntry(s, i);
    hide NoDup, Expiry;
    Prepend(Without(s, i), k, expiresAt);
  }

  lemma AddNew(s: Entries, k: Key, expiresAt: int, max: nat)
    requires NoDup(s) && k !in Expiry(s) && IndexOf(s, k) == |s| < max
    ensures var r := AddOne(s, k, expiresAt, max);
      r == [Entry(k, expiresAt)] + s && NoDup(r) && Expiry(r).Keys == Expiry(s).Keys + {k}
  {
    hide NoDup, Expiry;
    Prepend(s, k, expiresAt);
  }

  lemma Prepend(s: Entries, k: Key, expiresAt: int)
    requires NoDup(s) && k !in Expiry(s)
    ensures var r := [Entry(k, expiresAt)] + s; NoDup(r) && Expiry(r) == Expiry(s)[k := expiresAt]
  {
    assert ([Entry(k, expiresAt)] + s)[1..] == s;
  }

  lemma HitAgrees(seen: map<Key, int>, marks: map<Key, int>, keys: seq<Key>, times: set<int>, now: int, clock: int, ttl: int)
    requires forall k :: k in seen ==> k in marks && seen[k] == marks[k]
    requires forall k :: k in marks && k !in seen ==> clock - marks[k] > ttl
    requires forall k :: k in marks ==> marks[k] in times
    requires clock <= now && now - ttl !in times
    ensures Hit(seen, keys, now, ttl) <==> MarkedWithin(marks, keys, now, ttl)
  {
    if Hit(seen, keys, now, ttl) {
      var k :| k in keys && k != "" && k in seen && now - seen[k] <= ttl;
      assert k in marks && now - marks[k] < ttl;
    }
    if MarkedWithin(marks, keys, now, ttl) {
      var k :| k in keys && k != "" && k in marks && now - marks[k] < ttl;
      assert k in seen;
    }
  }

  lemma {:induction false} AgreeRun(t: Trace, o: Old, marks: map<Key, int>, es: seq<Event>, times: set<int>,
                                    clock: int, ttl: int, max: nat, u: set<Key>, newMax: nat, oldMax: nat)
    requires Agree(t, o.seen, marks, times, clock, ttl, max, u)
    requires InOrder(es, clock) && OffBoundary(times, es, ttl) && KeysFrom(es, u)
    requires 0 < max && |u| <= max && newMax <= max && ttl > 0
    requires Fits(t, o, es, ttl, newMax, oldMax)
    ensures NewAnswers(t, es, ttl, newMax) == OldAnswers(o, es, ttl, oldMax) == IdealAnswers(marks, es, ttl)
    decreases |es|
  {
    if es != [] {
      hide NewStep, OldStep, IdealStep, Agree, FitsNow;
      var e := es[0];
      assert e in es;
      assert forall x :: x in es[1..] ==> x in es;
      AgreeStep(t, o, marks, e, times, clock, ttl, max, u, newMax, oldMax);
      AgreeRun(NewStep(t, e, ttl, newMax).0, OldStep(o, e, ttl, oldMax).0, IdealStep(marks, e, ttl).0,
               es[1..], times + {e.now}, e.now, ttl, max, u, newMax, oldMax);
    }
  }

  ghost function AllKeys(es: seq<Event>): set<Key> {
    if es == [] then {} else (if es[0].Check? then NonEmptyKeys(es[0].keys) else {}) + AllKeys(es[1..])
  }

  lemma {:induction false} KeysFromAll(es: seq<Event>)
    ensures KeysFrom(es, AllKeys(es))
  {
    if es != [] {
      KeysFromAll(es[1..]);
    }
  }

  /** On any run of checks and sweeps on which neither cache goes over its bound, and that asks
      nothing exactly TTL after an earlier event, the old cache, the new cache and the promise give
      the same answers, in whatever order the old cache's sweeps walk its map. */
  lemma CachesAgree(es: seq<Event>, clock: int, ttl: int, newMax: nat, oldMax: nat)
    requires InOrder(es, clock) && OffBoundary({}, es, ttl) && ttl > 0
    requires Fits(Start, Old([], map[]), es, ttl, newMax, oldMax)
    ensures NewAnswers(Start, es, ttl, newMax) == OldAnswers(Old([], map[]), es, ttl, oldMax) == IdealAnswers(map[], es, ttl)
  {
    var u := AllKeys(es);
    KeysFromAll(es);
    AgreeRun(Start, Old([], map[]), map[], es, {}, clock, ttl, |u| + newMax + 1, u, newMax, oldMax);
  }

  /** At the boundary the two part: from the same marks they answer differently exactly when some
      key was marked exactly TTL ago and none more recently. */
  lemma BoundaryIsTheDifference(marks: map<Key, int>, keys: seq<Key>, now: int, ttl: int)
    ensures Hit(marks, keys, now, ttl) != MarkedWithin(marks, keys, now, ttl)
       <==> (exists k :: k in keys && k != "" && k in marks && now - marks[k] == ttl)
            && !MarkedWithin(marks, keys, now, ttl)
  {
    if MarkedWithin(marks, keys, now, ttl) {
      var k :| k in keys && k != "" && k in marks && now - marks[k] < ttl;
      assert Hit(marks, keys, now, ttl);
    }
  }
}
