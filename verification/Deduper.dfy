/** The older dedup cache: a map from key to the time of its last mark, and an order slice used
    only for eviction. */
module Dedupers {
  import opened Options
  import opened Recency
  import opened SeenRuns

  /** A query hits a key marked at most TTL ago: unlike SeenCache, exactly TTL still counts. */
  ghost predicate Hit(seen: map<Key, int>, keys: seq<Key>, now: int, ttl: int) {
    exists k :: k in keys && k != "" && k in seen && now - seen[k] <= ttl
  }

  function Unexpired(seen: map<Key, int>, now: int, ttl: int): map<Key, int> {
    map k | k in seen && now - seen[k] <= ttl :: seen[k]
  }

  /** New non-empty keys join the order slice at the back; keys already seen keep their place. */
  function Enqueue(order: seq<Key>, seen: map<Key, int>, keys: seq<Key>, now: int): seq<Key>
    decreases |keys|
  {
    if keys == [] then order
    else if keys[0] == "" then Enqueue(order, seen, keys[1..], now)
    else Enqueue(if keys[0] in seen then order else order + [keys[0]], seen[keys[0] := now], keys[1..], now)
  }

  /** The order slice lists each seen key once. */
  ghost predicate Listed(order: seq<Key>, seen: map<Key, int>) {
    if order == [] then seen == map[]
    else order[0] in seen && Listed(order[1..], seen - {order[0]})
  }

  /** Evict from the front of the order slice until the map is small enough. */
  function Shrink(order: seq<Key>, seen: map<Key, int>, max: nat): (seq<Key>, map<Key, int>)
    decreases |order|
  {
    if |seen| > max && order != [] then Shrink(order[1..], seen - {order[0]}, max) else (order, seen)
  }

  lemma {:induction false} ListedLast(order: seq<Key>, seen: map<Key, int>, k: Key, now: int)
    requires Listed(order, seen) && k !in seen
    ensures Listed(order + [k], seen[k := now])
  {
    if order == [] {
      assert ([k])[1..] == [] && seen[k := now] - {k} == map[];
    } else {
      ListedLast(order[1..], seen - {order[0]}, k, now);
      assert (order + [k])[1..] == order[1..] + [k];
      assert seen[k := now] - {order[0]} == (seen - {order[0]})[k := now];
    }
  }

  lemma {:induction false} ListedUpdate(order: seq<Key>, seen: map<Key, int>, k: Key, now: int)
    requires Listed(order, seen) && k in seen
    ensures Listed(order, seen[k := now])
  {
    if order[0] == k {
      assert seen[k := now] - {k} == seen - {k};
    } else {
      ListedUpdate(order[1..], seen - {order[0]}, k, now);
      assert seen[k := now] - {order[0]} == (seen - {order[0]})[k := now];
    }
  }

  lemma {:induction false} ListedSize(order: seq<Key>, seen: map<Key, int>)
    requires Listed(order, seen)
    ensures |order| == |seen|
  {
    if order != [] {
      ListedSize(order[1..], seen - {order[0]});
      assert seen.Keys == (seen - {order[0]}).Keys + {order[0]};
    }
  }

  /** Eviction drops the keys at the front of the order and nothing else, and only as many as the
      bound asks for. */
  lemma {:induction false} ShrinkMeaning(order: seq<Key>, seen: map<Key, int>, max: nat)
    requires Listed(order, seen)
    ensures var (o, m) := Shrink(order, seen, max);
      && Listed(o, m)
      && |m| == (if |seen| <= max then |seen| else max)
      && |o| <= |order| && o == order[|order| - |o|..]
      && (forall k :: k in m ==> k in seen && m[k] == seen[k])
      && (|seen| <= max ==> m == seen)
    decreases |order|
  {
    ListedSize(order, seen);
    if |seen| > max && order != [] {
      ShrinkMeaning(order[1..], seen - {order[0]}, max);
      var (o, m) := Shrink(order[1..], seen - {order[0]}, max);
      ListedSize(order[1..], seen - {order[0]});
      ListedSize(o, m);
    }
  }

  class Deduper {
    const ttl: int
    const maxEntries: int
    var seen: map<Key, int>
    var order: seq<Key>

    ghost predicate Valid()
      reads this
    {
      Listed(order, seen) && 0 < maxEntries && |seen| <= maxEntries
    }

    ghost function View(): Old
      reads this
    {
      Old(order, seen)
    }

    /** Non-positive settings fall back to 5 minutes and 10000 entries. */
    constructor (ttl: int, maxEntries: int)
      ensures Valid() && View() == Old([], map[])
      ensures this.ttl == (if ttl <= 0 then 5 * 60 * 1000 else ttl)
      ensures this.maxEntries == (if maxEntries <= 0 then 10000 else maxEntries)
    {
      this.ttl := if ttl <= 0 then 5 * 60 * 1000 else ttl;
      this.maxEntries := if maxEntries <= 0 then 10000 else maxEntries;
      seen := map[];
      order := [];
    }

    method IsDuplicate(keys: seq<Key>, now: int) returns (found: bool)
      ensures found <==> Hit(seen, keys, now, ttl)
    {
      for n := 0 to |keys|
        invariant forall j :: 0 <= j < n ==> !(keys[j] != "" && keys[j] in seen && now - seen[keys[j]] <= ttl)
      {
        if keys[n] != "" && keys[n] in seen && now - seen[keys[n]] <= ttl {
          return true;
        }
      }
      return false;
    }

    method MarkKey(k: Key, now: int)
      requires Listed(order, seen)
      modifies this
      ensures Listed(order, seen)
      ensures seen == old(seen)[k := now]
      ensures order == if k in old(seen) then old(order) else old(order) + [k]
    {
      if k !in seen {
        ListedLast(order, seen, k, now);
        order := order + [k];
      } else {
        ListedUpdate(order, seen, k, now);
      }
      seen := seen[k := now];
    }

    method MarkEvery(keys: seq<Key>, now: int)
      requires Listed(order, seen)
      modifies this
      ensures Listed(order, seen)
      ensures seen == MarkAll(old(seen), keys, now)
      ensures order == Enqueue(old(order), old(seen), keys, now)
    {
      hide Listed;
      for n := 0 to |keys|
        invariant Listed(order, seen)
        invariant MarkAll(old(seen), keys, now) == MarkAll(seen, keys[n..], now)
        invariant Enqueue(old(order), old(seen), keys, now) == Enqueue(order, seen, keys[n..], now)
      {
        assert keys[n..][1..] == keys[n + 1..];
        if keys[n] != "" {
          MarkKey(keys[n], now);
        }
      }
    }

    method Evict()
      requires Listed(order, seen) && 0 < maxEntries
      modifies this
      ensures Valid()
      ensures (order, seen) == Shrink(old(order), old(seen), maxEntries)
    {
      while |seen| > maxEntries && |order| > 0
        invariant Listed(order, seen)
        invariant Shrink(old(order), old(seen), maxEntries) == Shrink(order, seen, maxEntries)
        decreases |order|
      {
        var oldest := order[0];
        order := order[1..];
        seen := seen - {oldest};
      }
      ListedSize(order, seen);
    }

    /** A hit changes nothing; a miss marks every key and then evicts from the front of the order. */
    method CheckAndMark(keys: seq<Key>, now: int) returns (duplicate: bool)
      requires Valid()
      modifies this
      ensures Valid()
      ensures (View(), duplicate) == OldStep(old(View()), Check(keys, now), ttl, maxEntries)
    {
      duplicate := IsDuplicate(keys, now);
      if !duplicate {
        MarkEvery(keys, now);
        Evict();
      }
    }

    method DeleteExpired(now: int)
      modifies `seen
      ensures seen == Unexpired(old(seen), now, ttl)
    {
      var todo := seen.Keys;
      while todo != {}
        invariant todo <= seen.Keys
        invariant Unexpired(seen, now, ttl) == Unexpired(old(seen), now, ttl)
        invariant forall k :: k in seen && k !in todo ==> now - seen[k] <= ttl
        decreases todo
      {
        var k :| k in todo;
        todo := todo - {k};
        if now - seen[k] > ttl {
          seen := seen - {k};
        }
      }
    }

    /** The walk over the map visits its keys in any order. */
    method RebuildOrder()
      modifies `order
      ensures Listed(order, seen)
    {
      order := [];
      var todo := seen.Keys;
      assert seen - todo == map[];
      while todo != {}
        invariant todo <= seen.Keys
        invariant Listed(order, seen - todo)
        decreases todo
      {
        var k :| k in todo;
        ListedLast(order, seen - todo, k, seen[k]);
        assert (seen - todo)[k := seen[k]] == seen - (todo - {k});
        order := order + [k];
        todo := todo - {k};
      }
      assert seen - todo == seen;
    }

    /** Delete every expired key, then rebuild the order slice by walking the map. */
    method SweepExpired(now: int)
      requires Valid()
      modifies this
      ensures Valid()
      ensures View() == OldStep(old(View()), Tick(now, order), ttl, maxEntries).0
    {
      DeleteExpired(now);
      FewerKeys(seen, old(seen));
      RebuildOrder();
    }
  }

  lemma FewerKeys(a: map<Key, int>, b: map<Key, int>)
    requires a.Keys <= b.Keys
    ensures |a| <= |b|
  {
    SubsetSize(a.Keys, b.Keys);
  }

  // ---------- one event at a time ----------

  /** `walk` is the order in which a sweep happens to walk the old cache's map. */
  datatype Event = Check(keys: seq<Key>, now: int) | Tick(now: int, walk: seq<Key>)

  datatype Old = Old(order: seq<Key>, seen: map<Key, int>)

  /** Deduper on one event: a hit changes nothing; a miss marks every key and then evicts from the
      front of the order; a sweep deletes what expired and rebuilds the order. */
  ghost function OldStep(o: Old, e: Event, ttl: int, max: nat): (Old, bool) {
    match e
    case Check(keys, now) =>
      if Hit(o.seen, keys, now, ttl) then (o, true)
      else
        var (order, seen) := Shrink(Enqueue(o.order, o.seen, keys, now), MarkAll(o.seen, keys, now), max);
        (Old(order, seen), false)
    case Tick(now, walk) => (Old(walk, Unexpired(o.seen, now, ttl)), false)
  }

  // ---------- what the old cache evicts ----------

  /** Clock readings never go back. */
  predicate InOrder(es: seq<Event>, clock: int) {
    es == [] || (clock <= es[0].now && InOrder(es[1..], es[0].now))
  }

  /** The order slice is in order of last mark. */
  ghost predicate ByMark(o: Old) {
    forall i, j :: 0 <= i < j < |o.order| && o.order[i] in o.seen && o.order[j] in o.seen
      ==> o.seen[o.order[i]] <= o.seen[o.order[j]]
  }

  /** Shrinking to `max` drops keys marked no later than any it keeps. */
  ghost predicate OldestGo(o: Old, max: nat) {
    var m := Shrink(o.order, o.seen, max).1;
    forall e, k :: e in o.seen && e !in m && k in m && k in o.seen ==> o.seen[e] <= o.seen[k]
  }

  lemma {:induction false} ListedMembers(order: seq<Key>, seen: map<Key, int>)
    requires Listed(order, seen)
    ensures forall k :: k in seen <==> k in order
    ensures forall i, j :: 0 <= i < j < |order| ==> order[i] != order[j]
  {
    if order != [] {
      ListedMembers(order[1..], seen - {order[0]});
      assert order == [order[0]] + order[1..];
    }
  }

  /** Whether the key at place i survives. */
  lemma ShrinkByPlace(o: Old, max: nat, i: nat)
    requires Listed(o.order, o.seen) && i < |o.order|
    ensures o.order[i] in o.seen
    ensures o.order[i] in Shrink(o.order, o.seen, max).1 <==> i + max >= |o.order|
  {
    hide Shrink, Listed;
    var (kept, m) := Shrink(o.order, o.seen, max);
    ListedMembers(o.order, o.seen);
    ListedSize(o.order, o.seen);
    ShrinkMeaning(o.order, o.seen, max);
    ListedSize(kept, m);
    ListedMembers(kept, m);
    assert o.order[i] in o.order;
    InSuffix(o.order, |o.order| - |kept|, i);
  }

  lemma InSuffix(order: seq<Key>, cut: nat, i: nat)
    requires cut <= |order| && i < |order| && forall i, j :: 0 <= i < j < |order| ==> order[i] != order[j]
    ensures order[i] in order[cut..] <==> i >= cut
  {
    if i >= cut {
      assert order[cut..][i - cut] == order[i];
    }
  }

  lemma OldestGoByMark(o: Old, max: nat)
    requires Listed(o.order, o.seen) && ByMark(o)
    ensures OldestGo(o, max)
  {
    ListedMembers(o.order, o.seen);
    hide Shrink, Listed;
    var m := Shrink(o.order, o.seen, max).1;
    forall e, k | e in o.seen && e !in m && k in m && k in o.seen
      ensures o.seen[e] <= o.seen[k]
    {
      var i :| 0 <= i < |o.order| && o.order[i] == e;
      var j :| 0 <= j < |o.order| && o.order[j] == k;
      ShrinkByPlace(o, max, i);
      ShrinkByPlace(o, max, j);
      assert i < j;
    }
  }

  /** Eviction takes the keys marked longest ago, to whatever size it shrinks, exactly when the order
      slice is in order of last mark. */
  lemma EvictsOldestExactly(o: Old)
    requires Listed(o.order, o.seen)
    ensures (forall max: nat :: OldestGo(o, max)) <==> ByMark(o)
  {
    if ByMark(o) {
      forall max: nat
        ensures OldestGo(o, max)
      {
        OldestGoByMark(o, max);
      }
    }
    if forall max: nat :: OldestGo(o, max) {
      hide Shrink, Listed;
      forall i, j | 0 <= i < j < |o.order| && o.order[i] in o.seen && o.order[j] in o.seen
        ensures o.seen[o.order[i]] <= o.seen[o.order[j]]
      {
        var max := |o.order| - 1 - i;
        ShrinkByPlace(o, max, i);
        ShrinkByPlace(o, max, j);
        assert OldestGo(o, max);
      }
    }
  }

  /** A check that misses and re-marks no key still held: every key is new, or was just marked by
      this check. */
  ghost predicate MarksNew(seen: map<Key, int>, keys: seq<Key>, now: int) {
    forall k :: k in keys && k != "" && k in seen ==> seen[k] == now
  }

  lemma {:induction false} EnqueueByMark(o: Old, keys: seq<Key>, now: int)
    requires Listed(o.order, o.seen) && ByMark(o) && MarksNew(o.seen, keys, now)
    requires forall k :: k in o.seen ==> o.seen[k] <= now
    ensures var o' := Old(Enqueue(o.order, o.seen, keys, now), MarkAll(o.seen, keys, now));
      Listed(o'.order, o'.seen) && ByMark(o') && forall k :: k in o'.seen ==> o'.seen[k] <= now
    decreases |keys|
  {
    if keys != [] {
      var k := keys[0];
      if k == "" {
        EnqueueByMark(o, keys[1..], now);
      } else if k in o.seen {
        assert o.seen[k := now] == o.seen;
        EnqueueByMark(o, keys[1..], now);
      } else {
        ListedLast(o.order, o.seen, k, now);
        ListedMembers(o.order, o.seen);
        EnqueueByMark(Old(o.order + [k], o.seen[k := now]), keys[1..], now);
      }
    }
  }

  lemma ShrinkByMark(o: Old, max: nat)
    requires Listed(o.order, o.seen) && ByMark(o)
    ensures var (order, seen) := Shrink(o.order, o.seen, max); Listed(order, seen) && ByMark(Old(order, seen))
  {
    ShrinkMeaning(o.order, o.seen, max);
  }

  ghost function OldRun(o: Old, es: seq<Event>, ttl: int, max: nat): Old
    decreases |es|
  {
    if es == [] then o else OldRun(OldStep(o, es[0], ttl, max).0, es[1..], ttl, max)
  }

  /** No sweep, and no check that re-marks a key still held. */
  ghost predicate FirstMarksOnly(o: Old, es: seq<Event>, ttl: int, max: nat)
    decreases |es|
  {
    es == [] ||
    (&& es[0].Check? && (!Hit(o.seen, es[0].keys, es[0].now, ttl) ==> MarksNew(o.seen, es[0].keys, es[0].now))
     && FirstMarksOnly(OldStep(o, es[0], ttl, max).0, es[1..], ttl, max))
  }

  /** On such runs eviction always takes the keys marked longest ago. */
  lemma {:induction false} FirstMarksKeepOrder(o: Old, es: seq<Event>, clock: int, ttl: int, max: nat)
    requires Listed(o.order, o.seen) && ByMark(o) && forall k :: k in o.seen ==> o.seen[k] <= clock
    requires InOrder(es, clock) && FirstMarksOnly(o, es, ttl, max)
    ensures var o' := OldRun(o, es, ttl, max); Listed(o'.order, o'.seen) && ByMark(o')
    decreases |es|
  {
    if es != [] {
      var e := es[0];
      if !Hit(o.seen, e.keys, e.now, ttl) {
        var marked := Old(Enqueue(o.order, o.seen, e.keys, e.now), MarkAll(o.seen, e.keys, e.now));
        EnqueueByMark(o, e.keys, e.now);
        ShrinkByMark(marked, max);
        ShrinkMeaning(marked.order, marked.seen, max);
      }
      FirstMarksKeepOrder(OldStep(o, e, ttl, max).0, es[1..], e.now, ttl, max);
    }
  }

  lemma MissOne(o: Old, k: Key, now: int, ttl: int, max: nat)
    requires k != "" && (k in o.seen ==> now - o.seen[k] > ttl)
    ensures OldStep(o, Check([k], now), ttl, max) ==
      (var (order, seen) := Shrink(if k in o.seen then o.order else o.order + [k], o.seen[k := now], max); (Old(order, seen), false))
  {
    assert [k][1..] == [];
    assert Enqueue(o.order, o.seen, [k], now) == if k in o.seen then o.order else o.order + [k];
    assert MarkAll(o.seen, [k], now) == o.seen[k := now];
  }

  /** With a re-mark it may not: "a", marked again at 20 after it expired, is evicted at 21 before
      "b", marked at 5, and at 22 passes as new although it was marked two ticks earlier. */
  lemma OldEvictsNewestMark()
    ensures var o := OldRun(Old([], map[]), [Check(["a"], 0), Check(["b"], 5), Check(["a"], 20)], 10, 2);
      && o == Old(["a", "b"], map["a" := 20, "b" := 5]) && Listed(o.order, o.seen) && !ByMark(o)
      && OldStep(o, Check(["c"], 21), 10, 2) == (Old(["b", "c"], map["b" := 5, "c" := 21]), false)
      && !Hit(map["b" := 5, "c" := 21], ["a"], 22, 10)
  {
    ThreeMarks();
    MissOne(Old(["a", "b"], map["a" := 20, "b" := 5]), "c", 21, 10, 2);
    EvictFirst();
    NotByMark();
    assert map["a" := 20, "b" := 5]["c" := 21] == map["a" := 20, "b" := 5, "c" := 21];
    assert ["a", "b"] + ["c"] == ["a", "b", "c"];
  }

  lemma ThreeMarks()
    ensures OldRun(Old([], map[]), [Check(["a"], 0), Check(["b"], 5), Check(["a"], 20)], 10, 2)
         == Old(["a", "b"], map["a" := 20, "b" := 5])
  {
    var m1, m2 := map["a" := 0], map["a" := 0, "b" := 5];
    MissOne(Old([], map[]), "a", 0, 10, 2);
    MissOne(Old(["a"], m1), "b", 5, 10, 2);
    MissOne(Old(["a", "b"], m2), "a", 20, 10, 2);
    hide OldStep;
    ThreeSteps(Check(["a"], 0), Check(["b"], 5), Check(["a"], 20), 10, 2);
    assert |m1| == 1 && |m2| == 2 && m1["b" := 5] == m2;
    assert m2["a" := 20] == map["a" := 20, "b" := 5] && |m2["a" := 20]| == 2;
    assert [] + ["a"] == ["a"] && ["a"] + ["b"] == ["a", "b"];
  }

  lemma NotByMark()
    ensures var o := Old(["a", "b"], map["a" := 20, "b" := 5]); Listed(o.order, o.seen) && !ByMark(o)
  {
    var o := Old(["a", "b"], map["a" := 20, "b" := 5]);
    assert o.order[0] == "a" && o.order[1] == "b";
    assert o.seen - {"a"} == map["b" := 5] && map["b" := 5] - {"b"} == map[];
    assert ["a", "b"][1..] == ["b"] && ["b"][1..] == [];
  }

  lemma ThreeSteps(x: Event, y: Event, z: Event, ttl: int, max: nat)
    ensures var o := Old([], map[]);
      OldRun(o, [x, y, z], ttl, max) == OldStep(OldStep(OldStep(o, x, ttl, max).0, y, ttl, max).0, z, ttl, max).0
  {
    hide OldStep;
    var o := Old([], map[]);
    var o1 := OldStep(o, x, ttl, max).0;
    var o2 := OldStep(o1, y, ttl, max).0;
    assert [x, y, z][1..] == [y, z] && [y, z][1..] == [z] && [z][1..] == [];
    assert OldRun(o, [x, y, z], ttl, max) == OldRun(o1, [y, z], ttl, max) == OldRun(o2, [z], ttl, max);
    assert OldRun(OldStep(o2, z, ttl, max).0, [], ttl, max) == OldStep(o2, z, ttl, max).0;
  }

  lemma EvictFirst()
    ensures Shrink(["a", "b", "c"], map["a" := 20, "b" := 5, "c" := 21], 2) == (["b", "c"], map["b" := 5, "c" := 21])
  {
    var m := map["a" := 20, "b" := 5, "c" := 21];
    assert m - {"a"} == map["b" := 5, "c" := 21];
    assert |m| == 3 && |map["b" := 5, "c" := 21]| == 2;
    assert ["a", "b", "c"][1..] == ["b", "c"];
  }

  /** A sweep may lose the order as well, since it walks the map in any order. */
  lemma SweepLosesOrder()
    ensures var o := Old(["a", "b"], map["a" := 0, "b" := 5]);
      var o' := OldStep(o, Tick(6, ["b", "a"]), 10, 2).0;
      Listed(o.order, o.seen) && ByMark(o) && Listed(o'.order, o'.seen) && !ByMark(o')
  {
    var m := map["a" := 0, "b" := 5];
    assert Unexpired(m, 6, 10) == m;
    assert m - {"a"} == map["b" := 5] && m - {"b"} == map["a" := 0];
    assert map["a" := 0] - {"a"} == map[] && map["b" := 5] - {"b"} == map[];
    assert ["b", "a"][0] == "b" && ["b", "a"][1] == "a";
    assert ["b", "a"][1..] == ["a"] && ["a", "b"][1..] == ["b"];
    assert ["a"][1..] == [] && ["b"][1..] == [];
  }
}
