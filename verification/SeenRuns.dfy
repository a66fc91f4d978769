/** Whole runs of the dedup cache, at the granularity of its mutex: lookups, marks and sweeps in
    any order, on a clock that never goes back.

    A trace carries, beside the list, two ghost records of the run: `log`, every use of a key (a
    lookup that hit it, or a mark), and `marks`, the time of the last mark of each key. */
module SeenRuns {
  import opened Options
  import opened Recency

  datatype Op = Look(keys: seq<Key>, now: int) | Mark(keys: seq<Key>, now: int) | Clean(now: int)

  datatype Trace = Trace(list: Entries, log: seq<Key>, marks: map<Key, int>)

  const Start := Trace([], [], map[])

  function NonEmpty(keys: seq<Key>): seq<Key> {
    if keys == [] then [] else (if keys[0] == "" then [] else [keys[0]]) + NonEmpty(keys[1..])
  }

  function LookUp(t: Trace, keys: seq<Key>, now: int): (Trace, bool) {
    var (list, hit) := Has(t.list, keys, now);
    (Trace(list, if hit.Some? then t.log + [hit.value] else t.log, t.marks), hit.Some?)
  }

  function MarkKey(t: Trace, k: Key, now: int, ttl: int, max: nat): Trace {
    Trace(AddOne(t.list, k, now + ttl, max), t.log + [k], t.marks[k := now])
  }

  function MarkKeys(t: Trace, keys: seq<Key>, now: int, ttl: int, max: nat): Trace
    decreases |keys|
  {
    if keys == [] then t
    else MarkKeys(if keys[0] == "" then t else MarkKey(t, keys[0], now, ttl, max), keys[1..], now, ttl, max)
  }

  function Step(t: Trace, op: Op, ttl: int, max: nat): Trace {
    match op
    case Look(keys, now) => LookUp(t, keys, now).0
    case Mark(keys, now) => MarkKeys(t, keys, now, ttl, max)
    case Clean(now) => t.(list := Sweep(t.list, now))
  }

  function Run(t: Trace, ops: seq<Op>, ttl: int, max: nat): Trace
    decreases |ops|
  {
    if ops == [] then t else Run(Step(t, ops[0], ttl, max), ops[1..], ttl, max)
  }

  /** Clock readings never go back, starting from `clock`. */
  predicate Monotone(ops: seq<Op>, clock: int) {
    ops == [] || (clock <= ops[0].now && Monotone(ops[1..], ops[0].now))
  }

  function LastTime(ops: seq<Op>, clock: int): int {
    if ops == [] then clock else ops[|ops| - 1].now
  }

  /** Keys used after the last use of k. */
  function After(log: seq<Key>, k: Key): set<Key> {
    if log == [] then {}
    else
      var last := log[|log| - 1];
      if last == k then {} else After(log[..|log| - 1], k) + {last}
  }

  /** Every entry of s was last used before k. */
  ghost predicate AllOlder(k: Key, s: Entries, log: seq<Key>) {
    forall e :: e in s ==> k in After(log, e.key)
  }

  /** The list is in order of last use, most recent first. */
  ghost predicate InUseOrder(s: Entries, log: seq<Key>) {
    s == [] || (AllOlder(s[0].key, s[1..], log) && InUseOrder(s[1..], log))
  }

  /** Key k is out of the cache for a good reason: its mark expired, or `max` other keys have
      been used since k was. */
  ghost predicate Excused(t: Trace, k: Key, clock: int, ttl: int, max: nat)
    requires k in t.marks
  {
    t.marks[k] + ttl <= clock || |After(t.log, k)| >= max
  }

  ghost predicate Inv(t: Trace, clock: int, ttl: int, max: nat) {
    && NoDup(t.list) && |t.list| <= max
    && (forall k :: k in Expiry(t.list) ==> k in t.marks && Expiry(t.list)[k] == t.marks[k] + ttl)
    && InUseOrder(t.list, t.log)
    && (forall k :: k in t.marks && k !in Expiry(t.list) ==> Excused(t, k, clock, ttl, max))
  }

  // ---------- the order of use ----------

  lemma UseOne(log: seq<Key>, x: Key, k: Key)
    ensures After(log + [x], k) == if x == k then {} else After(log, k) + {x}
  {
    assert (log + [x])[..|log|] == log;
  }

  lemma {:induction false} OrderWithout(s: Entries, i: nat, log: seq<Key>)
    requires InUseOrder(s, log) && i < |s|
    ensures InUseOrder(Without(s, i), log)
  {
    if i == 0 {
      assert Without(s, 0) == s[1..];
    } else {
      OrderWithout(s[1..], i - 1, log);
      var w, v := Without(s, i), Without(s[1..], i - 1);
      assert w == [s[0]] + v;
      assert w[0] == s[0] && w[1..] == v;
      assert forall e :: e in v ==> e in s[1..];
    }
  }

  lemma {:induction false} OrderPrefix(s: Entries, n: nat, log: seq<Key>)
    requires InUseOrder(s, log) && n <= |s|
    ensures InUseOrder(s[..n], log)
  {
    if n > 0 {
      OrderPrefix(s[1..], n - 1, log);
      assert s[..n][1..] == s[1..][..n - 1];
    }
  }

  /** Using a key that is not in s keeps the order of s. */
  lemma {:induction false} OrderUse(s: Entries, log: seq<Key>, x: Key)
    requires InUseOrder(s, log)
    requires forall e :: e in s ==> e.key != x
    ensures InUseOrder(s, log + [x])
    ensures AllOlder(x, s, log + [x])
  {
    forall e | e in s ensures x in After(log + [x], e.key) {
      UseOne(log, x, e.key);
    }
    if s != [] {
      OrderUse(s[1..], log, x);
      forall e | e in s[1..] ensures s[0].key in After(log + [x], e.key) {
        UseOne(log, x, e.key);
      }
    }
  }

  lemma {:induction false} LastIsOldest(s: Entries, log: seq<Key>, i: nat)
    requires InUseOrder(s, log) && i + 1 < |s|
    ensures s[i].key in After(log, s[|s| - 1].key)
  {
    if i > 0 {
      LastIsOldest(s[1..], log, i - 1);
    } else {
      assert s[|s| - 1] in s[1..];
    }
  }

  // ---------- what every operation keeps ----------

  lemma Later(t: Trace, clock: int, now: int, ttl: int, max: nat)
    requires Inv(t, clock, ttl, max) && clock <= now
    ensures Inv(t, now, ttl, max)
  {
    forall k | k in t.marks && k !in Expiry(t.list) ensures Excused(t, k, now, ttl, max) {
      assert Excused(t, k, clock, ttl, max);
    }
  }

  lemma UseKeepsExcuse(t: Trace, t': Trace, x: Key, k: Key, clock: int, ttl: int, max: nat)
    requires k in t.marks && Excused(t, k, clock, ttl, max)
    requires k != x && t'.log == t.log + [x] && k in t'.marks && t'.marks[k] == t.marks[k]
    ensures Excused(t', k, clock, ttl, max)
  {
    UseOne(t.log, x, k);
    SubsetSize(After(t.log, k), After(t'.log, k));
  }

  lemma SubsetSize(a: set<Key>, b: set<Key>)
    requires a <= b
    ensures |a| <= |b|
  {
    assert b == a + (b - a);
  }

  lemma NotHeld(s: Entries, k: Key)
    requires k !in Expiry(s)
    ensures forall e :: e in s ==> e.key != k
  {
    forall e | e in s ensures e.key != k {
      MemberIsKey(s, e);
    }
  }

  lemma DropExpiredKeeps(t: Trace, i: nat, now: int, ttl: int, max: nat)
    requires Inv(t, now, ttl, max) && i < |t.list| && t.list[i].expiresAt <= now
    ensures Inv(t.(list := Without(t.list, i)), now, ttl, max)
  {
    var t' := t.(list := Without(t.list, i));
    HeldEntry(t.list, i);
    WithoutEntry(t.list, i);
    OrderWithout(t.list, i, t.log);
    forall k | k in t'.marks && k !in Expiry(t'.list) ensures Excused(t', k, now, ttl, max) {
      if k != t.list[i].key {
        assert Excused(t, k, now, ttl, max);
      }
    }
  }

  lemma HitKeeps(t: Trace, i: nat, now: int, ttl: int, max: nat)
    requires Inv(t, now, ttl, max) && i < |t.list|
    ensures Inv(Trace([t.list[i]] + Without(t.list, i), t.log + [t.list[i].key], t.marks), now, ttl, max)
  {
    var x := t.list[i].key;
    var w := Without(t.list, i);
    var t' := Trace([t.list[i]] + w, t.log + [x], t.marks);
    HeldEntry(t.list, i);
    WithoutEntry(t.list, i);
    MoveToFront(t.list, i);
    OrderWithout(t.list, i, t.log);
    NotHeld(w, x);
    OrderUse(w, t.log, x);
    assert t'.list[1..] == w;
    forall k | k in t'.marks && k !in Expiry(t'.list) ensures Excused(t', k, now, ttl, max) {
      assert Excused(t, k, now, ttl, max);
      UseKeepsExcuse(t, t', x, k, now, ttl, max);
    }
  }

  lemma {:induction false} LookKeeps(t: Trace, keys: seq<Key>, now: int, ttl: int, max: nat)
    requires Inv(t, now, ttl, max)
    ensures Inv(LookUp(t, keys, now).0, now, ttl, max)
    decreases |keys|
  {
    if keys != [] {
      var i := IndexOf(t.list, keys[0]);
      if keys[0] == "" || i == |t.list| {
        LookKeeps(t, keys[1..], now, ttl, max);
      } else if now < t.list[i].expiresAt {
        HitKeeps(t, i, now, ttl, max);
      } else {
        DropExpiredKeeps(t, i, now, ttl, max);
        LookKeeps(t.(list := Without(t.list, i)), keys[1..], now, ttl, max);
      }
    }
  }

  lemma {:induction false} SweepKeeps(t: Trace, now: int, ttl: int, max: nat)
    requires Inv(t, now, ttl, max)
    ensures Inv(t.(list := Sweep(t.list, now)), now, ttl, max)
    decreases |t.list|
  {
    var n := |t.list|;
    if n > 0 && t.list[n - 1].expiresAt <= now {
      DropExpiredKeeps(t, n - 1, now, ttl, max);
      assert Without(t.list, n - 1) == t.list[..n - 1];
      SweepKeeps(t.(list := t.list[..n - 1]), now, ttl, max);
    }
  }

  /** A mark of a key that is held. */
  lemma RemarkKeeps(t: Trace, k: Key, now: int, ttl: int, max: nat)
    requires Inv(t, now, ttl, max) && k in Expiry(t.list)
    ensures Inv(MarkKey(t, k, now, ttl, max), now, ttl, max)
  {
    var i := IndexOf(t.list, k);
    LookupIsMap(t.list, k);
    var w := Without(t.list, i);
    var t' := MarkKey(t, k, now, ttl, max);
    WithoutEntry(t.list, i);
    OrderWithout(t.list, i, t.log);
    NotHeld(w, k);
    OrderUse(w, t.log, k);
    assert t'.list[0] == Entry(k, now + ttl) && t'.list[1..] == w;
    forall j | j in t'.marks && j !in Expiry(t'.list) ensures Excused(t', j, now, ttl, max) {
      assert Excused(t, j, now, ttl, max);
      UseKeepsExcuse(t, t', k, j, now, ttl, max);
    }
  }

  /** A mark of a new key, which may push out the entry used longest ago. */
  lemma FreshMarkKeeps(t: Trace, k: Key, now: int, ttl: int, max: nat)
    requires Inv(t, now, ttl, max) && k !in Expiry(t.list) && max > 0
    ensures Inv(MarkKey(t, k, now, ttl, max), now, ttl, max)
  {
    LookupIsMap(t.list, k);
    var keep := if |t.list| < max then t.list else t.list[..max - 1];
    var t' := MarkKey(t, k, now, ttl, max);
    PrefixEntries(t.list, |keep|);
    OrderPrefix(t.list, |keep|, t.log);
    assert keep == t.list[..|keep|];
    NotHeld(keep, k);
    OrderUse(keep, t.log, k);
    assert t'.list == [Entry(k, now + ttl)] + keep;
    assert t'.list[1..] == keep;
    forall j | j in t'.marks && j !in Expiry(t'.list) ensures Excused(t', j, now, ttl, max) {
      if j in Expiry(t.list) {
        EvictedIsOldest(t, k, j, max);
      } else {
        assert Excused(t, j, now, ttl, max);
        UseKeepsExcuse(t, t', k, j, now, ttl, max);
      }
    }
  }

  /** The key pushed out of a full cache has seen `max` other keys used since its own last use. */
  lemma EvictedIsOldest(t: Trace, k: Key, j: Key, max: nat)
    requires NoDup(t.list) && InUseOrder(t.list, t.log)
    requires |t.list| == max > 0 && k !in Expiry(t.list)
    requires j in Expiry(t.list) && j !in Expiry(t.list[..max - 1])
    ensures |After(t.log + [k], j)| >= max
  {
    OnlyLastDropped(t.list);
    var keep := t.list[..max - 1];
    PrefixEntries(t.list, max - 1);
    SizeIsLength(keep);
    UseOne(t.log, k, j);
    forall x | x in Expiry(keep) ensures x in After(t.log, j) {
      LookupIsMap(keep, x);
      LastIsOldest(t.list, t.log, IndexOf(keep, x));
    }
    SubsetSize(Expiry(keep).Keys + {k}, After(t.log + [k], j));
  }

  lemma {:induction false} MarkKeeps(t: Trace, keys: seq<Key>, now: int, ttl: int, max: nat)
    requires Inv(t, now, ttl, max) && max > 0
    ensures Inv(MarkKeys(t, keys, now, ttl, max), now, ttl, max)
    decreases |keys|
  {
    if keys != [] {
      if keys[0] == "" {
        MarkKeeps(t, keys[1..], now, ttl, max);
      } else {
        if keys[0] in Expiry(t.list) {
          RemarkKeeps(t, keys[0], now, ttl, max);
        } else {
          FreshMarkKeeps(t, keys[0], now, ttl, max);
        }
        MarkKeeps(MarkKey(t, keys[0], now, ttl, max), keys[1..], now, ttl, max);
      }
    }
  }

  lemma StepKeeps(t: Trace, op: Op, clock: int, ttl: int, max: nat)
    requires Inv(t, clock, ttl, max) && clock <= op.now && max > 0
    ensures Inv(Step(t, op, ttl, max), op.now, ttl, max)
  {
    Later(t, clock, op.now, ttl, max);
    match op
    case Look(keys, now) => LookKeeps(t, keys, now, ttl, max);
    case Mark(keys, now) => MarkKeeps(t, keys, now, ttl, max);
    case Clean(now) => SweepKeeps(t, now, ttl, max);
  }

  lemma {:induction false} RunKeeps(t: Trace, ops: seq<Op>, clock: int, ttl: int, max: nat)
    requires Inv(t, clock, ttl, max) && Monotone(ops, clock) && max > 0
    ensures Inv(Run(t, ops, ttl, max), LastTime(ops, clock), ttl, max)
    decreases |ops|
  {
    if ops != [] {
      StepKeeps(t, ops[0], clock, ttl, max);
      RunKeeps(Step(t, ops[0], ttl, max), ops[1..], ops[0].now, ttl, max);
    }
  }

  // ---------- the whole-run theorem ----------

  /** After any run from an empty cache, a lookup answers true only for a key marked less than
      TTL ago; and it answers false for such a key only when at least `max` other keys have been
      used since that key's own last use. */
  lemma SeenAnswer(ops: seq<Op>, keys: seq<Key>, now: int, clock: int, ttl: int, max: nat)
    requires max > 0 && Monotone(ops, clock) && LastTime(ops, clock) <= now
    ensures var t := Run(Start, ops, ttl, max);
      var (_, dup) := LookUp(t, keys, now);
      && (dup ==> exists k :: k in keys && k != "" && k in t.marks && now < t.marks[k] + ttl)
      && (!dup ==> forall k :: k in keys && k != "" && k in t.marks && now < t.marks[k] + ttl
                               ==> |After(t.log, k)| >= max)
  {
    var t := Run(Start, ops, ttl, max);
    RunKeeps(Start, ops, clock, ttl, max);
    HasMeaning(t.list, keys, now);
    var (_, dup) := LookUp(t, keys, now);
    if dup {
      var k :| k in keys && k != "" && k in Expiry(t.list) && now < Expiry(t.list)[k];
      assert k in t.marks;
    } else {
      forall k | k in keys && k != "" && k in t.marks && now < t.marks[k] + ttl
        ensures |After(t.log, k)| >= max {
        assert !(k in Expiry(t.list));
        assert Excused(t, k, LastTime(ops, clock), ttl, max);
      }
    }
  }

  // ---------- exact answers while the keys in play fit in the cache ----------

  ghost predicate MarkedWithin(marks: map<Key, int>, keys: seq<Key>, now: int, ttl: int) {
    exists k :: k in keys && k != "" && k in marks && now - marks[k] < ttl
  }

  /** All keys of the run so far come from u. */
  ghost predicate Within(t: Trace, u: set<Key>) {
    t.marks.Keys <= u && forall k :: k in t.log ==> k in u
  }

  lemma {:induction false} AfterOthers(log: seq<Key>, k: Key, u: set<Key>)
    requires forall x :: x in log ==> x in u
    ensures After(log, k) <= u - {k}
  {
    if log != [] {
      AfterOthers(log[..|log| - 1], k, u);
    }
  }

  /** With at most `max` distinct keys in play nothing is ever evicted: a lookup answers exactly
      "some given key was last marked less than TTL ago". */
  lemma LookExact(t: Trace, keys: seq<Key>, now: int, clock: int, ttl: int, max: nat, u: set<Key>)
    requires Inv(t, clock, ttl, max) && clock <= now
    requires Within(t, u) && |u| <= max
    ensures LookUp(t, keys, now).1 <==> MarkedWithin(t.marks, keys, now, ttl)
  {
    HasMeaning(t.list, keys, now);
    forall k | k in t.marks && now - t.marks[k] < ttl ensures k in Expiry(t.list) {
      AfterOthers(t.log, k, u);
      SubsetSize(After(t.log, k), u - {k});
      assert u == (u - {k}) + {k};
      assert !Excused(t, k, clock, ttl, max);
    }
  }

  /** No key of a query has been crowded out: since the last use of each key marked less than TTL ago,
      fewer than `max` other keys have been used. */
  ghost predicate RoomFor(t: Trace, keys: seq<Key>, now: int, ttl: int, max: nat) {
    forall k :: k in keys && k != "" && k in t.marks && now - t.marks[k] < ttl ==> |After(t.log, k)| < max
  }

  /** Then the answer is exact, however many keys the cache has ever held. */
  lemma LookExactWithRoom(t: Trace, keys: seq<Key>, now: int, clock: int, ttl: int, max: nat)
    requires Inv(t, clock, ttl, max) && clock <= now && RoomFor(t, keys, now, ttl, max)
    ensures LookUp(t, keys, now).1 <==> MarkedWithin(t.marks, keys, now, ttl)
    ensures LookUp(t, keys, now).0.marks == t.marks
  {
    HasMeaning(t.list, keys, now);
    forall k | k in keys && k != "" && k in t.marks && now - t.marks[k] < ttl ensures k in Expiry(t.list) {
      assert !Excused(t, k, clock, ttl, max);
    }
  }

  lemma {:induction false} MarkWithin(t: Trace, keys: seq<Key>, now: int, ttl: int, max: nat, u: set<Key>)
    requires Within(t, u) && forall k :: k in keys && k != "" ==> k in u
    ensures Within(MarkKeys(t, keys, now, ttl, max), u)
    decreases |keys|
  {
    if keys != [] {
      MarkWithin(if keys[0] == "" then t else MarkKey(t, keys[0], now, ttl, max), keys[1..], now, ttl, max, u);
    }
  }

  lemma LookWithin(t: Trace, keys: seq<Key>, now: int, u: set<Key>)
    requires Within(t, u) && NoDup(t.list) && forall k :: k in keys && k != "" ==> k in u
    ensures Within(LookUp(t, keys, now).0, u)
  {
    HasMeaning(t.list, keys, now);
  }

  /** Every non-empty key of a mark gets the new time; the others keep theirs. */
  lemma {:induction false} MarkKeysMarks(t: Trace, keys: seq<Key>, now: int, ttl: int, max: nat)
    ensures MarkKeys(t, keys, now, ttl, max).marks == MarkAll(t.marks, keys, now)
    ensures MarkKeys(t, keys, now, ttl, max).list == AddAll(t.list, keys, now + ttl, max)
    decreases |keys|
  {
    if keys != [] {
      MarkKeysMarks(if keys[0] == "" then t else MarkKey(t, keys[0], now, ttl, max), keys[1..], now, ttl, max);
    }
  }

  function MarkAll(marks: map<Key, int>, keys: seq<Key>, now: int): map<Key, int>
    decreases |keys|
  {
    if keys == [] then marks
    else MarkAll(if keys[0] == "" then marks else marks[keys[0] := now], keys[1..], now)
  }

  lemma {:induction false} MarkAllMeaning(marks: map<Key, int>, keys: seq<Key>, now: int)
    ensures var m := MarkAll(marks, keys, now);
      && (forall k :: k in m <==> k in marks || (k in keys && k != ""))
      && (forall k :: k in m ==> m[k] == if k in keys && k != "" then now else marks[k])
    decreases |keys|
  {
    if keys != [] {
      var marks1 := if keys[0] == "" then marks else marks[keys[0] := now];
      var m := MarkAll(marks1, keys[1..], now);
      MarkAllMeaning(marks1, keys[1..], now);
      assert forall k :: k in keys <==> k == keys[0] || k in keys[1..];
      assert forall k :: k in marks1 <==> k in marks || (k == keys[0] && k != "");
      assert forall k :: k in m <==> k in marks1 || (k in keys[1..] && k != "");
    }
  }

  /** The sweep stops at the first live entry from the back, and a hit moves an entry forward
      without renewing it, so a sweep can leave an expired entry behind. */
  lemma SweepCanLeaveExpired()
    ensures var ops := [Mark(["a"], 0), Mark(["b"], 5), Look(["a"], 6), Clean(11)];
      Run(Start, ops, 10, 5000).list == [Entry("a", 10), Entry("b", 15)]
  {
    var t1 := MarkKey(Start, "a", 0, 10, 5000);
    assert MarkKeys(Start, ["a"], 0, 10, 5000) == t1;
    assert t1.list == [Entry("a", 10)];
    var t2 := MarkKey(t1, "b", 5, 10, 5000);
    assert MarkKeys(t1, ["b"], 5, 10, 5000) == t2;
    assert t2.list == [Entry("b", 15), Entry("a", 10)];
    var t3 := LookUp(t2, ["a"], 6).0;
    assert t2.list[1..] == [Entry("a", 10)];
    assert IndexOf(t2.list, "a") == 1;
    assert t3.list == [Entry("a", 10), Entry("b", 15)];
    var ops := [Mark(["a"], 0), Mark(["b"], 5), Look(["a"], 6), Clean(11)];
    assert ops[1..][1..][1..] == [Clean(11)];
    assert Run(t3, [Clean(11)], 10, 5000) == t3;
  }
}
