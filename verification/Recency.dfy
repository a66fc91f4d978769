/** The dedup cache as a value: a list of (key, expiry) entries, most recently used first.

    SeenCache keeps this list in a linked list plus a map of list elements; the class in
    SeenCache.dfy is proved against the functions here, and the lemmas here say what the
    functions mean. */
module Recency {
  import opened Options

  type Key = string

  datatype Entry = Entry(key: Key, expiresAt: int)

  type Entries = seq<Entry>

  /** Position of the first entry for k, or |s| when there is none. */
  function IndexOf(s: Entries, k: Key): (i: nat)
    ensures i <= |s|
    ensures i < |s| ==> s[i].key == k
    ensures forall j :: 0 <= j < i ==> s[j].key != k
  {
    if s == [] then 0 else if s[0].key == k then 0 else 1 + IndexOf(s[1..], k)
  }

  predicate Live(s: Entries, k: Key, now: int) {
    var i := IndexOf(s, k);
    i < |s| && now < s[i].expiresAt
  }

  function Without(s: Entries, i: nat): Entries
    requires i < |s|
  {
    s[..i] + s[i + 1..]
  }

  /** The list without the entry for k, if there is one. */
  function Delete(s: Entries, k: Key): Entries {
    var i := IndexOf(s, k);
    if i < |s| then Without(s, i) else s
  }

  /** The entry for k, if there is one, moved to the front. */
  function Promote(s: Entries, k: Key): Entries {
    var i := IndexOf(s, k);
    if i < |s| then [s[i]] + Without(s, i) else s
  }

  /** Look one key up: a live key moves to the front, an expired one is deleted, the empty key
      is ignored. */
  function Probe(s: Entries, k: Key, now: int): (Entries, bool) {
    if k == "" then (s, false)
    else if Live(s, k, now) then (Promote(s, k), true)
    else (Delete(s, k), false)
  }

  /** One lookup over several keys, up to the first that is live. */
  function Has(s: Entries, keys: seq<Key>, now: int): (Entries, Option<Key>)
    decreases |keys|
  {
    if keys == [] then (s, None)
    else
      var (s', hit) := Probe(s, keys[0], now);
      if hit then (s', Some(keys[0])) else Has(s', keys[1..], now)
  }

  /** Capacity eviction: the entries beyond the bound, at the back of the list, go. */
  function Evict(s: Entries, max: nat): Entries {
    if |s| > max then s[..max] else s
  }

  function AddOne(s: Entries, k: Key, expiresAt: int, max: nat): Entries {
    var i := IndexOf(s, k);
    if i < |s| then [Entry(k, expiresAt)] + Delete(s, k)
    else Evict([Entry(k, expiresAt)] + s, max)
  }

  function AddAll(s: Entries, keys: seq<Key>, expiresAt: int, max: nat): Entries
    decreases |keys|
  {
    if keys == [] then s
    else AddAll(if keys[0] == "" then s else AddOne(s, keys[0], expiresAt, max), keys[1..], expiresAt, max)
  }

  /** Background cleaning: drop expired entries from the back, stop at the first live one. */
  function Sweep(s: Entries, now: int): (r: Entries)
    ensures r <= s
  {
    if s == [] || now < s[|s| - 1].expiresAt then s else Sweep(s[..|s| - 1], now)
  }

  /** The list read as a map: which keys it holds and until when. */
  function Expiry(s: Entries): map<Key, int> {
    if s == [] then map[] else Expiry(s[1..])[s[0].key := s[0].expiresAt]
  }

  predicate NoDup(s: Entries) {
    s == [] || (s[0].key !in Expiry(s[1..]) && NoDup(s[1..]))
  }

  // ---------- what the functions mean ----------

  lemma {:induction false} LookupIsMap(s: Entries, k: Key)
    ensures k in Expiry(s) <==> IndexOf(s, k) < |s|
    ensures k in Expiry(s) ==> Expiry(s)[k] == s[IndexOf(s, k)].expiresAt
  {
    if s != [] {
      LookupIsMap(s[1..], k);
    }
  }

  lemma MemberIsKey(s: Entries, e: Entry)
    requires e in s
    ensures e.key in Expiry(s)
  {
    if s[0] != e {
      MemberIsKey(s[1..], e);
    }
  }

  lemma {:induction false} HeldEntry(s: Entries, i: nat)
    requires NoDup(s) && i < |s|
    ensures s[i].key in Expiry(s) && Expiry(s)[s[i].key] == s[i].expiresAt
    ensures IndexOf(s, s[i].key) == i
  {
    if i > 0 {
      HeldEntry(s[1..], i - 1);
    }
  }

  lemma RemoveThenSet(m: map<Key, int>, gone: Key, k: Key, t: int)
    requires gone != k
    ensures (m - {gone})[k := t] == m[k := t] - {gone}
  {
  }

  lemma {:induction false} WithoutEntry(s: Entries, i: nat)
    requires NoDup(s) && i < |s|
    ensures NoDup(Without(s, i))
    ensures Expiry(Without(s, i)) == Expiry(s) - {s[i].key}
  {
    if i == 0 {
      assert Without(s, 0) == s[1..];
    } else {
      HeldEntry(s[1..], i - 1);
      WithoutEntry(s[1..], i - 1);
      var w, v := Without(s, i), Without(s[1..], i - 1);
      assert w[0] == s[0] && w[1..] == v;
      RemoveThenSet(Expiry(s[1..]), s[i].key, s[0].key, s[0].expiresAt);
    }
  }

  lemma {:induction false} PrefixEntries(s: Entries, n: nat)
    requires NoDup(s) && n <= |s|
    ensures NoDup(s[..n])
    ensures Expiry(s[..n]).Keys <= Expiry(s).Keys
    ensures forall k :: k in Expiry(s[..n]) ==> Expiry(s[..n])[k] == Expiry(s)[k]
  {
    if n > 0 {
      PrefixEntries(s[1..], n - 1);
      assert s[..n][1..] == s[1..][..n - 1];
    } else {
      assert s[..n] == [];
    }
  }

  /** Each key is held once, so the map has as many keys as the list has entries. */
  lemma {:induction false} SizeIsLength(s: Entries)
    requires NoDup(s)
    ensures |Expiry(s)| == |s|
  {
    if s != [] {
      SizeIsLength(s[1..]);
      assert Expiry(s).Keys == Expiry(s[1..]).Keys + {s[0].key};
    }
  }

  /** From m to m': nothing is added or changed, and only keys expired at `now` are gone. */
  ghost predicate ForgetsOnlyExpired(m: map<Key, int>, m': map<Key, int>, now: int) {
    && (forall k :: k in m' ==> k in m && m'[k] == m[k])
    && (forall k :: k in m && k !in m' ==> m[k] <= now)
  }

  ghost predicate AnyLive(m: map<Key, int>, keys: seq<Key>, now: int) {
    exists k :: k in keys && k != "" && k in m && now < m[k]
  }

  lemma {:induction false} MoveToFront(s: Entries, i: nat)
    requires NoDup(s) && i < |s|
    ensures NoDup([s[i]] + Without(s, i))
    ensures Expiry([s[i]] + Without(s, i)) == Expiry(s)
  {
    HeldEntry(s, i);
    WithoutEntry(s, i);
    var r := [s[i]] + Without(s, i);
    assert r[0] == s[i] && r[1..] == Without(s, i);
    RemoveThenRestore(Expiry(s), s[i].key);
  }

  lemma RemoveThenRestore(m: map<Key, int>, k: Key)
    requires k in m
    ensures (m - {k})[k := m[k]] == m
  {
  }

  /** A lookup is true exactly when one of the given keys is live, the key it reports is one of
      them and now heads the list, and no live key is lost on the way. */
  lemma {:induction false} HasMeaning(s: Entries, keys: seq<Key>, now: int)
    requires NoDup(s)
    ensures var (r, hit) := Has(s, keys, now);
      && NoDup(r) && |r| <= |s|
      && ForgetsOnlyExpired(Expiry(s), Expiry(r), now)
      && (hit.Some? <==> AnyLive(Expiry(s), keys, now))
      && (hit.Some? ==> hit.value in keys && hit.value != "" && r != [] && r[0].key == hit.value && now < r[0].expiresAt)
    decreases |keys|
  {
    if keys != [] {
      var k := keys[0];
      var i := IndexOf(s, k);
      LookupIsMap(s, k);
      if k != "" && i < |s| {
        if now < s[i].expiresAt {
          MoveToFront(s, i);
          return;
        }
        WithoutEntry(s, i);
      }
      HasMeaning(Probe(s, k, now).0, keys[1..], now);
    }
  }

  /** The entries of the list whose key is not among `gone`, in order. */
  function Keep(s: Entries, gone: set<Key>): Entries {
    if s == [] then [] else if s[0].key in gone then Keep(s[1..], gone) else [s[0]] + Keep(s[1..], gone)
  }

  lemma {:induction false} KeepAll(s: Entries, gone: set<Key>)
    requires forall k :: k in gone ==> k !in Expiry(s)
    ensures Keep(s, gone) == s
  {
    if s != [] {
      assert s[0].key in Expiry(s);
      assert forall k :: k in Expiry(s[1..]) ==> k in Expiry(s);
      KeepAll(s[1..], gone);
    }
  }

  lemma {:induction false} KeepTwice(s: Entries, a: set<Key>, b: set<Key>)
    ensures Keep(Keep(s, a), b) == Keep(s, a + b)
  {
    if s != [] {
      KeepTwice(s[1..], a, b);
      if s[0].key !in a {
        assert ([s[0]] + Keep(s[1..], a))[1..] == Keep(s[1..], a);
      }
    }
  }

  lemma {:induction false} DeleteIsKeep(s: Entries, i: nat)
    requires NoDup(s) && i < |s|
    ensures Without(s, i) == Keep(s, {s[i].key})
  {
    if i == 0 {
      KeepAll(s[1..], {s[0].key});
    } else {
      HeldEntry(s[1..], i - 1);
      DeleteIsKeep(s[1..], i - 1);
      assert Without(s, i) == [s[0]] + Without(s[1..], i - 1);
    }
  }

  ghost function Asked(keys: seq<Key>): set<Key> {
    set k | k in keys && k != ""
  }

  /** A lookup stopped at key n, live, or passed all n keys: the keys before it were not live. On a
      miss all asked keys are gone and everything else is where it was. On a hit the asked keys before
      it are gone, the hit is in front with its old expiry, and everything else is where it was. */
  ghost predicate Looked(s: Entries, keys: seq<Key>, now: int, n: nat, r: Entries, hit: Option<Key>) {
    && n <= |keys|
    && (forall k :: k in Asked(keys[..n]) && k in Expiry(s) ==> Expiry(s)[k] <= now)
    && if n == |keys| then hit == None && r == Keep(s, Asked(keys[..n]))
       else
         var k := keys[n];
         && hit == Some(k) && k != "" && k in Expiry(s) && now < Expiry(s)[k]
         && r == [Entry(k, Expiry(s)[k])] + Keep(s, Asked(keys[..n]) + {k})
  }

  /** Exactly what a lookup does to the list. */
  lemma {:induction false} LookupExactly(s: Entries, keys: seq<Key>, now: int) returns (n: nat)
    requires NoDup(s)
    ensures Looked(s, keys, now, n, Has(s, keys, now).0, Has(s, keys, now).1)
    decreases |keys|
  {
    n := 0;
    if keys == [] {
      assert Asked(keys[..0]) == {};
      KeepAll(s, {});
    } else if keys[0] != "" && Live(s, keys[0], now) {
      var i := IndexOf(s, keys[0]);
      LookupIsMap(s, keys[0]);
      DeleteIsKeep(s, i);
      assert Asked(keys[..0]) == {} && {} + {keys[0]} == {keys[0]};
    } else {
      var s1 := Probe(s, keys[0], now).0;
      ProbeDeletes(s, keys[0], now);
      hide Probe, Live, Looked, NoDup;
      var m := LookupExactly(s1, keys[1..], now);
      n := m + 1;
      LookedBehind(s, s1, keys, now, m, Has(s, keys, now).0, Has(s, keys, now).1);
    }
  }

  /** A key that is not live in front of the others. */
  lemma LookedBehind(s: Entries, s1: Entries, keys: seq<Key>, now: int, m: nat, r: Entries, hit: Option<Key>)
    requires keys != [] && Looked(s1, keys[1..], now, m, r, hit)
    requires var gone := if keys[0] == "" then {} else {keys[0]};
      s1 == Keep(s, gone) && Expiry(s1) == Expiry(s) - gone && forall k :: k in gone && k in Expiry(s) ==> Expiry(s)[k] <= now
    ensures Looked(s, keys, now, m + 1, r, hit)
  {
    hide Asked, Keep, Expiry;
    var gone := if keys[0] == "" then {} else {keys[0]};
    var asked := Asked(keys[1..][..m]);
    AskedFirst(keys, m);
    KeepTwice(s, gone, asked);
    if m < |keys| - 1 {
      var k := keys[m + 1];
      assert keys[1..][m] == k;
      KeepTwice(s, gone, asked + {k});
      assert gone + (asked + {k}) == (gone + asked) + {k};
    }
  }

  lemma AskedFirst(keys: seq<Key>, m: nat)
    requires m < |keys|
    ensures Asked(keys[..m + 1]) == (if keys[0] == "" then {} else {keys[0]}) + Asked(keys[1..][..m])
  {
    assert keys[..m + 1] == [keys[0]] + keys[1..][..m];
  }

  lemma ProbeDeletes(s: Entries, k: Key, now: int)
    requires NoDup(s) && (k == "" || !Live(s, k, now))
    ensures var gone := if k == "" then {} else {k};
      var s1 := Probe(s, k, now).0;
      && !Probe(s, k, now).1 && NoDup(s1) && s1 == Keep(s, gone) && Expiry(s1) == Expiry(s) - gone
    ensures k != "" && k in Expiry(s) ==> Expiry(s)[k] <= now
  {
    LookupIsMap(s, k);
    var i := IndexOf(s, k);
    if k != "" && i < |s| {
      WithoutEntry(s, i);
      DeleteIsKeep(s, i);
    } else {
      KeepAll(s, if k == "" then {} else {k});
    }
  }

  /** Sweeping removes expired entries only. */
  lemma {:induction false} SweepMeaning(s: Entries, now: int)
    requires NoDup(s)
    ensures NoDup(Sweep(s, now))
    ensures ForgetsOnlyExpired(Expiry(s), Expiry(Sweep(s, now)), now)
    decreases |s|
  {
    if s != [] && s[|s| - 1].expiresAt <= now {
      PrefixEntries(s, |s| - 1);
      SweepMeaning(s[..|s| - 1], now);
      OnlyLastDropped(s);
    }
  }

  /** Sweeping leaves no expired entry exactly when no expired entry sits in front of a live one. */
  lemma {:induction false} SweepComplete(s: Entries, now: int)
    ensures (forall i :: 0 <= i < |Sweep(s, now)| ==> now < s[i].expiresAt)
       <==> (forall i, j :: 0 <= i < j < |s| && now < s[j].expiresAt ==> now < s[i].expiresAt)
    decreases |s|
  {
    if s != [] && s[|s| - 1].expiresAt <= now {
      var p := s[..|s| - 1];
      SweepComplete(p, now);
      assert forall i :: 0 <= i < |p| ==> p[i] == s[i];
    }
  }

  lemma {:induction false} OnlyLastDropped(s: Entries)
    requires NoDup(s) && s != []
    ensures forall k :: k in Expiry(s) && k !in Expiry(s[..|s| - 1]) ==> k == s[|s| - 1].key
    ensures s[|s| - 1].key in Expiry(s) && Expiry(s)[s[|s| - 1].key] == s[|s| - 1].expiresAt
  {
    HeldEntry(s, |s| - 1);
    if |s| > 1 {
      OnlyLastDropped(s[1..]);
      assert s[..|s| - 1][1..] == s[1..][..|s| - 2];
    }
  }
}
