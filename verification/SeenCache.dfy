/** The dedup cache as it is built: a map from key to list element and a list of the same
    elements, both changed in place, with entries whose expiry is rewritten through either. */
module SeenCaches {
  import opened Options
  import opened Recency

  class CacheEntry {
    const key: Key
    var expiresAt: int

    constructor (key: Key, expiresAt: int)
      ensures this.key == key && this.expiresAt == expiresAt
    {
      this.key := key;
      this.expiresAt := expiresAt;
    }
  }

  type Elements = seq<CacheEntry>

  /** The map holds exactly the elements of the list, each under its own key, no key twice. */
  ghost predicate Indexed(items: map<Key, CacheEntry>, list: Elements) {
    if list == [] then items == map[]
    else
      && list[0].key in items && items[list[0].key] == list[0]
      && Indexed(items - {list[0].key}, list[1..])
  }

  lemma {:induction false} ElementHeld(items: map<Key, CacheEntry>, list: Elements, elem: CacheEntry)
    requires Indexed(items, list) && elem in list
    ensures elem.key in items && items[elem.key] == elem
  {
    if list[0] != elem {
      ElementHeld(items - {list[0].key}, list[1..], elem);
    }
  }

  lemma {:induction false} KeyListed(items: map<Key, CacheEntry>, list: Elements, k: Key)
    requires Indexed(items, list) && k in items
    ensures items[k] in list && items[k].key == k
  {
    if list[0].key != k {
      KeyListed(items - {list[0].key}, list[1..], k);
    }
  }

  /** The list without one of its elements. */
  function Unlink(list: Elements, elem: CacheEntry): (r: Elements)
    ensures forall e :: e in r ==> e in list
  {
    if list == [] then [] else if list[0] == elem then list[1..] else [list[0]] + Unlink(list[1..], elem)
  }

  lemma {:induction false} UnlinkKeeps(items: map<Key, CacheEntry>, list: Elements, elem: CacheEntry)
    requires Indexed(items, list) && elem in list
    ensures Indexed(items - {elem.key}, Unlink(list, elem))
    ensures |Unlink(list, elem)| == |list| - 1
    ensures elem !in Unlink(list, elem)
  {
    var head := list[0];
    if head != elem {
      var rest := items - {head.key};
      ElementHeld(rest, list[1..], elem);
      UnlinkKeeps(rest, list[1..], elem);
      var r := Unlink(list[1..], elem);
      assert ([head] + r)[1..] == r;
      assert (items - {elem.key}) - {head.key} == rest - {elem.key};
    } else if elem in list[1..] {
      ElementHeld(items - {head.key}, list[1..], elem);
      assert false;
    }
  }

  lemma LinkFront(items: map<Key, CacheEntry>, list: Elements, elem: CacheEntry)
    requires Indexed(items, list) && elem.key !in items
    ensures Indexed(items[elem.key := elem], [elem] + list)
  {
    assert ([elem] + list)[1..] == list;
    assert items[elem.key := elem] - {elem.key} == items;
  }

  lemma {:induction false} UnlinkLast(items: map<Key, CacheEntry>, list: Elements)
    requires Indexed(items, list) && list != []
    ensures Unlink(list, list[|list| - 1]) == list[..|list| - 1]
  {
    if |list| > 1 {
      var rest := items - {list[0].key};
      assert list[|list| - 1] in list[1..];
      ElementHeld(rest, list[1..], list[|list| - 1]);
      UnlinkLast(rest, list[1..]);
      assert list[..|list| - 1] == [list[0]] + list[1..][..|list| - 2];
    }
  }

  /** What the list of elements stores, as a value. */
  ghost function Stored(list: Elements): (s: Entries)
    reads list
  {
    if list == [] then [] else [Entry(list[0].key, list[0].expiresAt)] + Stored(list[1..])
  }

  /** Looking a key up through the map finds the entry that a search of the list finds, and
      unlinking that element removes that entry. */
  lemma {:induction false} StoredFind(items: map<Key, CacheEntry>, list: Elements, k: Key)
    requires Indexed(items, list)
    ensures var i := IndexOf(Stored(list), k);
      && |list| == |Stored(list)|
      && (k in items <==> i < |list|)
      && (k in items ==> items[k] in list && items[k].key == k && Stored(list)[i] == Entry(k, items[k].expiresAt)
                         && Stored(Unlink(list, items[k])) == Without(Stored(list), i))
  {
    if k in items {
      KeyListed(items, list, k);
      FindElement(items, list, items[k]);
    } else {
      FindNothing(items, list, k);
    }
  }

  lemma {:induction false} FindNothing(items: map<Key, CacheEntry>, list: Elements, k: Key)
    requires Indexed(items, list) && k !in items
    ensures IndexOf(Stored(list), k) == |Stored(list)| == |list|
  {
    if list != [] {
      FindNothing(items - {list[0].key}, list[1..], k);
      assert Stored(list)[1..] == Stored(list[1..]);
    }
  }

  lemma {:induction false} FindElement(items: map<Key, CacheEntry>, list: Elements, elem: CacheEntry)
    requires Indexed(items, list) && elem in list
    ensures var i := IndexOf(Stored(list), elem.key);
      && i < |list| == |Stored(list)|
      && Stored(list)[i] == Entry(elem.key, elem.expiresAt)
      && Stored(Unlink(list, elem)) == Without(Stored(list), i)
  {
    var s := Stored(list);
    assert s[1..] == Stored(list[1..]);
    StoredLength(list[1..]);
    if list[0] == elem {
      assert Without(s, 0) == s[1..];
    } else {
      var rest := items - {list[0].key};
      ElementHeld(rest, list[1..], elem);
      FindElement(rest, list[1..], elem);
      var i := IndexOf(s, elem.key);
      assert i == 1 + IndexOf(s[1..], elem.key);
      WithoutTail(s, i);
      assert Unlink(list, elem) == [list[0]] + Unlink(list[1..], elem);
      StoredCons(list[0], Unlink(list[1..], elem));
    }
  }

  lemma WithoutTail(s: Entries, i: nat)
    requires 0 < i < |s|
    ensures Without(s, i) == [s[0]] + Without(s[1..], i - 1)
  {
  }

  lemma StoredCons(elem: CacheEntry, list: Elements)
    ensures Stored([elem] + list) == [Entry(elem.key, elem.expiresAt)] + Stored(list)
  {
    assert ([elem] + list)[1..] == list;
  }

  lemma StoredLength(list: Elements)
    ensures |Stored(list)| == |list|
  {
  }

  lemma {:induction false} StoredPrefix(list: Elements, n: nat)
    requires n <= |list|
    ensures |Stored(list)| == |list| && Stored(list[..n]) == Stored(list)[..n]
  {
    StoredLength(list);
    if n > 0 {
      StoredPrefix(list[1..], n - 1);
      assert list[..n][1..] == list[1..][..n - 1];
      assert Stored(list)[1..] == Stored(list[1..]);
    } else {
      assert list[..n] == [];
    }
  }

  lemma {:induction false} StoredLast(list: Elements)
    requires list != []
    ensures |Stored(list)| == |list|
    ensures Stored(list)[|list| - 1] == Entry(list[|list| - 1].key, list[|list| - 1].expiresAt)
  {
    if |list| > 1 {
      StoredLast(list[1..]);
    }
  }

  lemma EvictStep(s: Entries, max: nat)
    requires |s| > max
    ensures Evict(s[..|s| - 1], max) == Evict(s, max)
  {
  }

  lemma AddAllStep(s: Entries, keys: seq<Key>, n: nat, expiresAt: int, max: nat)
    requires n < |keys|
    ensures var s' := if keys[n] == "" then s else AddOne(s, keys[n], expiresAt, max);
      AddAll(s, keys[n..], expiresAt, max) == AddAll(s', keys[n + 1..], expiresAt, max)
  {
    assert keys[n..][1..] == keys[n + 1..];
  }

  class SeenCache {
    const ttl: int
    const maxEntries: nat
    var items: map<Key, CacheEntry>
    var evictList: Elements // front of the linked list first
    ghost var elems: set<CacheEntry> // every element ever linked in

    ghost predicate Valid()
      reads this
    {
      (forall e :: e in evictList ==> e in elems) && Indexed(items, evictList) && |evictList| <= maxEntries && 0 < maxEntries
    }

    ghost function Contents(): Entries
      reads this, evictList
    {
      Stored(evictList)
    }

    /** Non-positive settings fall back to 12 hours and 5000 entries. */
    constructor (ttl: int, maxEntries: int)
      ensures Valid() && Contents() == [] && elems == {}
      ensures this.ttl == (if ttl <= 0 then 12 * 3600 * 1000 else ttl)
      ensures this.maxEntries == (if maxEntries <= 0 then 5000 else maxEntries)
    {
      this.ttl := if ttl <= 0 then 12 * 3600 * 1000 else ttl;
      this.maxEntries := if maxEntries <= 0 then 5000 else maxEntries;
      items := map[];
      evictList := [];
      elems := {};
    }

    /** Remove an element from the list and its key from the map. */
    method Drop(elem: CacheEntry)
      requires Valid() && elem in evictList
      modifies this
      ensures Valid() && elems == old(elems)
      ensures evictList == Unlink(old(evictList), elem)
      ensures Contents() == Delete(old(Contents()), elem.key)
    {
      ElementHeld(items, evictList, elem);
      StoredFind(items, evictList, elem.key);
      UnlinkKeeps(items, evictList, elem);
      evictList := Unlink(evictList, elem);
      items := items - {elem.key};
    }

    method MoveToFront(elem: CacheEntry)
      requires Valid() && elem in evictList
      modifies this`evictList
      ensures Valid()
      ensures evictList == [elem] + Unlink(old(evictList), elem)
      ensures Contents() == Promote(old(Contents()), elem.key)
    {
      StoredFind(items, evictList, elem.key);
      ElementHeld(items, evictList, elem);
      UnlinkKeeps(items, evictList, elem);
      evictList := [elem] + Unlink(evictList, elem);
      LinkFront(items - {elem.key}, evictList[1..], elem);
      assert (items - {elem.key})[elem.key := elem] == items;
    }

    /** One key of a lookup. */
    method Probe(key: Key, now: int) returns (found: bool)
      requires Valid()
      modifies this
      ensures Valid()
      ensures (Contents(), found) == Recency.Probe(old(Contents()), key, now)
      ensures elems == old(elems)
    {
      StoredFind(items, evictList, key);
      if key == "" || key !in items {
        return false;
      }
      var elem := items[key];
      found := now < elem.expiresAt;
      if found {
        MoveToFront(elem);
      } else {
        Drop(elem);
      }
    }

    /** True when one of the keys is held and not expired; that entry moves to the front, its
        expiry unchanged. Expired entries met before it are removed. */
    method Has(keys: seq<Key>, now: int) returns (found: bool)
      requires Valid()
      modifies this
      ensures Valid()
      ensures var (s, hit) := Recency.Has(old(Contents()), keys, now);
        Contents() == s && found == hit.Some?
      ensures elems == old(elems)
    {
      ghost var goal := Recency.Has(Contents(), keys, now);
      var n := 0;
      while n < |keys|
        invariant n <= |keys|
        invariant Valid()
        invariant goal == Recency.Has(Contents(), keys[n..], now)
        invariant elems == old(elems)
      {
        assert keys[n..][1..] == keys[n + 1..];
        found := Probe(keys[n], now);
        if found {
          return;
        }
        n := n + 1;
      }
      return false;
    }

    method RemoveOldest()
      requires Indexed(items, evictList) && evictList != []
      modifies `items, `evictList
      ensures Indexed(items, evictList)
      ensures evictList == old(evictList)[..|old(evictList)| - 1]
    {
      var oldest := evictList[|evictList| - 1];
      UnlinkLast(items, evictList);
      UnlinkKeeps(items, evictList, oldest);
      evictList := Unlink(evictList, oldest);
      items := items - {oldest.key};
    }

    /** Remove the oldest elements while there are too many. */
    method EvictOldest()
      requires Indexed(items, evictList) && 0 < maxEntries
      requires forall e :: e in evictList ==> e in elems
      modifies `items, `evictList
      ensures Valid()
      ensures Contents() == Evict(old(Contents()), maxEntries)
    {
      ghost var goal := Evict(Contents(), maxEntries);
      while |evictList| > maxEntries
        invariant Indexed(items, evictList)
        invariant forall e :: e in evictList ==> e in elems
        invariant Evict(Stored(evictList), maxEntries) == goal
      {
        StoredPrefix(evictList, |evictList| - 1);
        EvictStep(Stored(evictList), maxEntries);
        RemoveOldest();
      }
      StoredLength(evictList);
    }

    /** Insert a new key at the front. */
    method Insert(key: Key, expiresAt: int)
      requires Valid() && key !in items
      modifies this
      ensures Valid()
      ensures Contents() == Evict([Entry(key, expiresAt)] + old(Contents()), maxEntries)
      ensures fresh(elems - old(elems))
    {
      var entry := new CacheEntry(key, expiresAt);
      LinkFront(items, evictList, entry);
      evictList := [entry] + evictList;
      assert evictList[1..] == old(evictList);
      items := items[key := entry];
      elems := elems + {entry};
      EvictOldest();
    }

    /** Move a held key to the front with a new expiry, written through the shared element. */
    method Refresh(key: Key, expiresAt: int)
      requires Valid() && key in items
      modifies this`evictList, items[key]
      ensures Valid()
      ensures Contents() == [Entry(key, expiresAt)] + Delete(old(Contents()), key)
    {
      StoredFind(items, evictList, key);
      UnlinkKeeps(items, evictList, items[key]);
      ghost var others := Delete(Contents(), key);
      ghost var rest := Unlink(evictList, items[key]);
      assert Stored(rest) == others;
      MoveToFront(items[key]);
      assert Stored(rest) == others;
      SetExpiry(items[key], expiresAt, rest, others);
    }

    static method SetExpiry(elem: CacheEntry, expiresAt: int, ghost rest: Elements, ghost others: Entries)
      requires elem !in rest && Stored(rest) == others
      modifies elem
      ensures Stored([elem] + rest) == [Entry(elem.key, expiresAt)] + others
    {
      elem.expiresAt := expiresAt;
      StoredCons(elem, rest);
    }

    method AddToMemory(key: Key, expiresAt: int)
      requires Valid()
      modifies this, elems
      ensures Valid()
      ensures Contents() == AddOne(old(Contents()), key, expiresAt, maxEntries)
      ensures fresh(elems - old(elems))
    {
      StoredFind(items, evictList, key);
      if key in items {
        Refresh(key, expiresAt);
      } else {
        Insert(key, expiresAt);
      }
    }

    /** Mark every non-empty key with the same expiry. */
    method Add(keys: seq<Key>, now: int)
      requires Valid()
      modifies this, elems
      ensures Valid()
      ensures Contents() == AddAll(old(Contents()), keys, now + ttl, maxEntries)
      ensures fresh(elems - old(elems))
    {
      hide Indexed, Stored, AddOne;
      var expiresAt := now + ttl;
      ghost var s := Contents();
      for n := 0 to |keys|
        invariant Valid() && s == Contents()
        invariant AddAll(old(Contents()), keys, expiresAt, maxEntries) == AddAll(s, keys[n..], expiresAt, maxEntries)
        invariant fresh(elems - old(elems))
      {
        AddAllStep(s, keys, n, expiresAt, maxEntries);
        if keys[n] != "" {
          AddToMemory(keys[n], expiresAt);
          s := AddOne(s, keys[n], expiresAt, maxEntries);
        }
      }
    }

    /** Check, then mark if the check missed. The two halves take the mutex separately, so each
        has its own clock reading. */
    method CheckAndMark(keys: seq<Key>, now: int, markedAt: int) returns (duplicate: bool)
      requires Valid()
      modifies this, elems
      ensures Valid()
      ensures var (s, hit) := Recency.Has(old(Contents()), keys, now);
        && duplicate == hit.Some?
        && Contents() == if duplicate then s else AddAll(s, keys, markedAt + ttl, maxEntries)
      ensures fresh(elems - old(elems))
    {
      duplicate := Has(keys, now);
      if !duplicate {
        Add(keys, markedAt);
      }
    }

    /** Remove expired elements from the back, stopping at the first that is still live. */
    method SweepExpired(now: int)
      requires Valid()
      modifies this
      ensures Valid()
      ensures Contents() == Sweep(old(Contents()), now)
      ensures elems == old(elems)
    {
      hide Indexed;
      ghost var goal := Sweep(Contents(), now);
      while evictList != []
        invariant Valid()
        invariant goal == Sweep(Contents(), now)
        invariant elems == old(elems)
      {
        StoredPrefix(evictList, |evictList| - 1);
        StoredLast(evictList);
        if now < evictList[|evictList| - 1].expiresAt {
          break;
        }
        RemoveOldest();
      }
    }
  }
}
