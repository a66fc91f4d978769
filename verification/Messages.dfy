/** Messages, and how a batch of them becomes one. */
module Messages {
  import opened Options
  import opened Text

  datatype Resource = Resource(kind: string, downloadCode: string, fileName: string)

  datatype Mention = Mention(userID: string, name: string, isAll: bool)

  /** `other` stands for the fields no code here looks at. */
  datatype Message = Message(
    conversationID: string, senderID: string, msgID: string, msgType: string, createAt: int,
    text: string, content: string, mentionAll: bool, resources: seq<Resource>, mentions: seq<Mention>,
    batchedSources: seq<Message>, other: string)

  function CodeOf(r: Resource): string { r.downloadCode }

  function MentionKey(m: Mention): string { if m.userID == "" then m.name else m.userID }

  /** Elements of xs whose key is new: not in `seen`, and not the key of an earlier element. */
  function FirstBy<X>(xs: seq<X>, key: X -> string, seen: set<string>): seq<X> {
    if xs == [] then []
    else if key(xs[0]) in seen then FirstBy(xs[1..], key, seen)
    else [xs[0]] + FirstBy(xs[1..], key, seen + {key(xs[0])})
  }

  ghost function KeysOf<X>(xs: seq<X>, key: X -> string): set<string> {
    set x | x in xs :: key(x)
  }

  function Texts(batch: seq<Message>): seq<string> {
    if batch == [] then [] else (if batch[0].text == "" then [] else [batch[0].text]) + Texts(batch[1..])
  }

  function AllResources(batch: seq<Message>): seq<Resource> {
    if batch == [] then [] else batch[0].resources + AllResources(batch[1..])
  }

  function AllMentions(batch: seq<Message>): seq<Mention> {
    if batch == [] then [] else batch[0].mentions + AllMentions(batch[1..])
  }

  function IDs(batch: seq<Message>): (ids: seq<string>)
    ensures |ids| == |batch|
  {
    if batch == [] then [] else [batch[0].msgID] + IDs(batch[1..])
  }

  function Chars(batch: seq<Message>): nat {
    if batch == [] then 0 else |batch[0].text| + Chars(batch[1..])
  }

  predicate AsksAll(batch: seq<Message>) {
    exists m :: m in batch && m.mentionAll
  }

  const Gap := "\n\n"

  /** One message for a batch: a single message as it is; otherwise the last message carrying the
      joined texts, "mention all" if any asked for it, and each resource and mention once. */
  function Merge(batch: seq<Message>): Message
    requires batch != []
  {
    if |batch| == 1 then batch[0]
    else batch[|batch| - 1].(
      text := Join(Texts(batch), Gap),
      mentionAll := AsksAll(batch),
      resources := FirstBy(AllResources(batch), CodeOf, {}),
      mentions := FirstBy(AllMentions(batch), MentionKey, {}))
  }

  method CollectTexts(batch: seq<Message>) returns (contents: seq<string>)
    ensures contents == Texts(batch)
  {
    contents := [];
    for i := 0 to |batch|
      invariant contents == Texts(batch[..i])
    {
      TextsNext(batch, i);
      if batch[i].text != "" {
        contents := contents + [batch[i].text];
      }
    }
    assert batch[..|batch|] == batch;
  }

  lemma TextsNext(batch: seq<Message>, i: nat)
    requires i < |batch|
    ensures Texts(batch[..i + 1]) == Texts(batch[..i]) + if batch[i].text == "" then [] else [batch[i].text]
  {
    assert batch[..i + 1] == batch[..i] + [batch[i]];
    TextsAppend(batch[..i], [batch[i]]);
    assert [batch[i]][1..] == [];
  }

  method MergeBatch(batch: seq<Message>) returns (merged: Message)
    requires batch != []
    ensures merged == Merge(batch)
  {
    if |batch| == 1 {
      return batch[0];
    }
    var last := batch[|batch| - 1];
    var contents := CollectTexts(batch);
    var mentionAll := false;
    var resources, seenResources := [], {};
    var mentions, seenMentions := [], {};
    assert batch[0..] == batch;
    for i := 0 to |batch|
      invariant AsksAll(batch) <==> mentionAll || AsksAll(batch[i..])
      invariant FirstBy(AllResources(batch), CodeOf, {}) == resources + FirstBy(AllResources(batch[i..]), CodeOf, seenResources)
      invariant FirstBy(AllMentions(batch), MentionKey, {}) == mentions + FirstBy(AllMentions(batch[i..]), MentionKey, seenMentions)
    {
      var m := batch[i];
      MergeLoop(batch, i);
      if m.mentionAll {
        mentionAll := true;
      }
      resources, seenResources := TakeNew(m.resources, CodeOf, resources, seenResources, AllResources(batch[i + 1..]));
      mentions, seenMentions := TakeNew(m.mentions, MentionKey, mentions, seenMentions, AllMentions(batch[i + 1..]));
    }
    assert batch[|batch|..] == [];
    assert resources == FirstBy(AllResources(batch), CodeOf, {});
    assert mentions == FirstBy(AllMentions(batch), MentionKey, {});
    merged := last.(text := Join(contents, Gap), mentionAll := mentionAll, resources := resources, mentions := mentions);
  }

  lemma MergeLoop(batch: seq<Message>, i: nat)
    requires i < |batch|
    ensures AsksAll(batch[i..]) <==> batch[i].mentionAll || AsksAll(batch[i + 1..])
    ensures AllResources(batch[i..]) == batch[i].resources + AllResources(batch[i + 1..])
    ensures AllMentions(batch[i..]) == batch[i].mentions + AllMentions(batch[i + 1..])
  {
    var rest := batch[i..];
    assert rest[0] == batch[i] && rest[1..] == batch[i + 1..];
    assert forall m :: m in rest <==> m == rest[0] || m in rest[1..];
  }

  /** The inner loops: append the elements whose key is new. `rest` is what is still to come. */
  method TakeNew<X>(xs: seq<X>, key: X -> string, taken: seq<X>, seen: set<string>, ghost rest: seq<X>)
    returns (taken': seq<X>, seen': set<string>)
    ensures taken + FirstBy(xs + rest, key, seen) == taken' + FirstBy(rest, key, seen')
    ensures taken' == taken + FirstBy(xs, key, seen)
    ensures seen' == seen + KeysOf(xs, key)
  {
    taken', seen' := taken, seen;
    for i := 0 to |xs|
      invariant taken + FirstBy(xs, key, seen) == taken' + FirstBy(xs[i..], key, seen')
      invariant seen' == seen + KeysOf(xs[..i], key)
    {
      assert xs[i..][1..] == xs[i + 1..];
      assert xs[..i + 1] == xs[..i] + [xs[i]];
      if key(xs[i]) !in seen' {
        seen' := seen' + {key(xs[i])};
        taken' := taken' + [xs[i]];
      }
    }
    assert xs[..|xs|] == xs;
    FirstByAppend(xs, rest, key, seen);
    assert taken' == taken + FirstBy(xs, key, seen);
    assert seen' == seen + KeysOf(xs, key);
    assert FirstBy(xs + rest, key, seen) == FirstBy(xs, key, seen) + FirstBy(rest, key, seen');
  }

  // ---------- first occurrences ----------

  lemma {:induction false} FirstByAppend<X>(xs: seq<X>, ys: seq<X>, key: X -> string, seen: set<string>)
    ensures FirstBy(xs + ys, key, seen) == FirstBy(xs, key, seen) + FirstBy(ys, key, seen + KeysOf(xs, key))
  {
    if xs == [] {
      assert xs + ys == ys;
      assert seen + KeysOf(xs, key) == seen;
    } else {
      var k := key(xs[0]);
      var seen1 := seen + {k};
      assert (xs + ys)[1..] == xs[1..] + ys;
      assert xs == [xs[0]] + xs[1..];
      assert seen1 + KeysOf(xs[1..], key) == seen + KeysOf(xs, key);
      FirstByAppend(xs[1..], ys, key, seen1);
      if k in seen {
        assert seen1 == seen;
      }
    }
  }

  /** Taking first occurrences twice is taking them once. */
  lemma {:induction false} FirstByTwice<X>(xs: seq<X>, key: X -> string, inner: set<string>, outer: set<string>)
    requires inner <= outer
    ensures FirstBy(FirstBy(xs, key, inner), key, outer) == FirstBy(xs, key, outer)
    ensures KeysOf(FirstBy(xs, key, inner), key) + inner == KeysOf(xs, key) + inner
  {
    if xs != [] {
      var k := key(xs[0]);
      assert xs == [xs[0]] + xs[1..];
      if k in inner {
        FirstByTwice(xs[1..], key, inner, outer);
      } else {
        var r := FirstBy(xs[1..], key, inner + {k});
        FirstByTwice(xs[1..], key, inner + {k}, outer + {k});
        assert ([xs[0]] + r)[1..] == r;
        assert KeysOf([xs[0]] + r, key) == {k} + KeysOf(r, key);
        assert KeysOf(xs, key) == {k} + KeysOf(xs[1..], key);
        if k in outer {
          assert outer + {k} == outer;
        }
      }
    }
  }

  /** xs[i] is the first element with its key, and its key is not in `seen`. */
  predicate IsFirst<X>(xs: seq<X>, key: X -> string, seen: set<string>, i: nat)
    requires i < |xs|
  {
    key(xs[i]) !in seen && forall j :: 0 <= j < i ==> key(xs[j]) != key(xs[i])
  }

  /** The first n elements without those that are not first with their key, in order. */
  function Firsts<X>(xs: seq<X>, key: X -> string, seen: set<string>, n: nat): seq<X>
    requires n <= |xs|
  {
    if n == 0 then [] else Firsts(xs, key, seen, n - 1) + if IsFirst(xs, key, seen, n - 1) then [xs[n - 1]] else []
  }

  lemma {:induction false} FirstByPrefix<X>(xs: seq<X>, key: X -> string, seen: set<string>, n: nat)
    requires n <= |xs|
    ensures FirstBy(xs[..n], key, seen) == Firsts(xs, key, seen, n)
  {
    if n > 0 {
      var before, x := xs[..n - 1], xs[n - 1];
      FirstByPrefix(xs, key, seen, n - 1);
      FirstByAppend(before, [x], key, seen);
      assert xs[..n] == before + [x];
      assert [x][1..] == [];
      assert key(x) in KeysOf(before, key) <==> exists j :: 0 <= j < n - 1 && key(xs[j]) == key(x) by {
        if key(x) in KeysOf(before, key) {
          var y :| y in before && key(y) == key(x);
          var j :| 0 <= j < n - 1 && before[j] == y;
          assert xs[j] == y;
        }
        if j :| 0 <= j < n - 1 && key(xs[j]) == key(x) {
          assert before[j] == xs[j];
        }
      }
    }
  }

  /** What first occurrences are: exactly the elements that are first with their key, in their order;
      so no key twice, none from `seen`, and every other key kept. */
  lemma {:induction false} FirstByMeaning<X>(xs: seq<X>, key: X -> string, seen: set<string>)
    ensures var r := FirstBy(xs, key, seen);
      && r == Firsts(xs, key, seen, |xs|)
      && KeysOf(r, key) == KeysOf(xs, key) - seen
      && |KeysOf(r, key)| == |r|
  {
    FirstByPrefix(xs, key, seen, |xs|);
    assert xs[..|xs|] == xs;
    FirstByKeys(xs, key, seen);
  }

  lemma {:induction false} FirstByKeys<X>(xs: seq<X>, key: X -> string, seen: set<string>)
    ensures var r := FirstBy(xs, key, seen);
      KeysOf(r, key) == KeysOf(xs, key) - seen && |KeysOf(r, key)| == |r|
  {
    if xs != [] {
      var k := key(xs[0]);
      assert xs == [xs[0]] + xs[1..];
      if k in seen {
        FirstByKeys(xs[1..], key, seen);
      } else {
        var r := FirstBy(xs[1..], key, seen + {k});
        FirstByKeys(xs[1..], key, seen + {k});
        assert KeysOf([xs[0]] + r, key) == {k} + KeysOf(r, key);
      }
    }
  }

  // ---------- batch boundaries ----------

  lemma {:induction false} TextsAppend(a: seq<Message>, b: seq<Message>)
    ensures Texts(a + b) == Texts(a) + Texts(b)
  {
    AppendUnfolds(a, b);
    if a != [] {
      TextsAppend(a[1..], b);
    }
  }

  lemma {:induction false} TextsNotEmpty(a: seq<Message>)
    ensures forall t :: t in Texts(a) ==> t != ""
  {
    if a != [] {
      TextsNotEmpty(a[1..]);
    }
  }

  lemma {:induction false} ResourcesAppend(a: seq<Message>, b: seq<Message>)
    ensures AllResources(a + b) == AllResources(a) + AllResources(b)
  {
    AppendUnfolds(a, b);
    if a != [] {
      ResourcesAppend(a[1..], b);
    }
  }

  lemma {:induction false} MentionsAppend(a: seq<Message>, b: seq<Message>)
    ensures AllMentions(a + b) == AllMentions(a) + AllMentions(b)
  {
    AppendUnfolds(a, b);
    if a != [] {
      MentionsAppend(a[1..], b);
    }
  }

  lemma JoinIsEmpty(parts: seq<string>, sep: string)
    requires forall t :: t in parts ==> t != ""
    ensures Join(parts, sep) == "" <==> parts == []
  {
    if parts != [] {
      assert parts[0] in parts;
    }
  }

  lemma MergedText(a: seq<Message>)
    requires a != []
    ensures Merge(a).text == Join(Texts(a), Gap)
    ensures Texts([Merge(a)]) == if Texts(a) == [] then [] else [Merge(a).text]
  {
    TextsNotEmpty(a);
    JoinIsEmpty(Texts(a), Gap);
    if |a| == 1 {
      assert a[1..] == [];
    }
    assert [Merge(a)][1..] == [];
  }

  /** The merged text, one message at a time: a non-empty text follows after a blank line. */
  lemma MergedTextGrows(batch: seq<Message>, msg: Message)
    requires batch != []
    ensures var before := Merge(batch).text;
      Merge(batch + [msg]).text
        == if msg.text == "" then before else if before == "" then msg.text else before + "\n\n" + msg.text
  {
    var t := Texts([msg]);
    assert [msg][1..] == [] && [msg.text] + [] == [msg.text];
    assert t == (if msg.text == "" then [] else [msg.text]) + Texts([]);
    assert t == if msg.text == "" then [] else [msg.text];
    hide Merge, Texts;
    MergedText(batch);
    MergedText(batch + [msg]);
    TextsAppend(batch, [msg]);
    TextsNotEmpty(batch);
    JoinIsEmpty(Texts(batch), Gap);
    if t == [] {
      assert Texts(batch) + t == Texts(batch);
    } else if Texts(batch) == [] {
      assert Texts(batch) + t == t;
    } else {
      JoinAppend(Texts(batch), t, Gap);
    }
  }

  lemma FirstsByKey<X>(xs: seq<X>, key: X -> string, key': X -> string, n: nat)
    requires n <= |xs| && forall x :: key(x) == key'(x)
    ensures Firsts(xs, key, {}, n) == Firsts(xs, key', {}, n)
  {
  }

  /** What a merged message is, besides its text: one message stays as it is; for several, "mention
      all" if any asked for it, every resource first with its download code and every mention first
      with its user id (its name when it has none), and all other fields from the last message. */
  lemma MergeMeaning(batch: seq<Message>)
    requires batch != []
    ensures |batch| == 1 ==> Merge(batch) == batch[0]
    ensures |batch| > 1 ==>
      var m, last := Merge(batch), batch[|batch| - 1];
      && (m.mentionAll <==> exists i :: 0 <= i < |batch| && batch[i].mentionAll)
      && m.resources == Firsts(AllResources(batch), (r: Resource) => r.downloadCode, {}, |AllResources(batch)|)
      && m.mentions == Firsts(AllMentions(batch), (n: Mention) => if n.userID != "" then n.userID else n.name, {}, |AllMentions(batch)|)
      && (m.conversationID, m.senderID, m.msgID, m.msgType, m.createAt) == (last.conversationID, last.senderID, last.msgID, last.msgType, last.createAt)
      && (m.content, m.batchedSources, m.other) == (last.content, last.batchedSources, last.other)
  {
    hide Firsts, FirstBy, AllResources, AllMentions, Join, Texts, KeysOf;
    var rs, ms := AllResources(batch), AllMentions(batch);
    FirstByMeaning(rs, CodeOf, {});
    FirstsByKey(rs, CodeOf, (r: Resource) => r.downloadCode, |rs|);
    FirstByMeaning(ms, MentionKey, {});
    FirstsByKey(ms, MentionKey, (n: Mention) => if n.userID != "" then n.userID else n.name, |ms|);
  }

  /** What is gathered from a batch: the lists of its messages, one after another. */
  lemma GatheredInOrder(batch: seq<Message>, msg: Message)
    ensures AllResources([]) == [] && AllResources(batch + [msg]) == AllResources(batch) + msg.resources
    ensures AllMentions([]) == [] && AllMentions(batch + [msg]) == AllMentions(batch) + msg.mentions
  {
    ResourcesAppend(batch, [msg]);
    MentionsAppend(batch, [msg]);
    assert [msg][1..] == [];
  }

  lemma TextBoundary(a: seq<Message>, b: seq<Message>)
    requires a != [] && b != []
    ensures Join(Texts([Merge(a), Merge(b)]), Gap) == Join(Texts(a + b), Gap)
  {
    MergedText(a);
    MergedText(b);
    TextsAppend([Merge(a)], [Merge(b)]);
    assert [Merge(a)] + [Merge(b)] == [Merge(a), Merge(b)];
    TextsAppend(a, b);
    var ta, tb := Texts(a), Texts(b);
    if ta == [] {
      assert ta + tb == tb;
    } else if tb == [] {
      assert ta + tb == ta;
    } else {
      JoinAppend(ta, tb, Gap);
      JoinAppend([Merge(a).text], [Merge(b).text], Gap);
    }
  }

  lemma {:induction false} ListBoundary<X>(a: seq<X>, b: seq<X>, a': seq<X>, b': seq<X>, key: X -> string)
    requires a' == a || a' == FirstBy(a, key, {})
    requires b' == b || b' == FirstBy(b, key, {})
    ensures FirstBy(a' + b', key, {}) == FirstBy(a + b, key, {})
  {
    FirstByAppend(a, b, key, {});
    FirstByAppend(a', b', key, {});
    FirstByTwice(a, key, {}, {});
    FirstByTwice(b, key, {}, {} + KeysOf(a, key));
    assert KeysOf(a', key) + {} == KeysOf(a', key) && KeysOf(a, key) + {} == KeysOf(a, key);
  }

  lemma MergedLists(a: seq<Message>)
    requires a != []
    ensures Merge(a).resources == AllResources(a) || Merge(a).resources == FirstBy(AllResources(a), CodeOf, {})
    ensures Merge(a).mentions == AllMentions(a) || Merge(a).mentions == FirstBy(AllMentions(a), MentionKey, {})
  {
    if |a| == 1 {
      assert a[1..] == [];
    }
  }

  lemma ResourceBoundary(a: seq<Message>, b: seq<Message>)
    requires a != [] && b != []
    ensures FirstBy(AllResources([Merge(a), Merge(b)]), CodeOf, {}) == FirstBy(AllResources(a + b), CodeOf, {})
  {
    MergedLists(a);
    MergedLists(b);
    ResourcesAppend(a, b);
    PairLists(Merge(a), Merge(b));
    ListBoundary(AllResources(a), AllResources(b), Merge(a).resources, Merge(b).resources, CodeOf);
  }

  lemma MentionBoundary(a: seq<Message>, b: seq<Message>)
    requires a != [] && b != []
    ensures FirstBy(AllMentions([Merge(a), Merge(b)]), MentionKey, {}) == FirstBy(AllMentions(a + b), MentionKey, {})
  {
    MergedLists(a);
    MergedLists(b);
    MentionsAppend(a, b);
    PairLists(Merge(a), Merge(b));
    ListBoundary(AllMentions(a), AllMentions(b), Merge(a).mentions, Merge(b).mentions, MentionKey);
  }

  lemma PairLists(x: Message, y: Message)
    ensures AllResources([x, y]) == x.resources + y.resources
    ensures AllMentions([x, y]) == x.mentions + y.mentions
  {
    assert [x, y][1..] == [y] && [y][1..] == [];
    assert AllResources([y]) == y.resources && AllMentions([y]) == y.mentions;
  }

  lemma MentionAllBoundary(a: seq<Message>, b: seq<Message>)
    requires a != [] && b != []
    ensures AsksAll([Merge(a), Merge(b)]) <==> AsksAll(a + b)
  {
    assert Merge(a).mentionAll <==> AsksAll(a) by { assert a[0] in a; }
    assert Merge(b).mentionAll <==> AsksAll(b) by { assert b[0] in b; }
    assert Merge(a) in [Merge(a), Merge(b)] && Merge(b) in [Merge(a), Merge(b)];
    assert forall m :: m in a + b <==> m in a || m in b;
  }

  /** Where the batches are cut does not matter: merging two merged batches is merging all their
      messages at once. */
  lemma {:induction false} BatchBoundaries(a: seq<Message>, b: seq<Message>)
    requires a != [] && b != []
    ensures Merge([Merge(a), Merge(b)]) == Merge(a + b)
  {
    TextBoundary(a, b);
    ResourceBoundary(a, b);
    MentionBoundary(a, b);
    MentionAllBoundary(a, b);
    MergeCarrier(b);
    Assemble([Merge(a), Merge(b)], a + b);
  }

  ghost predicate SameCarrier(m: Message, n: Message) {
    m.(text := n.text, mentionAll := n.mentionAll, resources := n.resources, mentions := n.mentions) == n
  }

  lemma MergeCarrier(a: seq<Message>)
    requires a != []
    ensures SameCarrier(Merge(a), a[|a| - 1])
  {
  }

  lemma Assemble(x: seq<Message>, y: seq<Message>)
    requires |x| > 1 && |y| > 1 && SameCarrier(x[|x| - 1], y[|y| - 1])
    requires Join(Texts(x), Gap) == Join(Texts(y), Gap) && (AsksAll(x) <==> AsksAll(y))
    requires FirstBy(AllResources(x), CodeOf, {}) == FirstBy(AllResources(y), CodeOf, {})
    requires FirstBy(AllMentions(x), MentionKey, {}) == FirstBy(AllMentions(y), MentionKey, {})
    ensures Merge(x) == Merge(y)
  {
  }
}
