/** What a launched media message carries, and whole runs of the media buckets: every pushed message
    is launched once, with its neighbours and in order, or still waits. */
module MediaRuns {
  import opened Options
  import opened Messages
  import opened MediaSpec

  // ---------- one launched message ----------

  /** The name a batch text gives to a message type. */
  predicate NamesKind(msgType: string, kind: string) {
    && (msgType == "picture" ==> kind == "图片") && (msgType == "file" ==> kind == "文件")
    && (msgType == "audio" ==> kind == "语音") && (msgType == "video" ==> kind == "视频")
    && (msgType !in ["picture", "file", "audio", "video"] ==> kind == "媒体")
  }

  /** The message launched for these sources: a single one as it is; several as the last of them with
      the resources of all, in order, the sources themselves, and a text that counts them. */
  ghost predicate Carries(out: Message, sources: seq<Message>)
    requires sources != []
  {
    if |sources| == 1 then out == sources[0]
    else
      var last := sources[|sources| - 1];
      && out.resources == AllResources(sources) && out.batchedSources == sources
      && (exists kind :: NamesKind(last.msgType, kind) && out.text == "[" + CountRune(|sources|) + "个" + kind + "]")
      && (out.conversationID, out.senderID, out.msgID, out.msgType) == (last.conversationID, last.senderID, last.msgID, last.msgType)
      && (out.createAt, out.content, out.mentionAll, out.mentions, out.other) == (last.createAt, last.content, last.mentionAll, last.mentions, last.other)
  }

  lemma MergedCarries(sources: seq<Message>)
    requires sources != []
    ensures Carries(MergeSources(sources), sources)
  {
    var kind := KindName(sources[|sources| - 1].msgType);
    assert NamesKind(sources[|sources| - 1].msgType, kind);
    assert |sources| > 1 ==> BatchText(|sources|, kind) == "[" + CountRune(|sources|) + "个" + kind + "]";
  }

  /** A flush launches one message for a waiting bucket, after those launched before, and touches no
      other bucket; it cancels no callback but the bucket's own. */
  lemma FlushMeaning(m: Media, key: string, stops: TimerID -> bool)
    ensures var m1 := FlushBucket(m, key, stops);
      if key in m.buckets && m.buckets[key].sources != [] then
        && m1.buckets == m.buckets - {key} && |m1.launched| == |m.launched| + 1
        && m1.launched[..|m.launched|] == m.launched
        && Carries(m1.launched[|m.launched|], m.buckets[key].sources)
        && (forall id :: id in m1.armed <==> id in m.armed && !(m.buckets[key].timer == Some(id) && stops(id)))
      else m1 == m
  {
    if key in m.buckets && m.buckets[key].sources != [] {
      MergedCarries(m.buckets[key].sources);
    }
  }

  /** A push waits exactly while its bucket holds fewer than `maxItems` messages: then the bucket has
      one new callback, and the old one is gone if it was stopped. A full bucket is launched. */
  lemma PushMeaning(m: Media, cfg: MediaConfig, msg: Message, hash: string -> string, stops: TimerID -> bool)
    requires forall id :: id in m.armed ==> id < m.nextTimer
    ensures var key, m1 := BatchKey(msg, hash), Push(m, cfg, msg, hash, stops);
      var all := Waiting(m, key) + [msg];
      if |all| < cfg.maxItems then
        && m1.buckets == m.buckets[key := Bucket(all, Some(m.nextTimer))] && m1.launched == m.launched
        && m.nextTimer !in m.armed && m.nextTimer in m1.armed && m1.armed[m.nextTimer] == key
        && (forall id :: id in m1.armed <==> id == m.nextTimer || (id in m.armed && !(TimerOf(m, key) == Some(id) && stops(id))))
      else
        && m1.buckets == m.buckets - {key} && |m1.launched| == |m.launched| + 1
        && m1.launched[..|m.launched|] == m.launched && Carries(m1.launched[|m.launched|], all)
        && (forall id :: id in m1.armed <==> id in m.armed && !(TimerOf(m, key) == Some(id) && stops(id)))
  {
    hide MergeSources, Carries;
    var key := BatchKey(msg, hash);
    var b := WithSource(m, key, msg);
    assert b.sources == Waiting(m, key) + [msg];
    if |b.sources| >= cfg.maxItems {
      var m2 := m.(buckets := m.buckets[key := b.(timer := None)], armed := Cancel(m.armed, b.timer, stops));
      FlushMeaning(m2, key, stops);
    }
  }

  function Waiting(m: Media, key: string): seq<Message> {
    if key in m.buckets then m.buckets[key].sources else []
  }

  function TimerOf(m: Media, key: string): Option<TimerID> {
    if key in m.buckets then m.buckets[key].timer else None
  }

  /** Defaults: 800 ms and nine items, for a missing or negative setting. */
  lemma Defaults(cfg: MediaConfig)
    ensures FillConfig(cfg).enabled == cfg.enabled
    ensures FillConfig(cfg).delayMs > 0 && FillConfig(cfg).maxItems > 0
    ensures FillConfig(cfg).delayMs == cfg.delayMs || (FillConfig(cfg).delayMs == 800 && cfg.delayMs < 1)
    ensures FillConfig(cfg).maxItems == cfg.maxItems || (FillConfig(cfg).maxItems == 9 && cfg.maxItems < 1)
  {
  }

  // ---------- whole runs ----------

  datatype Event =
    | Pushed(msg: Message, stops: TimerID -> bool)
    | Fired(id: TimerID, stops: TimerID -> bool)
    | Flushed(keys: seq<string>, stops: TimerID -> bool)

  function Step(m: Media, e: Event, cfg: MediaConfig, hash: string -> string): Media {
    match e
    case Pushed(msg, stops) => Push(m, cfg, msg, hash, stops)
    case Fired(id, stops) => Fire(m, id, stops)
    case Flushed(keys, stops) => FlushKeys(m, keys, stops)
  }

  function Run(m: Media, es: seq<Event>, cfg: MediaConfig, hash: string -> string): Media
    decreases |es|
  {
    if es == [] then m else Run(Step(m, es[0], cfg, hash), es[1..], cfg, hash)
  }

  function PushedIn(es: seq<Event>): seq<Message> {
    if es == [] then [] else if es[0].Pushed? then [es[0].msg] + PushedIn(es[1..]) else PushedIn(es[1..])
  }

  /** The messages of one bucket key, in order; and the batches of that key, put together. */
  function Keyed(msgs: seq<Message>, key: string, hash: string -> string): seq<Message> {
    if msgs == [] then []
    else if BatchKey(msgs[0], hash) == key then [msgs[0]] + Keyed(msgs[1..], key, hash)
    else Keyed(msgs[1..], key, hash)
  }

  function Batched(batches: seq<seq<Message>>, key: string, hash: string -> string): seq<Message> {
    if batches == [] then []
    else if batches[0] != [] && BatchKey(batches[0][0], hash) == key then batches[0] + Batched(batches[1..], key, hash)
    else Batched(batches[1..], key, hash)
  }

  ghost predicate OneKey(batch: seq<Message>, hash: string -> string)
    requires batch != []
  {
    forall msg :: msg in batch ==> BatchKey(msg, hash) == BatchKey(batch[0], hash)
  }

  /** The launched messages carry these batches, each of one key and within the bound, and for every key the batches followed by what waits
      are the pushed messages of that key, in push order. */
  ghost predicate Explains(batches: seq<seq<Message>>, m: Media, pushed: seq<Message>, cfg: MediaConfig, hash: string -> string) {
    && |batches| == |m.launched|
    && (forall i :: 0 <= i < |batches| ==> batches[i] != [] && Carries(m.launched[i], batches[i]) && OneKey(batches[i], hash))
    && (forall i :: 0 <= i < |batches| ==> |batches[i]| == 1 || |batches[i]| <= cfg.maxItems)
    && (forall key :: Batched(batches, key, hash) + Waiting(m, key) == Keyed(pushed, key, hash))
  }

  /** Every bucket is filed under its key and not above the bound. */
  ghost predicate Filed(m: Media, cfg: MediaConfig, hash: string -> string) {
    forall k :: k in m.buckets ==>
      && m.buckets[k].sources != [] && (|m.buckets[k].sources| == 1 || |m.buckets[k].sources| <= cfg.maxItems)
      && BatchKey(m.buckets[k].sources[0], hash) == k && OneKey(m.buckets[k].sources, hash)
  }

  lemma {:induction false} KeyedAppend(a: seq<Message>, b: seq<Message>, key: string, hash: string -> string)
    ensures Keyed(a + b, key, hash) == Keyed(a, key, hash) + Keyed(b, key, hash)
  {
    AppendUnfolds(a, b);
    if a != [] {
      KeyedAppend(a[1..], b, key, hash);
    }
  }

  lemma {:induction false} BatchedAppend(a: seq<seq<Message>>, b: seq<seq<Message>>, key: string, hash: string -> string)
    ensures Batched(a + b, key, hash) == Batched(a, key, hash) + Batched(b, key, hash)
  {
    AppendUnfolds(a, b);
    if a != [] {
      BatchedAppend(a[1..], b, key, hash);
    }
  }

  lemma FlushExplained(batches: seq<seq<Message>>, m: Media, pushed: seq<Message>, cfg: MediaConfig, hash: string -> string,
                       key: string, stops: TimerID -> bool) returns (batches': seq<seq<Message>>)
    requires Explains(batches, m, pushed, cfg, hash) && Filed(m, cfg, hash)
    ensures Explains(batches', FlushBucket(m, key, stops), pushed, cfg, hash) && Filed(FlushBucket(m, key, stops), cfg, hash)
  {
    hide Carries;
    var m1 := FlushBucket(m, key, stops);
    FlushMeaning(m, key, stops);
    hide FlushBucket;
    batches' := batches;
    if key in m.buckets {
      var sources := m.buckets[key].sources;
      batches' := batches + [sources];
      forall k ensures Batched(batches', k, hash) + Waiting(m1, k) == Keyed(pushed, k, hash) {
        BatchedAppend(batches, [sources], k, hash);
        BatchedOne(sources, k, hash);
        assert Batched(batches, k, hash) + Waiting(m, k) == Keyed(pushed, k, hash);
        if k == key {
          assert Batched(batches', k, hash) + [] == Batched(batches', k, hash);
        } else {
          assert Batched(batches, k, hash) + [] == Batched(batches, k, hash);
        }
      }
      forall i | 0 <= i < |batches'|
        ensures batches'[i] != [] && Carries(m1.launched[i], batches'[i]) && OneKey(batches'[i], hash)
      {
        if i < |batches| {
          assert m1.launched[i] == m1.launched[..|m.launched|][i];
        }
      }
    }
  }

  lemma BatchedOne(batch: seq<Message>, key: string, hash: string -> string)
    requires batch != []
    ensures Batched([batch], key, hash) == if BatchKey(batch[0], hash) == key then batch else []
  {
    assert [batch][1..] == [] && batch + [] == batch;
  }

  lemma {:induction false} FlushKeysExplained(batches: seq<seq<Message>>, m: Media, pushed: seq<Message>, cfg: MediaConfig, hash: string -> string,
                           keys: seq<string>, stops: TimerID -> bool) returns (batches': seq<seq<Message>>)
    requires Explains(batches, m, pushed, cfg, hash) && Filed(m, cfg, hash)
    ensures Explains(batches', FlushKeys(m, keys, stops), pushed, cfg, hash) && Filed(FlushKeys(m, keys, stops), cfg, hash)
    decreases |keys|
  {
    hide Explains, Filed, FlushBucket;
    if keys == [] {
      batches' := batches;
    } else {
      var b1 := FlushExplained(batches, m, pushed, cfg, hash, keys[0], stops);
      batches' := FlushKeysExplained(b1, FlushBucket(m, keys[0], stops), pushed, cfg, hash, keys[1..], stops);
    }
  }

  /** The bucket with one more source explains one more pushed message. */
  lemma AddExplained(batches: seq<seq<Message>>, m: Media, m1: Media, pushed: seq<Message>, cfg: MediaConfig, hash: string -> string, msg: Message)
    requires Explains(batches, m, pushed, cfg, hash) && Filed(m, cfg, hash)
    requires forall key :: Waiting(m1, key) == Waiting(m, key) + if key == BatchKey(msg, hash) then [msg] else []
    requires m1.launched == m.launched
    ensures Explains(batches, m1, pushed + [msg], cfg, hash)
  {
    hide Carries;
    forall k ensures Batched(batches, k, hash) + Waiting(m1, k) == Keyed(pushed + [msg], k, hash) {
      KeyedAppend(pushed, [msg], k, hash);
      assert [msg][1..] == [] && [msg] + [] == [msg];
      assert Batched(batches, k, hash) + Waiting(m, k) == Keyed(pushed, k, hash);
    }
  }

  lemma PushExplained(batches: seq<seq<Message>>, m: Media, pushed: seq<Message>, cfg: MediaConfig, hash: string -> string,
                      msg: Message, stops: TimerID -> bool) returns (batches': seq<seq<Message>>)
    requires Explains(batches, m, pushed, cfg, hash) && Filed(m, cfg, hash)
    requires forall k :: k in m.buckets ==> |m.buckets[k].sources| < cfg.maxItems
    ensures Explains(batches', Push(m, cfg, msg, hash, stops), pushed + [msg], cfg, hash)
    ensures Filed(Push(m, cfg, msg, hash, stops), cfg, hash)
  {
    hide Explains, FlushBucket;
    var key := BatchKey(msg, hash);
    var b := WithSource(m, key, msg);
    assert b.sources == Waiting(m, key) + [msg];
    var full := |b.sources| >= cfg.maxItems;
    var m1 := m.(buckets := m.buckets[key := b.(timer := None)], armed := Cancel(m.armed, b.timer, stops));
    AddExplained(batches, m, m1, pushed, cfg, hash, msg);
    if full {
      batches' := FlushExplained(batches, m1, pushed + [msg], cfg, hash, key, stops);
    } else {
      batches' := batches;
      AddExplained(batches, m, Push(m, cfg, msg, hash, stops), pushed, cfg, hash, msg);
    }
  }

  lemma StepExplained(batches: seq<seq<Message>>, m: Media, pushed: seq<Message>, cfg: MediaConfig, hash: string -> string, e: Event)
    returns (batches': seq<seq<Message>>)
    requires Explains(batches, m, pushed, cfg, hash) && Sound(m, cfg, hash)
    ensures Explains(batches', Step(m, e, cfg, hash), pushed + PushedIn([e]), cfg, hash)
    ensures Sound(Step(m, e, cfg, hash), cfg, hash)
  {
    SoundIsFiled(m, cfg, hash);
    assert [e][1..] == [];
    hide Explains, Filed, FlushBucket, Sound, Push;
    match e
    case Pushed(msg, stops) =>
      PushSound(m, cfg, msg, hash, stops);
      batches' := PushExplained(batches, m, pushed, cfg, hash, msg, stops);
      assert PushedIn([e]) == [msg];
    case Fired(id, stops) =>
      FireSound(m, id, cfg, hash, stops);
      assert pushed + PushedIn([e]) == pushed;
      if id in m.armed {
        SameBuckets(batches, m, m.(armed := m.armed - {id}), pushed, cfg, hash);
        batches' := FlushExplained(batches, m.(armed := m.armed - {id}), pushed, cfg, hash, m.armed[id], stops);
      } else {
        batches' := batches;
      }
    case Flushed(keys, stops) =>
      FlushKeysSound(m, keys, cfg, hash, stops);
      assert pushed + PushedIn([e]) == pushed;
      batches' := FlushKeysExplained(batches, m, pushed, cfg, hash, keys, stops);
  }

  lemma SoundIsFiled(m: Media, cfg: MediaConfig, hash: string -> string)
    requires Sound(m, cfg, hash)
    ensures Filed(m, cfg, hash) && forall k :: k in m.buckets ==> |m.buckets[k].sources| < cfg.maxItems
  {
  }

  lemma SameBuckets(batches: seq<seq<Message>>, m: Media, m1: Media, pushed: seq<Message>, cfg: MediaConfig, hash: string -> string)
    requires Explains(batches, m, pushed, cfg, hash) && Filed(m, cfg, hash)
    requires m1.buckets == m.buckets && m1.launched == m.launched
    ensures Explains(batches, m1, pushed, cfg, hash) && Filed(m1, cfg, hash)
  {
    hide Carries;
    assert forall key :: Waiting(m1, key) == Waiting(m, key);
  }

  /** Every run of pushes, window callbacks (stale ones included) and flushes: the launched messages
      carry batches of the pushed messages, and for every bucket key those batches followed by the
      waiting bucket are the messages pushed with that key, in push order. */
  lemma {:induction false} RunExplained(batches: seq<seq<Message>>, m: Media, pushed: seq<Message>, es: seq<Event>, cfg: MediaConfig, hash: string -> string)
    returns (batches': seq<seq<Message>>)
    requires Explains(batches, m, pushed, cfg, hash) && Sound(m, cfg, hash)
    ensures Explains(batches', Run(m, es, cfg, hash), pushed + PushedIn(es), cfg, hash)
    ensures Sound(Run(m, es, cfg, hash), cfg, hash)
    decreases |es|
  {
    hide Explains, Sound, Step;
    if es == [] {
      batches' := batches;
      assert pushed + [] == pushed;
    } else {
      var b1 := StepExplained(batches, m, pushed, cfg, hash, es[0]);
      batches' := RunExplained(b1, Step(m, es[0], cfg, hash), pushed + PushedIn([es[0]]), es[1..], cfg, hash);
      assert [es[0]][1..] == [];
      assert PushedIn(es) == PushedIn([es[0]]) + PushedIn(es[1..]);
      assert pushed + PushedIn(es) == pushed + PushedIn([es[0]]) + PushedIn(es[1..]);
    }
  }

  lemma NothingLost(es: seq<Event>, cfg: MediaConfig, hash: string -> string)
    ensures var m := Run(NoMedia, es, cfg, hash);
      Sound(m, cfg, hash) && exists batches :: Explains(batches, m, PushedIn(es), cfg, hash)
  {
    assert Explains([], NoMedia, [], cfg, hash);
    hide Explains;
    var batches := RunExplained([], NoMedia, [], es, cfg, hash);
    assert [] + PushedIn(es) == PushedIn(es);
  }

  // ---------- the resources alone ----------

  lemma CarriedMessage(out: Message, sources: seq<Message>, hash: string -> string)
    requires sources != [] && Carries(out, sources) && OneKey(sources, hash)
    ensures AllResources([out]) == AllResources(sources)
    ensures BatchKey(out, hash) == BatchKey(sources[0], hash)
  {
    GatheredInOrder([], out);
    assert [] + [out] == [out];
    if |sources| == 1 {
      assert sources == [out];
    } else {
      assert sources[|sources| - 1] in sources;
    }
  }

  lemma {:induction false} BatchedResources(batches: seq<seq<Message>>, launched: seq<Message>, key: string, hash: string -> string)
    requires |batches| == |launched|
    requires forall i :: 0 <= i < |batches| ==> batches[i] != [] && Carries(launched[i], batches[i]) && OneKey(batches[i], hash)
    ensures AllResources(Batched(batches, key, hash)) == AllResources(Keyed(launched, key, hash))
  {
    if batches != [] {
      var rest := batches[1..];
      assert forall i :: 0 <= i < |rest| ==> rest[i] == batches[i + 1] && launched[1..][i] == launched[i + 1];
      BatchedResources(rest, launched[1..], key, hash);
      CarriedMessage(launched[0], batches[0], hash);
      hide Carries, AllResources;
      ResourcesAppend(batches[0], Batched(rest, key, hash));
      ResourcesAppend([launched[0]], Keyed(launched[1..], key, hash));
    }
  }

  /** On every run, key by key: the resources of the launched messages followed by those that wait are
      the pushed ones, each once and in push order. */
  lemma ResourcesConserved(es: seq<Event>, cfg: MediaConfig, hash: string -> string, key: string)
    ensures var m := Run(NoMedia, es, cfg, hash);
      AllResources(Keyed(m.launched, key, hash)) + AllResources(Waiting(m, key)) == AllResources(Keyed(PushedIn(es), key, hash))
  {
    hide Carries, AllResources, OneKey;
    NothingLost(es, cfg, hash);
    var m := Run(NoMedia, es, cfg, hash);
    var batches :| Explains(batches, m, PushedIn(es), cfg, hash);
    BatchedResources(batches, m.launched, key, hash);
    ResourcesAppend(Batched(batches, key, hash), Waiting(m, key));
  }

  // ---------- the count in the text ----------

  /** The count is the character that many places after '0', a colon for ten. */
  lemma CountCharacter(count: nat)
    ensures count < 0xD7D0 ==> CountRune(count) == [('0' as int + count) as char]
    ensures CountRune(10) == ":"
  {
  }
}
