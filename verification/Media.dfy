/** The media batch manager as the object it is: a map of buckets that are changed in place. */
module MediaPipelines {
  import opened Options
  import opened Messages
  import opened MediaSpec
  import R = MediaRuns

  class MediaBucket {
    var sources: seq<Message>
    var timer: Option<TimerID>

    constructor ()
      ensures sources == [] && timer == None
    {
      sources, timer := [], None;
    }
  }

  method MergeBucket(sources: seq<Message>) returns (merged: Message)
    requires sources != []
    ensures merged == MergeSources(sources) && R.Carries(merged, sources)
  {
    R.MergedCarries(sources);
    if |sources| == 1 {
      return sources[0];
    }
    var last := sources[|sources| - 1];
    var allResources := [];
    for i := 0 to |sources|
      invariant allResources == AllResources(sources[..i])
    {
      assert sources[..i + 1] == sources[..i] + [sources[i]];
      GatheredInOrder(sources[..i], sources[i]);
      allResources := allResources + sources[i].resources;
    }
    assert sources[..|sources|] == sources;
    merged := last.(resources := allResources, text := BatchText(|sources|, KindName(last.msgType)), batchedSources := sources);
  }

  class MediaPipelineManager {
    const cfg: MediaConfig
    const hash: string -> string
    var buckets: map<string, MediaBucket>
    var armed: map<TimerID, string>
    var nextTimer: TimerID
    var launched: seq<Message>
    ghost var made: set<MediaBucket> // every bucket ever made

    ghost predicate Valid()
      reads this
    {
      && (forall k :: k in buckets ==> buckets[k] in made)
      && forall j, k :: j in buckets && k in buckets && j != k ==> buckets[j] != buckets[k]
    }

    ghost function View(): Media
      reads this, buckets.Values
    {
      Media(map k | k in buckets :: Bucket(buckets[k].sources, buckets[k].timer), armed, nextTimer, launched)
    }

    constructor (cfg: MediaConfig, hash: string -> string)
      ensures Valid() && View() == NoMedia && this.hash == hash && this.cfg == FillConfig(cfg)
      ensures made == {}
    {
      this.cfg := FillConfig(cfg);
      this.hash := hash;
      buckets, armed, nextTimer, launched, made := map[], map[], 0, [], {};
    }

    method CancelTimer(bucket: MediaBucket, stops: TimerID -> bool)
      modifies `armed, bucket`timer
      ensures bucket.timer == None
      ensures armed == Cancel(old(armed), old(bucket.timer), stops)
    {
      if bucket.timer.Some? {
        if stops(bucket.timer.value) {
          armed := armed - {bucket.timer.value};
        }
        bucket.timer := None;
      }
    }

    method FlushBucket(key: string, stops: TimerID -> bool)
      requires Valid()
      modifies `buckets, `armed, `launched, made
      ensures Valid()
      ensures View() == MediaSpec.FlushBucket(old(View()), key, stops)
      ensures var was := old(View());
        if key in was.buckets && was.buckets[key].sources != [] then
          && key !in buckets && |launched| == |was.launched| + 1
          && R.Carries(launched[|was.launched|], was.buckets[key].sources)
        else launched == was.launched
      ensures made == old(made)
    {
      if key !in buckets || |buckets[key].sources| == 0 {
        return;
      }
      var bucket := buckets[key];
      buckets := buckets - {key};
      CancelTimer(bucket, stops);
      var merged := MergeBucket(bucket.sources);
      launched := launched + [merged];
    }

    method Open(key: string)
      requires Valid() && key !in buckets
      modifies `buckets, `made
      ensures Valid() && key in buckets
      ensures View() == old(View()).(buckets := old(View()).buckets[key := Bucket([], None)])
      ensures fresh(made - old(made)) && made == old(made) + {buckets[key]}
    {
      ghost var was := View();
      var created := new MediaBucket();
      assert View() == was && created !in made;
      buckets := buckets[key := created];
      made := made + {created};
    }

    method Append(key: string, msg: Message)
      requires Valid() && key in buckets
      modifies buckets[key]
      ensures Valid()
      ensures var was := old(View());
        View() == was.(buckets := was.buckets[key := was.buckets[key].(sources := was.buckets[key].sources + [msg])])
    {
      var bucket := buckets[key];
      bucket.sources := bucket.sources + [msg];
    }

    method AddSource(key: string, msg: Message)
      requires Valid()
      modifies `buckets, `made, made
      ensures Valid() && key in buckets
      ensures var was := old(View());
        View() == was.(buckets := was.buckets[key := WithSource(was, key, msg)])
      ensures fresh(made - old(made))
    {
      if key !in buckets {
        Open(key);
      }
      Append(key, msg);
    }

    method Disarm(key: string, stops: TimerID -> bool)
      requires Valid() && key in buckets
      modifies `armed, made
      ensures Valid()
      ensures var was := old(View());
        View() == was.(buckets := was.buckets[key := was.buckets[key].(timer := None)],
                       armed := Cancel(was.armed, was.buckets[key].timer, stops))
    {
      CancelTimer(buckets[key], stops);
    }

    method Rearm(key: string)
      requires Valid() && key in buckets
      modifies `armed, `nextTimer, made
      ensures Valid()
      ensures var was := old(View());
        View() == was.(buckets := was.buckets[key := was.buckets[key].(timer := Some(was.nextTimer))],
                       armed := was.armed[was.nextTimer := key], nextTimer := was.nextTimer + 1)
    {
      buckets[key].timer := Some(nextTimer);
      armed := armed[nextTimer := key];
      nextTimer := nextTimer + 1;
    }

    /** Add to the bucket; a full bucket flushes at once, otherwise its window restarts. */
    method Push(msg: Message, stops: TimerID -> bool)
      requires Valid()
      modifies this, made
      ensures Valid()
      ensures View() == MediaSpec.Push(old(View()), cfg, msg, hash, stops)
      ensures fresh(made - old(made))
    {
      var key := BatchKey(msg, hash);
      PushInSteps(View(), cfg, msg, hash, stops);
      AddSource(key, msg);
      Disarm(key, stops);
      if |buckets[key].sources| >= cfg.maxItems {
        FlushBucket(key, stops);
      } else {
        Rearm(key);
      }
    }

    /** Flush every bucket of the message's conversation, in whatever order the map is walked. */
    method FlushIncompatibleFor(msg: Message, stops: TimerID -> bool) returns (ghost flushed: seq<string>)
      requires Valid()
      modifies this, made
      ensures Valid()
      ensures View() == FlushKeys(old(View()), flushed, stops)
      ensures forall k :: k in flushed <==> k in old(buckets) && IsChatKey(k, msg.conversationID)
      ensures made == old(made)
    {
      var keysToFlush := [];
      var todo := buckets.Keys;
      while todo != {}
        invariant todo <= buckets.Keys
        invariant forall k :: k in keysToFlush <==> k in buckets && k !in todo && IsChatKey(k, msg.conversationID)
        decreases todo
      {
        var k :| k in todo;
        todo := todo - {k};
        if IsChatKey(k, msg.conversationID) {
          keysToFlush := keysToFlush + [k];
        }
      }
      flushed := keysToFlush;
      for i := 0 to |keysToFlush|
        invariant Valid()
        invariant FlushKeys(old(View()), flushed, stops) == FlushKeys(View(), flushed[i..], stops)
        invariant made == old(made)
      {
        assert flushed[i..][1..] == flushed[i + 1..];
        FlushBucket(keysToFlush[i], stops);
      }
    }

    /** The goroutine launched for a flushed batch starts. */
    method TakeLaunched(i: nat) returns (merged: Message)
      requires Valid() && i < |View().launched|
      modifies `launched
      ensures Valid() && merged == old(View()).launched[i]
      ensures View() == old(View()).(launched := old(View()).launched[..i] + old(View()).launched[i + 1..])
    {
      merged := launched[i];
      launched := launched[..i] + launched[i + 1..];
    }

    method TimerFired(id: TimerID, stops: TimerID -> bool)
      requires Valid() && id in armed
      modifies this, made
      ensures Valid()
      ensures View() == Fire(old(View()), id, stops)
      ensures made == old(made)
    {
      hide MediaSpec.FlushBucket;
      var key := armed[id];
      armed := armed - {id};
      assert View() == old(View()).(armed := armed);
      FlushBucket(key, stops);
    }
  }
}
