/** Media batches: one bucket per (conversation, type) with its own window timer. */
module MediaSpec {
  import opened Options
  import opened Messages

  type TimerID = nat

  datatype MediaConfig = MediaConfig(enabled: bool, delayMs: int, maxItems: int)

  datatype Bucket = Bucket(sources: seq<Message>, timer: Option<TimerID>)

  /** `armed` holds the timer callbacks that can still run and the key each will flush;
      `launched` the merged messages handed to fresh goroutines so far. */
  datatype Media = Media(buckets: map<string, Bucket>, armed: map<TimerID, string>, nextTimer: TimerID, launched: seq<Message>)

  const NoMedia := Media(map[], map[], 0, [])

  const Nul := '\0'

  function FillConfig(cfg: MediaConfig): MediaConfig {
    cfg.(delayMs := if cfg.delayMs <= 0 then 800 else cfg.delayMs,
         maxItems := if cfg.maxItems <= 0 then 9 else cfg.maxItems)
  }

  predicate IsCompatible(cfg: MediaConfig, msg: Message) {
    cfg.enabled && msg.msgType in {"picture", "file", "audio", "video"}
  }

  /** `hash` stands for the truncated SHA-256 of a quoted message. */
  function BatchKey(msg: Message, hash: string -> string): string {
    var key := msg.conversationID + [Nul] + msg.msgType;
    if msg.msgType == "reply" && |msg.content| > 0 then key + [Nul] + hash(msg.content) else key
  }

  /** What precedes the first NUL, or all of it. */
  function FirstSegment(key: string): string {
    if key == "" || key[0] == Nul then "" else [key[0]] + FirstSegment(key[1..])
  }

  predicate IsChatKey(key: string, chatID: string) {
    FirstSegment(key) == chatID
  }

  // ---------- merging ----------

  function KindName(msgType: string): string {
    match msgType
    case "picture" => "图片"
    case "file" => "文件"
    case "audio" => "语音"
    case "video" => "视频"
    case _ => "媒体"
  }

  /** The count as one character, `'0' + count`; a value that is not a character becomes the
      replacement character. */
  function CountRune(count: nat): string {
    var code := 48 + count;
    if code < 0xD800 || 0xE000 <= code <= 0x10FFFF then [code as char] else ['\U{FFFD}']
  }

  function BatchText(count: nat, kind: string): string {
    if count == 1 then "[" + kind + "]" else "[" + CountRune(count) + "个" + kind + "]"
  }

  /** One message for a bucket: the last one, carrying every resource and the list of sources. */
  function MergeSources(sources: seq<Message>): Message
    requires sources != []
  {
    if |sources| == 1 then sources[0]
    else
      var last := sources[|sources| - 1];
      last.(resources := AllResources(sources), text := BatchText(|sources|, KindName(last.msgType)), batchedSources := sources)
  }

  /** The messages a flushed message stands for, as the flush callback recovers them. */
  function SourcesOf(merged: Message): seq<Message> {
    if merged.batchedSources == [] then [merged] else merged.batchedSources
  }

  // ---------- the critical sections ----------

  function Cancel(armed: map<TimerID, string>, timer: Option<TimerID>, stops: TimerID -> bool): map<TimerID, string> {
    if timer.Some? && stops(timer.value) then armed - {timer.value} else armed
  }

  function FlushBucket(m: Media, key: string, stops: TimerID -> bool): Media {
    if key !in m.buckets || m.buckets[key].sources == [] then m
    else Media(m.buckets - {key}, Cancel(m.armed, m.buckets[key].timer, stops), m.nextTimer,
               m.launched + [MergeSources(m.buckets[key].sources)])
  }

  /** The bucket for a key, made if need be, with one more source. */
  function WithSource(m: Media, key: string, msg: Message): Bucket {
    var bucket := if key in m.buckets then m.buckets[key] else Bucket([], None);
    bucket.(sources := bucket.sources + [msg])
  }

  function Push(m: Media, cfg: MediaConfig, msg: Message, hash: string -> string, stops: TimerID -> bool): Media {
    var key := BatchKey(msg, hash);
    var bucket := WithSource(m, key, msg);
    var armed := Cancel(m.armed, bucket.timer, stops);
    if |bucket.sources| >= cfg.maxItems then
      FlushBucket(m.(buckets := m.buckets[key := bucket.(timer := None)], armed := armed), key, stops)
    else
      m.(buckets := m.buckets[key := bucket.(timer := Some(m.nextTimer))], armed := armed[m.nextTimer := key],
         nextTimer := m.nextTimer + 1)
  }

  lemma PushInSteps(m: Media, cfg: MediaConfig, msg: Message, hash: string -> string, stops: TimerID -> bool)
    ensures var key := BatchKey(msg, hash);
      var m1 := m.(buckets := m.buckets[key := WithSource(m, key, msg)]);
      var m2 := m1.(buckets := m1.buckets[key := m1.buckets[key].(timer := None)],
                    armed := Cancel(m1.armed, m1.buckets[key].timer, stops));
      Push(m, cfg, msg, hash, stops) ==
        if |m2.buckets[key].sources| >= cfg.maxItems then FlushBucket(m2, key, stops)
        else m2.(buckets := m2.buckets[key := m2.buckets[key].(timer := Some(m2.nextTimer))],
                 armed := m2.armed[m2.nextTimer := key], nextTimer := m2.nextTimer + 1)
  {
    var key := BatchKey(msg, hash);
    var b := WithSource(m, key, msg);
    assert m.buckets[key := b][key := b.(timer := None)] == m.buckets[key := b.(timer := None)];
    assert m.buckets[key := b.(timer := None)][key := b.(timer := Some(m.nextTimer))]
        == m.buckets[key := b.(timer := Some(m.nextTimer))];
  }

  function FlushKeys(m: Media, keys: seq<string>, stops: TimerID -> bool): Media
    decreases |keys|
  {
    if keys == [] then m else FlushKeys(FlushBucket(m, keys[0], stops), keys[1..], stops)
  }

  function Fire(m: Media, id: TimerID, stops: TimerID -> bool): Media {
    if id !in m.armed then m else FlushBucket(m.(armed := m.armed - {id}), m.armed[id], stops)
  }

  // ---------- what they keep ----------

  /** No bucket is empty, full, misfiled, or without a callback coming. */
  ghost predicate Sound(m: Media, cfg: MediaConfig, hash: string -> string) {
    && (forall id :: id in m.armed ==> id < m.nextTimer)
    && (forall k :: k in m.buckets ==>
          && m.buckets[k].sources != [] && |m.buckets[k].sources| < cfg.maxItems
          && m.buckets[k].timer.Some? && m.buckets[k].timer.value in m.armed && m.armed[m.buckets[k].timer.value] == k
          && (forall msg :: msg in m.buckets[k].sources ==> BatchKey(msg, hash) == k))
  }

  lemma FlushSound(m: Media, key: string, cfg: MediaConfig, hash: string -> string, stops: TimerID -> bool)
    requires Sound(m, cfg, hash)
    ensures Sound(FlushBucket(m, key, stops), cfg, hash)
  {
  }

  lemma {:induction false} FlushKeysSound(m: Media, keys: seq<string>, cfg: MediaConfig, hash: string -> string, stops: TimerID -> bool)
    requires Sound(m, cfg, hash)
    ensures Sound(FlushKeys(m, keys, stops), cfg, hash)
    ensures FlushKeys(m, keys, stops).buckets == m.buckets - (set k | k in keys)
    decreases |keys|
  {
    if keys != [] {
      FlushSound(m, keys[0], cfg, hash, stops);
      FlushKeysSound(FlushBucket(m, keys[0], stops), keys[1..], cfg, hash, stops);
      assert (set k | k in keys) == {keys[0]} + set k | k in keys[1..];
    }
  }

  lemma FireSound(m: Media, id: TimerID, cfg: MediaConfig, hash: string -> string, stops: TimerID -> bool)
    requires Sound(m, cfg, hash)
    ensures Sound(Fire(m, id, stops), cfg, hash)
  {
  }

  lemma PushSound(m: Media, cfg: MediaConfig, msg: Message, hash: string -> string, stops: TimerID -> bool)
    requires Sound(m, cfg, hash)
    ensures Sound(Push(m, cfg, msg, hash, stops), cfg, hash)
  {
  }

  /** The flush callback recovers exactly the merged messages, as long as an incoming message does
      not itself claim sources. */
  lemma SourcesRecovered(sources: seq<Message>)
    requires sources != [] && (|sources| == 1 ==> sources[0].batchedSources == [])
    ensures SourcesOf(MergeSources(sources)) == sources
  {
  }

  // ---------- keys ----------

  lemma {:induction false} SegmentBeforeNul(a: string, rest: string)
    ensures FirstSegment(a + [Nul] + rest) == FirstSegment(a)
  {
    if a != "" {
      SegmentBeforeNul(a[1..], rest);
      assert (a + [Nul] + rest)[1..] == a[1..] + [Nul] + rest;
    }
  }

  lemma {:induction false} SegmentOfPlain(a: string)
    ensures FirstSegment(a) == a <==> Nul !in a
    ensures Nul !in FirstSegment(a)
  {
    if a != "" {
      SegmentOfPlain(a[1..]);
      assert a == [a[0]] + a[1..];
    }
  }

  /** A batch key belongs to its own conversation and to no other exactly when the conversation id
      holds no NUL. */
  lemma ChatKeyExact(msg: Message, hash: string -> string)
    ensures (forall c :: IsChatKey(BatchKey(msg, hash), c) <==> c == msg.conversationID)
       <==> Nul !in msg.conversationID
  {
    var conv := msg.conversationID;
    var tail := if msg.msgType == "reply" && |msg.content| > 0 then msg.msgType + [Nul] + hash(msg.content) else msg.msgType;
    assert BatchKey(msg, hash) == conv + [Nul] + tail;
    SegmentBeforeNul(conv, tail);
    SegmentOfPlain(conv);
    assert IsChatKey(BatchKey(msg, hash), FirstSegment(conv));
  }

  lemma SameSplit(a: string, x: string, b: string, y: string)
    requires Nul !in a && Nul !in b && a + [Nul] + x == b + [Nul] + y
    ensures a == b && x == y
  {
    var s := a + [Nul] + x;
    SegmentBeforeNul(a, x);
    SegmentBeforeNul(b, y);
    SegmentOfPlain(a);
    SegmentOfPlain(b);
    assert x == s[|a| + 1..] == y;
  }

  /** Media messages of different conversations, or of different types, never share a bucket. */
  lemma BucketsApart(m: Message, n: Message, hash: string -> string, cfg: MediaConfig)
    requires IsCompatible(cfg, m) && IsCompatible(cfg, n)
    requires Nul !in m.conversationID && Nul !in n.conversationID
    ensures BatchKey(m, hash) == BatchKey(n, hash) <==> m.conversationID == n.conversationID && m.msgType == n.msgType
  {
    if BatchKey(m, hash) == BatchKey(n, hash) {
      SameSplit(m.conversationID, m.msgType, n.conversationID, n.msgType);
    }
  }

  /** Replies are told apart by what they quote as well: in one conversation they share a key exactly
      when the hashes agree. */
  lemma RepliesApart(m: Message, n: Message, hash: string -> string)
    requires m.msgType == n.msgType == "reply" && m.content != "" && n.content != ""
    requires Nul !in m.conversationID && Nul !in n.conversationID
    ensures BatchKey(m, hash) == BatchKey(n, hash) <==> m.conversationID == n.conversationID && hash(m.content) == hash(n.content)
  {
    var x, y := "reply" + [Nul] + hash(m.content), "reply" + [Nul] + hash(n.content);
    assert BatchKey(m, hash) == m.conversationID + [Nul] + x && BatchKey(n, hash) == n.conversationID + [Nul] + y;
    assert x[6..] == hash(m.content) && y[6..] == hash(n.content);
    if BatchKey(m, hash) == BatchKey(n, hash) {
      SameSplit(m.conversationID, x, n.conversationID, y);
    }
  }

  // ---------- the batch text ----------

  function Decimal(n: nat): string {
    if n < 10 then [(48 + n) as char] else Decimal(n / 10) + [(48 + n % 10) as char]
  }

  /** The batch text shows the count in decimal exactly up to nine sources; the tenth shows as the
      character after '9'. */
  lemma CountShown(count: nat)
    ensures CountRune(count) == Decimal(count) <==> count <= 9
  {
    if count > 9 {
      assert |Decimal(count)| >= 2;
    }
  }
}
