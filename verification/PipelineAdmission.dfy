/** What one push and one finished call do when nothing interrupts them: which pushes are admitted,
    what a call leaves behind, and where marks come from. */
module PipelineAdmission {
  import opened Options
  import opened Messages
  import opened Pipeline
  import S = SeenRuns
  import L = ProcessingLocks

  /** A push from its arrival to the processing lock. */
  function AdmitNext(s: Sys, cfg: Config, arrival: Step, now: int, verdict: Option<string>): Sys
    requires arrival.ArriveMessage? || arrival.ArriveAction? || arrival.ArriveLight?
  {
    var t := arrival.t;
    GateStep(MarkStep(CheckStep(Next(s, cfg, arrival), cfg, t, now), cfg, t, now), cfg, t, now, verdict)
  }

  function CloseAll(s: Sys, cfg: Config, a: ActivityID, now: int): Sys
    decreases if a in s.acts && s.acts[a].Closing? then 1 + |s.acts[a].locks| + |s.acts[a].marks| else 0
  {
    if a in s.acts && s.acts[a].Closing? then CloseAll(CloseStep(s, cfg, a, now), cfg, a, now) else s
  }

  /** A handler's return with the releases and marks that follow it. */
  function FinishNext(s: Sys, cfg: Config, a: ActivityID, ok: bool, now: int): Sys {
    CloseAll(ReturnStep(s, cfg, a, ok, now), cfg, a, now)
  }

  function MarkGroups(t: S.Trace, marks: seq<seq<string>>, now: int, cfg: Config): S.Trace
    decreases |marks|
  {
    if marks == [] then t else MarkGroups(S.MarkKeys(t, marks[0], now, cfg.seenTtl, cfg.seenMax), marks[1..], now, cfg)
  }

  function Elements(ids: seq<string>): set<string> {
    set id | id in ids
  }

  lemma ReleaseOne(s: Sys, locks: seq<string>)
    requires locks != []
    ensures (s.locks - {locks[0]}) - Elements(locks[1..]) == s.locks - Elements(locks)
  {
    assert Elements(locks) == {locks[0]} + Elements(locks[1..]);
  }

  lemma {:induction false} CloseAllEffect(s: Sys, cfg: Config, a: ActivityID, now: int)
    requires a in s.acts && s.acts[a].Closing?
    ensures CloseAll(s, cfg, a, now) ==
      s.(acts := s.acts - {a}, locks := s.locks - Elements(s.acts[a].locks), seen := MarkGroups(s.seen, s.acts[a].marks, now, cfg))
    decreases |s.acts[a].locks| + |s.acts[a].marks|
  {
    hide S.MarkKeys;
    var Closing(locks, marks) := s.acts[a];
    var s1 := CloseStep(s, cfg, a, now);
    if locks != [] || marks != [] {
      CloseAllEffect(s1, cfg, a, now);
      assert s1.acts - {a} == s.acts - {a};
      if locks != [] {
        hide Elements;
        ReleaseOne(s, locks);
      }
    } else {
      assert CloseAll(s1, cfg, a, now) == s1;
      assert s.locks - Elements([]) == s.locks;
    }
  }

  lemma FinishEffect(s: Sys, cfg: Config, a: ActivityID, ok: bool, now: int)
    requires a in s.acts && s.acts[a].Handling?
    ensures var s' := FinishNext(s, cfg, a, ok, now);
      var call := s.acts[a].call;
      && s'.threads == s.threads && s'.acts == s.acts - {a} && s'.passed == s.passed
      && s'.locks == s.locks - Elements(call.locks)
      && s'.seen == (if cfg.markAfterHandler && ok then MarkGroups(s.seen, call.marks, now, cfg) else s.seen)
      && s'.successes == (if ok then s.successes + Successes(call.locks, now) else s.successes)
  {
    var s1 := ReturnStep(s, cfg, a, ok, now);
    CloseAllEffect(s1, cfg, a, now);
    assert s1.acts - {a} == s.acts - {a};
  }

  // ---------- exactly which pushes are admitted ----------

  /** What a message is deduplicated on: its delivery id, its own id, and if it has text and a
      timestamp the fingerprint of its content. An empty key says nothing. */
  predicate DedupKey(cfg: Config, protoID: string, msg: Message, k: string) {
    k != "" && (k == protoID || k == msg.msgID || (msg.text != "" && msg.createAt > 0 && k == cfg.fingerprint(msg)))
  }

  lemma KeysMeaning(cfg: Config, protoID: string, msg: Message)
    ensures forall k :: k != "" && k in MessageKeys(cfg, protoID, msg) <==> DedupKey(cfg, protoID, msg, k)
  {
  }

  /** Some key of the message was marked less than the TTL ago. */
  ghost predicate SeenLately(s: Sys, cfg: Config, protoID: string, msg: Message, now: int) {
    exists k :: DedupKey(cfg, protoID, msg, k) && k in s.seen.marks && now < s.seen.marks[k] + cfg.seenTtl
  }

  /** None of the message's keys has been crowded out of the cache; see SeenRuns.RoomFor. */
  ghost predicate RoomForMessage(s: Sys, cfg: Config, protoID: string, msg: Message, now: int) {
    forall k :: DedupKey(cfg, protoID, msg, k) && k in s.seen.marks && now < s.seen.marks[k] + cfg.seenTtl
      ==> |S.After(s.seen.log, k)| < cfg.seenMax
  }

  lemma SeenLatelyIsMarked(s: Sys, cfg: Config, protoID: string, msg: Message, now: int)
    ensures SeenLately(s, cfg, protoID, msg, now) <==> S.MarkedWithin(s.seen.marks, MessageKeys(cfg, protoID, msg), now, cfg.seenTtl)
    ensures RoomForMessage(s, cfg, protoID, msg, now)
       <==> S.RoomFor(s.seen, MessageKeys(cfg, protoID, msg), now, cfg.seenTtl, cfg.seenMax)
  {
    KeysMeaning(cfg, protoID, msg);
    hide MessageKeys, DedupKey, S.After;
  }

  /** Why a message is turned away, if it is: the first objection in the source's order. */
  ghost function Objection(s: Sys, cfg: Config, protoID: string, msg: Message, now: int, verdict: Option<string>): Option<Reason> {
    if msg.createAt > 0 && msg.createAt + cfg.staleWindow < now then Some(Stale)
    else if SeenLately(s, cfg, protoID, msg, now) then Some(Duplicate)
    else if cfg.dropSelfSent && cfg.botRobotCode != "" && msg.senderID == cfg.botRobotCode then Some(SelfSent)
    else if verdict.Some? then Some(Refused(verdict.value))
    else if msg.msgID in s.locks && now < s.locks[msg.msgID] then Some(LockContention)
    else None
  }

  /** A push of a message either ends with exactly one reject event, carrying the first objection,
      or holds the lock on the message's id. */
  lemma {:induction false} AdmittedExactly(s: Sys, cfg: Config, t: nat, protoID: string, msg: Message, now: int, verdict: Option<string>, clock: int)
    requires t !in s.threads && msg.batchedSources == []
    requires S.Inv(s.seen, clock, cfg.seenTtl, cfg.seenMax) && clock <= now
    requires RoomForMessage(s, cfg, protoID, msg, now)
    ensures var s' := AdmitNext(s, cfg, ArriveMessage(t, protoID, msg), now, verdict);
      match Objection(s, cfg, protoID, msg, now, verdict)
      case Some(reason) => t !in s'.threads && s'.events == s.events + [RejectEvent(msg.msgID, reason)] && s'.locks == s.locks
      case None => t in s'.threads && s'.threads[t].Locked? && s'.threads[t].item == Incoming(msg) && s'.events == s.events
                   && s'.locks == s.locks[msg.msgID := now + cfg.lockTtl]
  {
    var keys := MessageKeys(cfg, protoID, msg);
    SeenLatelyIsMarked(s, cfg, protoID, msg, now);
    S.LookExactWithRoom(s.seen, keys, now, clock, cfg.seenTtl, cfg.seenMax);
    hide S.LookUp, S.MarkKeys, S.MarkedWithin, SeenLately, RoomForMessage, MessageKeys, CheckStep, MarkStep, GateStep;
    hide Next;
    ArriveIs(s, cfg, t, protoID, msg);
    AdmittedFrom(Arrive(s, t, Incoming(msg), keys), cfg, t, msg, keys, now, verdict);
  }

  lemma {:induction false} ArriveIs(s: Sys, cfg: Config, t: nat, protoID: string, msg: Message)
    requires msg.batchedSources == []
    ensures Next(s, cfg, ArriveMessage(t, protoID, msg)) == Arrive(s, t, Incoming(msg), MessageKeys(cfg, protoID, msg))
  {
    hide MessageKeys, Arrive;
  }

  /** What the push leaves in the cache. Marked on entry: once a message is neither stale nor a
      duplicate, each of its keys, and no other, is marked now, even if it is turned away later.
      Otherwise, and always when marking waits for the handler, no mark changes. */
  lemma {:induction false} AdmissionMarks(s: Sys, cfg: Config, t: nat, protoID: string, msg: Message, now: int, verdict: Option<string>, clock: int)
    requires t !in s.threads && msg.batchedSources == []
    requires S.Inv(s.seen, clock, cfg.seenTtl, cfg.seenMax) && clock <= now
    requires RoomForMessage(s, cfg, protoID, msg, now)
    ensures var m, m' := s.seen.marks, AdmitNext(s, cfg, ArriveMessage(t, protoID, msg), now, verdict).seen.marks;
      var why := Objection(s, cfg, protoID, msg, now, verdict);
      if cfg.markAfterHandler || why == Some(Stale) || why == Some(Duplicate) then m' == m
      else
        && (forall k :: DedupKey(cfg, protoID, msg, k) ==> k in m' && m'[k] == now)
        && (forall k :: !DedupKey(cfg, protoID, msg, k) ==> (k in m' <==> k in m) && (k in m ==> m'[k] == m[k]))
  {
    var keys := MessageKeys(cfg, protoID, msg);
    var looked := S.LookUp(s.seen, keys, now).0;
    SeenLatelyIsMarked(s, cfg, protoID, msg, now);
    KeysMeaning(cfg, protoID, msg);
    S.LookExactWithRoom(s.seen, keys, now, clock, cfg.seenTtl, cfg.seenMax);
    S.MarkKeysMarks(looked, keys, now, cfg.seenTtl, cfg.seenMax);
    S.MarkAllMeaning(looked.marks, keys, now);
    hide S.LookUp, S.MarkKeys, S.MarkAll, S.MarkedWithin, SeenLately, RoomForMessage, MessageKeys, DedupKey, S.Inv, CheckStep, MarkStep, GateStep;
    hide Next;
    ArriveIs(s, cfg, t, protoID, msg);
    SeenAfter(Arrive(s, t, Incoming(msg), keys), cfg, t, msg, keys, now, verdict);
  }

  lemma SeenAfter(s: Sys, cfg: Config, t: nat, msg: Message, keys: seq<string>, now: int, verdict: Option<string>)
    requires t in s.threads && s.threads[t] == Arrived(Incoming(msg), keys)
    ensures var (looked, dup) := S.LookUp(s.seen, keys, now);
      GateStep(MarkStep(CheckStep(s, cfg, t, now), cfg, t, now), cfg, t, now, verdict).seen
        == if IsStale(cfg, msg, now) then s.seen
           else if dup || cfg.markAfterHandler then looked
           else S.MarkKeys(looked, keys, now, cfg.seenTtl, cfg.seenMax)
  {
    hide S.LookUp, S.MarkKeys, L.Held;
    var s1 := CheckStep(s, cfg, t, now);
    if IsStale(cfg, msg, now) || S.LookUp(s.seen, keys, now).1 {
      assert t !in s1.threads;
    } else {
      var s2 := MarkStep(s1, cfg, t, now);
      assert s2.threads[t] == Cleared(Incoming(msg), keys, now);
    }
  }

  lemma AdmittedFrom(s: Sys, cfg: Config, t: nat, msg: Message, keys: seq<string>, now: int, verdict: Option<string>)
    requires t in s.threads && s.threads[t] == Arrived(Incoming(msg), keys)
    ensures var dup := S.LookUp(s.seen, keys, now).1;
      var s2 := MarkStep(CheckStep(s, cfg, t, now), cfg, t, now);
      var s' := GateStep(s2, cfg, t, now, verdict);
      var selfSent := cfg.dropSelfSent && cfg.botRobotCode != "" && msg.senderID == cfg.botRobotCode;
      var out := IsStale(cfg, msg, now) || dup || selfSent || verdict.Some? || L.Held(s.locks, msg.msgID, now);
      && (out ==> t !in s'.threads && s'.locks == s.locks && s'.events == s.events + [RejectEvent(msg.msgID,
            if IsStale(cfg, msg, now) then Stale else if dup then Duplicate else if selfSent then SelfSent
            else if verdict.Some? then Refused(verdict.value) else LockContention)])
      && (!out ==> t in s'.threads && s'.threads[t] == Locked(Incoming(msg), keys) && s'.events == s.events
                   && s'.locks == s.locks[msg.msgID := now + cfg.lockTtl])
  {
    hide S.LookUp, S.MarkKeys, IsStale, L.Held;
    var s1 := CheckStep(s, cfg, t, now);
    if IsStale(cfg, msg, now) || S.LookUp(s.seen, keys, now).1 {
      assert t !in s1.threads;
    } else {
      var s2 := MarkStep(s1, cfg, t, now);
      assert s2.threads[t] == Cleared(Incoming(msg), keys, now) && s2.locks == s.locks && s2.events == s.events;
    }
  }

  /** A failed call leaves the cache as it was and gives up its locks. */
  lemma FailureForgets(s: Sys, cfg: Config, a: ActivityID, now: int)
    requires a in s.acts && s.acts[a].Handling?
    ensures var s' := FinishNext(s, cfg, a, false, now);
      s'.seen == s.seen && s'.successes == s.successes && forall id :: id in s.acts[a].call.locks ==> id !in s'.locks
  {
    FinishEffect(s, cfg, a, false, now);
  }

  /** So a message whose handler failed is admitted again when redelivered, unless it is stale,
      self-sent or refused by policy, or one of its keys was marked within the TTL; in mark-after
      mode that takes another call's success: see PipelineAfter.MarksComeFromSuccess. */
  lemma {:induction false} FailedIsRedeliverable(s: Sys, cfg: Config, a: ActivityID, failedAt: int, t: nat, protoID: string, msg: Message,
                                                 now: int, verdict: Option<string>, clock: int)
    requires a in s.acts && s.acts[a].Handling? && msg.msgID in s.acts[a].call.locks
    requires t !in s.threads && msg.batchedSources == []
    requires S.Inv(s.seen, clock, cfg.seenTtl, cfg.seenMax) && clock <= now
    requires RoomForMessage(s, cfg, protoID, msg, now)
    ensures var s1 := FinishNext(s, cfg, a, false, failedAt);
      var s2 := AdmitNext(s1, cfg, ArriveMessage(t, protoID, msg), now, verdict);
      (t in s2.threads && s2.threads[t].Locked? && s2.threads[t].item == Incoming(msg))
      <==> && !(msg.createAt > 0 && msg.createAt + cfg.staleWindow < now) && verdict == None
           && !(cfg.dropSelfSent && cfg.botRobotCode != "" && msg.senderID == cfg.botRobotCode)
           && !SeenLately(s, cfg, protoID, msg, now)
  {
    FinishEffect(s, cfg, a, false, failedAt);
    var s1 := FinishNext(s, cfg, a, false, failedAt);
    FailureForgets(s, cfg, a, failedAt);
    assert RoomForMessage(s1, cfg, protoID, msg, now);
    assert SeenLately(s1, cfg, protoID, msg, now) <==> SeenLately(s, cfg, protoID, msg, now);
    hide FinishNext, AdmitNext, SeenLately, RoomForMessage, S.Inv;
    AdmittedExactly(s1, cfg, t, protoID, msg, now, verdict, clock);
  }
}
