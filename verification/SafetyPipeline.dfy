/** The pipeline as the object it is: four components changed by pushes, and by the callbacks that
    release locks and mark ids. Each method is proved to do what the step machine of Pipeline.dfy
    does when the same push, or the same task, runs alone from start to end. */
module SafetyPipelines {
  import opened Options
  import opened Messages
  import opened Pipeline
  import opened SeenCaches
  import opened ProcessingLocks
  import opened ChatQueues
  import opened MediaPipelines
  import S = SeenRuns
  import R = Recency
  import Q = QueueSpec
  import M = MediaSpec
  import L = ProcessingLocks
  import O = PipelineAdmission
  import E = PipelineEffects

  /** The shared components of a state, without threads, activities and records. */
  function Core(s: Sys): Sys {
    Idle.(seen := s.seen, locks := s.locks, queues := s.queues, media := s.media)
  }

  /** An admission on its own: the cache and the locks after it, and why it failed, if it did. */
  function Admission(s: Sys, cfg: Config, msg: Message, keys: seq<string>, now: int, verdict: Option<string>): (Sys, Option<Reason>) {
    if IsStale(cfg, msg, now) then (s, Some(Stale))
    else
      var (seen, dup) := S.LookUp(s.seen, keys, now);
      if dup then (s.(seen := seen), Some(Duplicate))
      else
        var s1 := s.(seen := if cfg.markAfterHandler then seen else S.MarkKeys(seen, keys, now, cfg.seenTtl, cfg.seenMax));
        if cfg.dropSelfSent && cfg.botRobotCode != "" && msg.senderID == cfg.botRobotCode then (s1, Some(SelfSent))
        else if verdict.Some? then (s1, Some(Refused(verdict.value)))
        else if L.Held(s.locks, msg.msgID, now) then (s1, Some(LockContention))
        else (s1.(locks := s.locks[msg.msgID := now + cfg.lockTtl]), None)
  }

  /** That is what the machine does with a push that is not interrupted. */
  lemma {:induction false} AdmissionIsMachine(s: Sys, cfg: Config, protoID: string, msg: Message, now: int, verdict: Option<string>)
    requires s == Core(s) && msg.batchedSources == []
    ensures var keys := MessageKeys(cfg, protoID, msg);
      var (core, why) := Admission(s, cfg, msg, keys, now, verdict);
      var s' := O.AdmitNext(s, cfg, ArriveMessage(0, protoID, msg), now, verdict);
      && Core(s') == core && s'.acts == map[]
      && s'.threads == (if why.Some? then map[] else map[0 := Locked(Incoming(msg), keys)])
      && s'.events == if why.Some? then [RejectEvent(msg.msgID, why.value)] else []
  {
    var keys := MessageKeys(cfg, protoID, msg);
    hide S.LookUp, S.MarkKeys, MessageKeys, IsStale, L.Held;
    var s1 := Next(s, cfg, ArriveMessage(0, protoID, msg));
    assert s1 == s.(threads := map[0 := Arrived(Incoming(msg), keys)], arrived := s1.arrived);
    AdmissionChecked(s, s1, cfg, msg, keys, now);
    var s3 := MarkStep(CheckStep(s1, cfg, 0, now), cfg, 0, now);
    hide CheckStep, MarkStep;
    AdmissionGated(s3, cfg, msg, keys, now, verdict);
  }

  lemma AdmissionChecked(s: Sys, s1: Sys, cfg: Config, msg: Message, keys: seq<string>, now: int)
    requires s == Core(s) && s1 == s.(threads := map[0 := Arrived(Incoming(msg), keys)], arrived := s1.arrived)
    ensures var (seen, dup) := S.LookUp(s.seen, keys, now);
      var s3 := MarkStep(CheckStep(s1, cfg, 0, now), cfg, 0, now);
      var out := IsStale(cfg, msg, now) || dup;
      && s3.locks == s.locks && s3.queues == s.queues && s3.media == s.media && s3.acts == map[]
      && s3.seen == (if IsStale(cfg, msg, now) then s.seen
                     else if dup || cfg.markAfterHandler then seen else S.MarkKeys(seen, keys, now, cfg.seenTtl, cfg.seenMax))
      && s3.threads == (if out then map[] else map[0 := Cleared(Incoming(msg), keys, now)])
      && s3.events == if out then [RejectEvent(msg.msgID, if IsStale(cfg, msg, now) then Stale else Duplicate)] else []
  {
    hide S.LookUp, S.MarkKeys, IsStale;
    var s2 := CheckStep(s1, cfg, 0, now);
    if IsStale(cfg, msg, now) || S.LookUp(s.seen, keys, now).1 {
      assert s2.threads == map[];
      assert [] + [RejectEvent(msg.msgID, Stale)] == [RejectEvent(msg.msgID, Stale)];
      assert [] + [RejectEvent(msg.msgID, Duplicate)] == [RejectEvent(msg.msgID, Duplicate)];
    }
  }

  lemma AdmissionGated(s: Sys, cfg: Config, msg: Message, keys: seq<string>, now: int, verdict: Option<string>)
    requires s.threads == map[] || (s.threads == map[0 := Cleared(Incoming(msg), keys, now)] && s.events == [])
    ensures var selfSent := cfg.dropSelfSent && cfg.botRobotCode != "" && msg.senderID == cfg.botRobotCode;
      var out := selfSent || verdict.Some? || L.Held(s.locks, msg.msgID, now);
      var s' := GateStep(s, cfg, 0, now, verdict);
      && s'.seen == s.seen && s'.queues == s.queues && s'.media == s.media && s'.acts == s.acts
      && (s.threads == map[] ==> s' == s)
      && (s.threads != map[] ==>
            && s'.locks == (if out then s.locks else s.locks[msg.msgID := now + cfg.lockTtl])
            && s'.threads == (if out then map[] else map[0 := Locked(Incoming(msg), keys)])
            && s'.events == if out then [RejectEvent(msg.msgID,
                 if selfSent then SelfSent else if verdict.Some? then Refused(verdict.value) else LockContention)] else [])
  {
    hide L.Held;
  }

  class SafetyPipeline {
    const cfg: Config
    const seen: SeenCache
    const lock: ProcessingLock
    const chatQueue: ChatQueueManager
    const media: MediaPipelineManager
    ghost var trace: S.Trace // the cache with the record of its run

    ghost predicate Valid()
      reads this, seen, seen.evictList, chatQueue, media
    {
      && seen.Valid() && seen.Contents() == trace.list && seen.ttl == cfg.seenTtl && seen.maxEntries == cfg.seenMax
      && lock.ttlMs == cfg.lockTtl
      && chatQueue.Valid() && chatQueue.cfg == cfg.queue && chatQueue.enabled == cfg.queueEnabled
      && media.Valid() && media.cfg == cfg.media && media.hash == cfg.hash
    }

    ghost function State(): Sys
      reads this, lock, chatQueue, chatQueue.queues.Values, media, media.buckets.Values
    {
      Idle.(seen := trace, locks := lock.locks, queues := chatQueue.View(), media := media.View())
    }

    constructor (cfg: Config)
      requires cfg.seenTtl > 0 && cfg.seenMax > 0 && cfg.media == M.FillConfig(cfg.media)
      ensures Valid() && State() == Idle && this.cfg == cfg
    {
      this.cfg := cfg;
      seen := new SeenCache(cfg.seenTtl, cfg.seenMax);
      lock := new ProcessingLock(cfg.lockTtl);
      chatQueue := new ChatQueueManager(cfg.queue, cfg.queueEnabled);
      media := new MediaPipelineManager(cfg.media, cfg.hash);
      trace := S.Start;
    }

    /** Check only when marking waits for the handler; check and mark otherwise. */
    method Dedup(keys: seq<string>, now: int) returns (dup: bool)
      requires Valid()
      modifies this, seen, seen.elems
      ensures Valid() && fresh(seen.elems - old(seen.elems))
      ensures var (looked, hit) := S.LookUp(old(trace), keys, now);
        && dup == hit
        && trace == if hit || cfg.markAfterHandler then looked else S.MarkKeys(looked, keys, now, cfg.seenTtl, cfg.seenMax)
    {
      hide SeenCache.Valid, SeenCache.Contents, ChatQueueManager.Valid, ChatQueueManager.View, MediaPipelineManager.Valid, MediaPipelineManager.View, R.AddAll, S.MarkKeys;
      ghost var looked := S.LookUp(trace, keys, now).0;
      S.MarkKeysMarks(looked, keys, now, cfg.seenTtl, cfg.seenMax);
      if cfg.markAfterHandler {
        dup := seen.Has(keys, now);
        trace := looked;
      } else {
        dup := seen.CheckAndMark(keys, now, now);
        trace := if dup then looked else S.MarkKeys(looked, keys, now, cfg.seenTtl, cfg.seenMax);
      }
    }

    /** The stages of a message push up to the processing lock. */
    method Admit(protoID: string, msg: Message, now: int, verdict: Option<string>) returns (rejected: Option<Reason>)
      requires Valid()
      modifies this, seen, seen.elems, lock
      ensures Valid() && fresh(seen.elems - old(seen.elems))
      ensures (State(), rejected) == Admission(old(State()), cfg, msg, MessageKeys(cfg, protoID, msg), now, verdict)
    {
      hide SeenCache.Valid, SeenCache.Contents, ChatQueueManager.Valid, ChatQueueManager.View, MediaPipelineManager.Valid, MediaPipelineManager.View, S.LookUp, S.MarkKeys, L.Held;
      if msg.createAt > 0 && now - msg.createAt > cfg.staleWindow {
        return Some(Stale);
      }
      var keys := [protoID, msg.msgID];
      if msg.text != "" && msg.createAt > 0 {
        keys := keys + [cfg.fingerprint(msg)];
      }
      assert keys == MessageKeys(cfg, protoID, msg);
      var dup := Dedup(keys, now);
      if dup {
        return Some(Duplicate);
      }
      if cfg.dropSelfSent && cfg.botRobotCode != "" && msg.senderID == cfg.botRobotCode {
        return Some(SelfSent);
      }
      if verdict.Some? {
        return Some(Refused(verdict.value));
      }
      var acquired := lock.Acquire(msg.msgID, now);
      if !acquired {
        return Some(LockContention);
      }
      return None;
    }

    method ReleaseAll(ids: seq<string>)
      modifies lock
      ensures lock.locks == old(lock.locks) - O.Elements(ids)
    {
      for i := 0 to |ids|
        invariant lock.locks == old(lock.locks) - O.Elements(ids[..i])
      {
        assert O.Elements(ids[..i + 1]) == O.Elements(ids[..i]) + {ids[i]};
        lock.Release(ids[i]);
      }
      assert ids[..|ids|] == ids;
    }

    /** One mark per id, each its own critical section. */
    method MarkEach(ids: seq<string>, now: int)
      requires Valid()
      modifies this, seen, seen.elems
      ensures Valid() && fresh(seen.elems - old(seen.elems))
      ensures trace == O.MarkGroups(old(trace), Singles(ids), now, cfg)
    {
      hide SeenCache.Valid, SeenCache.Contents, ChatQueueManager.Valid, ChatQueueManager.View, MediaPipelineManager.Valid, MediaPipelineManager.View, S.MarkKeys, O.MarkGroups, Singles;
      assert ids[0..] == ids;
      for i := 0 to |ids|
        invariant Valid() && fresh(seen.elems - old(seen.elems))
        invariant O.MarkGroups(old(trace), Singles(ids), now, cfg) == O.MarkGroups(trace, Singles(ids[i..]), now, cfg)
      {
        SinglesStep(ids, i, trace, now, cfg);
        AddKeys([ids[i]], now);
      }
      NoneLeft(ids, trace, now, cfg);
    }

    /** What batchFlush and messageFlush do once their callback has returned. */
    method Flushed(ids: seq<string>, ok: bool, now: int)
      requires Valid()
      modifies this, seen, seen.elems, lock
      ensures Valid() && fresh(seen.elems - old(seen.elems))
      ensures State() == Finished(old(State()), cfg, CallOn(ids), ok, now)
    {
      hide SeenCache.Valid, SeenCache.Contents, ChatQueueManager.Valid, ChatQueueManager.View, MediaPipelineManager.Valid, MediaPipelineManager.View, O.MarkGroups, O.Elements, Singles;
      ReleaseAll(ids);
      if cfg.markAfterHandler && ok {
        MarkEach(ids, now);
      }
    }

    /** Route an admitted message; `ok` is what the handler returns if the push itself calls it. */
    method RouteOne(msg: Message, batch: bool, ok: bool, now: int, stopped: bool, stops: M.TimerID -> bool) returns (ghost flushed: seq<string>)
      requires Valid()
      modifies this, seen, seen.elems, lock, chatQueue, chatQueue.made, media, media.made
      ensures Valid() && fresh(seen.elems - old(seen.elems)) && fresh(chatQueue.made - old(chatQueue.made)) && fresh(media.made - old(media.made))
      ensures State() == Routed(old(State()), cfg, msg, batch, ok, now, stopped, stops, flushed)
      ensures forall k :: k in flushed <==>
        !cfg.queueEnabled && !M.IsCompatible(cfg.media, msg) && cfg.media.enabled
        && k in old(media.buckets) && M.IsChatKey(k, msg.conversationID)
    {
      hide SeenCache.Valid, SeenCache.Contents, ChatQueueManager.Valid, ChatQueueManager.View, MediaPipelineManager.Valid, MediaPipelineManager.View, Finished, Queued, M.Push, M.FlushKeys, M.IsChatKey, M.IsCompatible, CallOn;
      flushed := [];
      if chatQueue.enabled {
        RouteQueued(msg, batch, stopped);
        return;
      }
      if M.IsCompatible(cfg.media, msg) {
        media.Push(msg, stops);
        return;
      }
      flushed := HandleNow(msg, ok, now, stops);
    }

    method RouteQueued(msg: Message, batch: bool, stopped: bool)
      requires Valid() && cfg.queueEnabled
      modifies chatQueue, chatQueue.made
      ensures Valid() && fresh(chatQueue.made - old(chatQueue.made)) && State() == Queued(old(State()), cfg, msg, batch, stopped)
    {
      hide SeenCache.Valid, SeenCache.Contents, ChatQueueManager.Valid, ChatQueueManager.View, MediaPipelineManager.Valid, MediaPipelineManager.View, Finished, Q.Push, Q.FlushBuffered, Q.Send, Q.QueueAt, M.Push, M.FlushKeys, M.IsChatKey, M.IsCompatible, CallOn;
      if batch {
        chatQueue.Push(msg.conversationID, msg, Some(BatchHandler), stopped);
      } else {
        chatQueue.Run(msg.conversationID, Q.OneMessage(msg), stopped);
      }
    }

    /** Neither queued nor collected: the media of its conversation goes first, then the handler is
        called by the push itself. */
    method HandleNow(msg: Message, ok: bool, now: int, stops: M.TimerID -> bool) returns (ghost flushed: seq<string>)
      requires Valid()
      modifies this, seen, seen.elems, lock, media, media.made
      ensures Valid() && fresh(seen.elems - old(seen.elems)) && media.made == old(media.made)
      ensures State() == Finished(old(State()).(media := M.FlushKeys(old(State()).media, flushed, stops)), cfg, CallOn([msg.msgID]), ok, now)
      ensures forall k :: k in flushed <==>
        cfg.media.enabled && k in old(media.buckets) && M.IsChatKey(k, msg.conversationID)
    {
      hide SeenCache.Valid, SeenCache.Contents, ChatQueueManager.Valid, ChatQueueManager.View, MediaPipelineManager.Valid, MediaPipelineManager.View, Finished, Q.Push, Q.FlushBuffered, Q.Send, Q.QueueAt, M.Push, M.FlushKeys, M.IsChatKey, M.IsCompatible, CallOn;
      flushed := [];
      if media.cfg.enabled {
        flushed := media.FlushIncompatibleFor(msg, stops);
      } else {
        FlushNone(media.View(), stops);
      }
      Flushed([msg.msgID], ok, now);
    }

    /** A message pushed: admitted or rejected, and if admitted, routed. */
    method PushMessage(protoID: string, msg: Message, now: int, verdict: Option<string>,
                       batch: bool, ok: bool, stopped: bool, stops: M.TimerID -> bool)
      returns (rejected: Option<Reason>, ghost flushed: seq<string>)
      requires Valid()
      modifies this, seen, seen.elems, lock, chatQueue, chatQueue.made, media, media.made
      ensures Valid() && fresh(seen.elems - old(seen.elems)) && fresh(chatQueue.made - old(chatQueue.made)) && fresh(media.made - old(media.made))
      ensures var (admitted, why) := Admission(old(State()), cfg, msg, MessageKeys(cfg, protoID, msg), now, verdict);
        && rejected == why
        && State() == if why.Some? then admitted else Routed(admitted, cfg, msg, batch, ok, now, stopped, stops, flushed)
      ensures forall k :: k in flushed <==>
        rejected == None && !cfg.queueEnabled && !M.IsCompatible(cfg.media, msg) && cfg.media.enabled
        && k in old(media.buckets) && M.IsChatKey(k, msg.conversationID)
    {
      hide SeenCache.Valid, SeenCache.Contents, ChatQueueManager.Valid, ChatQueueManager.View, MediaPipelineManager.Valid, MediaPipelineManager.View, Admission, Routed, M.IsCompatible, M.IsChatKey, MessageKeys;
      flushed := [];
      rejected := Admit(protoID, msg, now, verdict);
      if rejected == None {
        flushed := RouteOne(msg, batch, ok, now, stopped, stops);
      }
    }

    /** A card action pushed: dedup, lock, then serial execution on its scope or a direct call. */
    method PushAction(eventID: string, scope: string, extra: seq<string>, now: int, ok: bool, stopped: bool) returns (accepted: bool)
      requires Valid()
      modifies this, seen, seen.elems, lock, chatQueue, chatQueue.made
      ensures Valid() && fresh(seen.elems - old(seen.elems)) && fresh(chatQueue.made - old(chatQueue.made))
      ensures var keys := [eventID] + extra;
        var (seen, dup) := S.LookUp(old(trace), keys, now);
        var marked := if dup || cfg.markAfterHandler then seen else S.MarkKeys(seen, keys, now, cfg.seenTtl, cfg.seenMax);
        var was := old(State()).(seen := marked);
        && accepted == (!dup && !L.Held(was.locks, eventID, now))
        && State() == if accepted then ActionRouted(was.(locks := was.locks[eventID := now + cfg.lockTtl]), cfg, eventID, scope, extra, ok, now, stopped)
                      else was
    {
      hide SeenCache.Valid, SeenCache.Contents, ChatQueueManager.Valid, ChatQueueManager.View, MediaPipelineManager.Valid, MediaPipelineManager.View, S.LookUp, S.MarkKeys, L.Held, ActionRouted;
      var keys := [eventID] + extra;
      var dup := Dedup(keys, now);
      if dup {
        return false;
      }
      var acquired := lock.Acquire(eventID, now);
      if !acquired {
        return false;
      }
      RouteAction(eventID, scope, extra, ok, now, stopped);
      return true;
    }

    method RouteAction(eventID: string, scope: string, extra: seq<string>, ok: bool, now: int, stopped: bool)
      requires Valid()
      modifies this, seen, seen.elems, lock, chatQueue, chatQueue.made
      ensures Valid() && fresh(seen.elems - old(seen.elems)) && fresh(chatQueue.made - old(chatQueue.made))
      ensures State() == ActionRouted(old(State()), cfg, eventID, scope, extra, ok, now, stopped)
    {
      hide SeenCache.Valid, SeenCache.Contents, ChatQueueManager.Valid, ChatQueueManager.View, MediaPipelineManager.Valid, MediaPipelineManager.View, Q.FlushBuffered, Q.Send, Q.QueueAt, Finished;
      if chatQueue.enabled {
        chatQueue.Run(scope, Q.OneAction(eventID, extra), stopped);
      } else {
        RunAction(eventID, extra, ok, now);
      }
    }

    /** The runner of an action, once its handler has returned. */
    method RunAction(eventID: string, extra: seq<string>, ok: bool, now: int)
      requires Valid()
      modifies this, seen, seen.elems, lock
      ensures Valid() && fresh(seen.elems - old(seen.elems))
      ensures State() == Finished(old(State()), cfg, CallOnAction(eventID, extra), ok, now)
    {
      hide SeenCache.Valid, SeenCache.Contents, ChatQueueManager.Valid, ChatQueueManager.View, MediaPipelineManager.Valid, MediaPipelineManager.View, S.MarkKeys, O.MarkGroups, O.Elements;
      OneGroup(trace, [eventID] + extra, now, cfg);
      OneElement(eventID);
      lock.Release(eventID);
      if cfg.markAfterHandler && ok {
        AddKeys([eventID] + extra, now);
      }
    }

    method AddKeys(keys: seq<string>, now: int)
      requires Valid()
      modifies this, seen, seen.elems
      ensures Valid() && fresh(seen.elems - old(seen.elems))
      ensures trace == S.MarkKeys(old(trace), keys, now, cfg.seenTtl, cfg.seenMax)
    {
      hide SeenCache.Valid, SeenCache.Contents, ChatQueueManager.Valid, ChatQueueManager.View, MediaPipelineManager.Valid, MediaPipelineManager.View, S.MarkKeys, R.AddAll;
      S.MarkKeysMarks(trace, keys, now, cfg.seenTtl, cfg.seenMax);
      seen.Add(keys, now);
      trace := S.MarkKeys(trace, keys, now, cfg.seenTtl, cfg.seenMax);
    }

    /** A light event: dedup only, no lock. */
    method PushLight(eventID: string, now: int, ok: bool) returns (accepted: bool)
      requires Valid()
      modifies this, seen, seen.elems
      ensures Valid() && fresh(seen.elems - old(seen.elems))
      ensures var (looked, dup) := S.LookUp(old(trace), [eventID], now);
        && accepted == !dup
        && State() == old(State()).(seen :=
             if dup || (cfg.markAfterHandler && !ok) then looked
             else S.MarkKeys(looked, [eventID], now, cfg.seenTtl, cfg.seenMax))
    {
      hide SeenCache.Valid, SeenCache.Contents, ChatQueueManager.Valid, ChatQueueManager.View, MediaPipelineManager.Valid, MediaPipelineManager.View, S.LookUp, S.MarkKeys;
      var dup := Dedup([eventID], now);
      if dup {
        return false;
      }
      if cfg.markAfterHandler && ok {
        AddKeys([eventID], now);
      }
      return true;
    }

    /** The worker of a scope receives its next task and runs it; `ok` is what the handler returns. */
    method Work(scope: string, ok: bool, now: int)
      requires Valid() && scope in chatQueue.View() && chatQueue.View()[scope].tasks != []
      modifies this, seen, seen.elems, lock, chatQueue.made
      ensures Valid() && fresh(seen.elems - old(seen.elems))
      ensures var q := old(chatQueue.View())[scope];
        State() == Finished(old(State()).(queues := old(State()).queues[scope := q.(tasks := q.tasks[1..])]), cfg,
                            CallOfTask(q.tasks[0]), ok, now)
    {
      hide SeenCache.Valid, SeenCache.Contents, ChatQueueManager.Valid, ChatQueueManager.View, MediaPipelineManager.Valid, MediaPipelineManager.View, Finished, CallOfTask;
      var task := chatQueue.Take(scope);
      RunTask(task, ok, now);
    }

    method RunTask(task: Q.Task, ok: bool, now: int)
      requires Valid()
      modifies this, seen, seen.elems, lock
      ensures Valid() && fresh(seen.elems - old(seen.elems))
      ensures State() == Finished(old(State()), cfg, CallOfTask(task), ok, now)
    {
      hide SeenCache.Valid, SeenCache.Contents, ChatQueueManager.Valid, ChatQueueManager.View, MediaPipelineManager.Valid, MediaPipelineManager.View, Finished;
      match task
      case Flush(_, d) => Flushed(d.sourceIDs, ok, now);
      case Job(OneMessage(msg)) => Flushed([msg.msgID], ok, now);
      case Job(OneAction(eventID, extra)) => RunAction(eventID, extra, ok, now);
      case Job(Signal) => NothingToFinish(State(), cfg, ok, now);
    }

    /** The goroutine of a flushed media batch: `i` is its place among the launched ones. */
    method RunLaunched(i: nat, ok: bool, now: int)
      requires Valid() && i < |media.View().launched|
      modifies this, seen, seen.elems, lock, media`launched
      ensures Valid() && fresh(seen.elems - old(seen.elems))
      ensures var was := old(State());
        State() == Finished(was.(media := was.media.(launched := was.media.launched[..i] + was.media.launched[i + 1..])), cfg,
                            CallOfMedia(was.media.launched[i]), ok, now)
    {
      hide SeenCache.Valid, SeenCache.Contents, ChatQueueManager.Valid, ChatQueueManager.View, MediaPipelineManager.Valid, MediaPipelineManager.View, Finished, M.SourcesOf;
      var merged := media.TakeLaunched(i);
      Flushed(IDs(M.SourcesOf(merged)), ok, now);
    }
  }

  /** A call on its own: release its locks, then mark its keys if it succeeded and marking waits
      for that. */
  function Finished(s: Sys, cfg: Config, call: Call, ok: bool, now: int): Sys {
    s.(locks := s.locks - O.Elements(call.locks),
       seen := if cfg.markAfterHandler && ok then O.MarkGroups(s.seen, call.marks, now, cfg) else s.seen)
  }

  function Queued(s: Sys, cfg: Config, msg: Message, batch: bool, stopped: bool): Sys {
    var id := msg.conversationID;
    if batch then
      s.(queues := s.queues[id := Q.Push(Q.QueueAt(s.queues, id, false), cfg.queue, msg, Some(BatchHandler), stopped)])
    else
      s.(queues := s.queues[id := Q.Send(Q.FlushBuffered(Q.QueueAt(s.queues, id, true), stopped), Q.OneMessage(msg))])
  }

  /** A message routed on its own. `flushed` are the media buckets flushed ahead of a message that
      is neither queued nor collected. */
  function Routed(s: Sys, cfg: Config, msg: Message, batch: bool, ok: bool, now: int, stopped: bool, stops: M.TimerID -> bool,
                  flushed: seq<string>): Sys {
    if cfg.queueEnabled then Queued(s, cfg, msg, batch, stopped)
    else if M.IsCompatible(cfg.media, msg) then s.(media := M.Push(s.media, cfg.media, msg, cfg.hash, stops))
    else Finished(s.(media := M.FlushKeys(s.media, flushed, stops)), cfg, CallOn([msg.msgID]), ok, now)
  }

  lemma SinglesStep(ids: seq<string>, i: nat, t: S.Trace, now: int, cfg: Config)
    requires i < |ids|
    ensures O.MarkGroups(t, Singles(ids[i..]), now, cfg)
         == O.MarkGroups(S.MarkKeys(t, [ids[i]], now, cfg.seenTtl, cfg.seenMax), Singles(ids[i + 1..]), now, cfg)
  {
    hide S.MarkKeys;
    assert ids[i..][0] == ids[i] && ids[i..][1..] == ids[i + 1..];
    assert Singles(ids[i..])[1..] == Singles(ids[i + 1..]);
  }

  lemma NoneLeft(ids: seq<string>, t: S.Trace, now: int, cfg: Config)
    ensures O.MarkGroups(t, Singles(ids[|ids|..]), now, cfg) == t
  {
  }

  function ActionRouted(s: Sys, cfg: Config, eventID: string, scope: string, extra: seq<string>, ok: bool, now: int, stopped: bool): Sys {
    if cfg.queueEnabled then
      s.(queues := s.queues[scope := Q.Send(Q.FlushBuffered(Q.QueueAt(s.queues, scope, true), stopped), Q.OneAction(eventID, extra))])
    else Finished(s, cfg, CallOnAction(eventID, extra), ok, now)
  }

  lemma OneGroup(t: S.Trace, keys: seq<string>, now: int, cfg: Config)
    ensures O.MarkGroups(t, [keys], now, cfg) == S.MarkKeys(t, keys, now, cfg.seenTtl, cfg.seenMax)
  {
    hide S.MarkKeys;
    assert [keys][1..] == [];
  }

  lemma OneElement(id: string)
    ensures O.Elements([id]) == {id}
  {
  }

  lemma FlushNone(m: M.Media, stops: M.TimerID -> bool)
    ensures M.FlushKeys(m, [], stops) == m
  {
  }

  lemma NothingToFinish(s: Sys, cfg: Config, ok: bool, now: int)
    ensures Finished(s, cfg, Call([], [], []), ok, now) == s
  {
    assert s.locks - O.Elements([]) == s.locks;
  }

  // ---------- the methods and the machine ----------

  function FlushSteps(keys: seq<string>, stops: M.TimerID -> bool): seq<Step> {
    if keys == [] then [] else [MediaFlush(keys[0], stops)] + FlushSteps(keys[1..], stops)
  }

  lemma {:induction false} FlushStepsEffect(s: Sys, cfg: Config, keys: seq<string>, stops: M.TimerID -> bool)
    ensures Run(s, cfg, FlushSteps(keys, stops)) == s.(media := M.FlushKeys(s.media, keys, stops))
    decreases |keys|
  {
    hide M.FlushBucket;
    if keys != [] {
      var rest := FlushSteps(keys[1..], stops);
      var step := MediaFlush(keys[0], stops);
      assert ([step] + rest)[1..] == rest;
      FlushStepsEffect(Next(s, cfg, step), cfg, keys[1..], stops);
    }
  }

  /** The machine from a locked message to the end of its push, with nothing in between: the media
      buckets flushed ahead of it, the route, and the handler's return if the push calls it. */
  function LoneRoute(s: Sys, cfg: Config, batch: bool, ok: bool, now: int, stopped: bool, stops: M.TimerID -> bool, flushed: seq<string>): Sys {
    RouteAlone(Run(s, cfg, FlushSteps(flushed, stops)), cfg, batch, ok, now, stopped, stops)
  }

  function RouteAlone(s: Sys, cfg: Config, batch: bool, ok: bool, now: int, stopped: bool, stops: M.TimerID -> bool): Sys {
    var s1 := RouteStep(s, cfg, 0, 0, batch, stopped, stops);
    if 0 in s1.threads then SendStep(s1, 0)
    else O.CloseAll(ReturnStep(s1, cfg, Goroutine(0), ok, now), cfg, Goroutine(0), now)
  }

  lemma FinishedIsMachine(s: Sys, cfg: Config, a: ActivityID, call: Call, ok: bool, now: int)
    requires s.acts == map[a := Handling(call)] && s.threads == map[]
    ensures Core(O.CloseAll(ReturnStep(s, cfg, a, ok, now), cfg, a, now)) == Finished(Core(s), cfg, call, ok, now)
  {
    hide O.MarkGroups, O.Elements;
    O.FinishEffect(s, cfg, a, ok, now);
    O.CloseAllEffect(ReturnStep(s, cfg, a, ok, now), cfg, a, now);
  }

  /** Routing by the methods is routing by the machine. */
  lemma RoutedIsMachine(s: Sys, cfg: Config, msg: Message, keys: seq<string>, batch: bool, ok: bool, now: int,
                        stopped: bool, stops: M.TimerID -> bool, flushed: seq<string>)
    requires s.threads == map[0 := Locked(Incoming(msg), keys)] && s.acts == map[]
    requires flushed != [] ==> !cfg.queueEnabled && !M.IsCompatible(cfg.media, msg)
    ensures Core(LoneRoute(s, cfg, batch, ok, now, stopped, stops, flushed))
         == Routed(Core(s), cfg, msg, batch, ok, now, stopped, stops, flushed)
  {
    hide Q.Push, Q.FlushBuffered, Q.QueueAt, M.Push, M.IsCompatible, M.FlushKeys, Run, FlushSteps, RouteAlone, Finished;
    FlushStepsEffect(s, cfg, flushed, stops);
    if flushed == [] {
      FlushNone(s.media, stops);
    }
    RouteAloneEffect(s.(media := M.FlushKeys(s.media, flushed, stops)), cfg, msg, keys, batch, ok, now, stopped, stops);
    FlushNone(M.FlushKeys(s.media, flushed, stops), stops);
  }

  lemma RouteAloneEffect(s: Sys, cfg: Config, msg: Message, keys: seq<string>, batch: bool, ok: bool, now: int,
                         stopped: bool, stops: M.TimerID -> bool)
    requires s.threads == map[0 := Locked(Incoming(msg), keys)] && s.acts == map[]
    ensures Core(RouteAlone(s, cfg, batch, ok, now, stopped, stops)) == Routed(Core(s), cfg, msg, batch, ok, now, stopped, stops, [])
  {
    hide Q.Push, Q.FlushBuffered, Q.QueueAt, M.Push, M.IsCompatible;
    var s1 := RouteStep(s, cfg, 0, 0, batch, stopped, stops);
    if cfg.queueEnabled && batch {
      assert O.CloseAll(ReturnStep(s1, cfg, Goroutine(0), ok, now), cfg, Goroutine(0), now) == s1;
    } else if cfg.queueEnabled {
      OverwriteQueue(s.queues, msg.conversationID, s1.queues[msg.conversationID], Q.Send(s1.queues[msg.conversationID], Q.OneMessage(msg)));
    } else if M.IsCompatible(cfg.media, msg) {
      assert O.CloseAll(ReturnStep(s1, cfg, Goroutine(0), ok, now), cfg, Goroutine(0), now) == s1;
    } else {
      assert s1.acts == map[Goroutine(0) := Handling(CallOn([msg.msgID]))];
      FinishedIsMachine(s1, cfg, Goroutine(0), CallOn([msg.msgID]), ok, now);
    }
  }

  lemma OverwriteQueue(queues: map<string, Q.Queue>, k: string, a: Q.Queue, b: Q.Queue)
    ensures queues[k := a][k := b] == queues[k := b]
  {
  }

  /** A whole message push by the methods is an admission and a route by the machine: the machine's
      runs include every run of the object in which pushes do not interrupt each other. */
  lemma {:induction false} PushIsMachine(s: Sys, cfg: Config, protoID: string, msg: Message, now: int, verdict: Option<string>,
                      batch: bool, ok: bool, stopped: bool, stops: M.TimerID -> bool, flushed: seq<string>)
    requires s == Core(s) && msg.batchedSources == []
    requires flushed != [] ==> !cfg.queueEnabled && !M.IsCompatible(cfg.media, msg)
    ensures var (admitted, why) := Admission(s, cfg, msg, MessageKeys(cfg, protoID, msg), now, verdict);
      var s1 := O.AdmitNext(s, cfg, ArriveMessage(0, protoID, msg), now, verdict);
      if why.Some? then Core(s1) == admitted && s1.events == [RejectEvent(msg.msgID, why.value)]
      else
        && Core(LoneRoute(s1, cfg, batch, ok, now, stopped, stops, flushed))
           == Routed(admitted, cfg, msg, batch, ok, now, stopped, stops, flushed)
        && s1.events == []
  {
    AdmissionIsMachine(s, cfg, protoID, msg, now, verdict);
    var s1 := O.AdmitNext(s, cfg, ArriveMessage(0, protoID, msg), now, verdict);
    hide O.AdmitNext, Admission, MessageKeys, LoneRoute, Routed;
    if s1.threads != map[] {
      RoutedIsMachine(s1, cfg, msg, MessageKeys(cfg, protoID, msg), batch, ok, now, stopped, stops, flushed);
    }
  }

  /** An action push by the methods is the machine's admission of an action and its route: accepted
      or not for the same reasons, marked, locked and queued or run alike. */
  lemma {:induction false} ActionIsMachine(s: Sys, cfg: Config, eventID: string, scope: string, extra: seq<string>, now: int,
                                           batch: bool, ok: bool, stopped: bool, stops: M.TimerID -> bool)
    requires s == Core(s)
    ensures var keys := [eventID] + extra;
      var (seen, dup) := S.LookUp(s.seen, keys, now);
      var was := s.(seen := if dup || cfg.markAfterHandler then seen else S.MarkKeys(seen, keys, now, cfg.seenTtl, cfg.seenMax));
      var s1 := O.AdmitNext(s, cfg, ArriveAction(0, eventID, scope, extra), now, None);
      if dup || L.Held(s.locks, eventID, now) then s1.threads == map[] && Core(s1) == was
      else Core(RouteAlone(s1, cfg, batch, ok, now, stopped, stops))
           == ActionRouted(was.(locks := s.locks[eventID := now + cfg.lockTtl]), cfg, eventID, scope, extra, ok, now, stopped)
  {
    hide S.LookUp, S.MarkKeys, L.Held, RouteAlone, ActionRouted, O.AdmitNext;
    ActionAlone(s, cfg, eventID, scope, extra, now);
    var s1 := O.AdmitNext(s, cfg, ArriveAction(0, eventID, scope, extra), now, None);
    if !(S.LookUp(s.seen, [eventID] + extra, now).1 || L.Held(s.locks, eventID, now)) {
      ActionRouteAlone(s1, cfg, eventID, scope, extra, [eventID] + extra, batch, ok, now, stopped, stops);
    }
  }

  lemma {:induction false} ActionAlone(s: Sys, cfg: Config, eventID: string, scope: string, extra: seq<string>, now: int)
    requires s == Core(s)
    ensures var keys := [eventID] + extra;
      var (seen, dup) := S.LookUp(s.seen, keys, now);
      var out := dup || L.Held(s.locks, eventID, now);
      var s1 := O.AdmitNext(s, cfg, ArriveAction(0, eventID, scope, extra), now, None);
      && s1.threads == (if out then map[] else map[0 := Locked(Action(eventID, scope, extra), keys)]) && s1.acts == map[]
      && Core(s1) == s.(seen := if dup || cfg.markAfterHandler then seen else S.MarkKeys(seen, keys, now, cfg.seenTtl, cfg.seenMax),
                        locks := if out then s.locks else s.locks[eventID := now + cfg.lockTtl])
  {
    var keys := [eventID] + extra;
    var a := Arrive(s, 0, Action(eventID, scope, extra), keys);
    assert a.threads == map[0 := Arrived(Action(eventID, scope, extra), keys)] && Core(a) == s && a.acts == map[];
    hide S.LookUp, S.MarkKeys, L.Held, CheckStep, MarkStep, GateStep, Next, Arrive;
    E.ArriveActionIs(s, cfg, 0, eventID, scope, extra);
    E.ActionFrom(a, cfg, 0, eventID, scope, extra, keys, now, None);
    LoneCheck(a, cfg, now);
    LoneMark(CheckStep(a, cfg, 0, now), cfg, now);
    LoneGate(MarkStep(CheckStep(a, cfg, 0, now), cfg, 0, now), cfg, now);
    OnlyZero(O.AdmitNext(s, cfg, ArriveAction(0, eventID, scope, extra), now, None).threads);
  }

  lemma OnlyZero(threads: map<nat, Thread>)
    requires threads.Keys <= {0}
    ensures threads == if 0 in threads then map[0 := threads[0]] else map[]
  {
  }

  /** A step of an admission leaves the queues, the media buckets and other threads and calls alone. */
  ghost predicate Bystanders(s: Sys, s': Sys) {
    s'.queues == s.queues && s'.media == s.media && s'.acts == s.acts && (s.threads.Keys <= {0} ==> s'.threads.Keys <= {0})
  }

  lemma LoneCheck(s: Sys, cfg: Config, now: int)
    ensures Bystanders(s, CheckStep(s, cfg, 0, now))
  {
    if 0 in s.threads && s.threads[0].Arrived? {
      hide S.LookUp, IsStale, Refuse;
      var Arrived(item, keys) := s.threads[0];
      LoneRefusal(s, item, Stale);
      LoneRefusal(s.(seen := S.LookUp(s.seen, keys, now).0), item, Duplicate);
    }
  }

  lemma LoneRefusal(s: Sys, item: Item, reason: Reason)
    ensures Bystanders(s, Refuse(s, 0, item, reason))
  {
  }

  lemma LoneMark(s: Sys, cfg: Config, now: int)
    ensures Bystanders(s, MarkStep(s, cfg, 0, now))
  {
    hide S.MarkKeys;
  }

  lemma LoneGate(s: Sys, cfg: Config, now: int)
    ensures Bystanders(s, GateStep(s, cfg, 0, now, None))
  {
    if 0 in s.threads && s.threads[0].Cleared? {
      hide L.Held, Name;
    }
  }

  lemma ActionRouteAlone(s: Sys, cfg: Config, eventID: string, scope: string, extra: seq<string>, keys: seq<string>,
                         batch: bool, ok: bool, now: int, stopped: bool, stops: M.TimerID -> bool)
    requires s.threads == map[0 := Locked(Action(eventID, scope, extra), keys)] && s.acts == map[]
    ensures Core(RouteAlone(s, cfg, batch, ok, now, stopped, stops))
         == ActionRouted(Core(s), cfg, eventID, scope, extra, ok, now, stopped)
  {
    hide Q.FlushBuffered, Q.QueueAt, CallOnAction, RouteMessage;
    var s1 := RouteStep(s, cfg, 0, 0, batch, stopped, stops);
    var work := Q.OneAction(eventID, extra);
    if cfg.queueEnabled {
      OverwriteQueue(s.queues, scope, s1.queues[scope], Q.Send(s1.queues[scope], work));
    } else {
      assert s1.acts == map[Goroutine(0) := Handling(CallOnAction(eventID, extra))];
      FinishedIsMachine(s1, cfg, Goroutine(0), CallOnAction(eventID, extra), ok, now);
    }
  }
}
