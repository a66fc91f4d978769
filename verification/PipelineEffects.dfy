/** What single pushes and finished calls leave behind, spelled out key by key: what an action is
    deduplicated on, where an admitted push goes, and what a call releases and marks. */
module PipelineEffects {
  import opened Options
  import opened Messages
  import opened Pipeline
  import opened PipelineAdmission
  import S = SeenRuns
  import Q = QueueSpec
  import M = MediaSpec
  import L = ProcessingLocks

  // ---------- what a finished call marks and releases ----------

  /** From m to m' exactly the non-empty keys among `keys` got the time `now`. */
  ghost predicate Marked(m: map<string, int>, m': map<string, int>, keys: set<string>, now: int) {
    && (forall k :: k in keys && k != "" ==> k in m' && m'[k] == now)
    && (forall k :: !(k in keys && k != "") ==> (k in m' <==> k in m) && (k in m ==> m'[k] == m[k]))
  }

  /** From m to m' exactly `ids` were released. */
  ghost predicate Released(m: map<string, int>, m': map<string, int>, ids: seq<string>) {
    forall id :: (id in m' <==> id in m && id !in ids) && (id in m' ==> m'[id] == m[id])
  }

  ghost function InGroups(groups: seq<seq<string>>): set<string> {
    set g, k | g in groups && k in g :: k
  }

  lemma MarkedThen(m: map<string, int>, m1: map<string, int>, m2: map<string, int>, a: set<string>, b: set<string>, now: int)
    requires Marked(m, m1, a, now) && Marked(m1, m2, b, now)
    ensures Marked(m, m2, a + b, now)
  {
    forall k | k in a + b && k != ""
      ensures k in m2 && m2[k] == now
    {
      if k !in b {
        assert m1[k] == now;
      }
    }
  }

  lemma KeysMarked(t: S.Trace, keys: seq<string>, now: int, cfg: Config)
    ensures Marked(t.marks, S.MarkKeys(t, keys, now, cfg.seenTtl, cfg.seenMax).marks, Elements(keys), now)
  {
    S.MarkKeysMarks(t, keys, now, cfg.seenTtl, cfg.seenMax);
    S.MarkAllMeaning(t.marks, keys, now);
  }

  lemma {:induction false} GroupsMarked(t: S.Trace, groups: seq<seq<string>>, now: int, cfg: Config)
    ensures Marked(t.marks, MarkGroups(t, groups, now, cfg).marks, InGroups(groups), now)
    decreases |groups|
  {
    hide S.MarkKeys;
    if groups != [] {
      var t1 := S.MarkKeys(t, groups[0], now, cfg.seenTtl, cfg.seenMax);
      KeysMarked(t, groups[0], now, cfg);
      GroupsMarked(t1, groups[1..], now, cfg);
      hide Marked;
      MarkedThen(t.marks, t1.marks, MarkGroups(t, groups, now, cfg).marks, Elements(groups[0]), InGroups(groups[1..]), now);
      assert groups == [groups[0]] + groups[1..];
      assert InGroups(groups) == Elements(groups[0]) + InGroups(groups[1..]);
    }
  }

  lemma {:induction false} SinglesAre(ids: seq<string>)
    ensures InGroups(Singles(ids)) == Elements(ids)
  {
    if ids != [] {
      SinglesAre(ids[1..]);
      assert Singles(ids) == [[ids[0]]] + Singles(ids[1..]);
      assert ids == [ids[0]] + ids[1..];
      assert ids[0] in [ids[0]];
      assert forall g :: g in Singles(ids) <==> g == [ids[0]] || g in Singles(ids[1..]);
      assert InGroups(Singles(ids)) == {ids[0]} + InGroups(Singles(ids[1..]));
    }
  }

  lemma OneGroupKeys(keys: seq<string>)
    ensures InGroups([keys]) == Elements(keys)
  {
    assert keys in [keys];
  }

  /** When a call on messages returns, exactly their locks are released; if it succeeded and marking
      waits for the handler exactly their ids are marked, else nothing is. */
  lemma MessagesFinished(s: Sys, cfg: Config, a: ActivityID, ids: seq<string>, ok: bool, now: int)
    requires a in s.acts && s.acts[a] == Handling(CallOn(ids))
    ensures var s' := FinishNext(s, cfg, a, ok, now);
      && Released(s.locks, s'.locks, ids)
      && Marked(s.seen.marks, s'.seen.marks, if cfg.markAfterHandler && ok then (set id | id in ids) else {}, now)
      && s'.delivered == s.delivered + multiset(ids) && a !in s'.acts
  {
    FinishEffect(s, cfg, a, ok, now);
    DeliveredBy(s, cfg, a, ok, now);
    GroupsMarked(s.seen, Singles(ids), now, cfg);
    SinglesAre(ids);
    hide FinishNext, MarkGroups, Singles;
  }

  /** The same for a card action: its lock, and its event id with all its extra keys. */
  lemma ActionFinished(s: Sys, cfg: Config, a: ActivityID, eventID: string, extra: seq<string>, ok: bool, now: int)
    requires a in s.acts && s.acts[a] == Handling(CallOnAction(eventID, extra))
    ensures var s' := FinishNext(s, cfg, a, ok, now);
      && Released(s.locks, s'.locks, [eventID])
      && Marked(s.seen.marks, s'.seen.marks, if cfg.markAfterHandler && ok then {eventID} + (set k | k in extra) else {}, now)
      && s'.delivered == s.delivered + multiset{eventID} && a !in s'.acts
  {
    FinishEffect(s, cfg, a, ok, now);
    DeliveredBy(s, cfg, a, ok, now);
    GroupsMarked(s.seen, [[eventID] + extra], now, cfg);
    OneGroupKeys([eventID] + extra);
    assert Elements([eventID] + extra) == {eventID} + (set k | k in extra);
    assert multiset([eventID]) == multiset{eventID};
    hide FinishNext, MarkGroups;
  }

  lemma {:induction false} DeliveredBy(s: Sys, cfg: Config, a: ActivityID, ok: bool, now: int)
    requires a in s.acts && s.acts[a].Handling?
    ensures FinishNext(s, cfg, a, ok, now).delivered == s.delivered + multiset(s.acts[a].call.names)
  {
    CloseAllEffect(ReturnStep(s, cfg, a, ok, now), cfg, a, now);
  }

  // ---------- actions and light events ----------

  /** The event id or an extra key was marked less than the TTL ago. */
  ghost predicate ActionSeenLately(s: Sys, cfg: Config, eventID: string, extra: seq<string>, now: int) {
    exists k :: (k == eventID || k in extra) && k != "" && k in s.seen.marks && now < s.seen.marks[k] + cfg.seenTtl
  }

  lemma {:induction false} ActionLooked(s: Sys, cfg: Config, eventID: string, extra: seq<string>, now: int, clock: int)
    requires S.Inv(s.seen, clock, cfg.seenTtl, cfg.seenMax) && clock <= now
    requires S.RoomFor(s.seen, [eventID] + extra, now, cfg.seenTtl, cfg.seenMax)
    ensures var (looked, dup) := S.LookUp(s.seen, [eventID] + extra, now);
      && looked.marks == s.seen.marks && (dup <==> ActionSeenLately(s, cfg, eventID, extra, now))
      && Marked(s.seen.marks, S.MarkKeys(looked, [eventID] + extra, now, cfg.seenTtl, cfg.seenMax).marks, {eventID} + (set k | k in extra), now)
  {
    var keys := [eventID] + extra;
    S.LookExactWithRoom(s.seen, keys, now, clock, cfg.seenTtl, cfg.seenMax);
    KeysMarked(S.LookUp(s.seen, keys, now).0, keys, now, cfg);
    hide Marked, S.LookUp, S.MarkKeys, S.Inv, S.RoomFor;
    assert forall k :: k in keys <==> k == eventID || k in extra;
    assert Elements(keys) == {eventID} + (set k | k in extra);
  }

  /** An action is looked up by its event id and its extra keys: it is let through exactly when none
      of them was marked within the TTL and its event id is not locked. Then it holds that lock. */
  lemma {:induction false} ActionAdmittedExactly(s: Sys, cfg: Config, t: nat, eventID: string, scope: string, extra: seq<string>,
                                                 now: int, verdict: Option<string>, clock: int)
    requires t !in s.threads && S.Inv(s.seen, clock, cfg.seenTtl, cfg.seenMax) && clock <= now
    requires S.RoomFor(s.seen, [eventID] + extra, now, cfg.seenTtl, cfg.seenMax)
    ensures var s' := AdmitNext(s, cfg, ArriveAction(t, eventID, scope, extra), now, verdict);
      var dup := ActionSeenLately(s, cfg, eventID, extra, now);
      && Marked(s.seen.marks, s'.seen.marks, if cfg.markAfterHandler || dup then {} else {eventID} + (set k | k in extra), now)
      && s'.events == s.events
      && if dup || (eventID in s.locks && now < s.locks[eventID])
         then t !in s'.threads && s'.locks == s.locks && s'.ignored == s.ignored + multiset{eventID}
         else t in s'.threads && s'.threads[t].Locked? && s'.threads[t].item == Action(eventID, scope, extra)
              && s'.locks == s.locks[eventID := now + cfg.lockTtl] && s'.ignored == s.ignored
  {
    ActionLooked(s, cfg, eventID, extra, now, clock);
    hide S.LookUp, S.MarkKeys, S.Inv, S.RoomFor, CheckStep, MarkStep, GateStep, Marked, Next, ActionSeenLately;
    ArriveActionIs(s, cfg, t, eventID, scope, extra);
    ActionFrom(Arrive(s, t, Action(eventID, scope, extra), [eventID] + extra), cfg, t, eventID, scope, extra, [eventID] + extra, now, verdict);
    NothingMarked(s.seen.marks, now);
  }

  lemma {:induction false} ArriveActionIs(s: Sys, cfg: Config, t: nat, eventID: string, scope: string, extra: seq<string>)
    ensures Next(s, cfg, ArriveAction(t, eventID, scope, extra)) == Arrive(s, t, Action(eventID, scope, extra), [eventID] + extra)
  {
    hide Arrive;
  }

  lemma NothingMarked(m: map<string, int>, now: int)
    ensures Marked(m, m, {}, now)
  {
  }

  lemma ActionFrom(s: Sys, cfg: Config, t: nat, eventID: string, scope: string, extra: seq<string>, keys: seq<string>, now: int, verdict: Option<string>)
    requires t in s.threads && s.threads[t] == Arrived(Action(eventID, scope, extra), keys)
    ensures var (looked, dup) := S.LookUp(s.seen, keys, now);
      var s' := GateStep(MarkStep(CheckStep(s, cfg, t, now), cfg, t, now), cfg, t, now, verdict);
      && s'.seen == (if dup || cfg.markAfterHandler then looked else S.MarkKeys(looked, keys, now, cfg.seenTtl, cfg.seenMax))
      && s'.events == s.events
      && if dup || L.Held(s.locks, eventID, now) then t !in s'.threads && s'.locks == s.locks && s'.ignored == s.ignored + multiset{eventID}
         else t in s'.threads && s'.threads[t] == Locked(Action(eventID, scope, extra), keys)
              && s'.locks == s.locks[eventID := now + cfg.lockTtl] && s'.ignored == s.ignored
  {
    hide S.LookUp, S.MarkKeys, L.Held;
    var s1 := CheckStep(s, cfg, t, now);
    if S.LookUp(s.seen, keys, now).1 {
      assert t !in s1.threads;
    } else {
      var s2 := MarkStep(s1, cfg, t, now);
      assert s2.threads[t] == Cleared(Action(eventID, scope, extra), keys, now) && s2.locks == s.locks;
    }
  }

  /** A light event is let through exactly when it was not marked within the TTL; it takes no lock. */
  lemma {:induction false} LightAdmittedExactly(s: Sys, cfg: Config, t: nat, lightID: string, now: int, verdict: Option<string>, clock: int)
    requires t !in s.threads && S.Inv(s.seen, clock, cfg.seenTtl, cfg.seenMax) && clock <= now
    requires S.RoomFor(s.seen, [lightID], now, cfg.seenTtl, cfg.seenMax)
    ensures var s' := AdmitNext(s, cfg, ArriveLight(t, lightID), now, verdict);
      var dup := lightID != "" && lightID in s.seen.marks && now < s.seen.marks[lightID] + cfg.seenTtl;
      && Marked(s.seen.marks, s'.seen.marks, if cfg.markAfterHandler || dup then {} else {lightID}, now)
      && s'.locks == s.locks && s'.events == s.events
      && if dup then t !in s'.threads && s'.ignored == s.ignored + multiset{lightID}
         else t in s'.threads && s'.threads[t] == Locked(Light(lightID), [lightID]) && s'.ignored == s.ignored
  {
    var keys := [lightID];
    S.LookExactWithRoom(s.seen, keys, now, clock, cfg.seenTtl, cfg.seenMax);
    KeysMarked(S.LookUp(s.seen, keys, now).0, keys, now, cfg);
    assert forall k :: k in keys <==> k == lightID;
    assert Elements(keys) == {lightID};
    hide S.LookUp, S.MarkKeys, S.Inv, S.RoomFor, CheckStep, MarkStep, GateStep, Marked, Next;
    ArriveLightIs(s, cfg, t, lightID);
    LightFrom(Arrive(s, t, Light(lightID), keys), cfg, t, lightID, keys, now, verdict);
    NothingMarked(s.seen.marks, now);
  }

  lemma {:induction false} ArriveLightIs(s: Sys, cfg: Config, t: nat, lightID: string)
    ensures Next(s, cfg, ArriveLight(t, lightID)) == Arrive(s, t, Light(lightID), [lightID])
  {
    hide Arrive;
  }

  lemma LightFrom(s: Sys, cfg: Config, t: nat, lightID: string, keys: seq<string>, now: int, verdict: Option<string>)
    requires t in s.threads && s.threads[t] == Arrived(Light(lightID), keys)
    ensures var (looked, dup) := S.LookUp(s.seen, keys, now);
      var s' := GateStep(MarkStep(CheckStep(s, cfg, t, now), cfg, t, now), cfg, t, now, verdict);
      && s'.seen == (if dup || cfg.markAfterHandler then looked else S.MarkKeys(looked, keys, now, cfg.seenTtl, cfg.seenMax))
      && s'.locks == s.locks && s'.events == s.events
      && if dup then t !in s'.threads && s'.ignored == s.ignored + multiset{lightID}
         else t in s'.threads && s'.threads[t] == Locked(Light(lightID), keys) && s'.ignored == s.ignored
  {
    hide S.LookUp, S.MarkKeys;
    var s1 := CheckStep(s, cfg, t, now);
    if S.LookUp(s.seen, keys, now).1 {
      assert t !in s1.threads;
    } else {
      var s2 := MarkStep(s1, cfg, t, now);
      assert s2.threads[t] == Cleared(Light(lightID), keys, now) && s2.locks == s.locks;
    }
  }

  /** Let through, routed and returned: no lock, its key marked if marking waits for success. */
  lemma LightHandled(s: Sys, cfg: Config, t: nat, n: nat, lightID: string, ok: bool, now: int, batch: bool, stopped: bool, stops: M.TimerID -> bool)
    requires t in s.threads && s.threads[t] == Locked(Light(lightID), [lightID]) && Goroutine(n) !in s.acts
    ensures var s' := FinishNext(RouteStep(s, cfg, t, n, batch, stopped, stops), cfg, Goroutine(n), ok, now);
      && s'.threads == s.threads - {t} && s'.acts == s.acts && s'.locks == s.locks && s'.queues == s.queues && s'.media == s.media
      && Marked(s.seen.marks, s'.seen.marks, if cfg.markAfterHandler && ok then {lightID} else {}, now)
      && s'.delivered == s.delivered + multiset{lightID}
  {
    hide MarkGroups, RouteMessage, RouteAction;
    var s1 := RouteStep(s, cfg, t, n, batch, stopped, stops);
    assert s1.acts[Goroutine(n)] == Handling(Call([lightID], [], [[lightID]]));
    CloseAllEffect(ReturnStep(s1, cfg, Goroutine(n), ok, now), cfg, Goroutine(n), now);
    GroupsMarked(s.seen, [[lightID]], now, cfg);
    OneGroupKeys([lightID]);
    assert Elements([lightID]) == {lightID};
    assert multiset([lightID]) == multiset{lightID};
    assert s1.locks - Elements([]) == s.locks;
    assert (s1.acts - {Goroutine(n)}) == s.acts;
  }

  // ---------- where an admitted push goes ----------

  predicate IsMedia(cfg: Config, msg: Message) {
    cfg.media.enabled && (msg.msgType == "picture" || msg.msgType == "file" || msg.msgType == "audio" || msg.msgType == "video")
  }

  /** With queues a message goes to the queue of its conversation and touches no other: in batch mode
      into the buffer, else as a task to be sent; a queue made for it is serial-only exactly outside
      batch mode. Without queues media goes to the media buckets and the rest to the handler. */
  lemma MessageRouted(s: Sys, cfg: Config, t: nat, n: nat, msg: Message, keys: seq<string>, batch: bool, stopped: bool, stops: M.TimerID -> bool)
    requires t in s.threads && s.threads[t] == Locked(Incoming(msg), keys) && Goroutine(n) !in s.acts
    ensures var s', id := RouteStep(s, cfg, t, n, batch, stopped, stops), msg.conversationID;
      var q := if id in s.queues then s.queues[id] else Q.NewQueue(!batch);
      && s'.seen == s.seen && s'.locks == s.locks && s'.events == s.events && s'.delivered == s.delivered
      && s'.queues == (if !cfg.queueEnabled then s.queues
                       else s.queues[id := if batch then Q.Push(q, cfg.queue, msg, Some(BatchHandler), stopped) else Q.FlushBuffered(q, stopped)])
      && s'.threads == (if cfg.queueEnabled && !batch then s.threads[t := Sending(id, Q.OneMessage(msg))] else s.threads - {t})
      && s'.media == (if cfg.queueEnabled || !IsMedia(cfg, msg) then s.media else M.Push(s.media, cfg.media, msg, cfg.hash, stops))
      && s'.acts == if cfg.queueEnabled || IsMedia(cfg, msg) then s.acts else s.acts[Goroutine(n) := Handling(CallOn([msg.msgID]))]
  {
    hide Q.Push, Q.FlushBuffered, M.Push, CallOn, RouteAction;
  }

  /** An action goes to the queue of its own scope as a task, or straight to its handler; either way
      its call is the one ActionFinished is about. */
  lemma ActionRouted(s: Sys, cfg: Config, t: nat, n: nat, eventID: string, scope: string, extra: seq<string>, keys: seq<string>,
                     batch: bool, stopped: bool, stops: M.TimerID -> bool)
    requires t in s.threads && s.threads[t] == Locked(Action(eventID, scope, extra), keys) && Goroutine(n) !in s.acts
    ensures var s' := RouteStep(s, cfg, t, n, batch, stopped, stops);
      var q := if scope in s.queues then s.queues[scope] else Q.NewQueue(true);
      && s'.seen == s.seen && s'.locks == s.locks && s'.events == s.events && s'.delivered == s.delivered && s'.media == s.media
      && s'.queues == (if cfg.queueEnabled then s.queues[scope := Q.FlushBuffered(q, stopped)] else s.queues)
      && s'.threads == (if cfg.queueEnabled then s.threads[t := Sending(scope, Q.OneAction(eventID, extra))] else s.threads - {t})
      && s'.acts == (if cfg.queueEnabled then s.acts else s.acts[Goroutine(n) := Handling(CallOnAction(eventID, extra))])
    ensures CallOfTask(Q.Job(Q.OneAction(eventID, extra))) == CallOnAction(eventID, extra)
  {
    hide Q.FlushBuffered, CallOnAction, RouteMessage;
  }
}
