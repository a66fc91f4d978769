/** Every run of the pipeline, at the granularity of its mutexes: nothing is lost or duplicated,
    the lock map holds exactly the claims in flight, and no two handler calls overlap on an id. */
module PipelineSafety {
  import opened Options
  import opened Messages
  import opened Pipeline
  import SeenRuns
  import Q = QueueSpec
  import M = MediaSpec
  import L = ProcessingLocks

  // ---------- what the components hold ----------

  lemma Assoc(a: multiset<Token>, b: multiset<Token>, c: multiset<Token>)
    ensures a + (b + c) == (a + b) + c
  {
  }

  lemma {:induction false} PendingAppend(a: seq<string>, b: seq<string>)
    ensures PendingAll(a + b) == PendingAll(a) + PendingAll(b)
  {
    AppendUnfolds(a, b);
    if a != [] {
      PendingAppend(a[1..], b);
      Assoc(multiset{Pending(a[0])}, PendingAll(a[1..]), PendingAll(b));
    }
  }

  lemma {:induction false} ClaimAppend(a: seq<string>, b: seq<string>)
    ensures ClaimAll(a + b) == ClaimAll(a) + ClaimAll(b)
  {
    AppendUnfolds(a, b);
    if a != [] {
      ClaimAppend(a[1..], b);
      Assoc(multiset{Claim(a[0])}, ClaimAll(a[1..]), ClaimAll(b));
    }
  }

  lemma HoldLast(ids: seq<string>, id: string)
    ensures HoldIDs(ids + [id]) == HoldIDs(ids) + HoldIDs([id])
  {
    PendingAppend(ids, [id]);
    ClaimAppend(ids, [id]);
  }

  lemma {:induction false} HoldTasksAppend(a: seq<Q.Task>, b: seq<Q.Task>)
    ensures HoldTasks(a + b) == HoldTasks(a) + HoldTasks(b)
  {
    AppendUnfolds(a, b);
    if a != [] {
      HoldTasksAppend(a[1..], b);
      Assoc(HoldCall(CallOfTask(a[0])), HoldTasks(a[1..]), HoldTasks(b));
    }
  }

  lemma HoldOneTask(t: Q.Task)
    ensures HoldTasks([t]) == HoldCall(CallOfTask(t))
  {
    assert [t][1..] == [];
  }

  lemma HoldOneID(id: string)
    ensures PendingAll([id]) == multiset{Pending(id)} && ClaimAll([id]) == multiset{Claim(id)}
  {
    assert [id][1..] == [];
  }

  lemma {:induction false} FlushTasksHold(batch: seq<Message>, handler: Q.Handler, serialOnly: bool)
    ensures HoldTasks(Q.FlushTasks(batch, handler, serialOnly)) == HoldIDs(IDs(batch))
  {
    if batch != [] {
      var ts := Q.FlushTasks(batch, handler, serialOnly);
      if serialOnly {
        FlushTasksHold(batch[1..], handler, serialOnly);
        assert ts[1..] == Q.FlushTasks(batch[1..], handler, serialOnly);
        HoldOneID(batch[0].msgID);
      } else {
        HoldOneTask(ts[0]);
      }
    }
  }

  /** A buffered batch has its handler, so a flush will not drop it. */
  predicate QueueReady(q: Q.Queue) {
    q.buffer != [] ==> q.pendingHandler.Some?
  }

  lemma EnqueueHolds(q: Q.Queue)
    requires QueueReady(q)
    ensures QueueReady(Q.EnqueueFlush(q)) && HoldQueue(Q.EnqueueFlush(q)) == HoldQueue(q)
  {
    if q.buffer != [] {
      var added := Q.FlushTasks(q.buffer, q.pendingHandler.value, q.serialOnly);
      FlushTasksHold(q.buffer, q.pendingHandler.value, q.serialOnly);
      HoldTasksAppend(q.tasks, added);
    } else if q.pendingHandler.Some? {
      assert q.tasks + [] == q.tasks;
    } else {
      assert q.tasks + [] == q.tasks;
    }
  }

  lemma FlushHolds(q: Q.Queue, stopped: bool)
    requires QueueReady(q)
    ensures QueueReady(Q.FlushBuffered(q, stopped)) && HoldQueue(Q.FlushBuffered(q, stopped)) == HoldQueue(q)
  {
    EnqueueHolds(Q.ClearTimer(q, stopped));
  }

  lemma FireHolds(q: Q.Queue, id: Q.TimerID)
    requires QueueReady(q)
    ensures QueueReady(Q.Fire(q, id)) && HoldQueue(Q.Fire(q, id)) == HoldQueue(q)
  {
    EnqueueHolds(q.(armed := q.armed - {id}, timer := None));
  }

  lemma BufferedHolds(q: Q.Queue, msg: Message, handler: Q.Handler)
    ensures HoldQueue(Q.Buffered(q, msg, Some(handler))) == HoldQueue(q) + HoldIDs([msg.msgID])
  {
    Q.AppendLast(q.buffer, msg);
    HoldLast(IDs(q.buffer), msg.msgID);
    Assoc(HoldTasks(q.tasks), HoldIDs(IDs(q.buffer)), HoldIDs([msg.msgID]));
  }

  lemma TimersHoldNothing(q: Q.Queue, q': Q.Queue)
    requires q'.buffer == q.buffer && q'.tasks == q.tasks && q'.pendingHandler == q.pendingHandler
    ensures HoldQueue(q') == HoldQueue(q) && QueueReady(q') == QueueReady(q)
  {
  }

  lemma PushHolds(q: Q.Queue, cfg: Q.Settings, msg: Message, handler: Q.Handler, stopped: bool)
    requires QueueReady(q)
    ensures var q' := Q.Push(q, cfg, msg, Some(handler), stopped);
      QueueReady(q') && HoldQueue(q') == HoldQueue(q) + HoldIDs([msg.msgID])
  {
    hide HoldQueue, Q.EnqueueFlush, HoldIDs, Q.Delay;
    var q1 := Q.Buffered(q, msg, Some(handler));
    var q2 := Q.ClearTimer(q1, stopped);
    BufferedHolds(q, msg, handler);
    TimersHoldNothing(q1, q2);
    EnqueueHolds(q2);
    TimersHoldNothing(q2, Q.Arm(q2, Q.Delay(cfg, q1.bufferChars, msg)));
  }

  lemma SendHolds(q: Q.Queue, work: Q.Work)
    requires QueueReady(q)
    ensures QueueReady(Q.Send(q, work)) && HoldQueue(Q.Send(q, work)) == HoldQueue(q) + HoldCall(CallOfWork(work))
  {
    HoldTasksAppend(q.tasks, [Q.Job(work)]);
    HoldOneTask(Q.Job(work));
  }

  lemma TakeHolds(q: Q.Queue)
    requires q.tasks != []
    ensures HoldQueue(q) == HoldCall(CallOfTask(q.tasks[0])) + HoldQueue(q.(tasks := q.tasks[1..]))
  {
  }

  /** Buckets are not empty, and their messages stand for themselves. */
  ghost predicate MediaReady(m: M.Media) {
    forall k :: k in m.buckets ==> m.buckets[k].sources != [] && forall x :: x in m.buckets[k].sources ==> x.batchedSources == []
  }

  lemma {:induction false} HoldLaunchedAppend(a: seq<Message>, b: seq<Message>)
    ensures HoldLaunched(a + b) == HoldLaunched(a) + HoldLaunched(b)
  {
    AppendUnfolds(a, b);
    if a != [] {
      HoldLaunchedAppend(a[1..], b);
      Assoc(HoldCall(CallOfMedia(a[0])), HoldLaunched(a[1..]), HoldLaunched(b));
    }
  }

  lemma HoldOneLaunched(merged: Message)
    ensures HoldLaunched([merged]) == HoldCall(CallOfMedia(merged))
  {
    assert [merged][1..] == [];
  }

  lemma FlushBucketHolds(m: M.Media, key: string, stops: M.TimerID -> bool)
    requires MediaReady(m)
    ensures var m' := M.FlushBucket(m, key, stops);
      MediaReady(m') && HoldMedia(m') == HoldMedia(m)
  {
    if key in m.buckets {
      var sources := m.buckets[key].sources;
      var merged := M.MergeSources(sources);
      SumRemove(m.buckets, key, HoldBucket);
      assert sources[0] in sources;
      M.SourcesRecovered(sources);
      HoldLaunchedAppend(m.launched, [merged]);
      HoldOneLaunched(merged);
    }
  }

  lemma BucketGrows(sources: seq<Message>, msg: Message, timer: Option<M.TimerID>, timer': Option<M.TimerID>)
    ensures HoldBucket(M.Bucket(sources + [msg], timer')) == HoldBucket(M.Bucket(sources, timer)) + HoldIDs([msg.msgID])
  {
    Q.AppendLast(sources, msg);
    HoldLast(IDs(sources), msg.msgID);
  }

  lemma WithSourceReady(m: M.Media, key: string, msg: Message, timer: Option<M.TimerID>)
    requires MediaReady(m) && msg.batchedSources == []
    ensures MediaReady(m.(buckets := m.buckets[key := M.WithSource(m, key, msg).(timer := timer)]))
  {
  }

  lemma WithSourceHolds(m: M.Media, key: string, msg: Message, timer: Option<M.TimerID>)
    ensures var b := M.WithSource(m, key, msg).(timer := timer);
      Sum(m.buckets[key := b], HoldBucket) == Sum(m.buckets, HoldBucket) + HoldIDs([msg.msgID])
  {
    var b := M.WithSource(m, key, msg).(timer := timer);
    SumPut(m.buckets, key, b, HoldBucket);
    if key in m.buckets {
      var was := m.buckets[key];
      BucketGrows(was.sources, msg, was.timer, timer);
      assert was == M.Bucket(was.sources, was.timer);
      Cancellation(Sum(m.buckets[key := b], HoldBucket), HoldBucket(was), Sum(m.buckets, HoldBucket), HoldIDs([msg.msgID]));
    } else {
      assert b == M.Bucket([msg], timer);
      assert IDs([msg]) == [msg.msgID];
    }
  }

  lemma Cancellation(x: multiset<Token>, a: multiset<Token>, y: multiset<Token>, b: multiset<Token>)
    requires x + a == y + (a + b)
    ensures x == y + b
  {
    forall t | t in x || t in y + b ensures x[t] == (y + b)[t] {
      assert (x + a)[t] == (y + (a + b))[t];
    }
  }

  lemma {:induction false} MediaPushHolds(m: M.Media, cfg: M.MediaConfig, msg: Message, hash: string -> string, stops: M.TimerID -> bool)
    requires MediaReady(m) && msg.batchedSources == []
    ensures var m' := M.Push(m, cfg, msg, hash, stops);
      MediaReady(m') && HoldMedia(m') == HoldMedia(m) + HoldIDs([msg.msgID])
  {
    var key := M.BatchKey(msg, hash);
    var b := M.WithSource(m, key, msg);
    var armed := M.Cancel(m.armed, b.timer, stops);
    if |b.sources| >= cfg.maxItems {
      WithSourceReady(m, key, msg, None);
      WithSourceHolds(m, key, msg, None);
      FlushBucketHolds(m.(buckets := m.buckets[key := b.(timer := None)], armed := armed), key, stops);
    } else {
      WithSourceReady(m, key, msg, Some(m.nextTimer));
      WithSourceHolds(m, key, msg, Some(m.nextTimer));
    }
  }

  lemma {:induction false} MediaFireHolds(m: M.Media, id: M.TimerID, stops: M.TimerID -> bool)
    requires MediaReady(m)
    ensures MediaReady(M.Fire(m, id, stops)) && HoldMedia(M.Fire(m, id, stops)) == HoldMedia(m)
  {
    if id in m.armed {
      FlushBucketHolds(m.(armed := m.armed - {id}), m.armed[id], stops);
    }
  }

  lemma {:induction false} HoldLaunchedTake(launched: seq<Message>, i: nat)
    requires i < |launched|
    ensures HoldLaunched(launched) == HoldCall(CallOfMedia(launched[i])) + HoldLaunched(launched[..i] + launched[i + 1..])
  {
    hide HoldCall;
    HoldLaunchedAppend(launched[..i], launched[i..]);
    assert launched[..i] + launched[i..] == launched;
    assert launched[i..][0] == launched[i] && launched[i..][1..] == launched[i + 1..];
    HoldLaunchedAppend(launched[..i], launched[i + 1..]);
  }

  lemma {:induction false} PendingCounts(ids: seq<string>, id: string)
    ensures PendingAll(ids)[Pending(id)] == multiset(ids)[id] && PendingAll(ids)[Claim(id)] == 0
  {
    if ids != [] {
      PendingCounts(ids[1..], id);
      assert ids == [ids[0]] + ids[1..];
    }
  }

  lemma {:induction false} ClaimCounts(ids: seq<string>, id: string)
    ensures ClaimAll(ids)[Claim(id)] == multiset(ids)[id] && ClaimAll(ids)[Pending(id)] == 0
  {
    if ids != [] {
      ClaimCounts(ids[1..], id);
      assert ids == [ids[0]] + ids[1..];
    }
  }

  // ---------- how one change moves what is in flight ----------

  lemma PutThread(s: Sys, t: nat, th: Thread, tok: Token)
    ensures InFlight(s.(threads := s.threads[t := th]))[tok] + (if t in s.threads then HoldThread(s.threads[t])[tok] else 0)
         == InFlight(s)[tok] + HoldThread(th)[tok]
  {
    SumPutAt(s.threads, t, th, HoldThread, tok);
  }

  lemma DropThread(s: Sys, t: nat, tok: Token)
    requires t in s.threads
    ensures InFlight(s.(threads := s.threads - {t}))[tok] + HoldThread(s.threads[t])[tok] == InFlight(s)[tok]
  {
    SumRemove(s.threads, t, HoldThread);
  }

  lemma PutQueue(s: Sys, scope: string, q: Q.Queue, tok: Token)
    ensures InFlight(s.(queues := s.queues[scope := q]))[tok] + (if scope in s.queues then HoldQueue(s.queues[scope])[tok] else 0)
         == InFlight(s)[tok] + HoldQueue(q)[tok]
  {
    SumPutAt(s.queues, scope, q, HoldQueue, tok);
  }

  lemma PutActivity(s: Sys, a: ActivityID, act: Activity, tok: Token)
    ensures InFlight(s.(acts := s.acts[a := act]))[tok] + (if a in s.acts then HoldActivity(s.acts[a])[tok] else 0)
         == InFlight(s)[tok] + HoldActivity(act)[tok]
  {
    SumPutAt(s.acts, a, act, HoldActivity, tok);
  }

  lemma DropActivity(s: Sys, a: ActivityID, tok: Token)
    requires a in s.acts
    ensures InFlight(s.(acts := s.acts - {a}))[tok] + HoldActivity(s.acts[a])[tok] == InFlight(s)[tok]
  {
    SumRemove(s.acts, a, HoldActivity);
  }

  lemma PutMedia(s: Sys, m: M.Media, tok: Token)
    ensures InFlight(s.(media := m))[tok] + HoldMedia(s.media)[tok] == InFlight(s)[tok] + HoldMedia(m)[tok]
  {
  }

  lemma SumPutAt<K(!new), V>(m: map<K, V>, k: K, v: V, hold: V -> multiset<Token>, tok: Token)
    ensures Sum(m[k := v], hold)[tok] + (if k in m then hold(m[k])[tok] else 0) == Sum(m, hold)[tok] + hold(v)[tok]
  {
    SumPut(m, k, v, hold);
    if k in m {
      assert (Sum(m[k := v], hold) + hold(m[k]))[tok] == (Sum(m, hold) + hold(v))[tok];
    }
  }

  /** Only maps and media decide what is in flight. */
  lemma SameFlight(s: Sys, s': Sys)
    requires s'.threads == s.threads && s'.queues == s.queues && s'.media == s.media && s'.acts == s.acts
    ensures InFlight(s') == InFlight(s)
  {
  }

  // ---------- the invariant ----------

  ghost predicate Inv(s: Sys) {
    && Balanced(s)
    && (forall scope :: scope in s.queues ==> QueueReady(s.queues[scope]))
    && MediaReady(s.media)
    && (forall t :: t in s.threads ==> Plain(s.threads[t]))
  }

  /** A raw message does not claim to stand for others. */
  predicate Plain(th: Thread) {
    !th.Sending? && th.item.Incoming? ==> th.item.msg.batchedSources == []
  }

  lemma EventAdded(events: seq<RejectEvent>, e: RejectEvent)
    ensures EventIDs(events + [e]) == EventIDs(events) + multiset{e.messageID}
  {
    assert (events + [e])[..|events|] == events;
  }

  // ---------- one lemma per step ----------

  lemma ArriveBalancedAt(s: Sys, t: nat, item: Item, keys: seq<string>, id: string)
    requires BalancedAt(s, id) && t !in s.threads
    ensures BalancedAt(Arrive(s, t, item, keys), id)
  {
    hide Sum;
    var th := Arrived(item, keys);
    PutThread(s, t, th, Pending(id));
    PutThread(s, t, th, Claim(id));
    SameFlight(s.(threads := s.threads[t := th]), Arrive(s, t, item, keys));
  }

  lemma ArriveKeeps(s: Sys, t: nat, item: Item, keys: seq<string>)
    requires Inv(s) && Plain(Arrived(item, keys))
    ensures Inv(Arrive(s, t, item, keys))
  {
    if t !in s.threads {
      forall id ensures BalancedAt(Arrive(s, t, item, keys), id) {
        assert BalancedAt(s, id);
        ArriveBalancedAt(s, t, item, keys, id);
      }
    }
  }

  lemma RefuseBalancedAt(s: Sys, t: nat, item: Item, reason: Reason, id: string)
    requires BalancedAt(s, id) && t in s.threads && HoldThread(s.threads[t]) == multiset{Pending(Name(item))}
    ensures BalancedAt(Refuse(s, t, item, reason), id)
  {
    hide Sum, HoldThread, EventIDs;
    var s' := Refuse(s, t, item, reason);
    DropThread(s, t, Pending(id));
    DropThread(s, t, Claim(id));
    SameFlight(s.(threads := s.threads - {t}), s');
    RefuseSettles(s, t, item, reason);
  }

  lemma RefuseSettles(s: Sys, t: nat, item: Item, reason: Reason)
    ensures Settled(Refuse(s, t, item, reason)) == Settled(s) + multiset{Name(item)}
  {
    EventAdded(s.events, RejectEvent(Name(item), reason));
  }

  lemma RefuseKeeps(s: Sys, t: nat, reason: Reason)
    requires Inv(s) && t in s.threads && (s.threads[t].Arrived? || s.threads[t].Cleared?)
    ensures Inv(Refuse(s, t, s.threads[t].item, reason))
  {
    var item := s.threads[t].item;
    forall id ensures BalancedAt(Refuse(s, t, item, reason), id) {
      assert BalancedAt(s, id);
      RefuseBalancedAt(s, t, item, reason, id);
    }
  }

  lemma AdvanceBalancedAt(s: Sys, t: nat, th: Thread, id: string)
    requires BalancedAt(s, id) && t in s.threads && HoldThread(th) == HoldThread(s.threads[t])
    ensures BalancedAt(s.(threads := s.threads[t := th]), id)
  {
    hide Sum, HoldThread;
    PutThread(s, t, th, Pending(id));
    PutThread(s, t, th, Claim(id));
  }

  /** A thread moves on without taking or giving up anything, whatever happens to the cache. */
  lemma {:induction false} AdvanceKeeps(s: Sys, s': Sys, t: nat, th: Thread)
    requires Inv(s) && t in s.threads && Plain(th) && HoldThread(th) == HoldThread(s.threads[t])
    requires s' == s.(threads := s.threads[t := th], seen := s'.seen, passed := s'.passed)
    ensures Inv(s')
  {
    var s1 := s.(threads := s.threads[t := th]);
    forall id ensures BalancedAt(s1, id) {
      assert BalancedAt(s, id);
      AdvanceBalancedAt(s, t, th, id);
    }
    SeenChangeKeeps(s1, s');
  }

  lemma SeenChangeKeeps(s: Sys, s': Sys)
    requires Inv(s) && s' == s.(seen := s'.seen, passed := s'.passed)
    ensures Inv(s')
  {
    SameFlight(s, s');
    forall id ensures BalancedAt(s', id) {
      assert BalancedAt(s, id);
    }
  }

  lemma CheckKeeps(s: Sys, cfg: Config, t: nat, now: int)
    requires Inv(s)
    ensures Inv(CheckStep(s, cfg, t, now))
  {
    if t in s.threads && s.threads[t].Arrived? {
      var Arrived(item, keys) := s.threads[t];
      var s1 := s.(seen := SeenRuns.LookUp(s.seen, keys, now).0);
      SeenChangeKeeps(s, s1);
      if item.Incoming? && IsStale(cfg, item.msg, now) {
        RefuseKeeps(s, t, Stale);
      } else if SeenRuns.LookUp(s.seen, keys, now).1 {
        RefuseKeeps(s1, t, Duplicate);
      } else {
        AdvanceKeeps(s, CheckStep(s, cfg, t, now), t, if cfg.markAfterHandler then Cleared(item, keys, now) else Unmarked(item, keys, now));
      }
    }
  }

  lemma MarkStepKeeps(s: Sys, cfg: Config, t: nat, now: int)
    requires Inv(s)
    ensures Inv(MarkStep(s, cfg, t, now))
  {
    if t in s.threads && s.threads[t].Unmarked? {
      var Unmarked(item, keys, at) := s.threads[t];
      AdvanceKeeps(s, MarkStep(s, cfg, t, now), t, Cleared(item, keys, at));
    }
  }

  function Acquired(s: Sys, cfg: Config, t: nat, now: int): Sys
    requires t in s.threads && s.threads[t].Cleared?
  {
    var Cleared(item, keys, _) := s.threads[t];
    s.(locks := s.locks[Name(item) := now + cfg.lockTtl], threads := s.threads[t := Locked(item, keys)])
  }

  lemma AcquireBalancedAt(s: Sys, cfg: Config, t: nat, now: int, id: string)
    requires BalancedAt(s, id) && t in s.threads && s.threads[t].Cleared? && !s.threads[t].item.Light?
    requires Name(s.threads[t].item) !in s.locks
    ensures BalancedAt(Acquired(s, cfg, t, now), id)
  {
    hide Sum;
    var Cleared(item, keys, _) := s.threads[t];
    var th := Locked(item, keys);
    PutThread(s, t, th, Pending(id));
    PutThread(s, t, th, Claim(id));
    SameFlight(s.(threads := s.threads[t := th]), Acquired(s, cfg, t, now));
  }

  lemma AcquireKeeps(s: Sys, cfg: Config, t: nat, now: int)
    requires Inv(s) && t in s.threads && s.threads[t].Cleared? && !s.threads[t].item.Light?
    requires Name(s.threads[t].item) !in s.locks
    ensures Inv(Acquired(s, cfg, t, now))
  {
    forall id ensures BalancedAt(Acquired(s, cfg, t, now), id) {
      assert BalancedAt(s, id);
      AcquireBalancedAt(s, cfg, t, now, id);
    }
  }

  lemma {:induction false} GateKeeps(s: Sys, cfg: Config, t: nat, now: int, verdict: Option<string>)
    requires Inv(s) && Timely(s, Gate(t, now, verdict))
    ensures Inv(GateStep(s, cfg, t, now, verdict))
  {
    if t in s.threads && s.threads[t].Cleared? {
      var Cleared(item, keys, _) := s.threads[t];
      if item.Light? {
        AdvanceKeeps(s, GateStep(s, cfg, t, now, verdict), t, Locked(item, keys));
      } else if item.Incoming? && cfg.dropSelfSent && cfg.botRobotCode != "" && item.msg.senderID == cfg.botRobotCode {
        RefuseKeeps(s, t, SelfSent);
      } else if item.Incoming? && verdict.Some? {
        RefuseKeeps(s, t, Refused(verdict.value));
      } else if L.Held(s.locks, Name(item), now) {
        RefuseKeeps(s, t, LockContention);
      } else {
        AcquireKeeps(s, cfg, t, now);
      }
    }
  }

  lemma ToQueueBalancedAt(s: Sys, t: nat, scope: string, q: Q.Queue, id: string)
    requires BalancedAt(s, id) && t in s.threads
    requires HoldQueue(q) == (if scope in s.queues then HoldQueue(s.queues[scope]) else multiset{}) + HoldThread(s.threads[t])
    ensures BalancedAt(s.(queues := s.queues[scope := q], threads := s.threads - {t}), id)
  {
    hide Sum, HoldQueue, HoldThread;
    var s1 := s.(threads := s.threads - {t});
    DropThread(s, t, Pending(id));
    DropThread(s, t, Claim(id));
    PutQueue(s1, scope, q, Pending(id));
    PutQueue(s1, scope, q, Claim(id));
  }

  /** A thread ends and everything it held goes to a queue. */
  lemma {:induction false} ToQueueKeeps(s: Sys, t: nat, scope: string, q: Q.Queue, serialOnly: bool)
    requires Inv(s) && t in s.threads && QueueReady(q)
    requires HoldQueue(q) == HoldQueue(QueueFor(s, scope, serialOnly)) + HoldThread(s.threads[t])
    ensures Inv(s.(queues := s.queues[scope := q], threads := s.threads - {t}))
  {
    NewQueueHolds(serialOnly);
    var s' := s.(queues := s.queues[scope := q], threads := s.threads - {t});
    forall id ensures BalancedAt(s', id) {
      assert BalancedAt(s, id);
      ToQueueBalancedAt(s, t, scope, q, id);
    }
  }

  lemma NewQueueHolds(serialOnly: bool)
    ensures HoldQueue(Q.NewQueue(serialOnly)) == multiset{} && QueueReady(Q.NewQueue(serialOnly))
  {
  }

  lemma QueueChangeBalancedAt(s: Sys, scope: string, q: Q.Queue, id: string)
    requires BalancedAt(s, id)
    requires HoldQueue(q) == if scope in s.queues then HoldQueue(s.queues[scope]) else multiset{}
    ensures BalancedAt(s.(queues := s.queues[scope := q]), id)
  {
    hide Sum, HoldQueue;
    PutQueue(s, scope, q, Pending(id));
    PutQueue(s, scope, q, Claim(id));
  }

  /** A queue changes without gaining or losing anything. */
  lemma QueueChangeKeeps(s: Sys, scope: string, q: Q.Queue)
    requires Inv(s) && QueueReady(q)
    requires HoldQueue(q) == if scope in s.queues then HoldQueue(s.queues[scope]) else multiset{}
    ensures Inv(s.(queues := s.queues[scope := q]))
  {
    hide HoldQueue;
    var s' := s.(queues := s.queues[scope := q]);
    forall id ensures BalancedAt(s', id) {
      assert BalancedAt(s, id);
      QueueChangeBalancedAt(s, scope, q, id);
    }
  }

  lemma MediaChangeBalancedAt(s: Sys, m: M.Media, id: string)
    requires BalancedAt(s, id) && HoldMedia(m) == HoldMedia(s.media)
    ensures BalancedAt(s.(media := m), id)
  {
    hide Sum, HoldMedia;
    PutMedia(s, m, Pending(id));
    PutMedia(s, m, Claim(id));
  }

  lemma MediaChangeKeeps(s: Sys, m: M.Media)
    requires Inv(s) && MediaReady(m) && HoldMedia(m) == HoldMedia(s.media)
    ensures Inv(s.(media := m))
  {
    hide HoldMedia;
    var s' := s.(media := m);
    forall id ensures BalancedAt(s', id) {
      assert BalancedAt(s, id);
      MediaChangeBalancedAt(s, m, id);
    }
  }

  lemma {:induction false} ToMediaBalancedAt(s: Sys, t: nat, m: M.Media, id: string)
    requires BalancedAt(s, id) && t in s.threads && HoldMedia(m) == HoldMedia(s.media) + HoldThread(s.threads[t])
    ensures BalancedAt(s.(media := m, threads := s.threads - {t}), id)
  {
    hide Sum, HoldMedia, HoldThread;
    var s1 := s.(threads := s.threads - {t});
    DropThread(s, t, Pending(id));
    DropThread(s, t, Claim(id));
    PutMedia(s1, m, Pending(id));
    PutMedia(s1, m, Claim(id));
  }

  lemma ToMediaKeeps(s: Sys, t: nat, m: M.Media)
    requires Inv(s) && t in s.threads && MediaReady(m) && HoldMedia(m) == HoldMedia(s.media) + HoldThread(s.threads[t])
    ensures Inv(s.(media := m, threads := s.threads - {t}))
  {
    hide HoldMedia, HoldThread;
    var s' := s.(media := m, threads := s.threads - {t});
    forall id ensures BalancedAt(s', id) {
      assert BalancedAt(s, id);
      ToMediaBalancedAt(s, t, m, id);
    }
  }

  lemma HandleBalancedAt(s: Sys, t: nat, n: nat, act: Activity, id: string)
    requires BalancedAt(s, id) && t in s.threads && Goroutine(n) !in s.acts && HoldActivity(act) == HoldThread(s.threads[t])
    ensures BalancedAt(s.(threads := s.threads - {t}, acts := s.acts[Goroutine(n) := act]), id)
  {
    hide Sum, HoldActivity, HoldThread;
    var s1 := s.(threads := s.threads - {t});
    DropThread(s, t, Pending(id));
    DropThread(s, t, Claim(id));
    PutActivity(s1, Goroutine(n), act, Pending(id));
    PutActivity(s1, Goroutine(n), act, Claim(id));
  }

  lemma HandleKeeps(s: Sys, t: nat, n: nat, call: Call)
    requires Inv(s) && t in s.threads && Goroutine(n) !in s.acts && HoldCall(call) == HoldThread(s.threads[t])
    ensures Inv(Handle(s, t, n, call))
  {
    assert HoldActivity(Handling(call)) == HoldThread(s.threads[t]);
    hide HoldActivity, HoldThread;
    var s' := Handle(s, t, n, call);
    forall id ensures BalancedAt(s', id) {
      assert BalancedAt(s, id);
      HandleBalancedAt(s, t, n, Handling(call), id);
    }
  }

  lemma {:induction false} RunStepKeeps(s: Sys, t: nat, scope: string, work: Q.Work, stopped: bool)
    requires Inv(s) && t in s.threads && HoldCall(CallOfWork(work)) == HoldThread(s.threads[t])
    ensures Inv(RunStep(s, t, scope, work, stopped))
  {
    var q0 := QueueFor(s, scope, true);
    var q := Q.FlushBuffered(q0, stopped);
    NewQueueHolds(true);
    assert QueueReady(q0);
    FlushHolds(q0, stopped);
    QueueChangeKeeps(s, scope, q);
    var s1 := s.(queues := s.queues[scope := q]);
    AdvanceKeeps(s1, RunStep(s, t, scope, work, stopped), t, Sending(scope, work));
  }

  lemma {:induction false} BatchKeeps(s: Sys, cfg: Config, t: nat, msg: Message, stopped: bool)
    requires Inv(s) && t in s.threads && HoldThread(s.threads[t]) == HoldIDs([msg.msgID])
    ensures Inv(BatchStep(s, cfg, t, msg, stopped))
  {
    var q0 := QueueFor(s, msg.conversationID, false);
    NewQueueHolds(false);
    assert QueueReady(q0);
    PushHolds(q0, cfg.queue, msg, BatchHandler, stopped);
    ToQueueKeeps(s, t, msg.conversationID, Q.Push(q0, cfg.queue, msg, Some(BatchHandler), stopped), false);
  }

  lemma {:induction false} CollectKeeps(s: Sys, cfg: Config, t: nat, msg: Message, stops: M.TimerID -> bool)
    requires Inv(s) && t in s.threads && HoldThread(s.threads[t]) == HoldIDs([msg.msgID]) && msg.batchedSources == []
    ensures Inv(CollectStep(s, cfg, t, msg, stops))
  {
    MediaPushHolds(s.media, cfg.media, msg, cfg.hash, stops);
    ToMediaKeeps(s, t, M.Push(s.media, cfg.media, msg, cfg.hash, stops));
  }

  lemma {:induction false} RouteMessageKeeps(s: Sys, cfg: Config, t: nat, n: nat, msg: Message, batch: bool, stopped: bool, stops: M.TimerID -> bool)
    requires Inv(s) && t in s.threads && Goroutine(n) !in s.acts
    requires HoldThread(s.threads[t]) == HoldIDs([msg.msgID]) && msg.batchedSources == []
    ensures Inv(RouteMessage(s, cfg, t, n, msg, batch, stopped, stops))
  {
    if cfg.queueEnabled && batch {
      BatchKeeps(s, cfg, t, msg, stopped);
    } else if cfg.queueEnabled {
      RunStepKeeps(s, t, msg.conversationID, Q.OneMessage(msg), stopped);
    } else if M.IsCompatible(cfg.media, msg) {
      CollectKeeps(s, cfg, t, msg, stops);
    } else {
      HandleKeeps(s, t, n, CallOn([msg.msgID]));
    }
  }

  lemma RouteActionKeeps(s: Sys, cfg: Config, t: nat, n: nat, eventID: string, scope: string, extra: seq<string>, stopped: bool)
    requires Inv(s) && t in s.threads && Goroutine(n) !in s.acts
    requires HoldThread(s.threads[t]) == HoldIDs([eventID])
    ensures Inv(RouteAction(s, cfg, t, n, eventID, scope, extra, stopped))
  {
    if cfg.queueEnabled {
      RunStepKeeps(s, t, scope, Q.OneAction(eventID, extra), stopped);
    } else {
      HandleKeeps(s, t, n, CallOnAction(eventID, extra));
    }
  }

  /** What a locked push holds, and that it claims no sources. */
  lemma {:induction false} LockedHolds(s: Sys, t: nat)
    requires Inv(s) && t in s.threads && s.threads[t].Locked?
    ensures var Locked(item, keys) := s.threads[t];
      && (item.Light? ==> HoldThread(s.threads[t]) == HoldCall(Call([item.lightID], [], [keys])))
      && (!item.Light? ==> HoldThread(s.threads[t]) == HoldIDs([Name(item)]))
      && (item.Incoming? ==> item.msg.batchedSources == [])
  {
    var Locked(item, keys) := s.threads[t];
    HoldOneID(Name(item));
    assert Plain(s.threads[t]);
    hide Inv;
    if item.Light? {
      assert ClaimAll([]) == multiset{};
    }
  }

  lemma RouteIs(s: Sys, cfg: Config, t: nat, n: nat, batch: bool, stopped: bool, stops: M.TimerID -> bool)
    ensures RouteStep(s, cfg, t, n, batch, stopped, stops) ==
      if t !in s.threads || !s.threads[t].Locked? || Goroutine(n) in s.acts then s
      else match s.threads[t].item
        case Light(lightID) => Handle(s, t, n, Call([lightID], [], [s.threads[t].keys]))
        case Action(eventID, scope, extra) => RouteAction(s, cfg, t, n, eventID, scope, extra, stopped)
        case Incoming(msg) => RouteMessage(s, cfg, t, n, msg, batch, stopped, stops)
  {
    hide Handle, RouteAction, RouteMessage;
  }

  lemma {:induction false} RouteKeeps(s: Sys, cfg: Config, t: nat, n: nat, batch: bool, stopped: bool, stops: M.TimerID -> bool)
    requires Inv(s)
    ensures Inv(RouteStep(s, cfg, t, n, batch, stopped, stops))
  {
    RouteIs(s, cfg, t, n, batch, stopped, stops);
    if t in s.threads && s.threads[t].Locked? && Goroutine(n) !in s.acts {
      var Locked(item, keys) := s.threads[t];
      LockedHolds(s, t);
      NameIs(item);
      hide *;
      match item
      case Light(lightID) => HandleKeeps(s, t, n, Call([lightID], [], [keys]));
      case Action(eventID, scope, extra) => RouteActionKeeps(s, cfg, t, n, eventID, scope, extra, stopped);
      case Incoming(msg) => RouteMessageKeeps(s, cfg, t, n, msg, batch, stopped, stops);
    }
  }

  lemma NameIs(item: Item)
    ensures Name(item) == match item case Incoming(msg) => msg.msgID case Action(eventID, _, _) => eventID case Light(lightID) => lightID
  {
  }

  lemma SendStepKeeps(s: Sys, t: nat)
    requires Inv(s)
    ensures Inv(SendStep(s, t))
  {
    hide Inv, HoldQueue, QueueReady, Q.Send, HoldCall, CallOfWork;
    if t in s.threads && s.threads[t].Sending? && s.threads[t].scope in s.queues {
      var Sending(scope, work) := s.threads[t];
      SendingKeeps(s, t, scope, work);
      assert SendStep(s, t) == s.(queues := s.queues[scope := Q.Send(s.queues[scope], work)], threads := s.threads - {t});
    }
  }

  lemma SendingKeeps(s: Sys, t: nat, scope: string, work: Q.Work)
    requires Inv(s) && t in s.threads && s.threads[t] == Sending(scope, work) && scope in s.queues
    ensures Inv(s.(queues := s.queues[scope := Q.Send(s.queues[scope], work)], threads := s.threads - {t}))
  {
    InvReady(s, scope);
    hide Inv, HoldQueue, QueueReady, Q.Send, HoldCall, CallOfWork;
    SendHolds(s.queues[scope], work);
    ToQueueKeeps(s, t, scope, Q.Send(s.queues[scope], work), true);
  }

  lemma InvReady(s: Sys, scope: string)
    requires Inv(s) && scope in s.queues
    ensures QueueReady(s.queues[scope])
  {
    hide Balanced, MediaReady, QueueReady;
  }

  lemma QueueTimerKeeps(s: Sys, scope: string, timer: Q.TimerID)
    requires Inv(s) && scope in s.queues
    ensures Inv(s.(queues := s.queues[scope := Q.Fire(s.queues[scope], timer)]))
  {
    FireHolds(s.queues[scope], timer);
    QueueChangeKeeps(s, scope, Q.Fire(s.queues[scope], timer));
  }

  lemma QueueFlushKeeps(s: Sys, scope: string, stopped: bool)
    requires Inv(s) && scope in s.queues
    ensures Inv(s.(queues := s.queues[scope := Q.FlushBuffered(s.queues[scope], stopped)]))
  {
    FlushHolds(s.queues[scope], stopped);
    QueueChangeKeeps(s, scope, Q.FlushBuffered(s.queues[scope], stopped));
  }

  lemma {:induction false} TakeBalancedAt(s: Sys, scope: string, q: Q.Queue, act: Activity, id: string)
    requires BalancedAt(s, id) && scope in s.queues && Worker(scope) !in s.acts
    requires HoldQueue(s.queues[scope]) == HoldActivity(act) + HoldQueue(q)
    ensures BalancedAt(s.(queues := s.queues[scope := q], acts := s.acts[Worker(scope) := act]), id)
  {
    hide Sum, HoldQueue, HoldActivity;
    var s1 := s.(queues := s.queues[scope := q]);
    PutQueue(s, scope, q, Pending(id));
    PutQueue(s, scope, q, Claim(id));
    PutActivity(s1, Worker(scope), act, Pending(id));
    PutActivity(s1, Worker(scope), act, Claim(id));
  }

  lemma TakeKeepsAll(s: Sys, scope: string, q: Q.Queue, act: Activity)
    requires Inv(s) && scope in s.queues && Worker(scope) !in s.acts
    requires HoldQueue(s.queues[scope]) == HoldActivity(act) + HoldQueue(q) && QueueReady(q)
    ensures Inv(s.(queues := s.queues[scope := q], acts := s.acts[Worker(scope) := act]))
  {
    hide HoldQueue, HoldActivity;
    var s' := s.(queues := s.queues[scope := q], acts := s.acts[Worker(scope) := act]);
    forall id ensures BalancedAt(s', id) {
      assert BalancedAt(s, id);
      TakeBalancedAt(s, scope, q, act, id);
    }
  }

  lemma TakeKeeps(s: Sys, scope: string)
    requires Inv(s)
    ensures Inv(TakeStep(s, scope))
  {
    if scope in s.queues && s.queues[scope].tasks != [] && Worker(scope) !in s.acts {
      var q := s.queues[scope];
      var q' := q.(tasks := q.tasks[1..]);
      var act := Handling(CallOfTask(q.tasks[0]));
      TakeHolds(q);
      assert HoldQueue(q) == HoldActivity(act) + HoldQueue(q');
      TakeKeepsAll(s, scope, q', act);
    }
  }

  lemma BeginBalancedAt(s: Sys, m: M.Media, n: nat, act: Activity, id: string)
    requires BalancedAt(s, id) && Goroutine(n) !in s.acts
    requires HoldMedia(s.media) == HoldActivity(act) + HoldMedia(m)
    ensures BalancedAt(s.(media := m, acts := s.acts[Goroutine(n) := act]), id)
  {
    hide Sum, HoldMedia, HoldActivity;
    var s1 := s.(media := m);
    PutMedia(s, m, Pending(id));
    PutMedia(s, m, Claim(id));
    PutActivity(s1, Goroutine(n), act, Pending(id));
    PutActivity(s1, Goroutine(n), act, Claim(id));
  }

  lemma BeginKeeps(s: Sys, i: nat, n: nat)
    requires Inv(s)
    ensures Inv(BeginStep(s, i, n))
  {
    if i < |s.media.launched| && Goroutine(n) !in s.acts {
      var m := s.media.(launched := s.media.launched[..i] + s.media.launched[i + 1..]);
      var act := Handling(CallOfMedia(s.media.launched[i]));
      HoldLaunchedTake(s.media.launched, i);
      assert HoldMedia(s.media) == HoldActivity(act) + HoldMedia(m);
      forall id ensures BalancedAt(BeginStep(s, i, n), id) {
        assert BalancedAt(s, id);
        BeginBalancedAt(s, m, n, act, id);
      }
    }
  }

  lemma ReturnBalancedAt(s: Sys, cfg: Config, a: ActivityID, ok: bool, now: int, id: string)
    requires BalancedAt(s, id) && a in s.acts && s.acts[a].Handling?
    ensures BalancedAt(ReturnStep(s, cfg, a, ok, now), id)
  {
    var s' := ReturnStep(s, cfg, a, ok, now);
    var call := s.acts[a].call;
    HandlingCounts(call, id);
    ClosingCounts(call.locks, s'.acts[a].marks, id);
    hide Sum, HoldActivity;
    PutActivity(s, a, s'.acts[a], Pending(id));
    PutActivity(s, a, s'.acts[a], Claim(id));
    SameFlight(s.(acts := s.acts[a := s'.acts[a]]), s');
  }

  lemma HandlingCounts(call: Call, id: string)
    ensures HoldActivity(Handling(call))[Pending(id)] == multiset(call.names)[id]
    ensures HoldActivity(Handling(call))[Claim(id)] == multiset(call.locks)[id]
  {
    PendingCounts(call.names, id);
    ClaimCounts(call.locks, id);
  }

  lemma ClosingCounts(locks: seq<string>, marks: seq<seq<string>>, id: string)
    ensures HoldActivity(Closing(locks, marks))[Pending(id)] == 0
    ensures HoldActivity(Closing(locks, marks))[Claim(id)] == multiset(locks)[id]
  {
    ClaimCounts(locks, id);
  }

  lemma ReturnKeeps(s: Sys, cfg: Config, a: ActivityID, ok: bool, now: int)
    requires Inv(s)
    ensures Inv(ReturnStep(s, cfg, a, ok, now))
  {
    if a in s.acts && s.acts[a].Handling? {
      forall id ensures BalancedAt(ReturnStep(s, cfg, a, ok, now), id) {
        assert BalancedAt(s, id);
        ReturnBalancedAt(s, cfg, a, ok, now, id);
      }
    }
  }

  lemma ReleaseBalancedAt(s: Sys, cfg: Config, a: ActivityID, now: int, id: string)
    requires BalancedAt(s, id) && a in s.acts && s.acts[a].Closing? && s.acts[a].locks != []
    ensures BalancedAt(CloseStep(s, cfg, a, now), id)
  {
    var Closing(locks, marks) := s.acts[a];
    var act := Closing(locks[1..], marks);
    assert HoldActivity(s.acts[a]) == multiset{Claim(locks[0])} + HoldActivity(act);
    hide Sum, HoldActivity;
    PutActivity(s, a, act, Pending(id));
    PutActivity(s, a, act, Claim(id));
    SameFlight(s.(acts := s.acts[a := act]), CloseStep(s, cfg, a, now));
  }

  lemma ReleaseKeeps(s: Sys, cfg: Config, a: ActivityID, now: int)
    requires Inv(s) && a in s.acts && s.acts[a].Closing? && s.acts[a].locks != []
    ensures Inv(CloseStep(s, cfg, a, now))
  {
    forall id ensures BalancedAt(CloseStep(s, cfg, a, now), id) {
      assert BalancedAt(s, id);
      ReleaseBalancedAt(s, cfg, a, now, id);
    }
  }

  lemma MarkGroupBalancedAt(s: Sys, a: ActivityID, act: Activity, id: string)
    requires BalancedAt(s, id) && a in s.acts && HoldActivity(act) == HoldActivity(s.acts[a])
    ensures BalancedAt(s.(acts := s.acts[a := act]), id)
  {
    hide Sum;
    PutActivity(s, a, act, Pending(id));
    PutActivity(s, a, act, Claim(id));
  }

  lemma MarkGroupKeeps(s: Sys, cfg: Config, a: ActivityID, now: int)
    requires Inv(s) && a in s.acts && s.acts[a].Closing? && s.acts[a].locks == [] && s.acts[a].marks != []
    ensures Inv(CloseStep(s, cfg, a, now))
  {
    var act := Closing([], s.acts[a].marks[1..]);
    var s1 := s.(acts := s.acts[a := act]);
    forall id ensures BalancedAt(s1, id) {
      assert BalancedAt(s, id);
      MarkGroupBalancedAt(s, a, act, id);
    }
    SeenChangeKeeps(s1, CloseStep(s, cfg, a, now));
  }

  lemma EndBalancedAt(s: Sys, a: ActivityID, id: string)
    requires BalancedAt(s, id) && a in s.acts && HoldActivity(s.acts[a]) == multiset{}
    ensures BalancedAt(s.(acts := s.acts - {a}), id)
  {
    hide Sum;
    DropActivity(s, a, Pending(id));
    DropActivity(s, a, Claim(id));
  }

  lemma CloseKeeps(s: Sys, cfg: Config, a: ActivityID, now: int)
    requires Inv(s)
    ensures Inv(CloseStep(s, cfg, a, now))
  {
    if a in s.acts && s.acts[a].Closing? {
      if s.acts[a].locks != [] {
        ReleaseKeeps(s, cfg, a, now);
      } else if s.acts[a].marks != [] {
        MarkGroupKeeps(s, cfg, a, now);
      } else {
        forall id ensures BalancedAt(CloseStep(s, cfg, a, now), id) {
          assert BalancedAt(s, id);
          EndBalancedAt(s, a, id);
        }
      }
    }
  }

  lemma SweepLocksKeeps(s: Sys, now: int)
    requires Inv(s) && Timely(s, SweepLocks(now))
    ensures Inv(s.(locks := L.Unexpired(s.locks, now)))
  {
    assert L.Unexpired(s.locks, now) == s.locks;
  }

  lemma {:induction false} MediaTimerKeeps(s: Sys, timer: M.TimerID, stops: M.TimerID -> bool)
    requires Inv(s)
    ensures Inv(s.(media := M.Fire(s.media, timer, stops)))
  {
    hide Balanced, MediaReady, HoldMedia, M.Fire;
    MediaFireHolds(s.media, timer, stops);
    MediaChangeKeeps(s, M.Fire(s.media, timer, stops));
  }

  lemma MediaFlushKeeps(s: Sys, key: string, stops: M.TimerID -> bool)
    requires Inv(s)
    ensures Inv(s.(media := M.FlushBucket(s.media, key, stops)))
  {
    hide Balanced, MediaReady, HoldMedia, M.FlushBucket;
    FlushBucketHolds(s.media, key, stops);
    MediaChangeKeeps(s, M.FlushBucket(s.media, key, stops));
  }

  lemma {:induction false} NextKeeps(s: Sys, cfg: Config, step: Step)
    requires Inv(s) && Timely(s, step)
    ensures Inv(Next(s, cfg, step))
  {
    hide Inv, Arrive, CheckStep, MarkStep, GateStep, RouteStep, SendStep, TakeStep, BeginStep, ReturnStep, CloseStep, MessageKeys, Q.Fire, Q.FlushBuffered, M.Fire, M.FlushBucket;
    match step
    case ArriveMessage(t, protoID, msg) =>
      if msg.batchedSources == [] {
        ArriveKeeps(s, t, Incoming(msg), MessageKeys(cfg, protoID, msg));
      }
    case ArriveAction(t, eventID, scope, extra) => ArriveKeeps(s, t, Action(eventID, scope, extra), [eventID] + extra);
    case ArriveLight(t, lightID) => ArriveKeeps(s, t, Light(lightID), [lightID]);
    case Check(t, now) => CheckKeeps(s, cfg, t, now);
    case MarkSeen(t, now) => MarkStepKeeps(s, cfg, t, now);
    case Gate(t, now, verdict) => GateKeeps(s, cfg, t, now, verdict);
    case Route(t, n, batch, stopped, stops) => RouteKeeps(s, cfg, t, n, batch, stopped, stops);
    case SendTask(t) => SendStepKeeps(s, t);
    case QueueTimer(scope, timer) =>
      if scope in s.queues && timer in s.queues[scope].armed {
        QueueTimerKeeps(s, scope, timer);
      }
    case QueueFlush(scope, stopped) =>
      if scope in s.queues {
        QueueFlushKeeps(s, scope, stopped);
      }
    case MediaTimer(timer, stops) =>
      MediaTimerKeeps(s, timer, stops);
    case MediaFlush(key, stops) =>
      MediaFlushKeeps(s, key, stops);
    case Begin(i, n) => BeginKeeps(s, i, n);
    case Take(scope) => TakeKeeps(s, scope);
    case Return(a, ok, now) => ReturnKeeps(s, cfg, a, ok, now);
    case Close(a, now) => CloseKeeps(s, cfg, a, now);
    case SweepSeen(now) => SeenChangeKeeps(s, Next(s, cfg, step));
    case SweepLocks(now) => SweepLocksKeeps(s, now);
  }

  // ---------- the whole-run theorems ----------

  lemma {:induction false} RunKeeps(s: Sys, cfg: Config, steps: seq<Step>)
    requires Inv(s) && TimelyRun(s, cfg, steps)
    ensures Inv(Run(s, cfg, steps))
    decreases |steps|
  {
    if steps != [] {
      NextKeeps(s, cfg, steps[0]);
      RunKeeps(Next(s, cfg, steps[0]), cfg, steps[1..]);
    }
  }

  /** Conservation and lock ownership, in every state of every run in which no claim outlives the
      lock TTL: every push is in flight in one place or settled once, and the held locks are
      exactly the claims in flight. */
  lemma PipelineBalanced(cfg: Config, steps: seq<Step>)
    requires TimelyRun(Idle, cfg, steps)
    ensures Balanced(Run(Idle, cfg, steps))
  {
    RunKeeps(Idle, cfg, steps);
  }

  ghost predicate Claims(act: Activity, id: string) {
    HoldActivity(act)[Claim(id)] > 0
  }

  /** Two different activities never hold a claim on the same id. */
  lemma Exclusion(s: Sys, a: ActivityID, b: ActivityID, id: string)
    requires Balanced(s) && a in s.acts && b in s.acts && a != b
    requires Claims(s.acts[a], id)
    ensures !Claims(s.acts[b], id)
  {
    assert BalancedAt(s, id);
    SumRemove(s.acts, a, HoldActivity);
    SumRemove(s.acts - {a}, b, HoldActivity);
  }

  /** No two handler calls overlap on an id, in any run in which no claim outlives the TTL; and no
      call covers an id twice. */
  lemma NoOverlap(cfg: Config, steps: seq<Step>, a: ActivityID, b: ActivityID, id: string)
    requires TimelyRun(Idle, cfg, steps)
    requires var acts := Run(Idle, cfg, steps).acts;
      a in acts && b in acts && acts[a].Handling? && acts[b].Handling?
      && id in acts[a].call.locks && id in acts[b].call.locks
    ensures a == b && multiset(Run(Idle, cfg, steps).acts[a].call.locks)[id] == 1
  {
    var s := Run(Idle, cfg, steps);
    PipelineBalanced(cfg, steps);
    ClaimCounts(s.acts[a].call.locks, id);
    ClaimCounts(s.acts[b].call.locks, id);
    PendingCounts(s.acts[a].call.names, id);
    PendingCounts(s.acts[b].call.names, id);
    if a != b {
      Exclusion(s, a, b, id);
    }
    assert BalancedAt(s, id);
    SumRemove(s.acts, a, HoldActivity);
  }

  /** Nothing leaks: when nothing is in flight no lock is held and every push has been settled. */
  lemma NoLeak(cfg: Config, steps: seq<Step>)
    requires TimelyRun(Idle, cfg, steps)
    ensures var s := Run(Idle, cfg, steps);
      InFlight(s) == multiset{} ==> s.locks == map[] && Settled(s) == s.arrived
  {
    var s := Run(Idle, cfg, steps);
    PipelineBalanced(cfg, steps);
    if InFlight(s) == multiset{} {
      forall id ensures id !in s.locks && Settled(s)[id] == s.arrived[id] {
        assert BalancedAt(s, id);
      }
    }
  }
}
