/** The inbound pipeline as a step machine, one step per critical section, so that any number of
    pushes, workers, timers and media goroutines interleave freely.

    A push is a thread that arrives, checks the dedup cache, marks it (unless marking waits for the
    handler), passes the gate and takes the processing lock, and is routed to a queue, a media
    bucket or straight to the handler. A handler call is an activity that returns, then releases
    its locks and marks its keys one critical section at a time. */
module Pipeline {
  import opened Options
  import opened Messages
  import opened SeenRuns
  import Recency
  import Q = QueueSpec
  import M = MediaSpec
  import L = ProcessingLocks

  datatype Config = Config(
    markAfterHandler: bool, dropSelfSent: bool, botRobotCode: string, staleWindow: int,
    seenTtl: int, seenMax: nat, lockTtl: int,
    queueEnabled: bool, queue: Q.Settings, media: M.MediaConfig,
    hash: string -> string, fingerprint: Message -> string)

  datatype Reason = Stale | Duplicate | SelfSent | Refused(why: string) | LockContention

  datatype RejectEvent = RejectEvent(messageID: string, reason: Reason)

  /** What is pushed: a message, a card action, or a light event, which takes no lock. */
  datatype Item = Incoming(msg: Message) | Action(eventID: string, scope: string, extra: seq<string>) | Light(lightID: string)

  function Name(item: Item): string {
    match item
    case Incoming(msg) => msg.msgID
    case Action(eventID, _, _) => eventID
    case Light(lightID) => lightID
  }

  /** Delivery id, message id, and the content fingerprint when there is text and a timestamp. */
  function MessageKeys(cfg: Config, protoID: string, msg: Message): seq<string> {
    [protoID, msg.msgID] + if msg.text != "" && msg.createAt > 0 then [cfg.fingerprint(msg)] else []
  }

  predicate IsStale(cfg: Config, msg: Message, now: int) {
    msg.createAt > 0 && now - msg.createAt > cfg.staleWindow
  }

  /** `at` is when the push checked the cache. */
  datatype Thread =
    | Arrived(item: Item, keys: seq<string>)
    | Unmarked(item: Item, keys: seq<string>, at: int)
    | Cleared(item: Item, keys: seq<string>, at: int)
    | Locked(item: Item, keys: seq<string>)
    | Sending(scope: string, work: Q.Work)

  /** What a handler call stands for, the locks it releases, and the key groups it marks when the
      cache is marked after the handler. */
  datatype Call = Call(names: seq<string>, locks: seq<string>, marks: seq<seq<string>>)

  datatype Activity = Handling(call: Call) | Closing(locks: seq<string>, marks: seq<seq<string>>)

  datatype ActivityID = Worker(scope: string) | Goroutine(n: nat)

  function Singles(ids: seq<string>): seq<seq<string>> {
    if ids == [] then [] else [[ids[0]]] + Singles(ids[1..])
  }

  function CallOn(ids: seq<string>): Call {
    Call(ids, ids, Singles(ids))
  }

  function CallOnAction(eventID: string, extra: seq<string>): Call {
    Call([eventID], [eventID], [[eventID] + extra])
  }

  function CallOfWork(work: Q.Work): Call {
    match work
    case OneMessage(msg) => CallOn([msg.msgID])
    case OneAction(eventID, extra) => CallOnAction(eventID, extra)
    case Signal => Call([], [], [])
  }

  function CallOfTask(task: Q.Task): Call {
    match task
    case Flush(_, d) => CallOn(d.sourceIDs)
    case Job(work) => CallOfWork(work)
  }

  function CallOfMedia(merged: Message): Call {
    CallOn(IDs(M.SourcesOf(merged)))
  }

  /** `arrived`, `ignored`, `delivered`, `events`, `passed` and `successes` record the run. */
  datatype Sys = Sys(
    seen: Trace, locks: map<string, int>, queues: map<string, Q.Queue>, media: M.Media,
    threads: map<nat, Thread>, acts: map<ActivityID, Activity>,
    arrived: multiset<string>, ignored: multiset<string>, delivered: multiset<string>, events: seq<RejectEvent>,
    passed: seq<Pass>, successes: seq<Success>)

  datatype Pass = Pass(keys: seq<string>, at: int)

  datatype Success = Success(id: string, at: int)

  /** Pending(id): a pushed item with that id is somewhere in the pipeline, not yet rejected or
      handled. Claim(id): someone will release the lock on id. */
  datatype Token = Pending(id: string) | Claim(id: string)

  const Idle := Sys(Start, map[], map[], M.NoMedia, map[], map[], multiset{}, multiset{}, multiset{}, [], [], [])

  datatype Step =
    | ArriveMessage(t: nat, protoID: string, msg: Message)
    | ArriveAction(t: nat, eventID: string, scope: string, extra: seq<string>)
    | ArriveLight(t: nat, lightID: string)
    | Check(t: nat, now: int)
    | MarkSeen(t: nat, now: int)
    | Gate(t: nat, now: int, verdict: Option<string>)
    | Route(t: nat, n: nat, batch: bool, stopped: bool, stops: M.TimerID -> bool)
    | SendTask(t: nat)
    | QueueTimer(scope: string, timer: Q.TimerID)
    | QueueFlush(scope: string, stopped: bool)
    | MediaTimer(mediaTimer: M.TimerID, stops: M.TimerID -> bool)
    | MediaFlush(key: string, stops: M.TimerID -> bool)
    | Begin(i: nat, n: nat)
    | Take(scope: string)
    | Return(a: ActivityID, ok: bool, now: int)
    | Close(a: ActivityID, now: int)
    | SweepSeen(now: int)
    | SweepLocks(now: int)

  function Arrive(s: Sys, t: nat, item: Item, keys: seq<string>): Sys {
    if t in s.threads then s
    else s.(threads := s.threads[t := Arrived(item, keys)], arrived := s.arrived + multiset{Name(item)})
  }

  /** The push ends without being handled: a message raises one event, others end silently. */
  function Refuse(s: Sys, t: nat, item: Item, reason: Reason): Sys {
    var s1 := s.(threads := s.threads - {t});
    match item
    case Incoming(msg) => s1.(events := s.events + [RejectEvent(msg.msgID, reason)])
    case _ => s1.(ignored := s.ignored + multiset{Name(item)})
  }

  function CheckStep(s: Sys, cfg: Config, t: nat, now: int): Sys {
    if t !in s.threads || !s.threads[t].Arrived? then s
    else
      var Arrived(item, keys) := s.threads[t];
      if item.Incoming? && IsStale(cfg, item.msg, now) then Refuse(s, t, item, Stale)
      else
        var (seen, dup) := LookUp(s.seen, keys, now);
        var s1 := s.(seen := seen);
        if dup then Refuse(s1, t, item, Duplicate)
        else s1.(threads := s.threads[t := if cfg.markAfterHandler then Cleared(item, keys, now) else Unmarked(item, keys, now)],
                 passed := s.passed + [Pass(keys, now)])
  }

  function MarkStep(s: Sys, cfg: Config, t: nat, now: int): Sys {
    if t !in s.threads || !s.threads[t].Unmarked? then s
    else
      var Unmarked(item, keys, at) := s.threads[t];
      s.(threads := s.threads[t := Cleared(item, keys, at)], seen := MarkKeys(s.seen, keys, now, cfg.seenTtl, cfg.seenMax))
  }

  /** Self-sent filter and policy verdict (messages only), then the processing lock (not for light
      events). */
  function GateStep(s: Sys, cfg: Config, t: nat, now: int, verdict: Option<string>): Sys {
    if t !in s.threads || !s.threads[t].Cleared? then s
    else
      var Cleared(item, keys, _) := s.threads[t];
      if item.Light? then s.(threads := s.threads[t := Locked(item, keys)])
      else if item.Incoming? && cfg.dropSelfSent && cfg.botRobotCode != "" && item.msg.senderID == cfg.botRobotCode then
        Refuse(s, t, item, SelfSent)
      else if item.Incoming? && verdict.Some? then Refuse(s, t, item, Refused(verdict.value))
      else if L.Held(s.locks, Name(item), now) then Refuse(s, t, item, LockContention)
      else s.(locks := s.locks[Name(item) := now + cfg.lockTtl], threads := s.threads[t := Locked(item, keys)])
  }

  function QueueFor(s: Sys, scope: string, serialOnly: bool): Q.Queue {
    Q.QueueAt(s.queues, scope, serialOnly)
  }

  const BatchHandler: Q.Handler := 0

  /** Run: what is buffered is flushed now, the task is sent in a later step. */
  function RunStep(s: Sys, t: nat, scope: string, work: Q.Work, stopped: bool): Sys {
    s.(queues := s.queues[scope := Q.FlushBuffered(QueueFor(s, scope, true), stopped)],
       threads := s.threads[t := Sending(scope, work)])
  }

  function Handle(s: Sys, t: nat, n: nat, call: Call): Sys {
    s.(threads := s.threads - {t}, acts := s.acts[Goroutine(n) := Handling(call)])
  }

  /** Batch mode: the message joins its conversation's buffer and the push is over. */
  function BatchStep(s: Sys, cfg: Config, t: nat, msg: Message, stopped: bool): Sys {
    var q := Q.Push(QueueFor(s, msg.conversationID, false), cfg.queue, msg, Some(BatchHandler), stopped);
    s.(queues := s.queues[msg.conversationID := q], threads := s.threads - {t})
  }

  function CollectStep(s: Sys, cfg: Config, t: nat, msg: Message, stops: M.TimerID -> bool): Sys {
    s.(media := M.Push(s.media, cfg.media, msg, cfg.hash, stops), threads := s.threads - {t})
  }

  /** Queue if there is one, by batch or one at a time; else the media buckets for media; else the
      handler, called by the push itself. */
  function RouteMessage(s: Sys, cfg: Config, t: nat, n: nat, msg: Message, batch: bool, stopped: bool, stops: M.TimerID -> bool): Sys {
    if cfg.queueEnabled && batch then BatchStep(s, cfg, t, msg, stopped)
    else if cfg.queueEnabled then RunStep(s, t, msg.conversationID, Q.OneMessage(msg), stopped)
    else if M.IsCompatible(cfg.media, msg) then CollectStep(s, cfg, t, msg, stops)
    else Handle(s, t, n, CallOn([msg.msgID]))
  }

  function RouteAction(s: Sys, cfg: Config, t: nat, n: nat, eventID: string, scope: string, extra: seq<string>, stopped: bool): Sys {
    if cfg.queueEnabled then RunStep(s, t, scope, Q.OneAction(eventID, extra), stopped)
    else Handle(s, t, n, CallOnAction(eventID, extra))
  }

  function RouteStep(s: Sys, cfg: Config, t: nat, n: nat, batch: bool, stopped: bool, stops: M.TimerID -> bool): Sys {
    if t !in s.threads || !s.threads[t].Locked? || Goroutine(n) in s.acts then s
    else
      var Locked(item, keys) := s.threads[t];
      match item
      case Light(lightID) => Handle(s, t, n, Call([lightID], [], [keys]))
      case Action(eventID, scope, extra) => RouteAction(s, cfg, t, n, eventID, scope, extra, stopped)
      case Incoming(msg) => RouteMessage(s, cfg, t, n, msg, batch, stopped, stops)
  }

  function SendStep(s: Sys, t: nat): Sys {
    if t !in s.threads || !s.threads[t].Sending? || s.threads[t].scope !in s.queues then s
    else
      var Sending(scope, work) := s.threads[t];
      s.(queues := s.queues[scope := Q.Send(s.queues[scope], work)], threads := s.threads - {t})
  }

  function TakeStep(s: Sys, scope: string): Sys {
    if scope !in s.queues || s.queues[scope].tasks == [] || Worker(scope) in s.acts then s
    else
      var q := s.queues[scope];
      s.(queues := s.queues[scope := q.(tasks := q.tasks[1..])],
         acts := s.acts[Worker(scope) := Handling(CallOfTask(q.tasks[0]))])
  }

  function BeginStep(s: Sys, i: nat, n: nat): Sys {
    if i >= |s.media.launched| || Goroutine(n) in s.acts then s
    else
      s.(media := s.media.(launched := s.media.launched[..i] + s.media.launched[i + 1..]),
         acts := s.acts[Goroutine(n) := Handling(CallOfMedia(s.media.launched[i]))])
  }

  function Successes(ids: seq<string>, now: int): seq<Success> {
    if ids == [] then [] else [Success(ids[0], now)] + Successes(ids[1..], now)
  }

  function ReturnStep(s: Sys, cfg: Config, a: ActivityID, ok: bool, now: int): Sys {
    if a !in s.acts || !s.acts[a].Handling? then s
    else
      var call := s.acts[a].call;
      s.(acts := s.acts[a := Closing(call.locks, if cfg.markAfterHandler && ok then call.marks else [])],
         delivered := s.delivered + multiset(call.names),
         successes := if ok then s.successes + Successes(call.locks, now) else s.successes)
  }

  /** One more release, or one more mark, or the end. */
  function CloseStep(s: Sys, cfg: Config, a: ActivityID, now: int): Sys {
    if a !in s.acts || !s.acts[a].Closing? then s
    else
      var Closing(locks, marks) := s.acts[a];
      if locks != [] then s.(locks := s.locks - {locks[0]}, acts := s.acts[a := Closing(locks[1..], marks)])
      else if marks != [] then
        s.(seen := MarkKeys(s.seen, marks[0], now, cfg.seenTtl, cfg.seenMax), acts := s.acts[a := Closing(locks, marks[1..])])
      else s.(acts := s.acts - {a})
  }

  function Next(s: Sys, cfg: Config, step: Step): Sys {
    match step
    case ArriveMessage(t, protoID, msg) =>
      if msg.batchedSources != [] then s else Arrive(s, t, Incoming(msg), MessageKeys(cfg, protoID, msg))
    case ArriveAction(t, eventID, scope, extra) => Arrive(s, t, Action(eventID, scope, extra), [eventID] + extra)
    case ArriveLight(t, lightID) => Arrive(s, t, Light(lightID), [lightID])
    case Check(t, now) => CheckStep(s, cfg, t, now)
    case MarkSeen(t, now) => MarkStep(s, cfg, t, now)
    case Gate(t, now, verdict) => GateStep(s, cfg, t, now, verdict)
    case Route(t, n, batch, stopped, stops) => RouteStep(s, cfg, t, n, batch, stopped, stops)
    case SendTask(t) => SendStep(s, t)
    case QueueTimer(scope, timer) =>
      if scope !in s.queues || timer !in s.queues[scope].armed then s
      else s.(queues := s.queues[scope := Q.Fire(s.queues[scope], timer)])
    case QueueFlush(scope, stopped) =>
      if scope !in s.queues then s else s.(queues := s.queues[scope := Q.FlushBuffered(s.queues[scope], stopped)])
    case MediaTimer(timer, stops) => s.(media := M.Fire(s.media, timer, stops))
    case MediaFlush(key, stops) => s.(media := M.FlushBucket(s.media, key, stops))
    case Begin(i, n) => BeginStep(s, i, n)
    case Take(scope) => TakeStep(s, scope)
    case Return(a, ok, now) => ReturnStep(s, cfg, a, ok, now)
    case Close(a, now) => CloseStep(s, cfg, a, now)
    case SweepSeen(now) => s.(seen := s.seen.(list := Recency.Sweep(s.seen.list, now)))
    case SweepLocks(now) => s.(locks := L.Unexpired(s.locks, now))
  }

  function Run(s: Sys, cfg: Config, steps: seq<Step>): Sys
    decreases |steps|
  {
    if steps == [] then s else Run(Next(s, cfg, steps[0]), cfg, steps[1..])
  }

  /** No claim has outlived the lock TTL. Only the gate and the lock sweep look at the clock. */
  predicate Timely(s: Sys, step: Step) {
    (step.Gate? || step.SweepLocks?) ==> forall id :: id in s.locks ==> step.now < s.locks[id]
  }

  predicate TimelyRun(s: Sys, cfg: Config, steps: seq<Step>)
    decreases |steps|
  {
    steps == [] || (Timely(s, steps[0]) && TimelyRun(Next(s, cfg, steps[0]), cfg, steps[1..]))
  }

  // ---------- where every item and every claim is ----------

  function PendingAll(ids: seq<string>): multiset<Token> {
    if ids == [] then multiset{} else multiset{Pending(ids[0])} + PendingAll(ids[1..])
  }

  function ClaimAll(ids: seq<string>): multiset<Token> {
    if ids == [] then multiset{} else multiset{Claim(ids[0])} + ClaimAll(ids[1..])
  }

  function HoldIDs(ids: seq<string>): multiset<Token> {
    PendingAll(ids) + ClaimAll(ids)
  }

  function HoldCall(call: Call): multiset<Token> {
    PendingAll(call.names) + ClaimAll(call.locks)
  }

  function HoldThread(th: Thread): multiset<Token> {
    match th
    case Locked(item, _) => if item.Light? then multiset{Pending(Name(item))} else multiset{Pending(Name(item)), Claim(Name(item))}
    case Sending(_, work) => HoldCall(CallOfWork(work))
    case _ => multiset{Pending(Name(th.item))}
  }

  function HoldTasks(tasks: seq<Q.Task>): multiset<Token> {
    if tasks == [] then multiset{} else HoldCall(CallOfTask(tasks[0])) + HoldTasks(tasks[1..])
  }

  function HoldQueue(q: Q.Queue): multiset<Token> {
    HoldTasks(q.tasks) + HoldIDs(IDs(q.buffer))
  }

  function HoldBucket(b: M.Bucket): multiset<Token> {
    HoldIDs(IDs(b.sources))
  }

  function HoldLaunched(launched: seq<Message>): multiset<Token> {
    if launched == [] then multiset{} else HoldCall(CallOfMedia(launched[0])) + HoldLaunched(launched[1..])
  }

  function HoldActivity(a: Activity): multiset<Token> {
    match a
    case Handling(call) => HoldCall(call)
    case Closing(locks, _) => ClaimAll(locks)
  }

  function EventIDs(events: seq<RejectEvent>): multiset<string> {
    if events == [] then multiset{}
    else EventIDs(events[..|events| - 1]) + multiset{events[|events| - 1].messageID}
  }

  /** What the values of a map hold together. */
  ghost function Sum<K(!new), V>(m: map<K, V>, hold: V -> multiset<Token>): multiset<Token>
    decreases m.Keys
  {
    if m == map[] then multiset{}
    else
      var k :| k in m.Keys;
      hold(m[k]) + Sum(m - {k}, hold)
  }

  ghost function HoldMedia(m: M.Media): multiset<Token> {
    Sum(m.buckets, HoldBucket) + HoldLaunched(m.launched)
  }

  ghost function InFlight(s: Sys): multiset<Token> {
    Sum(s.threads, HoldThread) + Sum(s.queues, HoldQueue) + HoldMedia(s.media) + Sum(s.acts, HoldActivity)
  }

  /** Rejected with an event, dropped as a duplicate action or light event, or handled. */
  function Settled(s: Sys): multiset<string> {
    EventIDs(s.events) + s.ignored + s.delivered
  }

  /** Every push of id is either in flight, in exactly one place, or settled once; and the lock on
      id is held exactly when one claim on it is in flight. */
  ghost predicate BalancedAt(s: Sys, id: string) {
    && InFlight(s)[Pending(id)] + Settled(s)[id] == s.arrived[id]
    && InFlight(s)[Claim(id)] == (if id in s.locks then 1 else 0)
  }

  ghost predicate Balanced(s: Sys) {
    forall id :: BalancedAt(s, id)
  }

  // ---------- sums over maps ----------

  lemma {:induction false} SumRemove<K(!new), V>(m: map<K, V>, k: K, hold: V -> multiset<Token>)
    requires k in m
    ensures Sum(m, hold) == hold(m[k]) + Sum(m - {k}, hold)
    decreases m.Keys
  {
    var c :| c in m.Keys && Sum(m, hold) == hold(m[c]) + Sum(m - {c}, hold);
    if c != k {
      SumRemove(m - {c}, k, hold);
      SumRemove(m - {k}, c, hold);
      assert (m - {c}) - {k} == (m - {k}) - {c};
    }
  }

  lemma {:induction false} SumPut<K(!new), V>(m: map<K, V>, k: K, v: V, hold: V -> multiset<Token>)
    ensures k in m ==> Sum(m[k := v], hold) + hold(m[k]) == Sum(m, hold) + hold(v)
    ensures k !in m ==> Sum(m[k := v], hold) == Sum(m, hold) + hold(v)
  {
    SumRemove(m[k := v], k, hold);
    assert m[k := v] - {k} == m - {k};
    if k in m {
      SumRemove(m, k, hold);
    } else {
      assert m - {k} == m;
    }
  }
}
