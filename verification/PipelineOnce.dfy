/** At most once, on the step machine: exactly which interleavings let an id pass dedup twice, or be
    handled again after it succeeded. */
module PipelineOnce {
  import opened Options
  import opened Messages
  import opened Pipeline
  import S = SeenRuns
  import R = Recency
  import M = MediaSpec
  import Q = QueueSpec
  import L = ProcessingLocks
  import P = PipelineSafety

  // ---------- the clock ----------

  function Time(step: Step, clock: int): int {
    match step
    case Check(_, now) => now
    case MarkSeen(_, now) => now
    case Gate(_, now, _) => now
    case Return(_, _, now) => now
    case Close(_, now) => now
    case SweepSeen(now) => now
    case SweepLocks(now) => now
    case _ => clock
  }

  /** Clock readings never go back. */
  predicate Monotone(steps: seq<Step>, clock: int)
    decreases |steps|
  {
    steps == [] || (clock <= Time(steps[0], clock) && Monotone(steps[1..], Time(steps[0], clock)))
  }

  // ---------- the cache along a run ----------

  ghost predicate CacheOK(t: S.Trace, cfg: Config, clock: int) {
    S.Inv(t, clock, cfg.seenTtl, cfg.seenMax) && forall k :: k in t.marks ==> t.marks[k] <= clock
  }

  /** Marks only accumulate, and new ones are not older than `clock`. */
  ghost predicate Grows(t: S.Trace, t': S.Trace, clock: int) {
    && (forall k :: k in t.marks ==> k in t'.marks)
    && (forall k :: k in t'.marks ==> (k in t.marks && t'.marks[k] == t.marks[k]) || clock <= t'.marks[k])
  }

  lemma StillOK(t: S.Trace, cfg: Config, clock: int, now: int)
    requires CacheOK(t, cfg, clock) && clock <= now
    ensures CacheOK(t, cfg, now)
  {
    S.Later(t, clock, now, cfg.seenTtl, cfg.seenMax);
  }

  lemma LookOK(t: S.Trace, cfg: Config, clock: int, keys: seq<string>, now: int)
    requires CacheOK(t, cfg, clock) && clock <= now
    ensures CacheOK(S.LookUp(t, keys, now).0, cfg, now) && S.LookUp(t, keys, now).0.marks == t.marks
  {
    S.Later(t, clock, now, cfg.seenTtl, cfg.seenMax);
    S.LookKeeps(t, keys, now, cfg.seenTtl, cfg.seenMax);
  }

  lemma MarkOK(t: S.Trace, cfg: Config, clock: int, now: int, keys: seq<string>)
    requires CacheOK(t, cfg, clock) && clock <= now && cfg.seenMax > 0
    ensures var t' := S.MarkKeys(t, keys, now, cfg.seenTtl, cfg.seenMax);
      && CacheOK(t', cfg, now) && Grows(t, t', clock)
      && (forall k :: k in t'.marks ==> (k in t.marks && t'.marks[k] == t.marks[k]) || (k in keys && t'.marks[k] == now))
      && (forall k :: k in keys && k != "" ==> k in t'.marks && t'.marks[k] == now)
  {
    S.Later(t, clock, now, cfg.seenTtl, cfg.seenMax);
    S.MarkKeeps(t, keys, now, cfg.seenTtl, cfg.seenMax);
    S.MarkKeysMarks(t, keys, now, cfg.seenTtl, cfg.seenMax);
    S.MarkAllMeaning(t.marks, keys, now);
  }

  lemma SweepOK(t: S.Trace, cfg: Config, clock: int, now: int)
    requires CacheOK(t, cfg, clock) && clock <= now
    ensures CacheOK(t.(list := R.Sweep(t.list, now)), cfg, now)
  {
    S.Later(t, clock, now, cfg.seenTtl, cfg.seenMax);
    S.SweepKeeps(t, now, cfg.seenTtl, cfg.seenMax);
  }

  // ---------- what each step does to pushes, calls and records ----------

  /** A push that has checked the cache and not yet passed the gate. */
  predicate Checked(th: Thread) {
    th.Unmarked? || th.Cleared?
  }

  ghost predicate SameChecked(s: Sys, s': Sys) {
    && (forall t :: t in s.threads && Checked(s.threads[t]) ==> t in s'.threads && s'.threads[t] == s.threads[t])
    && (forall t :: t in s'.threads && Checked(s'.threads[t]) ==> t in s.threads && s.threads[t] == s'.threads[t])
  }

  ghost predicate SameClosing(s: Sys, s': Sys) {
    && (forall a :: a in s.acts && s.acts[a].Closing? ==> a in s'.acts && s'.acts[a] == s.acts[a])
    && (forall a :: a in s'.acts && s'.acts[a].Closing? ==> a in s.acts && s.acts[a] == s'.acts[a])
  }

  /** Before the gate, an item's name is one of the keys it is looked up by. */
  ghost predicate Named(s: Sys) {
    forall t :: t in s.threads && (s.threads[t].Arrived? || Checked(s.threads[t])) ==> Name(s.threads[t].item) in s.threads[t].keys
  }

  /** What a call marks on success covers every lock it holds. */
  ghost predicate Covered(call: Call) {
    forall id :: id in call.locks ==> exists g :: g in call.marks && id in g
  }

  lemma {:induction false} SinglesCover(ids: seq<string>)
    ensures Covered(CallOn(ids))
    ensures forall id :: id in ids ==> [id] in Singles(ids)
  {
    if ids != [] {
      SinglesCover(ids[1..]);
    }
    forall id | id in ids ensures exists g :: g in Singles(ids) && id in g {
      assert id in [id];
    }
  }

  lemma TasksCovered(task: Q.Task)
    ensures Covered(CallOfTask(task))
  {
    match task
    case Flush(_, d) => SinglesCover(d.sourceIDs);
    case Job(OneMessage(msg)) => SinglesCover([msg.msgID]);
    case Job(OneAction(eventID, extra)) => ActionCovered(eventID, extra);
    case Job(Signal) =>
  }

  lemma ActionCovered(eventID: string, extra: seq<string>)
    ensures Covered(CallOnAction(eventID, extra))
  {
    assert ([eventID] + extra)[0] == eventID;
    assert ([eventID] + extra) in CallOnAction(eventID, extra).marks;
  }

  ghost predicate CallsCovered(s: Sys) {
    forall a :: a in s.acts && s.acts[a].Handling? ==> Covered(s.acts[a].call)
  }

  /** Steps that concern neither dedup, nor locks, nor the end of a call. */
  predicate IsCalm(step: Step) {
    !(step.Check? || step.MarkSeen? || step.Gate? || step.Return? || step.Close? || step.SweepSeen? || step.SweepLocks?)
  }

  ghost predicate Calm(s: Sys, s': Sys) {
    && s'.passed == s.passed && s'.successes == s.successes && s'.seen == s.seen && s'.locks == s.locks
    && SameChecked(s, s') && SameClosing(s, s')
    && (Named(s) ==> Named(s')) && (CallsCovered(s) ==> CallsCovered(s'))
  }

  lemma HandleCalm(s: Sys, t: nat, n: nat, call: Call)
    requires Covered(call) && t in s.threads && s.threads[t].Locked? && Goroutine(n) !in s.acts
    ensures Calm(s, Handle(s, t, n, call))
  {
    hide Covered;
  }

  lemma RunStepCalm(s: Sys, t: nat, scope: string, work: Q.Work, stopped: bool)
    requires t in s.threads && s.threads[t].Locked?
    ensures Calm(s, RunStep(s, t, scope, work, stopped))
  {
    hide Covered, Q.FlushBuffered, QueueFor;
  }

  lemma RouteMessageCalm(s: Sys, cfg: Config, t: nat, n: nat, msg: Message, batch: bool, stopped: bool, stops: M.TimerID -> bool)
    requires t in s.threads && s.threads[t].Locked? && Goroutine(n) !in s.acts
    ensures Calm(s, RouteMessage(s, cfg, t, n, msg, batch, stopped, stops))
  {
    hide Covered, Q.Push, M.Push, QueueFor, RunStep, Handle, M.IsCompatible;
    RunStepCalm(s, t, msg.conversationID, Q.OneMessage(msg), stopped);
    SinglesCover([msg.msgID]);
    HandleCalm(s, t, n, CallOn([msg.msgID]));
  }

  lemma RouteCalm(s: Sys, cfg: Config, t: nat, n: nat, batch: bool, stopped: bool, stops: M.TimerID -> bool)
    ensures Calm(s, RouteStep(s, cfg, t, n, batch, stopped, stops))
  {
    hide RouteMessage, RunStep, Handle, CallOnAction;
    if t in s.threads && s.threads[t].Locked? && Goroutine(n) !in s.acts {
      hide Calm;
      match s.threads[t].item
      case Light(lightID) =>
        HandleCalm(s, t, n, Call([lightID], [], [s.threads[t].keys]));
      case Action(eventID, scope, extra) =>
        ActionCovered(eventID, extra);
        HandleCalm(s, t, n, CallOnAction(eventID, extra));
        RunStepCalm(s, t, scope, Q.OneAction(eventID, extra), stopped);
      case Incoming(msg) => RouteMessageCalm(s, cfg, t, n, msg, batch, stopped, stops);
    }
  }

  lemma SendCalm(s: Sys, t: nat)
    ensures Calm(s, SendStep(s, t))
  {
    hide Covered, Q.Send;
  }

  lemma TakeCalm(s: Sys, scope: string)
    ensures Calm(s, TakeStep(s, scope))
  {
    hide CallOfTask, Calm, Covered;
    if scope in s.queues && s.queues[scope].tasks != [] && Worker(scope) !in s.acts {
      var task := s.queues[scope].tasks[0];
      TasksCovered(task);
      ActCalm(s, TakeStep(s, scope), Worker(scope), CallOfTask(task));
    } else {
      CalmTimers(s, s);
    }
  }

  lemma BeginCalm(s: Sys, i: nat, n: nat)
    ensures Calm(s, BeginStep(s, i, n))
  {
    if i < |s.media.launched| && Goroutine(n) !in s.acts {
      var call := CallOfMedia(s.media.launched[i]);
      SinglesCover(call.locks);
      hide Calm, Covered, CallOfMedia;
      ActCalm(s, BeginStep(s, i, n), Goroutine(n), call);
    } else {
      CalmTimers(s, s);
    }
  }

  /** A call begins, in a place where there was none. */
  lemma ActCalm(s: Sys, s': Sys, a: ActivityID, call: Call)
    requires Covered(call) && a !in s.acts
    requires s' == s.(queues := s'.queues, media := s'.media, acts := s.acts[a := Handling(call)])
    ensures Calm(s, s')
  {
    hide Covered;
  }

  lemma ArriveCalm(s: Sys, t: nat, item: Item, keys: seq<string>)
    requires Name(item) in keys
    ensures Calm(s, Arrive(s, t, item, keys))
  {
    hide Covered;
  }

  lemma MessageNamed(cfg: Config, protoID: string, msg: Message)
    ensures msg.msgID in MessageKeys(cfg, protoID, msg)
  {
    assert MessageKeys(cfg, protoID, msg)[1] == msg.msgID;
  }

  lemma ActionNamed(eventID: string, extra: seq<string>)
    ensures eventID in [eventID] + extra
  {
    assert ([eventID] + extra)[0] == eventID;
  }

  lemma {:induction false} CalmArrivals(s: Sys, cfg: Config, step: Step)
    requires step.ArriveMessage? || step.ArriveAction? || step.ArriveLight?
    ensures Calm(s, Next(s, cfg, step))
  {
    hide Arrive, MessageKeys, Calm;
    match step
    case ArriveMessage(t, protoID, msg) =>
      MessageNamed(cfg, protoID, msg);
      ArriveCalm(s, t, Incoming(msg), MessageKeys(cfg, protoID, msg));
      CalmTimers(s, s);
    case ArriveAction(t, eventID, scope, extra) =>
      ActionNamed(eventID, extra);
      ArriveCalm(s, t, Action(eventID, scope, extra), [eventID] + extra);
    case ArriveLight(t, lightID) => ArriveCalm(s, t, Light(lightID), [lightID]);
  }

  /** Timers and flushes change queues and media only. */
  lemma CalmTimers(s: Sys, s': Sys)
    requires s' == s.(queues := s'.queues, media := s'.media)
    ensures Calm(s, s')
  {
    hide Covered;
  }

  lemma CalmSteps(s: Sys, cfg: Config, step: Step)
    requires IsCalm(step)
    ensures Calm(s, Next(s, cfg, step))
  {
    if step.ArriveMessage? || step.ArriveAction? || step.ArriveLight? {
      CalmArrivals(s, cfg, step);
    } else {
      hide Calm, RouteStep, SendStep, TakeStep, BeginStep, Q.Fire, Q.FlushBuffered, M.Fire, M.FlushBucket;
      match step
      case Route(t, n, batch, stopped, stops) => RouteCalm(s, cfg, t, n, batch, stopped, stops);
      case SendTask(t) => SendCalm(s, t);
      case Take(scope) => TakeCalm(s, scope);
      case Begin(i, n) => BeginCalm(s, i, n);
      case _ => CalmTimers(s, Next(s, cfg, step));
    }
  }

  // ---------- checks ----------

  /** The step is a check that the push passes. */
  predicate Passes(s: Sys, cfg: Config, step: Step) {
    step.Check? && step.t in s.threads && s.threads[step.t].Arrived?
    && !(s.threads[step.t].item.Incoming? && IsStale(cfg, s.threads[step.t].item.msg, step.now))
    && !S.LookUp(s.seen, s.threads[step.t].keys, step.now).1
  }

  /** No key of a push is crowded out of the cache when it checks; see SeenRuns.RoomFor. */
  ghost predicate Roomy(s: Sys, cfg: Config, step: Step) {
    step.Check? && step.t in s.threads ==>
      (s.threads[step.t].Arrived? ==> S.RoomFor(s.seen, s.threads[step.t].keys, step.now, cfg.seenTtl, cfg.seenMax))
  }

  ghost predicate RoomyRun(s: Sys, cfg: Config, steps: seq<Step>)
    decreases |steps|
  {
    steps == [] || (Roomy(s, cfg, steps[0]) && RoomyRun(Next(s, cfg, steps[0]), cfg, steps[1..]))
  }

  lemma RefuseEffect(s: Sys, t: nat, item: Item, reason: Reason)
    ensures var s' := Refuse(s, t, item, reason);
      && s'.threads == s.threads - {t} && s'.passed == s.passed && s'.seen == s.seen
      && s'.locks == s.locks && s'.acts == s.acts && s'.successes == s.successes
  {
  }

  /** A check that is not passed. */
  lemma {:induction false} CheckFails(s: Sys, cfg: Config, step: Step)
    requires step.Check? && !Passes(s, cfg, step)
    ensures var s' := Next(s, cfg, step);
      && s'.passed == s.passed && s'.successes == s.successes && s'.locks == s.locks && s'.acts == s.acts
      && (s'.seen == s.seen || exists keys :: s'.seen == S.LookUp(s.seen, keys, step.now).0)
      && (s'.threads == s.threads || (step.t in s.threads && s.threads[step.t].Arrived? && s'.threads == s.threads - {step.t}))
  {
    hide S.LookUp, Refuse, IsStale;
    if step.t in s.threads && s.threads[step.t].Arrived? {
      var Arrived(item, keys) := s.threads[step.t];
      RefuseEffect(s, step.t, item, Stale);
      RefuseEffect(s.(seen := S.LookUp(s.seen, keys, step.now).0), step.t, item, Duplicate);
    }
  }

  lemma CheckPasses(s: Sys, cfg: Config, step: Step)
    requires Passes(s, cfg, step)
    ensures var s' := Next(s, cfg, step);
      var th := s.threads[step.t];
      && s'.passed == s.passed + [Pass(th.keys, step.now)]
      && s'.successes == s.successes && s'.locks == s.locks && s'.acts == s.acts
      && s'.seen == S.LookUp(s.seen, th.keys, step.now).0
      && s'.threads == s.threads[step.t :=
           if cfg.markAfterHandler then Cleared(th.item, th.keys, step.now) else Unmarked(th.item, th.keys, step.now)]
  {
    hide S.LookUp, IsStale;
  }

  /** What a roomy miss says. */
  lemma PassedKeysOld(s: Sys, cfg: Config, step: Step, clock: int, k: string)
    requires Passes(s, cfg, step) && Roomy(s, cfg, step) && CacheOK(s.seen, cfg, clock) && clock <= step.now
    requires k in s.threads[step.t].keys && k != "" && k in s.seen.marks
    ensures s.seen.marks[k] + cfg.seenTtl <= step.now
  {
    S.LookExactWithRoom(s.seen, s.threads[step.t].keys, step.now, clock, cfg.seenTtl, cfg.seenMax);
  }

  // ---------- the cache at every step ----------

  lemma {:induction false} CacheKeeps(s: Sys, cfg: Config, step: Step, clock: int)
    requires CacheOK(s.seen, cfg, clock) && clock <= Time(step, clock) && cfg.seenMax > 0
    ensures CacheOK(Next(s, cfg, step).seen, cfg, Time(step, clock)) && Grows(s.seen, Next(s, cfg, step).seen, clock)
  {
    StillOK(s.seen, cfg, clock, Time(step, clock));
    hide CacheOK, S.LookUp, S.MarkKeys, Refuse, CheckStep;
    if IsCalm(step) {
      CalmSteps(s, cfg, step);
    } else {
      match step
      case Check(t, now) => CacheAtCheck(s, cfg, step, clock);
      case MarkSeen(t, now) =>
        if t in s.threads && s.threads[t].Unmarked? {
          MarkOK(s.seen, cfg, clock, now, s.threads[t].keys);
        }
      case Gate(t, now, verdict) => GateEffect(s, cfg, step);
      case Close(a, now) =>
        if a in s.acts && s.acts[a].Closing? && s.acts[a].locks == [] && s.acts[a].marks != [] {
          MarkOK(s.seen, cfg, clock, now, s.acts[a].marks[0]);
        }
      case SweepSeen(now) => SweepOK(s.seen, cfg, clock, now);
      case _ =>
    }
  }

  lemma {:induction false} CacheAtCheck(s: Sys, cfg: Config, step: Step, clock: int)
    requires step.Check? && CacheOK(s.seen, cfg, clock) && clock <= step.now
    ensures CacheOK(Next(s, cfg, step).seen, cfg, step.now) && Grows(s.seen, Next(s, cfg, step).seen, clock)
  {
    StillOK(s.seen, cfg, clock, step.now);
    if Passes(s, cfg, step) {
      CheckPasses(s, cfg, step);
      LookOK(s.seen, cfg, clock, s.threads[step.t].keys, step.now);
    } else {
      CheckFails(s, cfg, step);
      var s' := Next(s, cfg, step);
      if s'.seen != s.seen {
        hide Next;
        var keys :| s'.seen == S.LookUp(s.seen, keys, step.now).0;
        LookOK(s.seen, cfg, clock, keys, step.now);
      }
    }
  }

  /** The gate lets the push through and takes the lock on its name. */
  predicate GateTakes(s: Sys, cfg: Config, step: Step) {
    step.Gate? && step.t in s.threads && s.threads[step.t].Cleared?
    && var item := s.threads[step.t].item;
       && !item.Light?
       && !(item.Incoming? && cfg.dropSelfSent && cfg.botRobotCode != "" && item.msg.senderID == cfg.botRobotCode)
       && !(item.Incoming? && step.verdict.Some?)
       && !L.Held(s.locks, Name(item), step.now)
  }

  lemma {:induction false} GateEffect(s: Sys, cfg: Config, step: Step)
    requires step.Gate?
    ensures var s' := Next(s, cfg, step);
      && s'.seen == s.seen && s'.passed == s.passed && s'.acts == s.acts && s'.successes == s.successes
      && s'.locks == (if GateTakes(s, cfg, step) then s.locks[Name(s.threads[step.t].item) := step.now + cfg.lockTtl] else s.locks)
      && (forall u :: u in s'.threads && !s'.threads[u].Locked? ==> u in s.threads && s'.threads[u] == s.threads[u])
      && (forall u :: u in s.threads && !s.threads[u].Cleared? ==> u in s'.threads && s'.threads[u] == s.threads[u])
  {
    var s' := Next(s, cfg, step);
    GateOutcome(s, cfg, step);
    hide L.Held, Next, GateTakes;
  }

  /** Nothing, a refusal, or a locked push. */
  lemma {:induction false} GateOutcome(s: Sys, cfg: Config, step: Step)
    requires step.Gate?
    ensures var s' := Next(s, cfg, step);
      && s'.seen == s.seen && s'.passed == s.passed && s'.acts == s.acts && s'.successes == s.successes
      && s'.locks == (if GateTakes(s, cfg, step) then s.locks[Name(s.threads[step.t].item) := step.now + cfg.lockTtl] else s.locks)
      && (|| s'.threads == s.threads
          || (step.t in s.threads && s.threads[step.t].Cleared?
              && (s'.threads == s.threads - {step.t}
                  || s'.threads == s.threads[step.t := Locked(s.threads[step.t].item, s.threads[step.t].keys)])))
  {
    hide L.Held, Refuse;
    if step.t in s.threads && s.threads[step.t].Cleared? {
      var item := s.threads[step.t].item;
      RefuseEffect(s, step.t, item, SelfSent);
      RefuseEffect(s, step.t, item, Refused(if step.verdict.Some? then step.verdict.value else ""));
      RefuseEffect(s, step.t, item, LockContention);
    }
  }

  // ---------- marking on entry ----------

  /** Two passes of the same non-empty key are at least the TTL apart. */
  ghost predicate PassesApart(passed: seq<Pass>, ttl: int) {
    forall i, j, k :: 0 <= i < j < |passed| && k != "" && k in passed[i].keys && k in passed[j].keys
      ==> passed[i].at + ttl <= passed[j].at
  }

  /** The race: a push passes the check while another push has passed it with a key of the first,
      less than TTL ago, and has not yet marked that key. */
  ghost predicate EntryRacy(s: Sys, cfg: Config, step: Step) {
    Passes(s, cfg, step) && exists u, k :: u in s.threads && s.threads[u].Unmarked? && Shared(s, step.t, u, k)
                                           && step.now < s.threads[u].at + cfg.seenTtl
  }

  predicate Shared(s: Sys, t: nat, u: nat, k: string)
    requires t in s.threads && u in s.threads && !s.threads[t].Sending? && !s.threads[u].Sending?
  {
    k != "" && k in s.threads[t].keys && k in s.threads[u].keys
  }

  ghost predicate EntryRaces(s: Sys, cfg: Config, steps: seq<Step>)
    decreases |steps|
  {
    steps != [] && (EntryRacy(s, cfg, steps[0]) || EntryRaces(Next(s, cfg, steps[0]), cfg, steps[1..]))
  }

  /** The pass of a key at time `at` is still on its way to the cache, or has arrived there. */
  ghost predicate PassKnown(s: Sys, k: string, at: int) {
    || (exists u :: u in s.threads && s.threads[u].Unmarked? && k in s.threads[u].keys && at <= s.threads[u].at)
    || (k in s.seen.marks && at <= s.seen.marks[k])
  }

  ghost predicate EntryInv(s: Sys, clock: int) {
    && (forall p, k :: p in s.passed && k in p.keys && k != "" ==> PassKnown(s, k, p.at))
    && (forall u :: u in s.threads && s.threads[u].Unmarked? ==>
          Pass(s.threads[u].keys, s.threads[u].at) in s.passed && s.threads[u].at <= clock)
  }

  ghost predicate SameUnmarked(s: Sys, s': Sys) {
    && (forall u :: u in s.threads && s.threads[u].Unmarked? ==> u in s'.threads && s'.threads[u] == s.threads[u])
    && (forall u :: u in s'.threads && s'.threads[u].Unmarked? ==> u in s.threads && s.threads[u] == s'.threads[u])
  }

  lemma KnownStays(s: Sys, s': Sys, cfg: Config, clock: int, k: string, at: int)
    requires PassKnown(s, k, at) && SameUnmarked(s, s') && CacheOK(s.seen, cfg, clock) && Grows(s.seen, s'.seen, clock)
    ensures PassKnown(s', k, at)
  {
    hide S.Inv;
    if u :| u in s.threads && s.threads[u].Unmarked? && k in s.threads[u].keys && at <= s.threads[u].at {
      assert u in s'.threads && s'.threads[u] == s.threads[u];
    }
  }

  lemma EntryStays(s: Sys, s': Sys, cfg: Config, clock: int, now: int)
    requires EntryInv(s, clock) && SameUnmarked(s, s') && s'.passed == s.passed && clock <= now
    requires CacheOK(s.seen, cfg, clock) && Grows(s.seen, s'.seen, clock)
    ensures EntryInv(s', now)
  {
    hide PassKnown, CacheOK, Grows;
    forall p, k | p in s'.passed && k in p.keys && k != "" ensures PassKnown(s', k, p.at) {
      KnownStays(s, s', cfg, clock, k, p.at);
    }
  }

  lemma EntryAtMark(s: Sys, s': Sys, cfg: Config, clock: int, t: nat, now: int)
    requires EntryInv(s, clock) && CacheOK(s.seen, cfg, clock) && clock <= now && cfg.seenMax > 0
    requires t in s.threads && s.threads[t].Unmarked? && s' == MarkStep(s, cfg, t, now)
    ensures EntryInv(s', now)
  {
    MarkOK(s.seen, cfg, clock, now, s.threads[t].keys);
    hide S.MarkKeys, CacheOK;
    forall p, k | p in s'.passed && k in p.keys && k != "" ensures PassKnown(s', k, p.at) {
      assert PassKnown(s, k, p.at);
      if u :| u in s.threads && s.threads[u].Unmarked? && k in s.threads[u].keys && p.at <= s.threads[u].at {
        if u != t {
          assert u in s'.threads && s'.threads[u] == s.threads[u];
        } else {
          assert s'.seen.marks[k] == now;
        }
      } else {
        MarkNotOlder(s, s', cfg, clock, k);
      }
    }
  }

  lemma MarkNotOlder(s: Sys, s': Sys, cfg: Config, clock: int, k: string)
    requires CacheOK(s.seen, cfg, clock) && Grows(s.seen, s'.seen, clock) && k in s.seen.marks
    ensures k in s'.seen.marks && s.seen.marks[k] <= s'.seen.marks[k]
  {
  }

  lemma {:induction false} EntryAtPass(s: Sys, s': Sys, cfg: Config, step: Step, clock: int)
    requires Passes(s, cfg, step) && s' == Next(s, cfg, step) && !cfg.markAfterHandler
    requires EntryInv(s, clock) && CacheOK(s.seen, cfg, clock) && clock <= step.now
    ensures EntryInv(s', step.now)
  {
    var t, keys := step.t, s.threads[step.t].keys;
    CheckPasses(s, cfg, step);
    LookOK(s.seen, cfg, clock, keys, step.now);
    hide S.LookUp, CacheOK, Next, Passes;
    forall p, k | p in s'.passed && k in p.keys && k != "" ensures PassKnown(s', k, p.at) {
      if p in s.passed {
        assert PassKnown(s, k, p.at);
        if u :| u in s.threads && s.threads[u].Unmarked? && k in s.threads[u].keys && p.at <= s.threads[u].at {
          assert u in s'.threads && s'.threads[u] == s.threads[u];
        }
      } else {
        assert t in s'.threads && s'.threads[t].Unmarked? && k in s'.threads[t].keys && p.at <= s'.threads[t].at;
      }
    }
    assert s'.passed[|s.passed|] == Pass(keys, step.now);
  }

  /** A pass is apart from all earlier ones exactly when it is no race. */
  lemma PassApartExactly(s: Sys, cfg: Config, step: Step, clock: int)
    requires Passes(s, cfg, step) && Roomy(s, cfg, step)
    requires EntryInv(s, clock) && CacheOK(s.seen, cfg, clock) && clock <= step.now
    ensures var passed := s.passed + [Pass(s.threads[step.t].keys, step.now)];
      PassesApart(passed, cfg.seenTtl) <==> PassesApart(s.passed, cfg.seenTtl) && !EntryRacy(s, cfg, step)
  {
    var keys := s.threads[step.t].keys;
    var passed := s.passed + [Pass(keys, step.now)];
    var n := |s.passed|;
    hide CacheOK, Passes, Roomy;
    if EntryRacy(s, cfg, step) {
      var u, k :| u in s.threads && s.threads[u].Unmarked? && Shared(s, step.t, u, k) && step.now < s.threads[u].at + cfg.seenTtl;
      var i :| 0 <= i < n && s.passed[i] == Pass(s.threads[u].keys, s.threads[u].at);
      assert passed[i] == s.passed[i] && passed[n] == Pass(keys, step.now);
      assert k in passed[i].keys && k in passed[n].keys;
    } else {
      forall i, k | 0 <= i < n && k != "" && k in s.passed[i].keys && k in keys
        ensures s.passed[i].at + cfg.seenTtl <= step.now
      {
        assert s.passed[i] in s.passed;
        OldPass(s, cfg, step, clock, k, s.passed[i].at);
      }
      ApartBefore(s.passed, Pass(keys, step.now), cfg.seenTtl);
    }
  }

  lemma ApartBefore(passed: seq<Pass>, p: Pass, ttl: int)
    requires forall i, k :: 0 <= i < |passed| && k != "" && k in passed[i].keys && k in p.keys ==> passed[i].at + ttl <= p.at
    ensures PassesApart(passed + [p], ttl) <==> PassesApart(passed, ttl)
  {
    if PassesApart(passed + [p], ttl) {
      forall i, j, k | 0 <= i < j < |passed| && k != "" && k in passed[i].keys && k in passed[j].keys
        ensures passed[i].at + ttl <= passed[j].at
      {
        assert (passed + [p])[i] == passed[i] && (passed + [p])[j] == passed[j];
      }
    }
  }

  lemma OldPass(s: Sys, cfg: Config, step: Step, clock: int, k: string, at: int)
    requires Passes(s, cfg, step) && Roomy(s, cfg, step) && CacheOK(s.seen, cfg, clock) && clock <= step.now
    requires !EntryRacy(s, cfg, step) && PassKnown(s, k, at) && k != "" && k in s.threads[step.t].keys
    ensures at + cfg.seenTtl <= step.now
  {
    if u :| u in s.threads && s.threads[u].Unmarked? && k in s.threads[u].keys && at <= s.threads[u].at {
      assert Shared(s, step.t, u, k);
    } else {
      PassedKeysOld(s, cfg, step, clock, k);
    }
  }

  lemma {:induction false} EntryStep(s: Sys, cfg: Config, step: Step, clock: int)
    requires EntryInv(s, clock) && CacheOK(s.seen, cfg, clock) && clock <= Time(step, clock)
    requires !cfg.markAfterHandler && cfg.seenMax > 0 && Roomy(s, cfg, step)
    ensures var s' := Next(s, cfg, step);
      && EntryInv(s', Time(step, clock)) && CacheOK(s'.seen, cfg, Time(step, clock))
      && (PassesApart(s'.passed, cfg.seenTtl) <==> PassesApart(s.passed, cfg.seenTtl) && !EntryRacy(s, cfg, step))
  {
    var s' := Next(s, cfg, step);
    var now := Time(step, clock);
    CacheKeeps(s, cfg, step, clock);
    if Passes(s, cfg, step) {
      EntryAtPass(s, s', cfg, step, clock);
      CheckPasses(s, cfg, step);
      PassApartExactly(s, cfg, step, clock);
    } else if step.MarkSeen? && step.t in s.threads && s.threads[step.t].Unmarked? {
      EntryAtMark(s, s', cfg, clock, step.t, now);
    } else {
      OtherUnmarked(s, cfg, step);
      EntryStays(s, s', cfg, clock, now);
    }
  }

  lemma {:induction false} OtherUnmarked(s: Sys, cfg: Config, step: Step)
    requires !Passes(s, cfg, step) && !(step.MarkSeen? && step.t in s.threads && s.threads[step.t].Unmarked?)
    ensures SameUnmarked(s, Next(s, cfg, step)) && Next(s, cfg, step).passed == s.passed
  {
    hide Passes, Next;
    if IsCalm(step) {
      CalmSteps(s, cfg, step);
    } else if step.Check? {
      CheckFails(s, cfg, step);
    } else if step.Gate? {
      GateEffect(s, cfg, step);
      hide GateTakes;
    } else {
      ThreadsStay(s, cfg, step);
    }
  }

  /** What a step that is not calm calls. */
  lemma NextIs(s: Sys, cfg: Config, step: Step)
    ensures step.Return? ==> Next(s, cfg, step) == ReturnStep(s, cfg, step.a, step.ok, step.now)
    ensures step.Close? ==> Next(s, cfg, step) == CloseStep(s, cfg, step.a, step.now)
    ensures step.MarkSeen? ==> Next(s, cfg, step) == MarkStep(s, cfg, step.t, step.now)
    ensures step.SweepSeen? ==> Next(s, cfg, step) == s.(seen := s.seen.(list := R.Sweep(s.seen.list, step.now)))
    ensures step.SweepLocks? ==> Next(s, cfg, step) == s.(locks := L.Unexpired(s.locks, step.now))
  {
    hide ReturnStep, CloseStep, MarkStep, R.Sweep, L.Unexpired;
  }

  lemma ThreadsStay(s: Sys, cfg: Config, step: Step)
    requires step.Return? || step.Close? || step.SweepSeen? || step.SweepLocks?
             || (step.MarkSeen? && !(step.t in s.threads && s.threads[step.t].Unmarked?))
    ensures Next(s, cfg, step).threads == s.threads && Next(s, cfg, step).passed == s.passed
  {
    NextIs(s, cfg, step);
    hide S.MarkKeys, Next;
  }

  lemma {:induction false} EntryRun(s: Sys, cfg: Config, steps: seq<Step>, clock: int)
    requires EntryInv(s, clock) && CacheOK(s.seen, cfg, clock) && Monotone(steps, clock)
    requires !cfg.markAfterHandler && cfg.seenMax > 0 && RoomyRun(s, cfg, steps)
    ensures PassesApart(Run(s, cfg, steps).passed, cfg.seenTtl) <==> PassesApart(s.passed, cfg.seenTtl) && !EntryRaces(s, cfg, steps)
    decreases |steps|
  {
    hide EntryInv, CacheOK, PassesApart, EntryRacy, Roomy, Next;
    if steps != [] {
      EntryStep(s, cfg, steps[0], clock);
      EntryRun(Next(s, cfg, steps[0]), cfg, steps[1..], Time(steps[0], clock));
    }
  }

  /** Marking on entry: on any run on which no key is crowded out of the cache, no key passes the
      dedup stage twice within the TTL exactly when no check races. */
  lemma {:induction false} EntryAtMostOnce(cfg: Config, steps: seq<Step>, clock: int)
    requires Monotone(steps, clock) && !cfg.markAfterHandler && cfg.seenMax > 0 && RoomyRun(Idle, cfg, steps)
    ensures PassesApart(Run(Idle, cfg, steps).passed, cfg.seenTtl) <==> !EntryRaces(Idle, cfg, steps)
  {
    hide Run, EntryRaces, RoomyRun, Monotone;
    EntryRun(Idle, cfg, steps, clock);
  }

  ghost predicate NoneUnmarked(s: Sys) {
    forall u :: u in s.threads ==> !s.threads[u].Unmarked?
  }

  /** Check and mark are one step: each check is followed at once by the mark of the same push. */
  predicate CheckAndMarkAtOnce(steps: seq<Step>) {
    steps == [] ||
    ((steps[0].Check? ==> |steps| > 1 && steps[1].MarkSeen? && steps[1].t == steps[0].t) && CheckAndMarkAtOnce(steps[1..]))
  }

  /** Then nothing races, whatever else interleaves. */
  lemma {:induction false} AtomicChecksDoNotRace(s: Sys, cfg: Config, steps: seq<Step>)
    requires NoneUnmarked(s) && CheckAndMarkAtOnce(steps)
    ensures !EntryRaces(s, cfg, steps)
    decreases |steps|
  {
    if steps != [] {
      var s1 := Next(s, cfg, steps[0]);
      if steps[0].Check? {
        UnmarkedByCheck(s, cfg, steps[0], steps[1]);
        hide Next;
        assert !EntryRacy(s1, cfg, steps[1]);
        AtomicChecksDoNotRace(Next(s1, cfg, steps[1]), cfg, steps[2..]);
        assert steps[1..][1..] == steps[2..];
      } else {
        OtherUnmarked(s, cfg, steps[0]);
        hide Next;
        AtomicChecksDoNotRace(s1, cfg, steps[1..]);
      }
    }
  }

  lemma UnmarkedByCheck(s: Sys, cfg: Config, check: Step, mark: Step)
    requires NoneUnmarked(s) && check.Check? && mark.MarkSeen? && mark.t == check.t
    ensures NoneUnmarked(Next(Next(s, cfg, check), cfg, mark))
  {
    var s1 := Next(s, cfg, check);
    if Passes(s, cfg, check) {
      CheckPasses(s, cfg, check);
    } else {
      CheckFails(s, cfg, check);
    }
    hide CheckStep, Passes, S.MarkKeys;
  }
}
