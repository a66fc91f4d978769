/** Whole runs, message by message: what two pushes that pass the dedup stage may share, and whose
    queue a message waits in. */
module PipelineArrivals {
  import opened Options
  import opened Messages
  import opened Pipeline
  import opened PipelineAdmission
  import O = PipelineOnce
  import S = SeenRuns
  import Q = QueueSpec
  import M = MediaSpec

  // ---------- where threads come from ----------

  /** A push that has just arrived, or that is about to send a task, was there before the step, or
      the step is its arrival, or its route. */
  ghost predicate ThreadsFrom(s: Sys, s': Sys, step: Step) {
    && (forall t :: t in s'.threads && s'.threads[t].Arrived? ==>
          (t in s.threads && s.threads[t] == s'.threads[t])
          || ((step.ArriveMessage? || step.ArriveAction? || step.ArriveLight?) && step.t == t))
    && (forall t :: t in s'.threads && s'.threads[t].Sending? ==>
          (t in s.threads && s.threads[t] == s'.threads[t]) || (step.Route? && step.t == t))
  }

  ghost predicate OneThread(s: Sys, s': Sys, t: nat) {
    || s'.threads == s.threads || s'.threads == s.threads - {t}
    || (t in s'.threads && !s'.threads[t].Arrived? && !s'.threads[t].Sending? && s'.threads == s.threads[t := s'.threads[t]])
  }

  lemma CheckOne(s: Sys, cfg: Config, t: nat, now: int)
    ensures OneThread(s, CheckStep(s, cfg, t, now), t)
  {
    hide S.LookUp, IsStale;
  }

  lemma MarkOne(s: Sys, cfg: Config, t: nat, now: int)
    ensures OneThread(s, MarkStep(s, cfg, t, now), t)
  {
    hide S.MarkKeys;
  }

  lemma GateOne(s: Sys, cfg: Config, t: nat, now: int, verdict: Option<string>)
    ensures OneThread(s, GateStep(s, cfg, t, now, verdict), t)
  {
  }

  ghost predicate Routes(s: Sys, s': Sys, t: nat) {
    || s'.threads == s.threads || s'.threads == s.threads - {t}
    || (t in s'.threads && s'.threads[t].Sending? && s'.threads == s.threads[t := s'.threads[t]])
  }

  lemma RouteMessageOne(s: Sys, cfg: Config, t: nat, n: nat, msg: Message, batch: bool, stopped: bool, stops: M.TimerID -> bool)
    ensures Routes(s, RouteMessage(s, cfg, t, n, msg, batch, stopped, stops), t)
  {
    hide Q.Push, Q.FlushBuffered, M.Push, M.IsCompatible, QueueFor, CallOn;
  }

  lemma RouteOne(s: Sys, cfg: Config, t: nat, n: nat, batch: bool, stopped: bool, stops: M.TimerID -> bool)
    ensures Routes(s, RouteStep(s, cfg, t, n, batch, stopped, stops), t)
  {
    hide RouteMessage, Q.FlushBuffered, QueueFor, CallOnAction;
    if t in s.threads && s.threads[t].Locked? && s.threads[t].item.Incoming? {
      RouteMessageOne(s, cfg, t, n, s.threads[t].item.msg, batch, stopped, stops);
    }
  }

  lemma SendOne(s: Sys, t: nat)
    ensures OneThread(s, SendStep(s, t), t)
  {
    hide Q.Send;
  }

  lemma {:induction false} ArrivalThreads(s: Sys, cfg: Config, step: Step)
    requires step.ArriveMessage? || step.ArriveAction? || step.ArriveLight?
    ensures ThreadsFrom(s, Next(s, cfg, step), step)
  {
    hide MessageKeys;
  }

  lemma SameThreads(s: Sys, cfg: Config, step: Step)
    ensures step.Take? ==> TakeStep(s, step.scope).threads == s.threads
    ensures step.Begin? ==> BeginStep(s, step.i, step.n).threads == s.threads
    ensures step.Return? ==> ReturnStep(s, cfg, step.a, step.ok, step.now).threads == s.threads
    ensures step.Close? ==> CloseStep(s, cfg, step.a, step.now).threads == s.threads
  {
    hide CallOfTask, CallOfMedia, Successes, S.MarkKeys;
  }

  /** Which function a step calls; timers, flushes and sweeps leave the threads alone. */
  lemma StepIs(s: Sys, cfg: Config, step: Step)
    ensures step.Check? ==> Next(s, cfg, step) == CheckStep(s, cfg, step.t, step.now)
    ensures step.Gate? ==> Next(s, cfg, step) == GateStep(s, cfg, step.t, step.now, step.verdict)
    ensures step.Route? ==> Next(s, cfg, step) == RouteStep(s, cfg, step.t, step.n, step.batch, step.stopped, step.stops)
    ensures step.SendTask? ==> Next(s, cfg, step) == SendStep(s, step.t)
    ensures step.Take? ==> Next(s, cfg, step) == TakeStep(s, step.scope)
    ensures step.Begin? ==> Next(s, cfg, step) == BeginStep(s, step.i, step.n)
    ensures step.QueueTimer? || step.QueueFlush? || step.MediaTimer? || step.MediaFlush? || step.SweepSeen? || step.SweepLocks? ==>
      Next(s, cfg, step).threads == s.threads
  {
    hide CheckStep, GateStep, RouteStep, SendStep, TakeStep, BeginStep, ReturnStep, CloseStep, MarkStep, Arrive,
         Q.Fire, Q.FlushBuffered, M.Fire, M.FlushBucket;
  }

  lemma OneThreadFrom(s: Sys, s': Sys, t: nat, step: Step)
    requires OneThread(s, s', t) || s'.threads == s.threads || (step.Route? && step.t == t && Routes(s, s', t))
    ensures ThreadsFrom(s, s', step)
  {
  }

  lemma {:induction false} StepThreads(s: Sys, cfg: Config, step: Step)
    ensures ThreadsFrom(s, Next(s, cfg, step), step)
  {
    if step.ArriveMessage? || step.ArriveAction? || step.ArriveLight? {
      ArrivalThreads(s, cfg, step);
    } else {
      hide *;
      StepIs(s, cfg, step);
      O.NextIs(s, cfg, step);
      SameThreads(s, cfg, step);
      var t := if step.Check? || step.MarkSeen? || step.Gate? || step.Route? || step.SendTask? then step.t else 0;
      match step {
        case Check(t, now) => CheckOne(s, cfg, t, now);
        case MarkSeen(t, now) => MarkOne(s, cfg, t, now);
        case Gate(t, now, verdict) => GateOne(s, cfg, t, now, verdict);
        case Route(t, n, batch, stopped, stops) => RouteOne(s, cfg, t, n, batch, stopped, stops);
        case SendTask(t) => SendOne(s, t);
        case _ =>
      }
      OneThreadFrom(s, Next(s, cfg, step), t, step);
    }
  }

  // ---------- messages that pass the dedup stage ----------

  datatype Arrival = Arrival(protoID: string, msg: Message)

  /** A message that passed the dedup stage at some time. */
  datatype MessagePass = MessagePass(protoID: string, msg: Message, at: int)

  /** The latest message arrival of each thread. */
  function Waiting(s: Sys, step: Step, waiting: map<nat, Arrival>): map<nat, Arrival> {
    if step.ArriveMessage? && step.t !in s.threads && step.msg.batchedSources == []
    then waiting[step.t := Arrival(step.protoID, step.msg)] else waiting
  }

  /** The messages that pass the dedup stage on a run, in order: their push is checked and goes on. */
  function MessagePasses(s: Sys, cfg: Config, steps: seq<Step>, waiting: map<nat, Arrival>): seq<MessagePass>
    decreases |steps|
  {
    if steps == [] then []
    else PassOf(s, cfg, steps[0], waiting) + MessagePasses(Next(s, cfg, steps[0]), cfg, steps[1..], Waiting(s, steps[0], waiting))
  }

  function PassOf(s: Sys, cfg: Config, step: Step, waiting: map<nat, Arrival>): seq<MessagePass> {
    if step.Check? && step.t in s.threads && s.threads[step.t].Arrived? && s.threads[step.t].item.Incoming?
       && step.t in Next(s, cfg, step).threads && step.t in waiting
    then [MessagePass(waiting[step.t].protoID, waiting[step.t].msg, step.now)] else []
  }

  /** Every message push that has not been checked is known with what it arrived with. */
  ghost predicate Known(s: Sys, cfg: Config, waiting: map<nat, Arrival>) {
    forall t :: t in s.threads && s.threads[t].Arrived? && s.threads[t].item.Incoming? ==>
      && t in waiting && s.threads[t].item.msg == waiting[t].msg
      && s.threads[t].keys == MessageKeys(cfg, waiting[t].protoID, waiting[t].msg)
  }

  lemma {:induction false} KnownKeeps(s: Sys, cfg: Config, step: Step, waiting: map<nat, Arrival>)
    requires Known(s, cfg, waiting)
    ensures Known(Next(s, cfg, step), cfg, Waiting(s, step, waiting))
  {
    StepThreads(s, cfg, step);
    if step.ArriveMessage? {
      KnownAtArrival(s, cfg, step, waiting);
    } else {
      OtherArrivals(s, cfg, step);
      hide Next, MessageKeys;
    }
  }

  lemma {:induction false} KnownAtArrival(s: Sys, cfg: Config, step: Step, waiting: map<nat, Arrival>)
    requires Known(s, cfg, waiting) && step.ArriveMessage?
    ensures Known(Next(s, cfg, step), cfg, Waiting(s, step, waiting))
  {
    hide MessageKeys;
    if step.msg.batchedSources == [] {
      ArriveIs(s, cfg, step.t, step.protoID, step.msg);
    }
  }

  lemma OtherArrivals(s: Sys, cfg: Config, step: Step)
    requires !step.ArriveMessage?
    ensures var s' := Next(s, cfg, step);
      forall t :: t in s'.threads && s'.threads[t].Arrived? && s'.threads[t].item.Incoming? ==> t in s.threads && s.threads[t] == s'.threads[t]
  {
    StepThreads(s, cfg, step);
    if !step.ArriveAction? && !step.ArriveLight? {
      hide Next;
    }
  }

  /** One recorded pass. */
  ghost predicate RecordedAs(p: MessagePass, cfg: Config, q: Pass) {
    q == Pass(MessageKeys(cfg, p.protoID, p.msg), p.at)
  }

  /** A check that the push survives is one it passes. */
  lemma {:induction false} SurvivesIsPass(s: Sys, cfg: Config, step: Step)
    requires step.Check? && step.t in s.threads && s.threads[step.t].Arrived?
    ensures var s' := Next(s, cfg, step);
      && (step.t in s'.threads <==> O.Passes(s, cfg, step))
      && (step.t in s'.threads ==> s'.passed == s.passed + [Pass(s.threads[step.t].keys, step.now)])
  {
    hide S.LookUp, IsStale;
  }

  lemma {:induction false} PassedGrows(s: Sys, cfg: Config, steps: seq<Step>)
    ensures s.passed <= Run(s, cfg, steps).passed
    decreases |steps|
  {
    if steps != [] {
      StepPassed(s, cfg, steps[0]);
      hide Next;
      PassedGrows(Next(s, cfg, steps[0]), cfg, steps[1..]);
    }
  }

  lemma {:induction false} StepPassed(s: Sys, cfg: Config, step: Step)
    ensures s.passed <= Next(s, cfg, step).passed
  {
    if O.Passes(s, cfg, step) {
      O.CheckPasses(s, cfg, step);
    } else if !(step.MarkSeen? && step.t in s.threads && s.threads[step.t].Unmarked?) {
      O.OtherUnmarked(s, cfg, step);
    }
  }

  /** Each of these passes is in the machine's record, in order, from place `from` on. */
  ghost predicate RecordedAt(ps: seq<MessagePass>, cfg: Config, passed: seq<Pass>, at: seq<nat>, from: nat) {
    && |at| == |ps|
    && (forall i :: 0 <= i < |at| ==> from <= at[i] < |passed| && RecordedAs(ps[i], cfg, passed[at[i]]))
    && (forall i, j :: 0 <= i < j < |at| ==> at[i] < at[j])
  }

  lemma {:induction false} PassesRecorded(s: Sys, cfg: Config, steps: seq<Step>, waiting: map<nat, Arrival>) returns (at: seq<nat>)
    requires Known(s, cfg, waiting)
    ensures RecordedAt(MessagePasses(s, cfg, steps, waiting), cfg, Run(s, cfg, steps).passed, at, |s.passed|)
    decreases |steps|
  {
    at := [];
    if steps != [] {
      hide RecordedAt, Next, Known, PassOf, Waiting;
      var s1 := Next(s, cfg, steps[0]);
      var p := PassOf(s, cfg, steps[0], waiting);
      KnownKeeps(s, cfg, steps[0], waiting);
      StepPassed(s, cfg, steps[0]);
      PassedGrows(s1, cfg, steps[1..]);
      PassRecorded(s, cfg, steps[0], waiting);
      at := PassesRecorded(s1, cfg, steps[1..], Waiting(s, steps[0], waiting));
      var rest := MessagePasses(s1, cfg, steps[1..], Waiting(s, steps[0], waiting));
      at := OneMore(p, rest, cfg, s.passed, s1.passed, Run(s, cfg, steps).passed, at);
    }
  }

  lemma OneMore(p: seq<MessagePass>, rest: seq<MessagePass>, cfg: Config, before: seq<Pass>, after: seq<Pass>, passed: seq<Pass>, at: seq<nat>)
    returns (at': seq<nat>)
    requires before <= after <= passed && RecordedAt(rest, cfg, passed, at, |after|)
    requires p != [] ==> |p| == 1 && |after| == |before| + 1 && RecordedAs(p[0], cfg, after[|before|])
    ensures RecordedAt(p + rest, cfg, passed, at', |before|)
  {
    hide RecordedAs;
    at' := at;
    if p != [] {
      assert passed[|before|] == after[|before|];
      at' := [|before|] + at;
    } else {
      assert p + rest == rest;
    }
  }

  lemma {:induction false} PassRecorded(s: Sys, cfg: Config, step: Step, waiting: map<nat, Arrival>)
    requires Known(s, cfg, waiting)
    ensures var p, s1 := PassOf(s, cfg, step, waiting), Next(s, cfg, step);
      p != [] ==> |p| == 1 && |s1.passed| == |s.passed| + 1 && RecordedAs(p[0], cfg, s1.passed[|s.passed|])
  {
    hide MessageKeys;
    if step.Check? && step.t in s.threads && s.threads[step.t].Arrived? {
      SurvivesIsPass(s, cfg, step);
    }
    hide Next;
  }

  /** Marking on entry, from an idle pipeline: on a run on which no key is crowded out of the cache and
      no check races an unmarked one, two messages that share a delivery id, a message id or a content
      fingerprint do not both pass the dedup stage within the TTL. */
  lemma {:induction false} SharedKeyApart(cfg: Config, steps: seq<Step>, clock: int)
    requires O.Monotone(steps, clock) && !cfg.markAfterHandler && cfg.seenMax > 0
    requires O.RoomyRun(Idle, cfg, steps) && !O.EntryRaces(Idle, cfg, steps)
    ensures var ps := MessagePasses(Idle, cfg, steps, map[]);
      forall i, j, k :: 0 <= i < j < |ps| && DedupKey(cfg, ps[i].protoID, ps[i].msg, k) && DedupKey(cfg, ps[j].protoID, ps[j].msg, k)
        ==> ps[i].at + cfg.seenTtl <= ps[j].at
  {
    hide O.Monotone, O.RoomyRun, O.EntryRaces, Run, DedupKey, MessagePasses;
    var ps, passed := MessagePasses(Idle, cfg, steps, map[]), Run(Idle, cfg, steps).passed;
    O.EntryAtMostOnce(cfg, steps, clock);
    var at := PassesRecorded(Idle, cfg, steps, map[]);
    forall i, j, k | 0 <= i < j < |ps| && DedupKey(cfg, ps[i].protoID, ps[i].msg, k) && DedupKey(cfg, ps[j].protoID, ps[j].msg, k)
      ensures ps[i].at + cfg.seenTtl <= ps[j].at
    {
      KeysMeaning(cfg, ps[i].protoID, ps[i].msg);
      KeysMeaning(cfg, ps[j].protoID, ps[j].msg);
      DedupKeyNotEmpty(cfg, ps[i].protoID, ps[i].msg, k);
      assert RecordedAs(ps[i], cfg, passed[at[i]]) && RecordedAs(ps[j], cfg, passed[at[j]]);
      assert k in passed[at[i]].keys && k in passed[at[j]].keys;
    }
  }

  lemma DedupKeyNotEmpty(cfg: Config, protoID: string, msg: Message, k: string)
    requires DedupKey(cfg, protoID, msg, k)
    ensures k != ""
  {
  }
}
