/** Whose queue a message waits in, on every run: always its own conversation's. */
module PipelineHomes {
  import opened Options
  import opened Messages
  import opened Pipeline
  import A = PipelineArrivals
  import O = PipelineOnce
  import S = SeenRuns
  import Q = QueueSpec
  import M = MediaSpec

  predicate TaskHome(task: Q.Task, scope: string) {
    match task
    case Flush(_, d) => d.message.conversationID == scope
    case Job(OneMessage(msg)) => msg.conversationID == scope
    case _ => true
  }

  ghost predicate QueueHome(q: Q.Queue, scope: string) {
    (forall m :: m in q.buffer ==> m.conversationID == scope) && (forall task :: task in q.tasks ==> TaskHome(task, scope))
  }

  predicate ThreadHome(th: Thread) {
    th.Sending? && th.work.OneMessage? ==> th.work.msg.conversationID == th.scope
  }

  /** Every message that is buffered, queued or about to be queued is so in its own conversation. */
  ghost predicate AtHome(s: Sys) {
    && (forall scope :: scope in s.queues ==> QueueHome(s.queues[scope], scope))
    && (forall t :: t in s.threads ==> ThreadHome(s.threads[t]))
  }

  lemma {:induction false} FlushTasksHome(batch: seq<Message>, handler: Q.Handler, serialOnly: bool, scope: string)
    requires forall m :: m in batch ==> m.conversationID == scope
    ensures forall task :: task in Q.FlushTasks(batch, handler, serialOnly) ==> TaskHome(task, scope)
  {
    if batch != [] {
      if serialOnly {
        FlushTasksHome(batch[1..], handler, serialOnly, scope);
      } else {
        MergeMeaning(batch);
        assert batch[|batch| - 1] in batch;
        hide Merge;
      }
    }
  }

  lemma FlushHome(q: Q.Queue, scope: string)
    requires QueueHome(q, scope)
    ensures QueueHome(Q.EnqueueFlush(q), scope)
  {
    hide Q.FlushTasks, TaskHome;
    if q.pendingHandler.Some? {
      FlushTasksHome(q.buffer, q.pendingHandler.value, q.serialOnly, scope);
    }
  }

  lemma SameBuffer(q: Q.Queue, q': Q.Queue, scope: string)
    requires QueueHome(q, scope) && q'.buffer == q.buffer && q'.tasks == q.tasks
    ensures QueueHome(q', scope)
  {
  }

  lemma PushHome(q: Q.Queue, cfg: Q.Settings, msg: Message, handler: Option<Q.Handler>, stopped: bool)
    requires QueueHome(q, msg.conversationID)
    ensures QueueHome(Q.Push(q, cfg, msg, handler, stopped), msg.conversationID)
  {
    hide QueueHome, Q.EnqueueFlush, Q.Delay;
    BufferedHome(q, msg, handler);
    var q1 := Q.Buffered(q, msg, handler);
    SameBuffer(q1, Q.ClearTimer(q1, stopped), msg.conversationID);
    FlushHome(Q.ClearTimer(q1, stopped), msg.conversationID);
    SameBuffer(q1, Q.Arm(Q.ClearTimer(q1, stopped), Q.Delay(cfg, q1.bufferChars, msg)), msg.conversationID);
  }

  lemma BufferedHome(q: Q.Queue, msg: Message, handler: Option<Q.Handler>)
    requires QueueHome(q, msg.conversationID)
    ensures QueueHome(Q.Buffered(q, msg, handler), msg.conversationID)
  {
  }

  lemma FlushBufferedHome(q: Q.Queue, stopped: bool, scope: string)
    requires QueueHome(q, scope)
    ensures QueueHome(Q.FlushBuffered(q, stopped), scope)
  {
    hide QueueHome, Q.EnqueueFlush;
    SameBuffer(q, Q.ClearTimer(q, stopped), scope);
    FlushHome(Q.ClearTimer(q, stopped), scope);
  }

  lemma FireHome(q: Q.Queue, timer: Q.TimerID, scope: string)
    requires QueueHome(q, scope)
    ensures QueueHome(Q.Fire(q, timer), scope)
  {
    hide QueueHome, Q.EnqueueFlush;
    SameBuffer(q, q.(armed := q.armed - {timer}, timer := None), scope);
    FlushHome(q.(armed := q.armed - {timer}, timer := None), scope);
  }

  lemma NewHome(s: Sys, scope: string, serialOnly: bool)
    requires AtHome(s)
    ensures QueueHome(QueueFor(s, scope, serialOnly), scope)
  {
  }

  /** One queue changed. */
  lemma OneQueue(s: Sys, s': Sys, scope: string, q: Q.Queue)
    requires AtHome(s) && QueueHome(q, scope) && s'.queues == s.queues[scope := q]
    requires forall t :: t in s'.threads ==> (t in s.threads && s.threads[t] == s'.threads[t]) || ThreadHome(s'.threads[t])
    ensures AtHome(s')
  {
    hide QueueHome, ThreadHome;
  }

  lemma RouteMessageHome(s: Sys, cfg: Config, t: nat, n: nat, msg: Message, batch: bool, stopped: bool, stops: M.TimerID -> bool)
    requires AtHome(s)
    ensures AtHome(RouteMessage(s, cfg, t, n, msg, batch, stopped, stops))
  {
    var scope := msg.conversationID;
    NewHome(s, scope, !batch);
    hide AtHome, QueueHome, Q.Push, Q.FlushBuffered, QueueFor, M.Push, M.IsCompatible;
    var s' := RouteMessage(s, cfg, t, n, msg, batch, stopped, stops);
    if cfg.queueEnabled {
      var q := QueueFor(s, scope, !batch);
      PushHome(q, cfg.queue, msg, Some(BatchHandler), stopped);
      FlushBufferedHome(q, stopped, scope);
      OneQueue(s, s', scope, s'.queues[scope]);
    } else {
      SameQueues(s, s');
    }
  }

  lemma SameQueues(s: Sys, s': Sys)
    requires AtHome(s) && s'.queues == s.queues
    requires forall t :: t in s'.threads ==> (t in s.threads && s.threads[t] == s'.threads[t]) || ThreadHome(s'.threads[t])
    ensures AtHome(s')
  {
    hide QueueHome, ThreadHome;
  }

  lemma RouteHome(s: Sys, cfg: Config, t: nat, n: nat, batch: bool, stopped: bool, stops: M.TimerID -> bool)
    requires AtHome(s)
    ensures AtHome(RouteStep(s, cfg, t, n, batch, stopped, stops))
  {
    hide AtHome, QueueHome, RouteMessage, Q.FlushBuffered, QueueFor, CallOnAction;
    if t in s.threads && s.threads[t].Locked? && Goroutine(n) !in s.acts {
      var s' := RouteStep(s, cfg, t, n, batch, stopped, stops);
      match s.threads[t].item
      case Incoming(msg) => RouteMessageHome(s, cfg, t, n, msg, batch, stopped, stops);
      case Light(_) => SameQueues(s, s');
      case Action(_, scope, _) =>
        if cfg.queueEnabled {
          NewHome(s, scope, true);
          FlushBufferedHome(QueueFor(s, scope, true), stopped, scope);
          OneQueue(s, s', scope, s'.queues[scope]);
        } else {
          SameQueues(s, s');
        }
    }
  }

  lemma SendHome(s: Sys, t: nat)
    requires AtHome(s)
    ensures AtHome(SendStep(s, t))
  {
    if t in s.threads && s.threads[t].Sending? && s.threads[t].scope in s.queues {
      var scope := s.threads[t].scope;
      assert ThreadHome(s.threads[t]) && QueueHome(s.queues[scope], scope);
      assert QueueHome(Q.Send(s.queues[scope], s.threads[t].work), scope);
      OneQueue(s, SendStep(s, t), scope, Q.Send(s.queues[scope], s.threads[t].work));
    }
  }

  lemma TakeHome(s: Sys, scope: string)
    requires AtHome(s)
    ensures AtHome(TakeStep(s, scope))
  {
    hide CallOfTask;
    if scope in s.queues && s.queues[scope].tasks != [] && Worker(scope) !in s.acts {
      var q := s.queues[scope];
      assert QueueHome(q.(tasks := q.tasks[1..]), scope);
      OneQueue(s, TakeStep(s, scope), scope, q.(tasks := q.tasks[1..]));
    }
  }

  lemma TimersHome(s: Sys, cfg: Config, step: Step)
    requires AtHome(s) && (step.QueueTimer? || step.QueueFlush?)
    ensures AtHome(Next(s, cfg, step))
  {
    if step.scope in s.queues {
      assert QueueHome(s.queues[step.scope], step.scope);
      hide AtHome, QueueHome, Q.Fire, Q.FlushBuffered;
      if step.QueueFlush? {
        FlushBufferedHome(s.queues[step.scope], step.stopped, step.scope);
        OneQueue(s, Next(s, cfg, step), step.scope, Q.FlushBuffered(s.queues[step.scope], step.stopped));
      } else if step.timer in s.queues[step.scope].armed {
        FireHome(s.queues[step.scope], step.timer, step.scope);
        OneQueue(s, Next(s, cfg, step), step.scope, Q.Fire(s.queues[step.scope], step.timer));
      }
    }
  }

  predicate TouchesQueues(step: Step) {
    step.Route? || step.SendTask? || step.Take? || step.QueueTimer? || step.QueueFlush?
  }

  lemma CheckQueuesStay(s: Sys, cfg: Config, t: nat, now: int)
    ensures CheckStep(s, cfg, t, now).queues == s.queues
  {
    hide S.LookUp, IsStale;
  }

  lemma MarkQueuesStay(s: Sys, cfg: Config, t: nat, now: int)
    ensures MarkStep(s, cfg, t, now).queues == s.queues
  {
    hide S.MarkKeys;
  }

  lemma GateQueuesStay(s: Sys, cfg: Config, t: nat, now: int, verdict: Option<string>)
    ensures GateStep(s, cfg, t, now, verdict).queues == s.queues
  {
    hide Name;
  }

  lemma CallQueuesStay(s: Sys, cfg: Config, step: Step)
    ensures step.Begin? ==> BeginStep(s, step.i, step.n).queues == s.queues
    ensures step.Return? ==> ReturnStep(s, cfg, step.a, step.ok, step.now).queues == s.queues
    ensures step.Close? ==> CloseStep(s, cfg, step.a, step.now).queues == s.queues
  {
    hide S.MarkKeys, CallOfMedia, Successes;
  }

  lemma {:induction false} OtherQueues(s: Sys, cfg: Config, step: Step)
    requires step.ArriveMessage? || step.ArriveAction? || step.ArriveLight? || step.MediaTimer? || step.MediaFlush? || step.SweepSeen? || step.SweepLocks?
    ensures Next(s, cfg, step).queues == s.queues
  {
    hide MessageKeys, M.Fire, M.FlushBucket;
  }

  lemma {:induction false} StepQueues(s: Sys, cfg: Config, step: Step)
    requires !TouchesQueues(step)
    ensures Next(s, cfg, step).queues == s.queues
  {
    if step.ArriveMessage? || step.ArriveAction? || step.ArriveLight? || step.MediaTimer? || step.MediaFlush? || step.SweepSeen? || step.SweepLocks? {
      OtherQueues(s, cfg, step);
    } else {
      assert !(step.Route? || step.SendTask? || step.Take? || step.QueueTimer? || step.QueueFlush?);
      hide *;
      A.StepIs(s, cfg, step);
      O.NextIs(s, cfg, step);
      if step.Check? {
        CheckQueuesStay(s, cfg, step.t, step.now);
      } else if step.MarkSeen? {
        MarkQueuesStay(s, cfg, step.t, step.now);
      } else if step.Gate? {
        GateQueuesStay(s, cfg, step.t, step.now, step.verdict);
      }
      CallQueuesStay(s, cfg, step);
    }
  }

  lemma {:induction false} StepHome(s: Sys, cfg: Config, step: Step)
    requires AtHome(s)
    ensures AtHome(Next(s, cfg, step))
  {
    A.StepIs(s, cfg, step);
    if TouchesQueues(step) {
      hide *;
      match step
      case Route(t, n, batch, stopped, stops) => RouteHome(s, cfg, t, n, batch, stopped, stops);
      case SendTask(t) => SendHome(s, t);
      case Take(scope) => TakeHome(s, scope);
      case _ =>
        TouchesTimers(step);
        TimersHome(s, cfg, step);
    } else {
      StepQueues(s, cfg, step);
      A.StepThreads(s, cfg, step);
      hide Next, AtHome;
      SameQueues(s, Next(s, cfg, step));
    }
  }

  lemma TouchesTimers(step: Step)
    requires TouchesQueues(step)
    ensures step.Route? || step.SendTask? || step.Take? || step.QueueTimer? || step.QueueFlush?
  {
  }

  /** On every run, however pushes, timers and workers interleave, a conversation's queue holds that
      conversation's messages and no others. */
  lemma {:induction false} RunAtHome(s: Sys, cfg: Config, steps: seq<Step>)
    requires AtHome(s)
    ensures AtHome(Run(s, cfg, steps))
    decreases |steps|
  {
    hide AtHome, Next;
    if steps != [] {
      StepHome(s, cfg, steps[0]);
      RunAtHome(Next(s, cfg, steps[0]), cfg, steps[1..]);
    }
  }

  lemma {:induction false} EverybodyAtHome(cfg: Config, steps: seq<Step>)
    ensures AtHome(Run(Idle, cfg, steps))
  {
    hide Run;
    RunAtHome(Idle, cfg, steps);
  }
}
