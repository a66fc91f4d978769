/** One conversation's queue: a debounce buffer with a timer in front of a serial task channel.

    Here is the queue as a value, the effect of each critical section, and whole runs; the class
    in ChatQueue.dfy is proved against these functions. Timers belong to the
    runtime: `armed` holds the callbacks that can still run, and stopping a timer may come too
    late, in which case its stale callback stays armed. The task channel is modelled without its
    capacity. */
module QueueSpec {
  import opened Options
  import opened Messages
  import opened Text

  type TimerID = nat
  type Handler = nat // identity of a flush callback

  datatype BatchConfig = BatchConfig(delayMs: int, longThresholdChars: int, longDelayMs: int, maxMessages: int, maxChars: int)

  datatype MediaWindow = MediaWindow(enabled: bool, delayMs: int)

  datatype Settings = Settings(batch: BatchConfig, media: Option<MediaWindow>)

  /** `charsBeforeLast` records, for the run, how much text the batch held before its last message. */
  datatype Dispatch = Dispatch(message: Message, sourceIDs: seq<string>, charsBeforeLast: nat)

  function CharsBeforeLast(batch: seq<Message>): nat {
    if batch == [] then 0 else Chars(batch[..|batch| - 1])
  }

  /** What a task sent by Run does: handle one message, handle one action, or only signal that the
      channel has drained. */
  datatype Work = OneMessage(msg: Message) | OneAction(eventID: string, extra: seq<string>) | Signal

  datatype Task = Flush(handler: Handler, dispatch: Dispatch) | Job(job: Work)

  datatype Queue = Queue(
    serialOnly: bool, buffer: seq<Message>, bufferChars: int, timer: Option<TimerID>,
    armed: map<TimerID, int>, nextTimer: TimerID, pendingHandler: Option<Handler>, tasks: seq<Task>)

  function NewQueue(serialOnly: bool): Queue {
    Queue(serialOnly, [], 0, None, map[], 0, None, [])
  }

  /** The queue of a scope; one made on the spot is serial-only if it was Run that asked for it. */
  function QueueAt(queues: map<string, Queue>, scope: string, serialOnly: bool): Queue {
    if scope in queues then queues[scope] else NewQueue(serialOnly)
  }

  function ClearTimer(q: Queue, stopped: bool): Queue {
    match q.timer
    case None => q
    case Some(id) => q.(timer := None, armed := if stopped then q.armed - {id} else q.armed)
  }

  function Arm(q: Queue, delay: int): Queue {
    q.(timer := Some(q.nextTimer), armed := q.armed[q.nextTimer := delay], nextTimer := q.nextTimer + 1)
  }

  /** The media window wins over the long-text delay, which wins over the short one. */
  function Delay(cfg: Settings, chars: int, msg: Message): int {
    if cfg.media.Some? && cfg.media.value.enabled && |msg.resources| > 0 then cfg.media.value.delayMs
    else if chars >= cfg.batch.longThresholdChars then cfg.batch.longDelayMs
    else cfg.batch.delayMs
  }

  function FlushTasks(batch: seq<Message>, handler: Handler, serialOnly: bool): seq<Task> {
    if batch == [] then []
    else if serialOnly then
      [Flush(handler, Dispatch(batch[0], [batch[0].msgID], 0))] + FlushTasks(batch[1..], handler, serialOnly)
    else [Flush(handler, Dispatch(Merge(batch), IDs(batch), CharsBeforeLast(batch)))]
  }

  /** Empty the buffer into the task channel. A batch without a handler is dropped. */
  function EnqueueFlush(q: Queue): Queue {
    q.(buffer := [], bufferChars := if q.buffer == [] then q.bufferChars else 0,
       pendingHandler := if q.buffer == [] then q.pendingHandler else None,
       tasks := q.tasks + match q.pendingHandler case None => [] case Some(h) => FlushTasks(q.buffer, h, q.serialOnly))
  }

  /** The message joins the buffer; the first handler of a batch stays. */
  function Buffered(q: Queue, msg: Message, handler: Option<Handler>): Queue {
    q.(buffer := q.buffer + [msg], bufferChars := q.bufferChars + |msg.text|,
       pendingHandler := if q.pendingHandler == None then handler else q.pendingHandler)
  }

  function Push(q: Queue, cfg: Settings, msg: Message, handler: Option<Handler>, stopped: bool): Queue {
    var q1 := Buffered(q, msg, handler);
    if |q1.buffer| >= cfg.batch.maxMessages || q1.bufferChars >= cfg.batch.maxChars
       || cfg.batch.delayMs <= 0 || q.serialOnly
    then EnqueueFlush(ClearTimer(q1, stopped))
    else Arm(ClearTimer(q1, stopped), Delay(cfg, q1.bufferChars, msg))
  }

  /** First half of Run and of FlushNow: what is buffered goes to the channel. */
  function FlushBuffered(q: Queue, stopped: bool): Queue {
    if q.buffer == [] then q else EnqueueFlush(ClearTimer(q, stopped))
  }

  /** Second half of Run and of FlushNow, outside the mutex: one task joins the channel. */
  function Send(q: Queue, job: Work): Queue {
    q.(tasks := q.tasks + [Job(job)])
  }

  /** A timer callback, stale or not: it forgets whatever timer is set now. */
  function Fire(q: Queue, id: TimerID): Queue {
    EnqueueFlush(q.(armed := q.armed - {id}, timer := None))
  }

  // ---------- whole runs of one queue ----------

  datatype Event =
    | Pushed(msg: Message, handler: Option<Handler>, stopped: bool)
    | Flushed(stopped: bool)
    | Sent(job: Work)
    | Fired(id: TimerID)
    | Taken
    | Done

  /** `started` holds the tasks the worker has taken so far, `pushed` the messages pushed so far and
      `handlers` the callbacks they came with. */
  datatype History = History(queue: Queue, started: seq<Task>, busy: bool, pushed: seq<Message>, handlers: seq<Option<Handler>>)

  function NewHistory(serialOnly: bool): History {
    History(NewQueue(serialOnly), [], false, [], [])
  }

  predicate Enabled(h: History, e: Event) {
    match e
    case Fired(id) => id in h.queue.armed
    case Taken => !h.busy && h.queue.tasks != []
    case Done => h.busy
    case _ => true
  }

  function Step(h: History, e: Event, cfg: Settings): History {
    if !Enabled(h, e) then h
    else match e
      case Pushed(msg, handler, stopped) =>
        h.(queue := Push(h.queue, cfg, msg, handler, stopped), pushed := h.pushed + [msg], handlers := h.handlers + [handler])
      case Flushed(stopped) => h.(queue := FlushBuffered(h.queue, stopped))
      case Sent(job) => h.(queue := Send(h.queue, job))
      case Fired(id) => h.(queue := Fire(h.queue, id))
      case Taken =>
        h.(started := h.started + [h.queue.tasks[0]], queue := h.queue.(tasks := h.queue.tasks[1..]), busy := true)
      case Done => h.(busy := false)
  }

  function Run(h: History, es: seq<Event>, cfg: Settings): History
    decreases |es|
  {
    if es == [] then h else Run(Step(h, es[0], cfg), es[1..], cfg)
  }

  function Sources(t: Task): seq<string> {
    match t
    case Flush(_, d) => d.sourceIDs
    case Job(_) => []
  }

  function TaskIDs(tasks: seq<Task>): seq<string> {
    if tasks == [] then [] else Sources(tasks[0]) + TaskIDs(tasks[1..])
  }

  /** Buffer accounting, and no stranded batch: a waiting buffer is within both limits, has a
      handler, and has a callback coming. */
  ghost predicate Sound(q: Queue, cfg: Settings) {
    && q.bufferChars == Chars(q.buffer)
    && (forall id :: id in q.armed ==> id < q.nextTimer)
    && (q.timer.Some? ==> q.timer.value in q.armed)
    && (q.buffer != [] ==>
        && |q.buffer| < cfg.batch.maxMessages && q.bufferChars < cfg.batch.maxChars
        && q.pendingHandler.Some? && q.armed != map[] && !q.serialOnly)
    && (q.buffer == [] ==> q.pendingHandler == None)
  }

  /** All tasks that ever entered the channel, in order: taken ones, then waiting ones. */
  function Channel(h: History): seq<Task> {
    h.started + h.queue.tasks
  }

  /** The dispatches among the tasks deliver exactly these messages: consecutive batches of them, in
      order, each as one merged message with the ids of its batch and the callback of its first
      message; in serial mode each message by itself. */
  ghost predicate Delivers(tasks: seq<Task>, msgs: seq<Message>, handlers: seq<Option<Handler>>, serialOnly: bool)
    decreases |tasks|
  {
    |msgs| == |handlers| &&
    if tasks == [] then msgs == []
    else if tasks[0].Job? then Delivers(tasks[1..], msgs, handlers, serialOnly)
    else
      var d := tasks[0].dispatch;
      var n := |d.sourceIDs|;
      && 1 <= n <= |msgs| && (serialOnly ==> n == 1)
      && DeliversBatch(tasks[0], msgs[..n], handlers[0])
      && Delivers(tasks[1..], msgs[n..], handlers[n..], serialOnly)
  }

  ghost predicate DeliversBatch(t: Task, batch: seq<Message>, handler: Option<Handler>)
    requires t.Flush? && batch != []
  {
    && t.dispatch.sourceIDs == IDs(batch) && t.dispatch.message == Merge(batch)
    && t.dispatch.charsBeforeLast == CharsBeforeLast(batch) && handler == Some(t.handler)
  }

  /** Everything pushed is started, queued or buffered, in push order and whole. */
  ghost predicate Accounts(tasks: seq<Task>, q: Queue, pushed: seq<Message>, handlers: seq<Option<Handler>>) {
    var n := |pushed| - |q.buffer|;
    && |handlers| == |pushed| && n >= 0
    && pushed[n..] == q.buffer && (q.buffer != [] ==> q.pendingHandler == handlers[n])
    && Delivers(tasks, pushed[..n], handlers[..n], q.serialOnly)
  }

  ghost predicate InOrder(h: History) {
    Accounts(Channel(h), h.queue, h.pushed, h.handlers)
  }

  /** A dispatch holds at most max(1, maxMessages) source messages, at least one, and without the
      last of them less than maxChars of text. */
  predicate FitsBound(t: Task, cfg: Settings) {
    t.Flush? ==>
      && 1 <= |Sources(t)|
      && (|Sources(t)| == 1 || (|Sources(t)| <= cfg.batch.maxMessages && t.dispatch.charsBeforeLast < cfg.batch.maxChars))
  }

  /** A batch that may be flushed whole. */
  predicate Flushable(batch: seq<Message>, serialOnly: bool, cfg: Settings) {
    || |batch| <= 1 || serialOnly
    || (|batch| <= cfg.batch.maxMessages && CharsBeforeLast(batch) < cfg.batch.maxChars)
  }

  predicate Bounded(tasks: seq<Task>, cfg: Settings) {
    tasks == [] || (FitsBound(tasks[0], cfg) && Bounded(tasks[1..], cfg))
  }

  predicate AllHandled(es: seq<Event>) {
    forall e :: e in es && e.Pushed? ==> e.handler.Some?
  }

  lemma {:induction false} TaskIDsAppend(a: seq<Task>, b: seq<Task>)
    ensures TaskIDs(a + b) == TaskIDs(a) + TaskIDs(b)
  {
    AppendUnfolds(a, b);
    if a != [] {
      TaskIDsAppend(a[1..], b);
    }
  }

  lemma {:induction false} BoundedAppend(a: seq<Task>, b: seq<Task>, cfg: Settings)
    ensures Bounded(a + b, cfg) <==> Bounded(a, cfg) && Bounded(b, cfg)
  {
    AppendUnfolds(a, b);
    if a != [] {
      BoundedAppend(a[1..], b, cfg);
    }
  }

  lemma PrefixIDs(a: seq<Task>, b: seq<Task>)
    requires a <= b
    ensures TaskIDs(a) <= TaskIDs(b)
  {
    TaskIDsAppend(a, b[|a|..]);
    assert a + b[|a|..] == b;
  }

  lemma {:induction false} FlushTaskIDs(batch: seq<Message>, handler: Handler, serialOnly: bool)
    ensures TaskIDs(FlushTasks(batch, handler, serialOnly)) == IDs(batch)
  {
    if batch != [] {
      var ts := FlushTasks(batch, handler, serialOnly);
      if serialOnly {
        FlushTaskIDs(batch[1..], handler, serialOnly);
        assert ts[1..] == FlushTasks(batch[1..], handler, serialOnly);
      } else {
        assert ts[1..] == [];
      }
    }
  }

  lemma {:induction false} FlushTasksBounded(batch: seq<Message>, handler: Handler, serialOnly: bool, cfg: Settings)
    requires Flushable(batch, serialOnly, cfg)
    ensures Bounded(FlushTasks(batch, handler, serialOnly), cfg)
  {
    if batch != [] {
      var ts := FlushTasks(batch, handler, serialOnly);
      if serialOnly {
        FlushTasksBounded(batch[1..], handler, serialOnly, cfg);
        assert ts[1..] == FlushTasks(batch[1..], handler, serialOnly);
      } else {
        assert ts[1..] == [];
      }
    }
  }

  lemma {:induction false} AppendLast(batch: seq<Message>, msg: Message)
    ensures IDs(batch + [msg]) == IDs(batch) + [msg.msgID]
    ensures Chars(batch + [msg]) == Chars(batch) + |msg.text|
  {
    if batch != [] {
      AppendLast(batch[1..], msg);
      assert (batch + [msg])[1..] == batch[1..] + [msg];
    }
  }

  /** What a batch held before its last message is the text of the others. */
  lemma BeforeLastIsRest(batch: seq<Message>, msg: Message)
    ensures CharsBeforeLast(batch + [msg]) == Chars(batch) && Chars([]) == 0
  {
    assert (batch + [msg])[..|batch|] == batch;
  }

  /** A flush moves exactly the buffered ids to the channel, in order; they are lost exactly when
      no push of the batch came with a handler. `before` is what already left the channel. */
  lemma FlushMoves(before: seq<Task>, q: Queue, cfg: Settings)
    requires Flushable(q.buffer, q.serialOnly, cfg)
    requires Bounded(before + q.tasks, cfg)
    ensures var ts := before + EnqueueFlush(q).tasks;
      && TaskIDs(ts) == TaskIDs(before + q.tasks) + (if q.pendingHandler.Some? then IDs(q.buffer) else [])
      && Bounded(ts, cfg)
    ensures EnqueueFlush(q).buffer == []
  {
    hide TaskIDs, IDs, Bounded, FlushTasks;
    if q.pendingHandler.Some? {
      var added := FlushTasks(q.buffer, q.pendingHandler.value, q.serialOnly);
      FlushTaskIDs(q.buffer, q.pendingHandler.value, q.serialOnly);
      FlushTasksBounded(q.buffer, q.pendingHandler.value, q.serialOnly, cfg);
      TaskIDsAppend(before + q.tasks, added);
      BoundedAppend(before + q.tasks, added, cfg);
      assert before + (q.tasks + added) == (before + q.tasks) + added;
    } else {
      assert q.tasks + [] == q.tasks;
    }
  }

  lemma {:induction false} DeliversAppend(a: seq<Task>, m: seq<Message>, hs: seq<Option<Handler>>,
                                          b: seq<Task>, m': seq<Message>, hs': seq<Option<Handler>>, serialOnly: bool)
    requires Delivers(a, m, hs, serialOnly) && Delivers(b, m', hs', serialOnly)
    ensures Delivers(a + b, m + m', hs + hs', serialOnly)
    decreases |a|
  {
    hide DeliversBatch;
    AppendUnfolds(a, b);
    AppendUnfolds(m, m');
    AppendUnfolds(hs, hs');
    if a != [] {
      if a[0].Job? {
        DeliversAppend(a[1..], m, hs, b, m', hs', serialOnly);
      } else {
        var n := |a[0].dispatch.sourceIDs|;
        DeliversAppend(a[1..], m[n..], hs[n..], b, m', hs', serialOnly);
        SliceAppend(m, m', n);
        SliceAppend(hs, hs', n);
      }
    }
  }

  lemma SliceAppend<T>(a: seq<T>, b: seq<T>, n: nat)
    requires n <= |a|
    ensures (a + b)[..n] == a[..n] && (a + b)[n..] == a[n..] + b
  {
  }

  lemma FlushTasksDeliver(batch: seq<Message>, handlers: seq<Option<Handler>>, handler: Handler, serialOnly: bool)
    requires |handlers| == |batch| && (serialOnly ==> |batch| <= 1) && (batch != [] ==> handlers[0] == Some(handler))
    ensures Delivers(FlushTasks(batch, handler, serialOnly), batch, handlers, serialOnly)
  {
    if batch != [] {
      hide FlushTasks, Delivers;
      FlushIsOneTask(batch, handler, serialOnly);
      OneTaskDelivers(Flush(handler, Dispatch(Merge(batch), IDs(batch), CharsBeforeLast(batch))), batch, handlers, serialOnly);
    }
  }

  /** A buffer that is flushed whole becomes one task: in serial mode it holds one message. */
  lemma FlushIsOneTask(batch: seq<Message>, handler: Handler, serialOnly: bool)
    requires batch != [] && (serialOnly ==> |batch| == 1)
    ensures FlushTasks(batch, handler, serialOnly)
         == [Flush(handler, Dispatch(Merge(batch), IDs(batch), CharsBeforeLast(batch)))]
  {
    assert batch[1..] == [] <==> |batch| == 1;
    if serialOnly {
      assert IDs(batch) == [batch[0].msgID];
      assert CharsBeforeLast(batch) == Chars([]);
      var t := Flush(handler, Dispatch(batch[0], IDs(batch), 0));
      assert FlushTasks(batch, handler, serialOnly) == [t] + FlushTasks([], handler, serialOnly);
    }
  }

  lemma OneTaskDelivers(t: Task, batch: seq<Message>, handlers: seq<Option<Handler>>, serialOnly: bool)
    requires t.Flush? && batch != [] && |handlers| == |batch| && (serialOnly ==> |batch| == 1)
    requires DeliversBatch(t, batch, handlers[0])
    ensures Delivers([t], batch, handlers, serialOnly)
  {
    var n := |batch|;
    assert batch[..n] == batch && batch[n..] == [] && handlers[n..] == [] && [t][1..] == [];
  }

  /** Delivered ids are the ids of the delivered messages. */
  lemma {:induction false} DeliversIDs(tasks: seq<Task>, msgs: seq<Message>, handlers: seq<Option<Handler>>, serialOnly: bool)
    requires Delivers(tasks, msgs, handlers, serialOnly)
    ensures TaskIDs(tasks) == IDs(msgs)
    decreases |tasks|
  {
    if tasks != [] {
      if tasks[0].Job? {
        DeliversIDs(tasks[1..], msgs, handlers, serialOnly);
      } else {
        var n := |tasks[0].dispatch.sourceIDs|;
        DeliversIDs(tasks[1..], msgs[n..], handlers[n..], serialOnly);
        IDsAppend(msgs[..n], msgs[n..]);
        assert msgs[..n] + msgs[n..] == msgs;
      }
    }
  }

  lemma {:induction false} IDsAppend(a: seq<Message>, b: seq<Message>)
    ensures IDs(a + b) == IDs(a) + IDs(b)
  {
    AppendUnfolds(a, b);
    if a != [] {
      IDsAppend(a[1..], b);
    }
  }

  ghost predicate Inv(h: History, cfg: Settings) {
    Sound(h.queue, cfg) && InOrder(h) && Bounded(Channel(h), cfg)
  }

  /** What any flush keeps, whatever happened to the timers. */
  lemma FlushKeeps(h: History, q: Queue, cfg: Settings)
    requires Accounts(h.started + q.tasks, q, h.pushed, h.handlers)
    requires q.bufferChars == Chars(q.buffer)
    requires forall id :: id in q.armed ==> id < q.nextTimer
    requires q.timer == None
    requires q.buffer != [] <==> q.pendingHandler.Some?
    requires Flushable(q.buffer, q.serialOnly, cfg) && (q.serialOnly ==> |q.buffer| <= 1)
    requires Bounded(h.started + q.tasks, cfg)
    ensures Inv(h.(queue := EnqueueFlush(q)), cfg)
  {
    hide TaskIDs, IDs, Bounded, FlushTasks, Delivers, Flushable;
    FlushMoves(h.started, q, cfg);
    FlushAccounts(h.started, q, h.pushed, h.handlers);
  }

  lemma FlushAccounts(started: seq<Task>, q: Queue, pushed: seq<Message>, handlers: seq<Option<Handler>>)
    requires Accounts(started + q.tasks, q, pushed, handlers)
    requires q.buffer != [] <==> q.pendingHandler.Some?
    requires q.serialOnly ==> |q.buffer| <= 1
    ensures Accounts(started + EnqueueFlush(q).tasks, EnqueueFlush(q), pushed, handlers)
  {
    hide Delivers, FlushTasks;
    var n := |pushed| - |q.buffer|;
    assert pushed[..n] + pushed[n..] == pushed && handlers[..n] + handlers[n..] == handlers;
    assert pushed[..|pushed|] == pushed && handlers[..|pushed|] == handlers;
    if q.pendingHandler.Some? {
      var added := FlushTasks(q.buffer, q.pendingHandler.value, q.serialOnly);
      FlushTasksDeliver(q.buffer, handlers[n..], q.pendingHandler.value, q.serialOnly);
      DeliversAppend(started + q.tasks, pushed[..n], handlers[..n], added, pushed[n..], handlers[n..], q.serialOnly);
      assert started + (q.tasks + added) == (started + q.tasks) + added;
    } else {
      assert q.tasks + [] == q.tasks;
    }
  }

  lemma {:induction false} CharsPrefix(batch: seq<Message>, n: nat)
    requires n <= |batch|
    ensures Chars(batch[..n]) <= Chars(batch)
  {
    if n > 0 {
      CharsPrefix(batch[1..], n - 1);
      assert batch[..n][1..] == batch[1..][..n - 1];
    }
  }

  /** A waiting batch may be flushed, and so may the batch that a push completes. */
  lemma WaitingFlushable(q: Queue, cfg: Settings)
    requires Sound(q, cfg)
    ensures Flushable(q.buffer, q.serialOnly, cfg)
  {
    if q.buffer != [] {
      CharsPrefix(q.buffer, |q.buffer| - 1);
    }
  }

  lemma CompletedFlushable(q: Queue, cfg: Settings, msg: Message, handler: Option<Handler>)
    requires Sound(q, cfg)
    ensures Flushable(Buffered(q, msg, handler).buffer, q.serialOnly, cfg)
  {
    assert (q.buffer + [msg])[..|q.buffer|] == q.buffer;
  }

  lemma BufferedKeeps(h: History, msg: Message, handler: Option<Handler>)
    requires InOrder(h) && handler.Some? && (h.queue.buffer != [] <==> h.queue.pendingHandler.Some?)
    ensures Accounts(Channel(h), Buffered(h.queue, msg, handler), h.pushed + [msg], h.handlers + [handler])
    ensures Chars(Buffered(h.queue, msg, handler).buffer) == Chars(h.queue.buffer) + |msg.text|
  {
    AppendLast(h.queue.buffer, msg);
    hide Delivers, Chars;
    var n := |h.pushed| - |h.queue.buffer|;
    SliceAppend(h.pushed, [msg], n);
    SliceAppend(h.handlers, [handler], n);
    if h.queue.buffer == [] {
      assert Buffered(h.queue, msg, handler).pendingHandler == (h.handlers + [handler])[n];
    } else {
      assert (h.handlers + [handler])[n] == h.handlers[n];
    }
  }

  lemma PushKeeps(h: History, cfg: Settings, msg: Message, handler: Option<Handler>, stopped: bool)
    requires Inv(h, cfg) && handler.Some?
    ensures Inv(h.(queue := Push(h.queue, cfg, msg, handler, stopped), pushed := h.pushed + [msg], handlers := h.handlers + [handler]), cfg)
  {
    hide Delivers, Chars, Bounded, EnqueueFlush, Delay;
    BufferedKeeps(h, msg, handler);
    CompletedFlushable(h.queue, cfg, msg, handler);
    hide Flushable;
    var q1 := Buffered(h.queue, msg, handler);
    var q2 := ClearTimer(q1, stopped);
    var h1 := h.(pushed := h.pushed + [msg], handlers := h.handlers + [handler]);
    if |q1.buffer| >= cfg.batch.maxMessages || q1.bufferChars >= cfg.batch.maxChars || cfg.batch.delayMs <= 0 || q1.serialOnly {
      FlushKeeps(h1, q2, cfg);
    } else {
      ArmKeeps(h1, q2, Delay(cfg, q1.bufferChars, msg), cfg);
    }
  }

  lemma ArmKeeps(h: History, q: Queue, delay: int, cfg: Settings)
    requires Accounts(h.started + q.tasks, q, h.pushed, h.handlers)
    requires q.bufferChars == Chars(q.buffer)
    requires forall id :: id in q.armed ==> id < q.nextTimer
    requires |q.buffer| < cfg.batch.maxMessages && q.bufferChars < cfg.batch.maxChars
    requires q.pendingHandler.Some? && q.buffer != [] && !q.serialOnly
    requires Bounded(h.started + q.tasks, cfg)
    ensures Inv(h.(queue := Arm(q, delay)), cfg)
  {
    hide Delivers, Chars, Bounded;
    assert q.nextTimer in Arm(q, delay).armed;
  }

  lemma SendKeeps(h: History, job: Work, cfg: Settings)
    requires Inv(h, cfg)
    ensures Inv(h.(queue := Send(h.queue, job)), cfg)
  {
    var n := |h.pushed| - |h.queue.buffer|;
    assert Delivers([Job(job)], [], [], h.queue.serialOnly);
    DeliversAppend(Channel(h), h.pushed[..n], h.handlers[..n], [Job(job)], [], [], h.queue.serialOnly);
    BoundedAppend(Channel(h), [Job(job)], cfg);
    assert h.started + (h.queue.tasks + [Job(job)]) == Channel(h) + [Job(job)];
    assert h.pushed[..n] + [] == h.pushed[..n] && h.handlers[..n] + [] == h.handlers[..n];
    assert Bounded([Job(job)], cfg);
  }

  lemma TakeKeeps(h: History, cfg: Settings)
    requires h.queue.tasks != [] && !h.busy
    ensures Channel(Step(h, Taken, cfg)) == Channel(h)
  {
    var ts := h.queue.tasks;
    assert (h.started + [ts[0]]) + ts[1..] == h.started + ts;
  }

  lemma StepKeeps(h: History, e: Event, cfg: Settings)
    requires Inv(h, cfg) && (e.Pushed? ==> e.handler.Some?)
    ensures Inv(Step(h, e, cfg), cfg)
  {
    hide Delivers, Chars, Bounded, FlushTasks, Flushable, Merge, Push;
    if Enabled(h, e) {
      match e
      case Pushed(msg, handler, stopped) => PushKeeps(h, cfg, msg, handler, stopped);
      case Flushed(stopped) =>
        if h.queue.buffer != [] {
          WaitingFlushable(h.queue, cfg);
          FlushKeeps(h, ClearTimer(h.queue, stopped), cfg);
        }
      case Sent(job) => SendKeeps(h, job, cfg);
      case Fired(id) =>
        WaitingFlushable(h.queue, cfg);
        FlushKeeps(h, h.queue.(armed := h.queue.armed - {id}, timer := None), cfg);
      case Taken => TakeKeeps(h, cfg);
      case Done =>
    }
  }

  /** Per-conversation FIFO on every run, with stale callbacks and any interleaving: nothing is
      lost, repeated or reordered, no batch is over its bound, none is stranded. */
  lemma {:induction false} Fifo(h: History, es: seq<Event>, cfg: Settings)
    requires Inv(h, cfg) && AllHandled(es)
    ensures Inv(Run(h, es, cfg), cfg)
    decreases |es|
  {
    if es != [] {
      assert es[0] in es;
      StepKeeps(h, es[0], cfg);
      assert forall e :: e in es[1..] ==> e in es;
      Fifo(Step(h, es[0], cfg), es[1..], cfg);
    }
  }

  lemma FifoFromNew(serialOnly: bool, es: seq<Event>, cfg: Settings)
    requires AllHandled(es)
    ensures Inv(Run(NewHistory(serialOnly), es, cfg), cfg)
  {
    Fifo(NewHistory(serialOnly), es, cfg);
  }

  /** The messages of the pushes of a run, and of the dispatches in a list of tasks. */
  function PushedIn(es: seq<Event>): seq<Message> {
    if es == [] then [] else if es[0].Pushed? then [es[0].msg] + PushedIn(es[1..]) else PushedIn(es[1..])
  }

  function Delivered(tasks: seq<Task>): seq<Message> {
    if tasks == [] then []
    else if tasks[0].Flush? then [tasks[0].dispatch.message] + Delivered(tasks[1..])
    else Delivered(tasks[1..])
  }

  lemma {:induction false} RunRecords(h: History, es: seq<Event>, cfg: Settings)
    ensures Run(h, es, cfg).pushed == h.pushed + PushedIn(es)
    ensures Run(h, es, cfg).queue.serialOnly == h.queue.serialOnly
    decreases |es|
  {
    hide Step;
    if es != [] {
      var here := if es[0].Pushed? then [es[0].msg] else [];
      StepRecords(h, es[0], cfg);
      RunRecords(Step(h, es[0], cfg), es[1..], cfg);
      assert (h.pushed + here) + PushedIn(es[1..]) == h.pushed + (here + PushedIn(es[1..]));
      assert here + PushedIn(es[1..]) == PushedIn(es);
    } else {
      assert h.pushed + [] == h.pushed;
    }
  }

  lemma StepRecords(h: History, e: Event, cfg: Settings)
    ensures Step(h, e, cfg).pushed == h.pushed + (if e.Pushed? then [e.msg] else [])
    ensures Step(h, e, cfg).queue.serialOnly == h.queue.serialOnly
  {
    hide FlushTasks;
  }

  /** Replacing a batch by its merged message, in front of equal texts, keeps the joined text. */
  lemma GlueTexts(a: seq<Message>, b: seq<Message>, b': seq<Message>)
    requires a != [] && Join(Texts(b), Gap) == Join(Texts(b'), Gap)
    ensures Join(Texts([Merge(a)] + b), Gap) == Join(Texts(a + b'), Gap)
  {
    hide Merge, Texts;
    MergedText(a);
    TextsAppend([Merge(a)], b);
    TextsAppend(a, b');
    TextsNotEmpty(b);
    TextsNotEmpty(b');
    JoinIsEmpty(Texts(b), Gap);
    JoinIsEmpty(Texts(b'), Gap);
    var x, y := Texts([Merge(a)]), Texts(a);
    if y == [] {
      assert x + Texts(b) == Texts(b) && y + Texts(b') == Texts(b');
    } else if Texts(b) == [] {
      assert x + [] == x && y + [] == y;
    } else {
      JoinAppend(x, Texts(b), Gap);
      JoinAppend(y, Texts(b'), Gap);
    }
  }

  /** One dispatch: the merged message of the first messages. */
  lemma OneDelivered(task: Task, msgs: seq<Message>, n: nat, handler: Option<Handler>, later: seq<Message>, rest: seq<Message>)
    requires task.Flush? && 1 <= n <= |msgs| && DeliversBatch(task, msgs[..n], handler)
    requires Join(Texts(later + rest), Gap) == Join(Texts(msgs[n..] + rest), Gap)
    ensures Join(Texts([task.dispatch.message] + later + rest), Gap) == Join(Texts(msgs + rest), Gap)
    ensures n == 1 ==> task.dispatch.message == msgs[0]
  {
    hide Texts, Join, CharsBeforeLast, IDs, Merge;
    GlueTexts(msgs[..n], later + rest, msgs[n..] + rest);
    assert [task.dispatch.message] + later + rest == [Merge(msgs[..n])] + (later + rest);
    assert msgs + rest == msgs[..n] + (msgs[n..] + rest);
    MergeMeaning(msgs[..n]);
  }

  /** Batching loses no text: joined, the delivered texts are the texts of the messages. */
  lemma {:induction false} DeliveredTexts(tasks: seq<Task>, msgs: seq<Message>, handlers: seq<Option<Handler>>, serialOnly: bool, rest: seq<Message>)
    requires Delivers(tasks, msgs, handlers, serialOnly)
    ensures Join(Texts(Delivered(tasks) + rest), Gap) == Join(Texts(msgs + rest), Gap)
    ensures serialOnly ==> Delivered(tasks) == msgs
    decreases |tasks|
  {
    hide Texts, Join, DeliversBatch;
    if tasks == [] {
      assert Delivered(tasks) == msgs;
    } else if tasks[0].Job? {
      DeliveredTexts(tasks[1..], msgs, handlers, serialOnly, rest);
    } else {
      var n := |tasks[0].dispatch.sourceIDs|;
      DeliveredTexts(tasks[1..], msgs[n..], handlers[n..], serialOnly, rest);
      OneDelivered(tasks[0], msgs, n, handlers[0], Delivered(tasks[1..]), rest);
      hide Delivers;
      if n == 1 {
        assert msgs == [msgs[0]] + msgs[1..];
      }
    }
  }

  /** On every run the texts of what was handed over and of what still waits, joined by a blank line,
      are the pushed texts joined the same way; in serial mode the pushed messages themselves are
      handed over. */
  lemma NoTextLost(serialOnly: bool, es: seq<Event>, cfg: Settings)
    requires AllHandled(es)
    ensures var h := Run(NewHistory(serialOnly), es, cfg);
      && Join(Texts(Delivered(Channel(h)) + h.queue.buffer), "\n\n") == Join(Texts(PushedIn(es)), "\n\n")
      && (serialOnly ==> Delivered(Channel(h)) == PushedIn(es))
  {
    hide Texts, Merge, Run, Delivers, Bounded, Chars;
    FifoFromNew(serialOnly, es, cfg);
    RunRecords(NewHistory(serialOnly), es, cfg);
    var h := Run(NewHistory(serialOnly), es, cfg);
    var n := |h.pushed| - |h.queue.buffer|;
    DeliveredTexts(Channel(h), h.pushed[..n], h.handlers[..n], serialOnly, h.queue.buffer);
    assert h.pushed[..n] + h.queue.buffer == h.pushed && [] + PushedIn(es) == PushedIn(es);
  }

  // ---------- when a push waits ----------

  /** A callback that runs, stale or not, leaves nothing waiting and no timer set, and only itself gone. */
  lemma FireEmpties(q: Queue, id: TimerID)
    ensures var q1 := Fire(q, id);
      && q1.buffer == [] && q1.timer == None && q1.armed == q.armed - {id} && q1.nextTimer == q.nextTimer
      && q.tasks <= q1.tasks && (q.buffer != [] && q.pendingHandler.Some? ==> |q1.tasks| > |q.tasks|)
      && (q.buffer != [] ==> q1.bufferChars == 0 && q1.pendingHandler == None)
  {
    if q.pendingHandler.Some? {
      FlushTasksSome(q.buffer, q.pendingHandler.value, q.serialOnly);
    }
    hide FlushTasks;
  }

  lemma FlushTasksSome(batch: seq<Message>, handler: Handler, serialOnly: bool)
    ensures FlushTasks(batch, handler, serialOnly) == [] <==> batch == []
  {
  }

  /** A push leaves a waiting buffer exactly under both limits, with a delay, in batch mode; then one
      new callback is armed, after the media window for a message with resources, else after the long
      or the short delay by the buffered text, and the old callback is gone if it was stopped. */
  lemma PushWaitsExactly(q: Queue, cfg: Settings, msg: Message, handler: Option<Handler>, stopped: bool)
    requires forall id :: id in q.armed ==> id < q.nextTimer
    ensures var q1, chars, b := Push(q, cfg, msg, handler, stopped), q.bufferChars + |msg.text|, cfg.batch;
      if |q.buffer| + 1 < b.maxMessages && chars < b.maxChars && b.delayMs > 0 && !q.serialOnly then
        && q1.buffer == q.buffer + [msg] && q1.bufferChars == chars && q1.tasks == q.tasks
        && q1.pendingHandler == (if q.pendingHandler.Some? then q.pendingHandler else handler)
        && q1.timer == Some(q.nextTimer) && q.nextTimer !in q.armed && q1.nextTimer == q.nextTimer + 1
        && (forall id :: id in q1.armed <==> id == q.nextTimer || (id in q.armed && !(stopped && q.timer == Some(id))))
        && (forall id :: id in q1.armed && id in q.armed ==> q1.armed[id] == q.armed[id])
        && (cfg.media.Some? && cfg.media.value.enabled && msg.resources != [] ==> q1.armed[q.nextTimer] == cfg.media.value.delayMs)
        && (cfg.media == None || !cfg.media.value.enabled || msg.resources == [] ==>
            q1.armed[q.nextTimer] == if chars < b.longThresholdChars then b.delayMs else b.longDelayMs)
      else
        && q1.buffer == [] && q1.bufferChars == 0 && q1.pendingHandler == None && q1.timer == None
        && (forall id :: id in q1.armed <==> id in q.armed && !(stopped && q.timer == Some(id)))
  {
    hide FlushTasks;
  }

  /** Every batch that ever entered the channel is within both bounds. */
  lemma BatchesUnderBounds(serialOnly: bool, es: seq<Event>, cfg: Settings)
    requires AllHandled(es)
    ensures forall t :: t in Channel(Run(NewHistory(serialOnly), es, cfg)) ==> FitsBound(t, cfg)
  {
    FifoFromNew(serialOnly, es, cfg);
    BoundedMeaning(Channel(Run(NewHistory(serialOnly), es, cfg)), cfg);
  }

  lemma {:induction false} BoundedMeaning(tasks: seq<Task>, cfg: Settings)
    ensures Bounded(tasks, cfg) <==> forall t :: t in tasks ==> FitsBound(t, cfg)
  {
    if tasks != [] {
      BoundedMeaning(tasks[1..], cfg);
      assert forall t :: t in tasks <==> t == tasks[0] || t in tasks[1..];
    }
  }

  /** The channel's history only ever grows at its end. */
  lemma ChannelGrows(h: History, e: Event, cfg: Settings)
    ensures Channel(h) <= Channel(Step(h, e, cfg))
  {
    var h1 := Step(h, e, cfg);
    if Enabled(h, e) && e.Taken? {
      TakeKeeps(h, cfg);
    } else {
      assert h1.started == h.started && h.queue.tasks <= h1.queue.tasks;
    }
  }

  lemma {:induction false} ChannelGrowsOverRuns(h: History, es: seq<Event>, cfg: Settings)
    ensures Channel(h) <= Channel(Run(h, es, cfg))
    decreases |es|
  {
    if es != [] {
      ChannelGrows(h, es[0], cfg);
      ChannelGrowsOverRuns(Step(h, es[0], cfg), es[1..], cfg);
    }
  }

  /** A job sent by Run comes after every message pushed before Run flushed, whatever happens
      between the flush and the send. */
  lemma JobAfterEarlierPushes(h: History, stopped: bool, between: seq<Event>, job: Work, cfg: Settings)
    requires Inv(h, cfg)
    ensures var h2 := Run(Step(h, Flushed(stopped), cfg), between, cfg);
      && Step(h2, Sent(job), cfg).queue.tasks == h2.queue.tasks + [Job(job)]
      && IDs(h.pushed) <= TaskIDs(Channel(h2))
  {
    hide FlushBuffered, Inv, TaskIDs, IDs, Run, Channel;
    var h1 := Step(h, Flushed(stopped), cfg);
    EmptyAfterFlush(h, stopped, cfg);
    ChannelGrowsOverRuns(h1, between, cfg);
    PrefixIDs(Channel(h1), Channel(Run(h1, between, cfg)));
  }

  lemma EmptyAfterFlush(h: History, stopped: bool, cfg: Settings)
    requires Inv(h, cfg)
    ensures IDs(h.pushed) == TaskIDs(Channel(Step(h, Flushed(stopped), cfg)))
  {
    hide Step, Delivers, Sound, Bounded, TaskIDs, IDs;
    var h1 := Step(h, Flushed(stopped), cfg);
    StepKeeps(h, Flushed(stopped), cfg);
    NothingBuffered(h, stopped, cfg);
    assert h.pushed[..|h.pushed|] == h.pushed && h1.handlers[..|h.pushed|] == h1.handlers;
    DeliversIDs(Channel(h1), h.pushed, h1.handlers, h1.queue.serialOnly);
  }

  lemma NothingBuffered(h: History, stopped: bool, cfg: Settings)
    ensures var h1 := Step(h, Flushed(stopped), cfg);
      h1.queue.buffer == [] && h1.pushed == h.pushed
  {
    hide FlushTasks;
  }

  lemma FlushTasksStep(batch: seq<Message>, i: nat, handler: Handler)
    requires i < |batch|
    ensures FlushTasks(batch[i..], handler, true)
         == [Flush(handler, Dispatch(batch[i], [batch[i].msgID], 0))] + FlushTasks(batch[i + 1..], handler, true)
  {
    assert batch[i..][1..] == batch[i + 1..];
  }
}
