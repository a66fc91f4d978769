/** The queue of one conversation as the object it is, each method one critical section. */
module ChatQueues {
  import opened Options
  import opened Messages
  import opened QueueSpec

  class ChatQueue {
    const cfg: Settings
    const serialOnly: bool
    var buffer: seq<Message>
    var bufferChars: int
    var timer: Option<TimerID>
    var pendingHandler: Option<Handler>
    var tasks: seq<Task>
    // the runtime's timers
    var armed: map<TimerID, int>
    var nextTimer: TimerID

    ghost function View(): Queue
      reads this
    {
      Queue(serialOnly, buffer, bufferChars, timer, armed, nextTimer, pendingHandler, tasks)
    }

    constructor (cfg: Settings, serialOnly: bool)
      ensures View() == NewQueue(serialOnly) && this.cfg == cfg
    {
      this.cfg := cfg;
      this.serialOnly := serialOnly;
      buffer, bufferChars, timer, pendingHandler, tasks := [], 0, None, None, [];
      armed, nextTimer := map[], 0;
    }

    /** `stopped` is what Stop reports: false when the callback has already begun. */
    method ClearTimer(stopped: bool)
      modifies this
      ensures View() == QueueSpec.ClearTimer(old(View()), stopped)
    {
      if timer.Some? {
        if stopped {
          armed := armed - {timer.value};
        }
        timer := None;
      }
    }

    method EnqueueFlush()
      modifies this
      ensures View() == QueueSpec.EnqueueFlush(old(View()))
    {
      if |buffer| == 0 {
        return;
      }
      var batch, handler := buffer, pendingHandler;
      buffer, bufferChars, pendingHandler := [], 0, None;
      if handler == None {
        return;
      }
      if serialOnly {
        for i := 0 to |batch|
          invariant buffer == [] && bufferChars == 0 && pendingHandler == None
          invariant timer == old(timer) && armed == old(armed) && nextTimer == old(nextTimer)
          invariant old(tasks) + FlushTasks(batch, handler.value, true) == tasks + FlushTasks(batch[i..], handler.value, true)
        {
          FlushTasksStep(batch, i, handler.value);
          tasks := tasks + [Flush(handler.value, Dispatch(batch[i], [batch[i].msgID], 0))];
        }
        return;
      }
      var merged := MergeBatch(batch);
      tasks := tasks + [Flush(handler.value, Dispatch(merged, IDs(batch), CharsBeforeLast(batch)))];
    }

    method FlushEarly(stopped: bool)
      modifies this
      ensures View() == QueueSpec.EnqueueFlush(QueueSpec.ClearTimer(old(View()), stopped))
    {
      ClearTimer(stopped);
      EnqueueFlush();
    }

    method StartTimer(msg: Message)
      modifies this
      ensures View() == Arm(old(View()), Delay(cfg, old(bufferChars), msg))
    {
      var delay := cfg.batch.delayMs;
      if bufferChars >= cfg.batch.longThresholdChars {
        delay := cfg.batch.longDelayMs;
      }
      if cfg.media.Some? && cfg.media.value.enabled && |msg.resources| > 0 {
        delay := cfg.media.value.delayMs;
      }
      timer := Some(nextTimer);
      armed := armed[nextTimer := delay];
      nextTimer := nextTimer + 1;
    }

    /** A full buffer, a zero delay or a serial-only queue flushes at once; otherwise the debounce
        timer restarts. */
    method Push(msg: Message, handler: Option<Handler>, stopped: bool)
      modifies this
      ensures View() == QueueSpec.Push(old(View()), cfg, msg, handler, stopped)
    {
      buffer := buffer + [msg];
      bufferChars := bufferChars + |msg.text|;
      if pendingHandler == None {
        pendingHandler := handler;
      }
      ghost var q1 := View();
      assert q1 == Buffered(old(View()), msg, handler);
      if |buffer| >= cfg.batch.maxMessages || bufferChars >= cfg.batch.maxChars {
        FlushEarly(stopped);
        return;
      }
      if cfg.batch.delayMs <= 0 || serialOnly {
        FlushEarly(stopped);
        return;
      }
      ClearTimer(stopped);
      StartTimer(msg);
    }

    /** The part of Run and FlushNow that holds the mutex. */
    method FlushBuffered(stopped: bool)
      modifies this
      ensures View() == QueueSpec.FlushBuffered(old(View()), stopped)
    {
      if |buffer| > 0 {
        ClearTimer(stopped);
        EnqueueFlush();
      }
    }

    method Send(job: Work)
      modifies this
      ensures View() == QueueSpec.Send(old(View()), job)
    {
      tasks := tasks + [Job(job)];
    }

    /** Run, up to the point where it waits for its task. */
    method Run(job: Work, stopped: bool)
      modifies this
      ensures View() == QueueSpec.Send(QueueSpec.FlushBuffered(old(View()), stopped), job)
    {
      FlushBuffered(stopped);
      Send(job);
    }

    method TimerFired(id: TimerID)
      requires id in armed
      modifies this
      ensures View() == Fire(old(View()), id)
    {
      armed := armed - {id};
      timer := None;
      EnqueueFlush();
    }

    /** The worker receives the next task. */
    method Take() returns (task: Task)
      requires tasks != []
      modifies this
      ensures task == old(tasks)[0]
      ensures View() == old(View()).(tasks := old(tasks)[1..])
    {
      task := tasks[0];
      tasks := tasks[1..];
    }
  }

  /** All queues, by scope. */
  class ChatQueueManager {
    const cfg: Settings
    const enabled: bool
    var queues: map<string, ChatQueue>
    ghost var made: set<ChatQueue> // every queue ever made

    ghost predicate Valid()
      reads this
    {
      && (forall k :: k in queues ==> queues[k] in made && queues[k].cfg == cfg)
      && (forall j, k :: j in queues && k in queues && j != k ==> queues[j] != queues[k])
    }

    ghost function View(): map<string, Queue>
      reads this, queues.Values
    {
      map k | k in queues :: queues[k].View()
    }

    constructor (cfg: Settings, enabled: bool)
      ensures Valid() && View() == map[] && made == {}
      ensures this.cfg == cfg && this.enabled == enabled
    {
      this.cfg := cfg;
      this.enabled := enabled;
      queues, made := map[], {};
    }

    /** A queue keeps the mode it was made with, whoever asks for it later. */
    method GetOrCreate(scope: string, serialOnly: bool) returns (q: ChatQueue)
      requires Valid()
      modifies `queues, `made
      ensures Valid() && scope in queues && q == queues[scope]
      ensures View() == old(View())[scope := QueueAt(old(View()), scope, serialOnly)]
      ensures fresh(made - old(made)) && q in made && old(made) <= made
    {
      if scope !in queues {
        Create(scope, serialOnly);
      }
      q := queues[scope];
    }

    method Create(scope: string, serialOnly: bool)
      requires Valid() && scope !in queues
      modifies `queues, `made
      ensures Valid() && scope in queues
      ensures View() == old(View())[scope := NewQueue(serialOnly)]
      ensures fresh(made - old(made)) && made == old(made) + {queues[scope]}
    {
      hide ChatQueue.View, NewQueue;
      ghost var was := View();
      var q := new ChatQueue(cfg, serialOnly);
      assert View() == was && q !in made;
      queues := queues[scope := q];
      made := made + {q};
    }

    method Push(scope: string, msg: Message, handler: Option<Handler>, stopped: bool)
      requires Valid()
      modifies this, made
      ensures Valid() && fresh(made - old(made))
      ensures View() == old(View())[scope := QueueSpec.Push(QueueAt(old(View()), scope, false), cfg, msg, handler, stopped)]
    {
      hide QueueSpec.Push, ChatQueue.View, QueueAt;
      var q := GetOrCreate(scope, false);
      q.Push(msg, handler, stopped);
    }

    /** The worker of a scope receives the next task. */
    method Take(scope: string) returns (task: Task)
      requires Valid() && scope in View() && View()[scope].tasks != []
      modifies made
      ensures Valid()
      ensures var q := old(View())[scope];
        task == q.tasks[0] && View() == old(View())[scope := q.(tasks := q.tasks[1..])]
    {
      task := queues[scope].Take();
    }

    /** Run, up to the point where it waits for its task. */
    method Run(scope: string, job: Work, stopped: bool)
      requires Valid()
      modifies this, made
      ensures Valid() && fresh(made - old(made))
      ensures View() == old(View())[scope := Send(QueueSpec.FlushBuffered(QueueAt(old(View()), scope, true), stopped), job)]
    {
      hide QueueSpec.FlushBuffered, Send, ChatQueue.View, QueueAt;
      var q := GetOrCreate(scope, true);
      q.Run(job, stopped);
    }
  }
}
