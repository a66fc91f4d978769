/** The card handle of a reply: text appended as it comes, captured for the card at a throttle, and
    sealed once. Each method is one critical section of the mutex. */
module Streamers {
  import opened Options
  import opened StreamSpec

  class CardStreamer {
    const throttle: int
    var accumulated: string
    var card: bool
    var closed: bool
    var aborted: bool
    var hasPending: bool
    var lastUpdate: Option<int>
    ghost var deadline: int // of the scheduled flush
    ghost var captures: seq<Capture>
    ghost var owed: Option<Status>
    ghost var issued: seq<Status>

    ghost function View(): Stream
      reads this
    {
      Stream(accumulated, card, closed, if hasPending then Some(deadline) else None, lastUpdate, captures, owed, issued)
    }

    constructor (throttle: int, card: bool)
      ensures View() == Opened(card) && this.throttle == throttle
    {
      this.throttle := throttle;
      this.card := card;
      accumulated, closed, aborted, hasPending, lastUpdate := "", false, false, false, None;
      captures, owed, issued := [], None, [];
    }

    /** Fails once sealed. `content` is the text to send to the card now, if any. */
    method Append(delta: string, now: int) returns (ok: bool, content: Option<string>)
      modifies this
      ensures View() == StreamSpec.Append(old(View()), delta, throttle, now)
      ensures ok == !old(closed)
      ensures content.Some? <==> captures != old(captures)
      ensures content.Some? ==> content.value == Shown(View())
    {
      if closed {
        return false, None;
      }
      accumulated := accumulated + delta;
      if !card {
        return true, None;
      }
      var quiet := lastUpdate == None || now - lastUpdate.value >= throttle;
      var longGap := lastUpdate == None || now - lastUpdate.value > LongGap;
      if quiet && longGap {
        SchedulePending(BatchWait, now);
      } else if quiet {
        lastUpdate := Some(now);
        captures := captures + [Capture(accumulated, now, false)];
        return true, Some(accumulated);
      } else if !hasPending {
        SchedulePending(throttle - (now - lastUpdate.value), now);
      }
      return true, None;
    }

    method SchedulePending(delay: int, now: int)
      modifies this`hasPending, this`deadline
      ensures View() == Schedule(old(View()), now + delay)
    {
      if hasPending {
        return;
      }
      hasPending := true;
      deadline := now + delay;
    }

    /** The callback of the trailing flush. */
    method PendingFired(now: int) returns (content: Option<string>)
      modifies this
      ensures View() == Fire(old(View()), now)
      ensures content == if old(closed) || !card then None else Some(accumulated)
    {
      hasPending := false;
      if closed || !card {
        return None;
      }
      lastUpdate := Some(now);
      captures := captures + [Capture(accumulated, now, false)];
      return Some(accumulated);
    }

    /** The watchdog seals an orphaned card. */
    method WatchdogFired(now: int) returns (content: Option<string>)
      modifies this
      ensures View() == Watchdog(old(View()), now)
      ensures content == if old(closed) || !card then None else Some(accumulated)
    {
      if closed || !card {
        return None;
      }
      closed := true;
      captures, owed := captures + [Capture(accumulated, now, true)], Some(Finished);
      return Some(accumulated);
    }

    /** `content` is the final text, for the card or, without one, for the fallback. */
    method Finish(text: string, now: int) returns (content: Option<string>)
      modifies this
      ensures View() == StreamSpec.Finish(old(View()), text, now)
      ensures content == if old(closed) then None else Some(if text != "" then text else old(accumulated))
    {
      if closed {
        return None;
      }
      closed := true;
      if text != "" {
        accumulated := text;
      }
      if card {
        captures, owed := captures + [Capture(accumulated, now, true)], Some(Finished);
      }
      return Some(accumulated);
    }

    method Abort(now: int) returns (content: Option<string>)
      modifies this
      ensures View() == StreamSpec.Abort(old(View()), now)
      ensures aborted == (old(aborted) || !old(closed))
      ensures content == if old(closed) || !card then None else Some(accumulated)
    {
      if closed {
        return None;
      }
      closed := true;
      aborted := true;
      if card {
        captures, owed := captures + [Capture(accumulated, now, true)], Some(Failed);
        return Some(accumulated);
      }
      return None;
    }

    /** The error text goes to the card and, in any case, to the fallback. */
    method Fail(errText: string, now: int) returns (content: Option<string>)
      modifies this
      ensures View() == StreamSpec.Fail(old(View()), errText, now)
      ensures content == if old(closed) then None else Some(errText)
    {
      if closed {
        return None;
      }
      closed := true;
      if card {
        captures, owed := captures + [Capture(errText, now, true)], Some(Failed);
      }
      return Some(errText);
    }
  }
}
