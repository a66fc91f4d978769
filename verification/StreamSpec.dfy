/** A card that grows while an agent speaks: when its text is captured for the card, and how it is
    sealed. Times are milliseconds. */
module StreamSpec {
  import opened Options

  const LongGap := 2000 // longGapThreshold
  const BatchWait := 300 // longGapBatchWait

  datatype Status = Finished | Failed

  /** A text taken under the mutex to be sent to the card. */
  datatype Capture = Capture(text: string, at: int, final: bool)

  /** `pending` is the deadline of the trailing flush, if one is scheduled; `owed` is the closing
      status that the call which sealed the stream has still to issue. */
  datatype Stream = Stream(
    accumulated: string, card: bool, closed: bool, pending: Option<int>, lastUpdate: Option<int>,
    captures: seq<Capture>, owed: Option<Status>, issued: seq<Status>)

  function Opened(card: bool): Stream {
    Stream("", card, false, None, None, [], None, [])
  }

  /** What the card shows, or is about to show. */
  function Shown(s: Stream): string {
    if s.captures == [] then "" else s.captures[|s.captures| - 1].text
  }

  function Captured(s: Stream, now: int): Stream {
    s.(lastUpdate := Some(now), captures := s.captures + [Capture(s.accumulated, now, false)])
  }

  function Schedule(s: Stream, deadline: int): Stream {
    if s.pending.Some? then s else s.(pending := Some(deadline))
  }

  predicate Quiet(s: Stream, span: int, now: int) {
    s.lastUpdate.Some? ==> now - s.lastUpdate.value >= span
  }

  function Append(s: Stream, delta: string, throttle: int, now: int): Stream {
    var s1 := s.(accumulated := s.accumulated + delta);
    if s.closed then s
    else if !s.card then s1
    else if Quiet(s, throttle, now) && Quiet(s, LongGap + 1, now) then Schedule(s1, now + BatchWait)
    else if Quiet(s, throttle, now) then Captured(s1, now)
    else Schedule(s1, s.lastUpdate.value + throttle)
  }

  /** The trailing flush. */
  function Fire(s: Stream, now: int): Stream {
    var s1 := s.(pending := None);
    if s.closed || !s.card then s1 else Captured(s1, now)
  }

  /** What sealing captures, and the status it then owes, when there is a card. */
  function Seal(s: Stream, text: string, now: int, status: Status): Stream {
    if s.card then s.(closed := true, captures := s.captures + [Capture(text, now, true)], owed := Some(status))
    else s.(closed := true)
  }

  function Finish(s: Stream, text: string, now: int): Stream {
    if s.closed then s
    else
      var s1 := if text != "" then s.(accumulated := text) else s;
      Seal(s1, s1.accumulated, now, Finished)
  }

  function Abort(s: Stream, now: int): Stream {
    if s.closed then s else Seal(s, s.accumulated, now, Failed)
  }

  function Fail(s: Stream, errText: string, now: int): Stream {
    if s.closed then s else Seal(s, errText, now, Failed)
  }

  function Watchdog(s: Stream, now: int): Stream {
    if s.closed || !s.card then s else Seal(s, s.accumulated, now, Finished)
  }

  /** The closing status goes out, or an earlier call failed and it does not. */
  function Issue(s: Stream, out: bool): Stream {
    if s.owed == None then s
    else if out then s.(owed := None, issued := s.issued + [s.owed.value])
    else s.(owed := None)
  }

  // ---------- runs ----------

  datatype Event =
    | Appends(delta: string, at: int)
    | Fires(at: int)
    | Finishes(text: string, at: int)
    | Aborts(at: int)
    | Fails(text: string, at: int)
    | Dogs(at: int)
    | Issues(out: bool)

  /** A timer does not fire before its deadline. The watchdog may strike at any time. */
  predicate Enabled(s: Stream, e: Event) {
    e.Fires? ==> s.pending.Some? && s.pending.value <= e.at
  }

  function Step(s: Stream, e: Event, throttle: int): Stream {
    if !Enabled(s, e) then s
    else match e
      case Appends(delta, at) => Append(s, delta, throttle, at)
      case Fires(at) => Fire(s, at)
      case Finishes(text, at) => Finish(s, text, at)
      case Aborts(at) => Abort(s, at)
      case Fails(text, at) => Fail(s, text, at)
      case Dogs(at) => Watchdog(s, at)
      case Issues(out) => Issue(s, out)
  }

  function Run(s: Stream, es: seq<Event>, throttle: int): Stream
    decreases |es|
  {
    if es == [] then s else Run(Step(s, es[0], throttle), es[1..], throttle)
  }

  // ---------- nothing is stranded, sealing is final ----------

  ghost predicate Inv(s: Stream) {
    && (s.card && !s.closed ==> Shown(s) == s.accumulated || s.pending.Some?)
    && (!s.closed ==> s.owed == None && s.issued == [])
    && (s.owed.Some? ==> s.issued == [])
    && |s.issued| <= 1
    && (forall i :: 0 <= i < |s.captures| && s.captures[i].final ==> i == |s.captures| - 1 && s.closed)
    && (s.captures != [] ==> s.card)
  }

  lemma StepKeeps(s: Stream, e: Event, throttle: int)
    requires Inv(s)
    ensures Inv(Step(s, e, throttle))
  {
  }

  /** Whatever races: the text not yet captured has a flush coming, and a card gets at most one
      closing status and one final frame, which is its last. */
  lemma {:induction false} RunKeeps(s: Stream, es: seq<Event>, throttle: int)
    requires Inv(s)
    ensures Inv(Run(s, es, throttle))
    decreases |es|
  {
    if es != [] {
      StepKeeps(s, es[0], throttle);
      RunKeeps(Step(s, es[0], throttle), es[1..], throttle);
    }
  }

  /** Once sealed, by whichever call, the stream keeps its text and its captures for good; all that
      can still happen is the one closing status going out. */
  lemma {:induction false} SealedForGood(s: Stream, es: seq<Event>, throttle: int)
    requires Inv(s) && s.closed
    ensures var s' := Run(s, es, throttle);
      && s'.closed && s'.accumulated == s.accumulated && s'.captures == s.captures
      && (s'.issued == s.issued || (s.owed.Some? && s.issued == [] && s'.issued == [s.owed.value]))
    decreases |es|
  {
    if es != [] {
      StepKeeps(s, es[0], throttle);
      SealedForGood(Step(s, es[0], throttle), es[1..], throttle);
    }
  }

  /** The trailing flush shows the whole text, also what came after it was scheduled. */
  lemma FlushShowsAll(s: Stream, between: seq<Event>, at: int, throttle: int)
    requires s.card
    ensures var s1 := Run(s, between, throttle);
      !s1.closed && Enabled(s1, Fires(at)) ==>
        var s2 := Step(s1, Fires(at), throttle);
        Shown(s2) == s2.accumulated == s1.accumulated && s2.pending == None
  {
    CardStays(s, between, throttle);
  }

  lemma {:induction false} CardStays(s: Stream, es: seq<Event>, throttle: int)
    ensures Run(s, es, throttle).card == s.card
    decreases |es|
  {
    if es != [] {
      CardStays(Step(s, es[0], throttle), es[1..], throttle);
    }
  }

  // ---------- how a stream ends ----------

  /** A call that seals a stream with a card, unless another came first. */
  predicate Seals(e: Event) {
    e.Finishes? || e.Aborts? || e.Fails? || e.Dogs?
  }

  /** Position of the first sealing call; the length if there is none. */
  function FirstSeal(es: seq<Event>): (k: nat)
    ensures k <= |es| && (forall i :: 0 <= i < k ==> !Seals(es[i])) && (k < |es| ==> Seals(es[k]))
  {
    if es == [] || Seals(es[0]) then 0 else 1 + FirstSeal(es[1..])
  }

  /** The deltas put together. */
  function Spoken(es: seq<Event>): string {
    if es == [] then "" else if es[0].Appends? then es[0].delta + Spoken(es[1..]) else Spoken(es[1..])
  }

  /** Whether the first attempt to issue the closing status succeeds. */
  predicate FirstIssueOut(es: seq<Event>) {
    es != [] && (if es[0].Issues? then es[0].out else FirstIssueOut(es[1..]))
  }

  lemma {:induction false} RunSplit(s: Stream, a: seq<Event>, b: seq<Event>, throttle: int)
    ensures Run(s, a + b, throttle) == Run(Run(s, a, throttle), b, throttle)
    decreases |a|
  {
    hide Step;
    AppendUnfolds(a, b);
    if a != [] {
      RunSplit(Step(s, a[0], throttle), a[1..], b, throttle);
    }
  }

  /** Until it is sealed a card gathers every delta, and every capture is what was gathered by then. */
  lemma {:induction false} RunUnsealed(s: Stream, es: seq<Event>, throttle: int)
    requires s.card && !s.closed && s.owed == None && forall i :: 0 <= i < |es| ==> !Seals(es[i])
    ensures var s' := Run(s, es, throttle);
      && s'.card && !s'.closed && s'.owed == None && s'.issued == s.issued
      && s'.accumulated == s.accumulated + Spoken(es)
      && s.captures <= s'.captures
      && (forall i :: |s.captures| <= i < |s'.captures| ==> !s'.captures[i].final && GatheredBy(s, es, s'.captures[i].text))
    decreases |es|
  {
    if es == [] {
      assert s.accumulated + "" == s.accumulated;
    } else {
      hide Step;
      var s1 := Step(s, es[0], throttle);
      StepUnsealed(s, es[0], throttle);
      RunUnsealed(s1, es[1..], throttle);
      assert s.accumulated + Spoken([es[0]]) + Spoken(es[1..]) == s.accumulated + (Spoken([es[0]]) + Spoken(es[1..]));
      SpokenCons(es);
      var s' := Run(s, es, throttle);
      forall i | |s.captures| <= i < |s'.captures|
        ensures !s'.captures[i].final && GatheredBy(s, es, s'.captures[i].text)
      {
        if i < |s1.captures| {
          assert es[..1] == [es[0]];
          assert s'.captures[i] == s1.captures[i];
          assert s1.captures[i].text == s.accumulated + Spoken(es[..1]);
        } else {
          var j :| 0 <= j <= |es| - 1 && s'.captures[i].text == s1.accumulated + Spoken(es[1..][..j]);
          assert es[..j + 1][1..] == es[1..][..j] && es[..j + 1][0] == es[0];
          SpokenCons(es[..j + 1]);
          assert s'.captures[i].text == s.accumulated + Spoken(es[..j + 1]);
        }
      }
    }
  }

  ghost predicate GatheredBy(s: Stream, es: seq<Event>, text: string) {
    exists j :: 0 <= j <= |es| && text == s.accumulated + Spoken(es[..j])
  }

  lemma SpokenCons(es: seq<Event>)
    requires es != []
    ensures Spoken(es) == Spoken([es[0]]) + Spoken(es[1..])
  {
    assert [es[0]][1..] == [];
    if es[0].Appends? {
      assert es[0].delta + "" == es[0].delta;
    }
  }

  lemma StepUnsealed(s: Stream, e: Event, throttle: int)
    requires s.card && !s.closed && s.owed == None && !Seals(e)
    ensures var s1 := Step(s, e, throttle);
      && s1.card && !s1.closed && s1.owed == None && s1.issued == s.issued
      && s1.accumulated == s.accumulated + Spoken([e])
      && s.captures <= s1.captures && |s1.captures| <= |s.captures| + 1
      && (|s1.captures| > |s.captures| ==>
            s1.captures[|s.captures|].text == s1.accumulated && !s1.captures[|s.captures|].final)
  {
    SpokenCons([e]);
    assert [e][1..] == [];
    assert e.Appends? ==> Spoken([e]) == e.delta + "";
    assert s.accumulated + "" == s.accumulated;
  }

  /** What a card shows in the end: the text given to Finish or else what was gathered, the error
      text, or what was gathered. */
  function FinalText(e: Event, gathered: string): string
    requires Seals(e)
  {
    match e
    case Finishes(text, _) => if |text| > 0 then text else gathered
    case Fails(text, _) => text
    case _ => gathered
  }

  lemma {:induction false} IssuedOnce(s: Stream, es: seq<Event>, throttle: int)
    requires s.card && s.closed
    ensures var s' := Run(s, es, throttle);
      && s'.closed && s'.accumulated == s.accumulated && s'.captures == s.captures
      && s'.issued == s.issued + (if s.owed.Some? && FirstIssueOut(es) then [s.owed.value] else [])
    decreases |es|
  {
    if es != [] {
      IssuedOnce(Step(s, es[0], throttle), es[1..], throttle);
    }
  }

  /** Captures that are not final, each of what was gathered at some moment up to event k. */
  ghost predicate AllGathered(captures: seq<Capture>, es: seq<Event>, k: nat)
    requires k <= |es|
  {
    forall c :: c in captures ==> !c.final && exists j :: 0 <= j <= k && c.text == Spoken(es[..j])
  }

  /** Before the first sealing call. */
  lemma BeforeSeal(es: seq<Event>, k: nat, throttle: int)
    requires k <= |es| && forall i :: 0 <= i < k ==> !Seals(es[i])
    ensures var s := Run(Opened(true), es[..k], throttle);
      && s.card && !s.closed && s.owed == None && s.issued == [] && s.accumulated == Spoken(es[..k])
      && AllGathered(s.captures, es, k)
  {
    hide Run, Step, Spoken;
    var before := es[..k];
    var s := Run(Opened(true), before, throttle);
    RunUnsealed(Opened(true), before, throttle);
    assert "" + Spoken(before) == Spoken(before);
    forall c | c in s.captures
      ensures !c.final && exists j :: 0 <= j <= k && c.text == Spoken(es[..j])
    {
      var i :| 0 <= i < |s.captures| && s.captures[i] == c;
      var j :| 0 <= j <= |before| && c.text == "" + Spoken(before[..j]);
      assert before[..j] == es[..j] && "" + Spoken(es[..j]) == Spoken(es[..j]);
    }
  }

  lemma SealingStep(s: Stream, e: Event, throttle: int)
    requires s.card && !s.closed && Seals(e)
    ensures var s1 := Step(s, e, throttle);
      && s1.card && s1.closed && s1.issued == s.issued
      && s1.accumulated == (if e.Finishes? && |e.text| > 0 then e.text else s.accumulated)
      && s1.captures == s.captures + [Capture(FinalText(e, s.accumulated), e.at, true)]
      && s1.owed == Some(if e.Finishes? || e.Dogs? then Finished else Failed)
  {
  }

  /** Every run of a stream with a card ends as its first sealing call says, whatever races with it.
      With none the stream is open, holds every delta and issued nothing. Otherwise it is closed for
      good, its last capture is the final one with the text and at the time of that call, and the
      status issued, if the first attempt succeeds, is `Finished` after Finish or the watchdog and
      `Failed` after Abort or Fail. Before the seal each capture is what was gathered at some moment. */
  lemma SealedAsFirst(es: seq<Event>, throttle: int)
    ensures var s, k := Run(Opened(true), es, throttle), FirstSeal(es);
      if k == |es| then
        && !s.closed && s.accumulated == Spoken(es) && s.issued == []
        && AllGathered(s.captures, es, k)
      else
        && s.closed && s.captures != []
        && s.accumulated == (if es[k].Finishes? && |es[k].text| > 0 then es[k].text else Spoken(es[..k]))
        && s.captures[|s.captures| - 1] == Capture(FinalText(es[k], Spoken(es[..k])), es[k].at, true)
        && AllGathered(s.captures[..|s.captures| - 1], es, k)
        && s.issued == (if !FirstIssueOut(es[k + 1..]) then []
                        else if es[k].Finishes? || es[k].Dogs? then [Finished] else [Failed])
  {
    hide Run, Step, Spoken, FirstIssueOut, AllGathered, FinalText;
    var k := FirstSeal(es);
    var s1 := Run(Opened(true), es[..k], throttle);
    BeforeSeal(es, k, throttle);
    if k == |es| {
      assert es[..k] == es;
    } else {
      var s2 := Step(s1, es[k], throttle);
      SealingStep(s1, es[k], throttle);
      RunThrough(Opened(true), es, k, throttle);
      IssuedOnce(s2, es[k + 1..], throttle);
      assert s2.captures[..|s2.captures| - 1] == s1.captures;
    }
  }

  lemma RunThrough(s: Stream, es: seq<Event>, k: nat, throttle: int)
    requires k < |es|
    ensures Run(s, es, throttle) == Run(Step(Run(s, es[..k], throttle), es[k], throttle), es[k + 1..], throttle)
  {
    hide Step;
    RunSplit(s, es[..k], es[k..], throttle);
    assert es[..k] + es[k..] == es && es[k..][1..] == es[k + 1..];
  }

  /** Without a card nothing is captured or issued, and only the caller's own calls seal the stream. */
  lemma {:induction false} WithoutCard(s: Stream, es: seq<Event>, throttle: int)
    requires !s.card && s.owed == None
    ensures var s' := Run(s, es, throttle);
      && s'.captures == s.captures && s'.issued == s.issued && s'.owed == None
      && (s'.closed <==> s.closed || exists i :: 0 <= i < |es| && (es[i].Finishes? || es[i].Aborts? || es[i].Fails?))
    decreases |es|
  {
    if es != [] {
      var s1 := Step(s, es[0], throttle);
      assert s1.closed <==> s.closed || es[0].Finishes? || es[0].Aborts? || es[0].Fails?;
      assert !s1.card && s1.owed == None && s1.captures == s.captures && s1.issued == s.issued;
      hide Step;
      WithoutCard(s1, es[1..], throttle);
      assert forall i :: 0 <= i < |es| - 1 ==> es[1..][i] == es[i + 1];
    }
  }

  /** An append is captured at once exactly when the last capture is at least a throttle and at most
      two seconds old; otherwise it waits for the flush already scheduled, or for one 300 ms ahead
      after a long gap, or a throttle after the last capture. */
  lemma AppendCapturesExactly(s: Stream, delta: string, throttle: int, now: int)
    requires s.card && !s.closed
    ensures var s1, last := Append(s, delta, throttle, now), s.lastUpdate;
      && s1.accumulated == s.accumulated + delta
      && if last.Some? && throttle <= now - last.value <= 2000 then
           s1.captures == s.captures + [Capture(s.accumulated + delta, now, false)] && s1.lastUpdate == Some(now) && s1.pending == s.pending
         else
           && s1.captures == s.captures && s1.lastUpdate == last
           && s1.pending == (if s.pending.Some? then s.pending
                             else if last == None || (now - last.value > 2000 && now - last.value >= throttle) then Some(now + 300)
                             else Some(last.value + throttle))
  {
  }

  /** No text waits for longer than the throttle or 300 ms, whichever is more: on every run without
      clock steps backwards the scheduled flush is due within that time of now. */
  lemma {:induction false} FlushIsSoon(s: Stream, es: seq<Event>, throttle: int, clock: int)
    requires Monotone(es, clock) && Soon(s, throttle, clock)
    ensures Soon(Run(s, es, throttle), throttle, Clock(es, clock))
    decreases |es|
  {
    if es != [] {
      FlushIsSoon(Step(s, es[0], throttle), es[1..], throttle, TimeOf(es[0], clock));
    }
  }

  predicate Soon(s: Stream, throttle: int, clock: int) {
    && (s.lastUpdate.Some? ==> s.lastUpdate.value <= clock)
    && (s.pending.Some? ==> s.pending.value <= clock + 300 || s.pending.value <= clock + throttle)
  }

  /** The clock after a run. */
  function Clock(es: seq<Event>, clock: int): int
    decreases |es|
  {
    if es == [] then clock else Clock(es[1..], TimeOf(es[0], clock))
  }

  // ---------- the throttle ----------

  function TimeOf(e: Event, clock: int): int {
    if e.Issues? then clock else e.at
  }

  /** Clock reads do not go back. */
  predicate Monotone(es: seq<Event>, clock: int)
    decreases |es|
  {
    es == [] || (TimeOf(es[0], clock) >= clock && Monotone(es[1..], TimeOf(es[0], clock)))
  }

  /** An append that captures although a trailing flush is waiting: the flush is overdue. */
  predicate Overtakes(s: Stream, e: Event, throttle: int) {
    && e.Appends? && !s.closed && s.card && s.pending.Some?
    && Quiet(s, throttle, e.at) && !Quiet(s, LongGap + 1, e.at)
  }

  predicate NoneOvertakes(s: Stream, es: seq<Event>, throttle: int)
    decreases |es|
  {
    es == [] || (!Overtakes(s, es[0], throttle) && NoneOvertakes(Step(s, es[0], throttle), es[1..], throttle))
  }

  /** Captures but the final one are a throttle apart. */
  ghost predicate Apart(captures: seq<Capture>, throttle: int) {
    forall i :: 0 < i < |captures| && !captures[i].final ==> captures[i].at - captures[i - 1].at >= throttle
  }

  ghost predicate Paced(s: Stream, throttle: int, clock: int) {
    && Apart(s.captures, throttle)
    && (!s.closed ==> s.lastUpdate == if s.captures == [] then None else Some(s.captures[|s.captures| - 1].at))
    && (s.lastUpdate.Some? ==> s.lastUpdate.value <= clock)
    && (s.pending.Some? && s.lastUpdate.Some? ==>
          var wait := s.pending.value - s.lastUpdate.value;
          wait == throttle || (wait > LongGap + BatchWait && wait >= throttle && clock - s.lastUpdate.value > LongGap))
  }

  lemma StepPaced(s: Stream, e: Event, throttle: int, clock: int)
    requires Inv(s) && Paced(s, throttle, clock) && TimeOf(e, clock) >= clock && !Overtakes(s, e, throttle)
    ensures Paced(Step(s, e, throttle), throttle, TimeOf(e, clock))
  {
    hide Apart;
    match e
    case Appends(delta, at) => CaptureApart(s.captures, Capture(s.accumulated + delta, at, false), throttle);
    case Fires(at) => CaptureApart(s.captures, Capture(s.accumulated, at, false), throttle);
    case Finishes(text, at) => CaptureApart(s.captures, Capture(if text != "" then text else s.accumulated, at, true), throttle);
    case Fails(text, at) => CaptureApart(s.captures, Capture(text, at, true), throttle);
    case Aborts(at) => CaptureApart(s.captures, Capture(s.accumulated, at, true), throttle);
    case Dogs(at) => CaptureApart(s.captures, Capture(s.accumulated, at, true), throttle);
    case Issues(_) =>
  }

  /** One more capture: final, the first, or a throttle after the last. */
  lemma CaptureApart(captures: seq<Capture>, c: Capture, throttle: int)
    requires Apart(captures, throttle)
    ensures c.final || captures == [] || c.at - captures[|captures| - 1].at >= throttle ==> Apart(captures + [c], throttle)
  {
  }

  /** If no append overtakes an overdue flush, captures are a throttle apart on the whole run. */
  lemma {:induction false} RunPaced(s: Stream, es: seq<Event>, throttle: int, clock: int)
    requires Inv(s) && Paced(s, throttle, clock) && Monotone(es, clock) && NoneOvertakes(s, es, throttle)
    ensures Apart(Run(s, es, throttle).captures, throttle)
    decreases |es|
  {
    if es != [] {
      StepKeeps(s, es[0], throttle);
      StepPaced(s, es[0], throttle, clock);
      RunPaced(Step(s, es[0], throttle), es[1..], throttle, TimeOf(es[0], clock));
    }
  }

  lemma FromOpened(card: bool, es: seq<Event>, throttle: int, clock: int)
    ensures Inv(Run(Opened(card), es, throttle))
    ensures Monotone(es, clock) && NoneOvertakes(Opened(card), es, throttle) ==> Apart(Run(Opened(card), es, throttle).captures, throttle)
  {
    RunKeeps(Opened(card), es, throttle);
    if Monotone(es, clock) && NoneOvertakes(Opened(card), es, throttle) {
      RunPaced(Opened(card), es, throttle, clock);
    }
  }

  /** Where nothing has been overtaken yet: an append that overtakes, and only such an append, lets
      the waiting flush capture again at once. */
  lemma OvertakingBreaksThrottle(s: Stream, e: Event, throttle: int, clock: int)
    requires Inv(s) && Paced(s, throttle, clock) && TimeOf(e, clock) >= clock && e.Appends? && throttle > 0
    ensures Overtakes(s, e, throttle) <==> !Apart(Run(s, [e, Fires(e.at)], throttle).captures, throttle)
  {
    var s1 := Step(s, e, throttle);
    var s2 := Step(s1, Fires(e.at), throttle);
    RunTwo(s, e, Fires(e.at), throttle);
    if Overtakes(s, e, throttle) {
      OvertakingIsLate(s, e, throttle, clock);
      var n := |s2.captures|;
      assert s2.captures[n - 1].at == s2.captures[n - 2].at;
    } else {
      StepKeeps(s, e, throttle);
      StepPaced(s, e, throttle, clock);
      StepPaced(s1, Fires(e.at), throttle, e.at);
    }
  }

  /** Such an append is reachable: with a throttle of 800 the flush due at 1100 is overtaken by an
      append at 1100, and both capture then. */
  lemma ThrottleBreaks()
    ensures var es := [Appends("a", 0), Fires(300), Appends("b", 400)];
      && Monotone(es, 0) && Overtakes(Run(Opened(true), es, 800), Appends("c", 1100), 800)
      && !Apart(Run(Run(Opened(true), es, 800), [Appends("c", 1100), Fires(1100)], 800).captures, 800)
  {
    var es := [Appends("a", 0), Fires(300), Appends("b", 400)];
    assert es[1..] == [Fires(300), Appends("b", 400)] && es[1..][1..] == [Appends("b", 400)] && es[1..][1..][1..] == [];
    var s1 := Step(Opened(true), Appends("a", 0), 800);
    var s2 := Step(s1, Fires(300), 800);
    var s3 := Step(s2, Appends("b", 400), 800);
    assert Run(s3, [], 800) == s3;
    assert Run(s2, [Appends("b", 400)], 800) == s3;
    assert Run(s1, es[1..], 800) == s3;
    assert "" + "a" == "a" && [] + [Capture("a", 300, false)] == [Capture("a", 300, false)];
    assert s2.captures == [Capture("a", 300, false)];
    assert s3.pending == Some(1100) && s3.lastUpdate == Some(300);
    FromOpened(true, es, 800, 0);
    OvertakingBreaksThrottle(s3, Appends("c", 1100), 800, 400);
  }

  lemma OvertakingIsLate(s: Stream, e: Event, throttle: int, clock: int)
    requires Paced(s, throttle, clock) && TimeOf(e, clock) >= clock && Overtakes(s, e, throttle)
    ensures s.lastUpdate.Some? && s.pending.value <= e.at
  {
  }

  lemma RunTwo(s: Stream, e: Event, f: Event, throttle: int)
    ensures Run(s, [e, f], throttle) == Step(Step(s, e, throttle), f, throttle)
  {
    hide Step;
    var s1 := Step(s, e, throttle);
    assert [e, f][1..] == [f];
    assert [f][1..] == [];
    assert Run(s1, [f], throttle) == Run(Step(s1, f, throttle), [], throttle);
  }
}
