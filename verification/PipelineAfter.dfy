/** At most once when marking waits for the handler: exactly which gates admit an id again that was
    handled before, and why no id is handled twice when none does. */
module PipelineAfter {
  import opened Options
  import opened Messages
  import opened Pipeline
  import opened PipelineOnce
  import S = SeenRuns
  import R = Recency
  import L = ProcessingLocks
  import P = PipelineSafety

  // ---------- the race ----------

  /** A finished call has still to mark id. */
  predicate OwesMark(act: Activity, id: string) {
    act.Closing? && exists g :: g in act.marks && id in g
  }

  ghost predicate Owed(s: Sys, id: string) {
    exists a :: a in s.acts && OwesMark(s.acts[a], id)
  }

  /** The race: the gate takes the lock on an id that a finished call has still to mark, or that was
      marked since this push checked the cache. */
  ghost predicate GateRacy(s: Sys, cfg: Config, step: Step) {
    GateTakes(s, cfg, step) &&
    var th := s.threads[step.t];
    var id := Name(th.item);
    id != "" && (Owed(s, id) || (id in s.seen.marks && th.at <= s.seen.marks[id]))
  }

  ghost predicate GateRaces(s: Sys, cfg: Config, steps: seq<Step>)
    decreases |steps|
  {
    steps != [] && (GateRacy(s, cfg, steps[0]) || GateRaces(Next(s, cfg, steps[0]), cfg, steps[1..]))
  }

  /** The gate takes the lock on an id that has been handled and is not forgotten: it is still to be
      marked, or was marked less than TTL ago. */
  ghost predicate Again(s: Sys, cfg: Config, step: Step) {
    GateTakes(s, cfg, step) &&
    var id := Name(s.threads[step.t].item);
    id != "" && (Owed(s, id) || (id in s.seen.marks && step.now < s.seen.marks[id] + cfg.seenTtl))
  }

  ghost predicate AgainOnRun(s: Sys, cfg: Config, steps: seq<Step>)
    decreases |steps|
  {
    steps != [] && (Again(s, cfg, steps[0]) || AgainOnRun(Next(s, cfg, steps[0]), cfg, steps[1..]))
  }

  /** A push comes to the gate less than TTL after its check. */
  predicate Swift(s: Sys, cfg: Config, step: Step) {
    step.Gate? && step.t in s.threads && s.threads[step.t].Cleared? ==> step.now < s.threads[step.t].at + cfg.seenTtl
  }

  predicate SwiftRun(s: Sys, cfg: Config, steps: seq<Step>)
    decreases |steps|
  {
    steps == [] || (Swift(s, cfg, steps[0]) && SwiftRun(Next(s, cfg, steps[0]), cfg, steps[1..]))
  }

  // ---------- what a push knows since its check ----------

  /** Each key of a push was marked since its check, or a TTL before it, or never. */
  ghost predicate Looked(th: Thread, marks: map<string, int>, ttl: int)
    requires th.Cleared?
  {
    forall k :: k in th.keys && k != "" && k in marks ==> th.at <= marks[k] || marks[k] + ttl <= th.at
  }

  ghost predicate LookInv(s: Sys, cfg: Config, clock: int) {
    && Named(s) && NoneUnmarked(s)
    && forall t :: t in s.threads && s.threads[t].Cleared? ==>
         s.threads[t].at <= clock && Looked(s.threads[t], s.seen.marks, cfg.seenTtl)
  }

  lemma LookedStays(th: Thread, t: S.Trace, t': S.Trace, ttl: int, clock: int)
    requires th.Cleared? && Looked(th, t.marks, ttl) && th.at <= clock && Grows(t, t', clock)
    ensures Looked(th, t'.marks, ttl)
  {
  }

  ghost predicate FewerChecked(s: Sys, s': Sys) {
    forall t :: t in s'.threads && (s'.threads[t].Arrived? || Checked(s'.threads[t])) ==>
      t in s.threads && s.threads[t] == s'.threads[t]
  }

  lemma LookStays(s: Sys, s': Sys, cfg: Config, clock: int, now: int)
    requires LookInv(s, cfg, clock) && clock <= now && Grows(s.seen, s'.seen, clock)
    requires FewerChecked(s, s') || (SameChecked(s, s') && Named(s'))
    ensures LookInv(s', cfg, now)
  {
    hide Looked, Grows;
    forall t | t in s'.threads && s'.threads[t].Cleared?
      ensures s'.threads[t].at <= now && Looked(s'.threads[t], s'.seen.marks, cfg.seenTtl)
    {
      LookedStays(s'.threads[t], s.seen, s'.seen, cfg.seenTtl, clock);
    }
  }

  lemma LookAtPass(s: Sys, cfg: Config, step: Step, clock: int)
    requires Passes(s, cfg, step) && Roomy(s, cfg, step) && cfg.markAfterHandler
    requires LookInv(s, cfg, clock) && CacheOK(s.seen, cfg, clock) && clock <= step.now
    ensures LookInv(Next(s, cfg, step), cfg, step.now)
  {
    var s', t := Next(s, cfg, step), step.t;
    CheckPasses(s, cfg, step);
    LookOK(s.seen, cfg, clock, s.threads[t].keys, step.now);
    forall k | k in s.threads[t].keys && k != "" && k in s.seen.marks ensures s.seen.marks[k] + cfg.seenTtl <= step.now {
      PassedKeysOld(s, cfg, step, clock, k);
    }
    hide Passes, Roomy, CacheOK, Next, S.LookUp;
  }

  lemma LookStep(s: Sys, cfg: Config, step: Step, clock: int)
    requires LookInv(s, cfg, clock) && CacheOK(s.seen, cfg, clock) && clock <= Time(step, clock)
    requires cfg.markAfterHandler && cfg.seenMax > 0 && Roomy(s, cfg, step)
    ensures LookInv(Next(s, cfg, step), cfg, Time(step, clock)) && CacheOK(Next(s, cfg, step).seen, cfg, Time(step, clock))
  {
    var s', now := Next(s, cfg, step), Time(step, clock);
    CacheKeeps(s, cfg, step, clock);
    if Passes(s, cfg, step) {
      LookAtPass(s, cfg, step, clock);
    } else {
      OtherChecked(s, cfg, step);
      hide Next, Passes, Roomy, CacheOK;
      LookStays(s, s', cfg, clock, now);
    }
  }

  lemma {:induction false} OtherChecked(s: Sys, cfg: Config, step: Step)
    requires !Passes(s, cfg, step) && NoneUnmarked(s) && Named(s)
    ensures FewerChecked(s, Next(s, cfg, step)) || (SameChecked(s, Next(s, cfg, step)) && Named(Next(s, cfg, step)))
  {
    hide Passes;
    if IsCalm(step) {
      CalmSteps(s, cfg, step);
      hide Next, SameChecked, Named;
    } else {
      LessChecked(s, cfg, step);
      hide Next, FewerChecked, SameChecked, Named;
    }
  }

  lemma {:induction false} LessChecked(s: Sys, cfg: Config, step: Step)
    requires !Passes(s, cfg, step) && NoneUnmarked(s) && !IsCalm(step)
    ensures FewerChecked(s, Next(s, cfg, step))
  {
    hide Next, Passes, GateTakes;
    if step.Check? {
      CheckFails(s, cfg, step);
    } else if step.Gate? {
      GateEffect(s, cfg, step);
    } else {
      ThreadsStay(s, cfg, step);
    }
  }

  /** A swift push is let through to an id handled before exactly when its gate races. */
  lemma AgainExactly(s: Sys, cfg: Config, step: Step, clock: int)
    requires LookInv(s, cfg, clock) && clock <= Time(step, clock) && Swift(s, cfg, step)
    ensures Again(s, cfg, step) <==> GateRacy(s, cfg, step)
  {
    hide L.Held;
    if GateTakes(s, cfg, step) {
      assert Looked(s.threads[step.t], s.seen.marks, cfg.seenTtl);
    }
  }

  lemma {:induction false} AgainExactlyOnRun(s: Sys, cfg: Config, steps: seq<Step>, clock: int)
    requires LookInv(s, cfg, clock) && CacheOK(s.seen, cfg, clock) && Monotone(steps, clock)
    requires cfg.markAfterHandler && cfg.seenMax > 0 && RoomyRun(s, cfg, steps) && SwiftRun(s, cfg, steps)
    ensures AgainOnRun(s, cfg, steps) <==> GateRaces(s, cfg, steps)
    decreases |steps|
  {
    hide LookInv, CacheOK, Again, GateRacy, Roomy, Swift, Next;
    if steps != [] {
      AgainExactly(s, cfg, steps[0], clock);
      LookStep(s, cfg, steps[0], clock);
      AgainExactlyOnRun(Next(s, cfg, steps[0]), cfg, steps[1..], Time(steps[0], clock));
    }
  }

  /** Marking after the handler: on any run on which no key is crowded out of the cache and pushes
      reach the gate within a TTL, an id handled and not forgotten is admitted again exactly when a
      gate races. */
  lemma {:induction false} AdmittedAgainExactly(cfg: Config, steps: seq<Step>, clock: int)
    requires Monotone(steps, clock) && cfg.markAfterHandler && cfg.seenMax > 0
    requires RoomyRun(Idle, cfg, steps) && SwiftRun(Idle, cfg, steps)
    ensures AgainOnRun(Idle, cfg, steps) <==> GateRaces(Idle, cfg, steps)
  {
    hide AgainOnRun, GateRaces, RoomyRun, SwiftRun, Monotone;
    AgainExactlyOnRun(Idle, cfg, steps, clock);
  }

  // ---------- successes ----------

  /** Two successful calls covering the same non-empty id are at least the TTL apart. */
  ghost predicate SuccessesApart(done: seq<Success>, ttl: int) {
    forall i, j :: 0 <= i < j < |done| && done[i].id == done[j].id && done[i].id != "" ==> done[i].at + ttl <= done[j].at
  }

  predicate ReleasesLock(act: Activity, id: string) {
    act.Closing? && id in act.locks
  }

  /** The lock on id is held by a call that has finished and is about to release it. */
  ghost predicate Releasing(s: Sys, id: string) {
    exists a :: a in s.acts && ReleasesLock(s.acts[a], id)
  }

  /** A success is marked or about to be; and whoever holds the lock on its id, but for the call that
      succeeded, was admitted after it had expired. */
  ghost predicate Kept(s: Sys, cfg: Config, x: Success, clock: int) {
    && x.at <= clock
    && (x.id != "" ==>
          && (Owed(s, x.id) || (x.id in s.seen.marks && x.at <= s.seen.marks[x.id]))
          && (x.id in s.locks && !Releasing(s, x.id) ==> x.at + cfg.seenTtl <= clock))
  }

  ghost predicate SuccessInv(s: Sys, cfg: Config, clock: int) {
    SuccessesApart(s.successes, cfg.seenTtl) && forall x :: x in s.successes ==> Kept(s, cfg, x, clock)
  }

  lemma OwedStays(s: Sys, s': Sys, id: string)
    requires forall a :: a in s.acts && s.acts[a].Closing? ==> a in s'.acts && s'.acts[a] == s.acts[a]
    ensures Owed(s, id) ==> Owed(s', id)
    ensures Releasing(s, id) ==> Releasing(s', id)
  {
    hide OwesMark, ReleasesLock;
    if a :| a in s.acts && OwesMark(s.acts[a], id) {
      OnlyClosing(s.acts[a], id);
      assert a in s'.acts && OwesMark(s'.acts[a], id);
    }
    if a :| a in s.acts && ReleasesLock(s.acts[a], id) {
      OnlyClosing(s.acts[a], id);
      assert a in s'.acts && ReleasesLock(s'.acts[a], id);
    }
  }

  lemma OnlyClosing(act: Activity, id: string)
    ensures OwesMark(act, id) || ReleasesLock(act, id) ==> act.Closing?
  {
  }

  lemma MarkedStays(t: S.Trace, t': S.Trace, cfg: Config, clock: int, k: string)
    requires CacheOK(t, cfg, clock) && Grows(t, t', clock) && k in t.marks
    ensures k in t'.marks && t.marks[k] <= t'.marks[k]
  {
  }

  /** Calls go on, locks stay, and marks only grow. */
  lemma KeptStays(s: Sys, s': Sys, cfg: Config, x: Success, clock: int, now: int)
    requires Kept(s, cfg, x, clock) && CacheOK(s.seen, cfg, clock) && Grows(s.seen, s'.seen, clock) && clock <= now
    requires SameClosing(s, s') && (x.id in s'.locks ==> x.id in s.locks)
    ensures Kept(s', cfg, x, now)
  {
    hide CacheOK, Grows, Owed, Releasing;
    OwedStays(s, s', x.id);
    if x.id in s.seen.marks {
      MarkedStays(s.seen, s'.seen, cfg, clock, x.id);
    }
  }

  lemma SuccessStays(s: Sys, s': Sys, cfg: Config, clock: int, now: int)
    requires SuccessInv(s, cfg, clock) && CacheOK(s.seen, cfg, clock) && Grows(s.seen, s'.seen, clock) && clock <= now
    requires SameClosing(s, s') && s'.locks.Keys <= s.locks.Keys && s'.successes == s.successes
    ensures SuccessInv(s', cfg, now)
  {
    hide Kept, CacheOK, Grows, SameClosing, SuccessesApart;
    forall x | x in s'.successes ensures Kept(s', cfg, x, now) {
      KeptStays(s, s', cfg, x, clock, now);
    }
  }

  /** A gate that does not race lets no id through that succeeded less than TTL ago. */
  lemma SuccessAtGate(s: Sys, cfg: Config, step: Step, clock: int)
    requires GateTakes(s, cfg, step) && !GateRacy(s, cfg, step)
    requires SuccessInv(s, cfg, clock) && LookInv(s, cfg, clock) && CacheOK(s.seen, cfg, clock) && clock <= step.now
    ensures SuccessInv(Next(s, cfg, step), cfg, step.now)
  {
    var s', id := Next(s, cfg, step), Name(s.threads[step.t].item);
    GateEffect(s, cfg, step);
    hide L.Held, Next, CacheOK, GateTakes;
    forall x | x in s'.successes ensures Kept(s', cfg, x, step.now) {
      assert Kept(s, cfg, x, clock);
      OwedStays(s, s', x.id);
      if x.id == id {
        assert Looked(s.threads[step.t], s.seen.marks, cfg.seenTtl);
      }
    }
  }

  /** What a call in progress claims is locked, and claimed once. */
  lemma CallClaims(s: Sys, a: ActivityID, id: string)
    requires Balanced(s) && a in s.acts && s.acts[a].Handling?
    ensures id in s.acts[a].call.locks ==> id in s.locks && multiset(s.acts[a].call.locks)[id] == 1
  {
    var call := s.acts[a].call;
    assert BalancedAt(s, id);
    P.HandlingCounts(call, id);
    SumRemove(s.acts, a, HoldActivity);
    hide HoldActivity;
  }

  lemma {:induction false} SuccessAt(ids: seq<string>, now: int, i: nat)
    requires i < |ids|
    ensures |Successes(ids, now)| == |ids| && Successes(ids, now)[i] == Success(ids[i], now)
  {
    if i > 0 {
      SuccessAt(ids[1..], now, i - 1);
    } else if |ids| > 1 {
      SuccessAt(ids[1..], now, 0);
    }
  }

  lemma SuccessesOf(ids: seq<string>, now: int)
    ensures |Successes(ids, now)| == |ids|
    ensures forall i :: 0 <= i < |ids| ==> Successes(ids, now)[i] == Success(ids[i], now)
  {
    forall i | 0 <= i < |ids| ensures |Successes(ids, now)| == |ids| && Successes(ids, now)[i] == Success(ids[i], now) {
      SuccessAt(ids, now, i);
    }
  }

  lemma OnceInSeq(ids: seq<string>, i: nat, j: nat)
    requires i < j < |ids| && multiset(ids)[ids[i]] == 1
    ensures ids[i] != ids[j]
  {
    assert ids == ids[..i] + [ids[i]] + ids[i + 1..];
    assert ids[j] in ids[i + 1..];
  }

  /** Only the call itself claims the ids it covers. */
  lemma SoleClaim(s: Sys, a: ActivityID, id: string)
    requires Balanced(s) && a in s.acts && s.acts[a].Handling? && id in s.acts[a].call.locks
    ensures id in s.locks && multiset(s.acts[a].call.locks)[id] == 1 && !Releasing(s, id)
  {
    CallClaims(s, a, id);
    P.HandlingCounts(s.acts[a].call, id);
    if b :| b in s.acts && ReleasesLock(s.acts[b], id) {
      P.ClosingCounts(s.acts[b].locks, s.acts[b].marks, id);
      P.Exclusion(s, a, b, id);
      assert false;
    }
  }

  lemma SuccessAtReturn(s: Sys, cfg: Config, a: ActivityID, ok: bool, now: int, clock: int)
    requires SuccessInv(s, cfg, clock) && Balanced(s) && CallsCovered(s) && clock <= now && cfg.markAfterHandler
    requires a in s.acts && s.acts[a].Handling?
    ensures SuccessInv(ReturnStep(s, cfg, a, ok, now), cfg, now)
  {
    var s', call := ReturnStep(s, cfg, a, ok, now), s.acts[a].call;
    SuccessesOf(call.locks, now);
    hide Balanced, CallsCovered, Covered;
    forall x | x in s'.successes ensures Kept(s', cfg, x, now) {
      if x in s.successes {
        KeptAtReturn(s, s', cfg, x, clock, now);
      } else {
        var i :| 0 <= i < |call.locks| && x == Success(call.locks[i], now);
        NewSuccess(s, s', cfg, a, call.locks[i], now);
      }
    }
    if ok {
      NewApart(s, s', cfg, a, now, clock);
    }
  }

  lemma KeptAtReturn(s: Sys, s': Sys, cfg: Config, x: Success, clock: int, now: int)
    requires Kept(s, cfg, x, clock) && clock <= now && s'.seen == s.seen && s'.locks == s.locks
    requires forall a :: a in s.acts && s.acts[a].Closing? ==> a in s'.acts && s'.acts[a] == s.acts[a]
    ensures Kept(s', cfg, x, now)
  {
    hide Owed, Releasing;
    OwedStays(s, s', x.id);
  }

  /** The call that succeeded owes the mark and holds the lock. */
  lemma NewSuccess(s: Sys, s': Sys, cfg: Config, a: ActivityID, id: string, now: int)
    requires CallsCovered(s) && a in s.acts && s.acts[a].Handling? && id in s.acts[a].call.locks
    requires a in s'.acts && s'.acts[a] == Closing(s.acts[a].call.locks, s.acts[a].call.marks)
    ensures Kept(s', cfg, Success(id, now), now)
  {
    var g :| g in s.acts[a].call.marks && id in g;
    assert OwesMark(s'.acts[a], id) && ReleasesLock(s'.acts[a], id);
  }

  lemma NewApart(s: Sys, s': Sys, cfg: Config, a: ActivityID, now: int, clock: int)
    requires SuccessInv(s, cfg, clock) && Balanced(s) && clock <= now && a in s.acts && s.acts[a].Handling?
    requires s'.successes == s.successes + Successes(s.acts[a].call.locks, now)
    ensures SuccessesApart(s'.successes, cfg.seenTtl)
  {
    var ids, n := s.acts[a].call.locks, |s.successes|;
    SuccessesOf(ids, now);
    forall id | id in ids ensures id in s.locks && multiset(ids)[id] == 1 && !Releasing(s, id) {
      SoleClaim(s, a, id);
    }
    hide Balanced, Owed, Releasing;
    forall i, j | 0 <= i < j < |s'.successes| && s'.successes[i].id == s'.successes[j].id && s'.successes[i].id != ""
      ensures s'.successes[i].at + cfg.seenTtl <= s'.successes[j].at
    {
      if i < n <= j {
        assert s'.successes[j] == Success(ids[j - n], now);
        assert s.successes[i] in s.successes && Kept(s, cfg, s.successes[i], clock);
      } else if n <= i {
        OnceInSeq(ids, i - n, j - n);
      }
    }
  }

  // ---------- the end of a call ----------

  lemma KeptAtRelease(s: Sys, s': Sys, cfg: Config, a: ActivityID, x: Success, clock: int, now: int)
    requires Kept(s, cfg, x, clock) && clock <= now
    requires a in s.acts && s.acts[a].Closing? && s.acts[a].locks != []
    requires s'.seen == s.seen && s'.locks == s.locks - {s.acts[a].locks[0]}
    requires s'.acts == s.acts[a := Closing(s.acts[a].locks[1..], s.acts[a].marks)]
    ensures Kept(s', cfg, x, now)
  {
    var locks := s.acts[a].locks;
    if b :| b in s.acts && OwesMark(s.acts[b], x.id) {
      assert b in s'.acts && OwesMark(s'.acts[b], x.id);
    }
    if x.id in s'.locks {
      if b :| b in s.acts && ReleasesLock(s.acts[b], x.id) {
        assert locks == [locks[0]] + locks[1..];
        assert b in s'.acts && ReleasesLock(s'.acts[b], x.id);
      }
    }
  }

  lemma KeptAtClosingMark(s: Sys, s': Sys, cfg: Config, a: ActivityID, x: Success, clock: int, now: int)
    requires Kept(s, cfg, x, clock) && CacheOK(s.seen, cfg, clock) && clock <= now && cfg.seenMax > 0
    requires a in s.acts && s.acts[a].Closing? && s.acts[a].locks == [] && s.acts[a].marks != []
    requires s'.seen == S.MarkKeys(s.seen, s.acts[a].marks[0], now, cfg.seenTtl, cfg.seenMax) && s'.locks == s.locks
    requires s'.acts == s.acts[a := Closing([], s.acts[a].marks[1..])]
    ensures Kept(s', cfg, x, now)
  {
    var marks := s.acts[a].marks;
    MarkOK(s.seen, cfg, clock, now, marks[0]);
    hide CacheOK, S.MarkKeys;
    assert marks == [marks[0]] + marks[1..];
    if x.id != "" {
      if b :| b in s.acts && OwesMark(s.acts[b], x.id) {
        if b != a {
          assert b in s'.acts && OwesMark(s'.acts[b], x.id);
        } else {
          var g :| g in marks && x.id in g;
          if g != marks[0] {
            assert g in marks[1..] && OwesMark(s'.acts[a], x.id);
          }
        }
      } else {
        MarkedStays(s.seen, s'.seen, cfg, clock, x.id);
      }
      if b :| b in s.acts && ReleasesLock(s.acts[b], x.id) {
        assert b in s'.acts && ReleasesLock(s'.acts[b], x.id);
      }
    }
  }

  lemma KeptAtEnd(s: Sys, s': Sys, cfg: Config, a: ActivityID, x: Success, clock: int, now: int)
    requires Kept(s, cfg, x, clock) && clock <= now
    requires a in s.acts && s.acts[a] == Closing([], []) && s' == s.(acts := s.acts - {a})
    ensures Kept(s', cfg, x, now)
  {
    if b :| b in s.acts && OwesMark(s.acts[b], x.id) {
      assert b in s'.acts && OwesMark(s'.acts[b], x.id);
    }
    if b :| b in s.acts && ReleasesLock(s.acts[b], x.id) {
      assert b in s'.acts && ReleasesLock(s'.acts[b], x.id);
    }
  }

  lemma SuccessAtClose(s: Sys, cfg: Config, a: ActivityID, now: int, clock: int)
    requires SuccessInv(s, cfg, clock) && CacheOK(s.seen, cfg, clock) && clock <= now && cfg.seenMax > 0
    requires a in s.acts && s.acts[a].Closing?
    ensures SuccessInv(CloseStep(s, cfg, a, now), cfg, now)
  {
    var s' := CloseStep(s, cfg, a, now);
    hide Kept, CacheOK, SuccessesApart, S.MarkKeys;
    forall x | x in s'.successes ensures Kept(s', cfg, x, now) {
      if s.acts[a].locks != [] {
        KeptAtRelease(s, s', cfg, a, x, clock, now);
      } else if s.acts[a].marks != [] {
        KeptAtClosingMark(s, s', cfg, a, x, clock, now);
      } else {
        KeptAtEnd(s, s', cfg, a, x, clock, now);
      }
    }
  }

  // ---------- the whole run ----------

  ghost predicate AfterInv(s: Sys, cfg: Config, clock: int) {
    P.Inv(s) && CallsCovered(s) && LookInv(s, cfg, clock) && CacheOK(s.seen, cfg, clock) && SuccessInv(s, cfg, clock)
  }

  lemma CoveredStep(s: Sys, cfg: Config, step: Step)
    requires CallsCovered(s)
    ensures CallsCovered(Next(s, cfg, step))
  {
    if IsCalm(step) {
      CalmSteps(s, cfg, step);
      hide Next;
    } else if step.Gate? {
      GateEffect(s, cfg, step);
      hide Next;
    } else if step.Check? {
      ActsAtCheck(s, cfg, step);
      hide Next;
    } else {
      CoveredAtEnd(s, cfg, step);
    }
  }

  lemma CoveredAtEnd(s: Sys, cfg: Config, step: Step)
    requires CallsCovered(s) && !IsCalm(step) && !step.Gate? && !step.Check?
    ensures CallsCovered(Next(s, cfg, step))
  {
    NextIs(s, cfg, step);
    hide Covered, S.MarkKeys, Next;
  }

  lemma ActsAtCheck(s: Sys, cfg: Config, step: Step)
    requires step.Check?
    ensures var s' := Next(s, cfg, step); s'.acts == s.acts && s'.locks == s.locks && s'.successes == s.successes
  {
    if Passes(s, cfg, step) {
      CheckPasses(s, cfg, step);
    } else {
      CheckFails(s, cfg, step);
    }
  }

  lemma {:induction false} SuccessStep(s: Sys, cfg: Config, step: Step, clock: int)
    requires AfterInv(s, cfg, clock) && clock <= Time(step, clock) && Timely(s, step)
    requires cfg.markAfterHandler && cfg.seenMax > 0 && Roomy(s, cfg, step) && !GateRacy(s, cfg, step)
    ensures SuccessInv(Next(s, cfg, step), cfg, Time(step, clock))
  {
    var s', now := Next(s, cfg, step), Time(step, clock);
    CacheKeeps(s, cfg, step, clock);
    if GateTakes(s, cfg, step) {
      SuccessAtGate(s, cfg, step, clock);
    } else if step.Return? && step.a in s.acts && s.acts[step.a].Handling? {
      hide Next, LookInv, GateRacy, Roomy;
      SuccessReturned(s, cfg, step, clock);
    } else if step.Close? && step.a in s.acts && s.acts[step.a].Closing? {
      SuccessClosed(s, cfg, step, clock);
    } else {
      OtherSuccess(s, cfg, step);
      hide Next, P.Inv, LookInv, GateRacy, Roomy, GateTakes, CallsCovered;
      SuccessStays(s, s', cfg, clock, now);
    }
  }

  lemma SuccessReturned(s: Sys, cfg: Config, step: Step, clock: int)
    requires P.Inv(s) && CallsCovered(s) && SuccessInv(s, cfg, clock) && step.Return? && clock <= step.now && cfg.markAfterHandler
    requires step.a in s.acts && s.acts[step.a].Handling?
    ensures SuccessInv(Next(s, cfg, step), cfg, step.now)
  {
    hide SuccessInv, CallsCovered;
    SuccessAtReturn(s, cfg, step.a, step.ok, step.now, clock);
  }

  lemma SuccessClosed(s: Sys, cfg: Config, step: Step, clock: int)
    requires SuccessInv(s, cfg, clock) && CacheOK(s.seen, cfg, clock) && step.Close? && clock <= step.now && cfg.seenMax > 0
    requires step.a in s.acts && s.acts[step.a].Closing?
    ensures SuccessInv(Next(s, cfg, step), cfg, step.now)
  {
    hide SuccessInv, CacheOK;
    SuccessAtClose(s, cfg, step.a, step.now, clock);
  }

  lemma {:induction false} OtherSuccess(s: Sys, cfg: Config, step: Step)
    requires !GateTakes(s, cfg, step)
    requires !(step.Return? && step.a in s.acts && s.acts[step.a].Handling?)
    requires !(step.Close? && step.a in s.acts && s.acts[step.a].Closing?)
    ensures var s' := Next(s, cfg, step);
      SameClosing(s, s') && s'.locks.Keys <= s.locks.Keys && s'.successes == s.successes
  {
    if IsCalm(step) {
      CalmSteps(s, cfg, step);
      hide Next;
    } else if step.Gate? {
      GateEffect(s, cfg, step);
      hide Next, GateTakes;
    } else if step.Check? {
      ActsAtCheck(s, cfg, step);
      hide Next, GateTakes;
    } else {
      hide GateTakes;
      SuccessesStay(s, cfg, step);
      hide Next;
    }
  }

  lemma SuccessesStay(s: Sys, cfg: Config, step: Step)
    requires step.MarkSeen? || step.SweepSeen? || step.SweepLocks? || step.Return? || step.Close?
    requires step.Return? ==> !(step.a in s.acts && s.acts[step.a].Handling?)
    requires step.Close? ==> !(step.a in s.acts && s.acts[step.a].Closing?)
    ensures var s' := Next(s, cfg, step);
      s'.acts == s.acts && s'.locks.Keys <= s.locks.Keys && s'.successes == s.successes
  {
    NextIs(s, cfg, step);
    hide S.MarkKeys, Next;
  }

  lemma AfterStep(s: Sys, cfg: Config, step: Step, clock: int)
    requires AfterInv(s, cfg, clock) && clock <= Time(step, clock) && Timely(s, step)
    requires cfg.markAfterHandler && cfg.seenMax > 0 && Roomy(s, cfg, step) && !GateRacy(s, cfg, step)
    ensures AfterInv(Next(s, cfg, step), cfg, Time(step, clock))
  {
    SuccessStep(s, cfg, step, clock);
    hide Next, Timely, CallsCovered, LookInv, CacheOK, SuccessInv, Roomy, GateRacy, P.Inv;
    P.NextKeeps(s, cfg, step);
    CoveredStep(s, cfg, step);
    LookStep(s, cfg, step, clock);
  }

  lemma {:induction false} AfterRun(s: Sys, cfg: Config, steps: seq<Step>, clock: int)
    requires AfterInv(s, cfg, clock) && Monotone(steps, clock) && TimelyRun(s, cfg, steps)
    requires cfg.markAfterHandler && cfg.seenMax > 0 && RoomyRun(s, cfg, steps) && !GateRaces(s, cfg, steps)
    ensures SuccessesApart(Run(s, cfg, steps).successes, cfg.seenTtl)
    decreases |steps|
  {
    if steps != [] {
      hide AfterInv, SuccessesApart, GateRacy, Roomy, Timely, Next;
      AfterStep(s, cfg, steps[0], clock);
      AfterRun(Next(s, cfg, steps[0]), cfg, steps[1..], Time(steps[0], clock));
    }
  }

  /** Marking after the handler: on any run in which no claim outlives the lock TTL, no key is crowded
      out of the cache and no gate races, no message or action is handled successfully twice within
      the dedup TTL, alone or as part of a batch. */
  lemma {:induction false} AfterAtMostOnce(cfg: Config, steps: seq<Step>, clock: int)
    requires Monotone(steps, clock) && TimelyRun(Idle, cfg, steps)
    requires cfg.markAfterHandler && cfg.seenMax > 0 && RoomyRun(Idle, cfg, steps) && !GateRaces(Idle, cfg, steps)
    ensures SuccessesApart(Run(Idle, cfg, steps).successes, cfg.seenTtl)
  {
    IdleReady(cfg, clock);
    hide AfterInv, Run, GateRaces, RoomyRun, TimelyRun, Monotone;
    AfterRun(Idle, cfg, steps, clock);
  }

  lemma IdleReady(cfg: Config, clock: int)
    ensures AfterInv(Idle, cfg, clock)
  {
  }

  // ---------- admissions and finishes at once ----------

  ghost predicate NoneClosing(s: Sys) {
    forall a :: a in s.acts ==> !s.acts[a].Closing?
  }

  /** A gate follows its push's check at once, and no call is then half finished. `checked` is the
      thread that passed its check in the last step. */
  ghost predicate AdmittedAtOnce(s: Sys, cfg: Config, steps: seq<Step>, checked: Option<nat>)
    decreases |steps|
  {
    steps == [] ||
    (&& (steps[0].Gate? ==> checked == Some(steps[0].t) && NoneClosing(s))
     && AdmittedAtOnce(Next(s, cfg, steps[0]), cfg, steps[1..], if Passes(s, cfg, steps[0]) then Some(steps[0].t) else None))
  }

  /** What the thread that checked last knows: none of its keys was marked since. */
  ghost predicate Fresh(s: Sys, checked: Option<nat>) {
    checked.Some? && checked.value in s.threads && s.threads[checked.value].Cleared? ==>
      var th := s.threads[checked.value];
      forall k :: k in th.keys && k != "" && k in s.seen.marks ==> s.seen.marks[k] < th.at
  }

  lemma FreshAtCheck(s: Sys, cfg: Config, step: Step, clock: int)
    requires Passes(s, cfg, step) && CacheOK(s.seen, cfg, clock) && clock <= Time(step, clock) && Roomy(s, cfg, step)
    requires cfg.markAfterHandler && cfg.seenTtl > 0
    ensures Fresh(Next(s, cfg, step), Some(step.t))
  {
    CheckPasses(s, cfg, step);
    LookOK(s.seen, cfg, clock, s.threads[step.t].keys, step.now);
    forall k | k in s.threads[step.t].keys && k != "" && k in s.seen.marks ensures s.seen.marks[k] < step.now {
      PassedKeysOld(s, cfg, step, clock, k);
    }
    hide Next, Passes, CacheOK, Roomy, S.LookUp;
  }

  lemma FreshIsNoRace(s: Sys, cfg: Config, step: Step)
    requires step.Gate? && Fresh(s, Some(step.t)) && NoneClosing(s) && Named(s)
    ensures !GateRacy(s, cfg, step)
  {
    hide L.Held;
  }

  /** When pushes go from check to gate, and calls from return to their last mark, without
      interruption, no gate races, whatever else interleaves. */
  lemma {:induction false} AdmittedAtOnceDoesNotRace(s: Sys, cfg: Config, steps: seq<Step>, clock: int, checked: Option<nat>)
    requires LookInv(s, cfg, clock) && CacheOK(s.seen, cfg, clock) && Monotone(steps, clock) && RoomyRun(s, cfg, steps)
    requires cfg.markAfterHandler && cfg.seenMax > 0 && cfg.seenTtl > 0
    requires AdmittedAtOnce(s, cfg, steps, checked) && Fresh(s, checked)
    ensures !GateRaces(s, cfg, steps)
    decreases |steps|
  {
    if steps != [] {
      var step := steps[0];
      if step.Gate? {
        FreshIsNoRace(s, cfg, step);
      }
      LookStep(s, cfg, step, clock);
      if Passes(s, cfg, step) {
        FreshAtCheck(s, cfg, step, clock);
      }
      hide Next, LookInv, CacheOK, Roomy, Passes, GateRacy, NoneClosing;
      assert Fresh(Next(s, cfg, step), None);
      AdmittedAtOnceDoesNotRace(Next(s, cfg, step), cfg, steps[1..], Time(step, clock), if Passes(s, cfg, step) then Some(step.t) else None);
    }
  }

  // ---------- where marks come from ----------

  function KeysIn(groups: seq<seq<string>>): set<string> {
    set g, k | g in groups && k in g :: k
  }

  /** The keys of the calls that succeed during a run. */
  function Succeeded(s: Sys, cfg: Config, steps: seq<Step>): set<string>
    decreases |steps|
  {
    if steps == [] then {} else SucceedsNow(s, steps[0]) + Succeeded(Next(s, cfg, steps[0]), cfg, steps[1..])
  }

  function SucceedsNow(s: Sys, step: Step): set<string> {
    if step.Return? && step.ok && step.a in s.acts && s.acts[step.a].Handling? then KeysIn(s.acts[step.a].call.marks) else {}
  }

  /** Every mark made, and every mark still owed by a finished call, is of a key in `known`. */
  ghost predicate MarksKnown(s: Sys, known: set<string>) {
    && NoneUnmarked(s) && s.seen.marks.Keys <= known
    && forall a :: a in s.acts && s.acts[a].Closing? ==> KeysIn(s.acts[a].marks) <= known
  }

  lemma MarksAdded(t: S.Trace, keys: seq<string>, now: int, cfg: Config, known: set<string>)
    requires t.marks.Keys <= known && forall k :: k in keys ==> k in known
    ensures S.MarkKeys(t, keys, now, cfg.seenTtl, cfg.seenMax).marks.Keys <= known
  {
    S.MarkKeysMarks(t, keys, now, cfg.seenTtl, cfg.seenMax);
    S.MarkAllMeaning(t.marks, keys, now);
  }

  lemma LookAddsNothing(t: S.Trace, keys: seq<string>, now: int)
    ensures S.LookUp(t, keys, now).0.marks == t.marks
  {
  }

  lemma KnownAtClose(s: Sys, cfg: Config, a: ActivityID, now: int, known: set<string>)
    requires MarksKnown(s, known) && a in s.acts && s.acts[a].Closing?
    ensures MarksKnown(CloseStep(s, cfg, a, now), known)
  {
    var marks := s.acts[a].marks;
    if s.acts[a].locks == [] && marks != [] {
      assert forall k :: k in marks[0] ==> k in KeysIn(marks);
      assert KeysIn(marks[1..]) <= KeysIn(marks);
      MarksAdded(s.seen, marks[0], now, cfg, known);
    }
    hide S.MarkKeys, KeysIn;
  }

  lemma KnownAtReturn(s: Sys, cfg: Config, step: Step, known: set<string>)
    requires MarksKnown(s, known) && step.Return?
    ensures MarksKnown(ReturnStep(s, cfg, step.a, step.ok, step.now), known + SucceedsNow(s, step))
  {
    assert KeysIn([]) == {};
    hide KeysIn;
  }

  lemma KnownStep(s: Sys, cfg: Config, step: Step, known: set<string>)
    requires MarksKnown(s, known) && cfg.markAfterHandler
    ensures MarksKnown(Next(s, cfg, step), known + SucceedsNow(s, step))
  {
    hide KeysIn, Next;
    NextIs(s, cfg, step);
    if step.Return? {
      KnownAtReturn(s, cfg, step, known);
    } else if step.Close? && step.a in s.acts && s.acts[step.a].Closing? {
      hide CloseStep;
      KnownAtClose(s, cfg, step.a, step.now, known);
    } else {
      hide CloseStep, MarkStep;
      KnownElsewhere(s, cfg, step);
    }
  }

  /** No other step marks anything or ends a call. */
  lemma {:induction false} KnownElsewhere(s: Sys, cfg: Config, step: Step)
    requires NoneUnmarked(s) && cfg.markAfterHandler && !step.Return?
    requires !(step.Close? && step.a in s.acts && s.acts[step.a].Closing?)
    ensures var s' := Next(s, cfg, step);
      NoneUnmarked(s') && SameClosing(s, s') && s'.seen.marks == s.seen.marks
  {
    hide Next;
    if IsCalm(step) {
      CalmSteps(s, cfg, step);
    } else if step.Gate? {
      GateEffect(s, cfg, step);
      hide GateTakes;
    } else if step.Check? {
      ChecksMarkNothing(s, cfg, step);
    } else {
      NextIs(s, cfg, step);
    }
  }

  lemma ChecksMarkNothing(s: Sys, cfg: Config, step: Step)
    requires NoneUnmarked(s) && cfg.markAfterHandler && step.Check?
    ensures var s' := Next(s, cfg, step); NoneUnmarked(s') && s'.acts == s.acts && s'.seen.marks == s.seen.marks
  {
    var s' := Next(s, cfg, step);
    if Passes(s, cfg, step) {
      CheckPasses(s, cfg, step);
      LookAddsNothing(s.seen, s.threads[step.t].keys, step.now);
    } else {
      CheckFails(s, cfg, step);
      if s'.seen != s.seen {
        hide Next;
        var keys :| s'.seen == S.LookUp(s.seen, keys, step.now).0;
        LookAddsNothing(s.seen, keys, step.now);
      }
    }
  }

  lemma {:induction false} KnownRun(s: Sys, cfg: Config, steps: seq<Step>, known: set<string>)
    requires MarksKnown(s, known) && cfg.markAfterHandler
    ensures Run(s, cfg, steps).seen.marks.Keys <= known + Succeeded(s, cfg, steps)
    decreases |steps|
  {
    if steps != [] {
      KnownStep(s, cfg, steps[0], known);
      hide MarksKnown, Next, SucceedsNow;
      KnownRun(Next(s, cfg, steps[0]), cfg, steps[1..], known + SucceedsNow(s, steps[0]));
    }
  }

  /** When marking waits for the handler, every key ever marked is a key of a call that succeeded. */
  lemma {:induction false} MarksComeFromSuccess(cfg: Config, steps: seq<Step>)
    requires cfg.markAfterHandler
    ensures Run(Idle, cfg, steps).seen.marks.Keys <= Succeeded(Idle, cfg, steps)
  {
    KnownRun(Idle, cfg, steps, {});
  }
}
