/** Three runs from an idle pipeline, step by step, in which one event is handled successfully twice
    well within the dedup TTL: the races of PipelineOnce and PipelineAfter do happen. */
module PipelineRaces {
  import opened Options
  import opened Pipeline
  import S = SeenRuns
  import R = Recency
  import Q = QueueSpec
  import M = MediaSpec

  function Plain(markAfterHandler: bool): Config {
    Config(markAfterHandler, false, "", 1000, 1000, 100, 1000, false,
           Q.Settings(Q.BatchConfig(0, 0, 0, 1, 1), None), M.MediaConfig(false, 800, 9), s => s, m => "")
  }

  function Stops(id: M.TimerID): bool { true }

  const Item1 := Action("e", "card", [])

  /** Two pushes of event "e" have arrived. */
  const Both := Idle.(threads := map[1 := Arrived(Item1, ["e"]), 2 := Arrived(Item1, ["e"])], arrived := multiset{"e", "e"})

  const Arrivals := [ArriveAction(1, "e", "card", []), ArriveAction(2, "e", "card", [])]

  lemma BothArrive(cfg: Config)
    ensures Run(Idle, cfg, Arrivals) == Both
  {
    RunTwo(Idle, cfg, ArriveAction(1, "e", "card", []), ArriveAction(2, "e", "card", []));
    hide Run;
    assert ["e"] + [] == ["e"];
    assert multiset{} + multiset{"e"} + multiset{"e"} == multiset{"e", "e"};
    assert map[1 := Arrived(Item1, ["e"])][2 := Arrived(Item1, ["e"])] == Both.threads;
  }

  lemma LookUpEmpty()
    ensures S.LookUp(S.Start, ["e"], 0) == (S.Start, false)
  {
    assert ["e"][1..] == [];
    assert R.Probe([], "e", 0) == ([], false);
  }

  lemma {:induction false} RunAppend(s: Sys, cfg: Config, a: seq<Step>, b: seq<Step>)
    ensures Run(s, cfg, a + b) == Run(Run(s, cfg, a), cfg, b)
    decreases |a|
  {
    AppendUnfolds(a, b);
    if a != [] {
      RunAppend(Next(s, cfg, a[0]), cfg, a[1..], b);
    }
  }

  lemma RunOne(s: Sys, cfg: Config, step: Step)
    ensures Run(s, cfg, [step]) == Next(s, cfg, step)
  {
    assert [step][1..] == [];
  }

  lemma RunTwo(s: Sys, cfg: Config, x: Step, y: Step)
    ensures Run(s, cfg, [x, y]) == Next(Next(s, cfg, x), cfg, y)
  {
    RunOne(s, cfg, x);
    RunOne(Next(s, cfg, x), cfg, y);
    RunAppend(s, cfg, [x], [y]);
    assert [x] + [y] == [x, y];
  }

  /** Gate to handler of a cleared push of "e", uncontended. */
  function GoSteps(t: nat, n: nat): seq<Step> {
    [Gate(t, 0, None), Route(t, n, false, true, Stops)] + [Return(Goroutine(n), true, 0), Close(Goroutine(n), 0)]
  }

  lemma Go(s: Sys, cfg: Config, t: nat, n: nat)
    requires cfg == Plain(cfg.markAfterHandler)
    requires t in s.threads && s.threads[t] == Cleared(Item1, ["e"], 0) && "e" !in s.locks && Goroutine(n) !in s.acts
    ensures Run(s, cfg, GoSteps(t, n)) ==
      s.(threads := s.threads - {t}, delivered := s.delivered + multiset{"e"}, successes := s.successes + [Success("e", 0)],
         acts := s.acts[Goroutine(n) := Closing([], if cfg.markAfterHandler then [["e"]] else [])])
  {
    var a := Goroutine(n);
    RunAppend(s, cfg, [Gate(t, 0, None), Route(t, n, false, true, Stops)], [Return(a, true, 0), Close(a, 0)]);
    RunTwo(s, cfg, Gate(t, 0, None), Route(t, n, false, true, Stops));
    GoIn(s, cfg, t, n);
    var s2 := Next(Next(s, cfg, Gate(t, 0, None)), cfg, Route(t, n, false, true, Stops));
    hide Next, Run;
    RunTwo(s2, cfg, Return(a, true, 0), Close(a, 0));
    GoOut(s, s2, cfg, a);
  }

  const TheCall := Call(["e"], ["e"], [["e"]])

  lemma GoIn(s: Sys, cfg: Config, t: nat, n: nat)
    requires cfg == Plain(cfg.markAfterHandler)
    requires t in s.threads && s.threads[t] == Cleared(Item1, ["e"], 0) && "e" !in s.locks && Goroutine(n) !in s.acts
    ensures Next(Next(s, cfg, Gate(t, 0, None)), cfg, Route(t, n, false, true, Stops)) ==
      s.(locks := s.locks["e" := 1000], threads := s.threads - {t}, acts := s.acts[Goroutine(n) := Handling(TheCall)])
  {
    var s1 := GateStep(s, cfg, t, 0, None);
    assert s1 == s.(locks := s.locks["e" := 1000], threads := s.threads[t := Locked(Item1, ["e"])]);
    assert s1.threads - {t} == s.threads - {t};
    assert ["e"] + [] == ["e"];
  }

  lemma GoOut(s: Sys, s2: Sys, cfg: Config, a: ActivityID)
    requires "e" !in s.locks
    requires s2 == s.(locks := s.locks["e" := 1000], threads := s2.threads, acts := s.acts[a := Handling(TheCall)])
    ensures Next(Next(s2, cfg, Return(a, true, 0)), cfg, Close(a, 0)) ==
      s.(threads := s2.threads, delivered := s.delivered + multiset{"e"}, successes := s.successes + [Success("e", 0)],
         acts := s.acts[a := Closing([], if cfg.markAfterHandler then [["e"]] else [])])
  {
    var marks := if cfg.markAfterHandler then [["e"]] else [];
    var s3 := Next(s2, cfg, Return(a, true, 0));
    assert s3 == ReturnStep(s2, cfg, a, true, 0);
    ReturnOne(s2, cfg, a);
    hide ReturnStep, Next;
    assert s2.acts[a := Closing(["e"], marks)] == s.acts[a := Closing(["e"], marks)];
    CloseOne(s3, cfg, a, marks);
    assert s3.acts[a := Closing([], marks)] == s.acts[a := Closing([], marks)];
    assert s3.locks - {"e"} == s.locks;
  }

  lemma ReturnOne(s: Sys, cfg: Config, a: ActivityID)
    requires a in s.acts && s.acts[a] == Handling(TheCall)
    ensures ReturnStep(s, cfg, a, true, 0) ==
      s.(acts := s.acts[a := Closing(["e"], if cfg.markAfterHandler then [["e"]] else [])],
         delivered := s.delivered + multiset{"e"}, successes := s.successes + [Success("e", 0)])
  {
    assert Successes(["e"], 0) == [Success("e", 0)] by {
      assert ["e"][1..] == [];
    }
    assert multiset(["e"]) == multiset{"e"};
  }

  lemma CloseOne(s: Sys, cfg: Config, a: ActivityID, marks: seq<seq<string>>)
    requires a in s.acts && s.acts[a] == Closing(["e"], marks)
    ensures Next(s, cfg, Close(a, 0)) == s.(locks := s.locks - {"e"}, acts := s.acts[a := Closing([], marks)])
  {
    assert ["e"][1..] == [];
  }

  /** Marking on entry: the cache is checked and marked in two critical sections, so two pushes can
      both miss before either marks. */
  lemma EntryRace()
    ensures Run(Idle, Plain(false), Arrivals + ([Check(1, 0), Check(2, 0)] + ([MarkSeen(1, 0)] + (GoSteps(1, 1) + ([MarkSeen(2, 0)] + (GoSteps(2, 2) + [])))))).successes
      == [Success("e", 0), Success("e", 0)]
  {
    var cfg := Plain(false);
    var rest := [MarkSeen(2, 0)] + (GoSteps(2, 2) + []);
    BothArrive(cfg);
    FirstMarkedAndHandled(rest);
    hide Run, Next, GoSteps, S.MarkKeys, Arrivals, Plain, Both;
    RunAppend(Idle, cfg, Arrivals, [Check(1, 0), Check(2, 0)] + ([MarkSeen(1, 0)] + (GoSteps(1, 1) + rest)));
    RunAppend(Both, cfg, [Check(1, 0), Check(2, 0)], [MarkSeen(1, 0)] + (GoSteps(1, 1) + rest));
    var s2 := Run(Both, cfg, [Check(1, 0), Check(2, 0)]);
    var s3 := Run(Next(s2, cfg, MarkSeen(1, 0)), cfg, GoSteps(1, 1));
    MarkThenGo(s3, cfg, 2, 2, []);
  }

  lemma {:induction false} FirstMarkedAndHandled(rest: seq<Step>)
    ensures var cfg := Plain(false);
      var s2 := Run(Both, cfg, [Check(1, 0), Check(2, 0)]);
      var s3 := Run(Next(s2, cfg, MarkSeen(1, 0)), cfg, GoSteps(1, 1));
      && Run(s2, cfg, [MarkSeen(1, 0)] + (GoSteps(1, 1) + rest)) == Run(s3, cfg, rest)
      && 2 in s3.threads && s3.threads[2] == Unmarked(Item1, ["e"], 0) && "e" !in s3.locks && Goroutine(2) !in s3.acts
      && s3.successes == [Success("e", 0)]
  {
    BothCleared(Plain(false));
    hide Run, Next, GoSteps, S.MarkKeys;
    MarkThenGo(Run(Both, Plain(false), [Check(1, 0), Check(2, 0)]), Plain(false), 1, 1, rest);
  }

  lemma MarkThenGo(s: Sys, cfg: Config, t: nat, n: nat, rest: seq<Step>)
    requires cfg == Plain(false)
    requires t in s.threads && s.threads[t] == Unmarked(Item1, ["e"], 0) && "e" !in s.locks && Goroutine(n) !in s.acts
    ensures var s1 := Run(Next(s, cfg, MarkSeen(t, 0)), cfg, GoSteps(t, n));
      && Run(s, cfg, [MarkSeen(t, 0)] + (GoSteps(t, n) + rest)) == Run(s1, cfg, rest)
      && s1.threads == s.threads - {t} && s1.locks == s.locks && s1.successes == s.successes + [Success("e", 0)]
      && s1.acts == s.acts[Goroutine(n) := Closing([], [])]
  {
    RunAppend(s, cfg, [MarkSeen(t, 0)], GoSteps(t, n) + rest);
    RunOne(s, cfg, MarkSeen(t, 0));
    var s0 := Next(s, cfg, MarkSeen(t, 0));
    hide S.MarkKeys;
    RunAppend(s0, cfg, GoSteps(t, n), rest);
    assert s0.threads - {t} == s.threads - {t};
    Go(s0, cfg, t, n);
  }

  /** Both pushes check before either is marked. */
  lemma BothCleared(cfg: Config)
    requires cfg == Plain(cfg.markAfterHandler)
    ensures var th := if cfg.markAfterHandler then Cleared(Item1, ["e"], 0) else Unmarked(Item1, ["e"], 0);
      var s := Run(Both, cfg, [Check(1, 0), Check(2, 0)]);
      s == Both.(threads := map[1 := th, 2 := th], passed := [Pass(["e"], 0), Pass(["e"], 0)])
  {
    LookUpEmpty();
    hide S.LookUp, S.MarkKeys;
    RunTwo(Both, cfg, Check(1, 0), Check(2, 0));
    hide Run;
    var th := if cfg.markAfterHandler then Cleared(Item1, ["e"], 0) else Unmarked(Item1, ["e"], 0);
    var s1 := CheckStep(Both, cfg, 1, 0);
    assert s1.threads == map[1 := th, 2 := Arrived(Item1, ["e"])];
    var s2 := CheckStep(s1, cfg, 2, 0);
    assert s2.threads == map[1 := th, 2 := th];
  }

  /** The first activity marks its keys and ends. */
  lemma MarkAndEnd(s: Sys, cfg: Config, a: ActivityID)
    requires a in s.acts && s.acts[a] == Closing([], [["e"]])
    ensures Run(s, cfg, [Close(a, 0), Close(a, 0)])
         == s.(seen := S.MarkKeys(s.seen, ["e"], 0, cfg.seenTtl, cfg.seenMax), acts := s.acts - {a})
  {
    hide S.MarkKeys;
    RunTwo(s, cfg, Close(a, 0), Close(a, 0));
    hide Run;
    var s1 := CloseStep(s, cfg, a, 0);
    assert [["e"]][1..] == [];
    assert s1.acts == s.acts[a := Closing([], [])];
    assert s1.acts - {a} == s.acts - {a};
  }

  /** The first push is handled while the second has been checked. */
  lemma {:induction false} FirstHandled(cfg: Config)
    requires cfg == Plain(true)
    ensures var s := Run(Run(Both, cfg, [Check(1, 0), Check(2, 0)]), cfg, GoSteps(1, 1));
      && s.threads == map[2 := Cleared(Item1, ["e"], 0)] && "e" !in s.locks
      && s.acts == map[Goroutine(1) := Closing([], [["e"]])] && s.successes == [Success("e", 0)]
  {
    BothCleared(cfg);
    var s2 := Run(Both, cfg, [Check(1, 0), Check(2, 0)]);
    hide Run, Next, GoSteps, S.MarkKeys;
    Go(s2, cfg, 1, 1);
    assert s2.threads - {1} == map[2 := Cleared(Item1, ["e"], 0)];
  }

  /** Marking after the handler: the second push checks the cache while the first is being handled,
      and takes the lock after the first has released it, and marked. */
  lemma AfterRace()
    ensures Run(Idle, Plain(true), Arrivals + ([Check(1, 0), Check(2, 0)] + (GoSteps(1, 1) + ([Close(Goroutine(1), 0), Close(Goroutine(1), 0)] + GoSteps(2, 2))))).successes
      == [Success("e", 0), Success("e", 0)]
  {
    var cfg := Plain(true);
    var a := Goroutine(1);
    BothArrive(cfg);
    hide Run, Next, GoSteps, S.MarkKeys, Plain, Both, Arrivals;
    var rest := [Close(a, 0), Close(a, 0)] + GoSteps(2, 2);
    RunAppend(Idle, cfg, Arrivals, [Check(1, 0), Check(2, 0)] + (GoSteps(1, 1) + rest));
    RunAppend(Both, cfg, [Check(1, 0), Check(2, 0)], GoSteps(1, 1) + rest);
    var s2 := Run(Both, cfg, [Check(1, 0), Check(2, 0)]);
    RunAppend(s2, cfg, GoSteps(1, 1), rest);
    FirstHandled(cfg);
    var s3 := Run(s2, cfg, GoSteps(1, 1));
    RunAppend(s3, cfg, [Close(a, 0), Close(a, 0)], GoSteps(2, 2));
    MarkAndEnd(s3, cfg, a);
    var s5 := Run(s3, cfg, [Close(a, 0), Close(a, 0)]);
    GoPlain(s5, 2, 2);
  }

  /** The check of a push while the cache is empty. */
  lemma CheckOne(s: Sys, t: nat)
    requires t in s.threads && s.threads[t] == Arrived(Item1, ["e"]) && s.seen == S.Start
    ensures Run(s, Plain(true), [Check(t, 0)]) ==
      s.(threads := s.threads[t := Cleared(Item1, ["e"], 0)], passed := s.passed + [Pass(["e"], 0)])
  {
    LookUpEmpty();
    RunOne(s, Plain(true), Check(t, 0));
    hide S.LookUp, Run;
    assert Next(s, Plain(true), Check(t, 0)) == CheckStep(s, Plain(true), t, 0);
  }

  /** The first push is handled and has released its lock, with the mark still to come. */
  lemma {:induction false} FirstReleased()
    ensures var s := Run(Run(Both, Plain(true), [Check(1, 0)]), Plain(true), GoSteps(1, 1));
      && s.threads == map[2 := Arrived(Item1, ["e"])] && s.seen == S.Start && "e" !in s.locks
      && s.acts == map[Goroutine(1) := Closing([], [["e"]])] && s.successes == [Success("e", 0)]
  {
    CheckOne(Both, 1);
    var s1 := Run(Both, Plain(true), [Check(1, 0)]);
    hide Run, Next, GoSteps, S.MarkKeys;
    assert s1.threads == map[1 := Cleared(Item1, ["e"], 0), 2 := Arrived(Item1, ["e"])];
    Go(s1, Plain(true), 1, 1);
    assert s1.threads - {1} == map[2 := Arrived(Item1, ["e"])];
  }

  /** And the second push may pass check, gate and handler as a whole between that release and the
      mark. */
  lemma ReleaseRace()
    ensures Run(Idle, Plain(true), Arrivals + ([Check(1, 0)] + (GoSteps(1, 1) + ([Check(2, 0)] + GoSteps(2, 2))))).successes
      == [Success("e", 0), Success("e", 0)]
  {
    var cfg := Plain(true);
    BothArrive(cfg);
    FirstReleased();
    hide Run, Next, GoSteps, S.MarkKeys, Plain, Both, Arrivals;
    RunAppend(Idle, cfg, Arrivals, [Check(1, 0)] + (GoSteps(1, 1) + ([Check(2, 0)] + GoSteps(2, 2))));
    RunAppend(Both, cfg, [Check(1, 0)], GoSteps(1, 1) + ([Check(2, 0)] + GoSteps(2, 2)));
    var s1 := Run(Both, cfg, [Check(1, 0)]);
    RunAppend(s1, cfg, GoSteps(1, 1), [Check(2, 0)] + GoSteps(2, 2));
    var s2 := Run(s1, cfg, GoSteps(1, 1));
    RunAppend(s2, cfg, [Check(2, 0)], GoSteps(2, 2));
    CheckOne(s2, 2);
    GoPlain(Run(s2, cfg, [Check(2, 0)]), 2, 2);
  }

  lemma GoPlain(s: Sys, t: nat, n: nat)
    requires t in s.threads && s.threads[t] == Cleared(Item1, ["e"], 0) && "e" !in s.locks && Goroutine(n) !in s.acts
    ensures Run(s, Plain(true), GoSteps(t, n)).successes == s.successes + [Success("e", 0)]
  {
    hide Run, Next, GoSteps, S.MarkKeys;
    Go(s, Plain(true), t, n);
  }
}
