/** Where the lifecycle guarantees stop: two runs, given state by state. */
module LifecycleLimits {
  import opened Prelude
  import opened Freshness
  import opened Lifecycle
  import opened LifecycleMachine
  import opened LifecycleTheorems

  /** A run spelled out: the state before each action, and the action. */
  ghost predicate IsTrace(c: Config, states: seq<State>, actions: seq<Action>) {
    && |states| == |actions| + 1 && states[0] == Init(c)
    && forall n :: 0 <= n < |actions| ==> StepsTo(c, states[n], actions[n], states[n + 1])
  }

  ghost predicate StepsTo(c: Config, s: State, a: Action, s': State) {
    Enabled(c, s, a) && Next(c, s, a) == s'
  }

  lemma {:induction false} TraceRuns(c: Config, states: seq<State>, actions: seq<Action>, n: nat)
    requires IsTrace(c, states, actions) && n <= |actions|
    ensures CanRun(c, actions[..n]) && Reached(c, actions[..n]) == states[n]
  {
    if n > 0 {
      TraceRuns(c, states, actions, n - 1);
      assert StepsTo(c, states[n - 1], actions[n - 1], states[n]);
      OneMore(c, actions[..n - 1], actions[n - 1], actions[..n]);
    }
  }

  // ----- a stale warning -----

  /** A batch as the worker creates it at time 0, of one item labelled medium, under a rule of `days` medium days. */
  function Intake(days: int): Batch {
    Batch(Some(Medium), 1, 1, Schedule(Some(Medium), Some(Rule(Some(1), Some(days))), 0))
  }

  const Lettuce := Intake(1)

  const Spoils := Key(0, MediumToSpoiled)

  const StaleConfig := Config(true, FromEnvironment(24, 0.25), 1, 0, map[0 := Lettuce], map[])

  const StaleActions := [ReadClock(0), BeginTxn(0), Sweep(0), Select(0, [0]), Sell(0, 1, {}), Insert(0), Commit(0)]

  const SoldOut := map[0 := Lettuce.(remaining := 0)]

  const Raised := map[Spoils := NewAlert(Lettuce, MediumToSpoiled, 0)]

  function StaleStates(): seq<State> {
    [ State(0, StaleConfig.batches, map[], [Idle], multiset{}),
      State(0, StaleConfig.batches, map[], [Clocked(0)], multiset{}),
      State(0, StaleConfig.batches, map[], [Begun(0, 0)], multiset{}),
      State(0, StaleConfig.batches, map[], [Swept(0, 0, {})], multiset{}),
      State(0, StaleConfig.batches, map[], [Inserting(0, 0, {}, [(0, Lettuce)], 0, map[])], multiset{}),
      State(0, SoldOut, map[], [Inserting(0, 0, {}, [(0, Lettuce)], 0, map[])], multiset{}),
      State(0, SoldOut, map[], [Inserting(0, 0, {}, [(0, Lettuce)], 1, Raised)], multiset{}),
      State(0, SoldOut, Raised, [Phase.Committed], multiset{Spoils}) ]
  }

  lemma StaleOpens()
    ensures forall n :: 0 <= n < 3 ==> StepsTo(StaleConfig, StaleStates()[n], StaleActions[n], StaleStates()[n + 1])
  {
    assert OutdatedKeys(StaleConfig.batches, map[], 0) == {};
  }

  lemma StaleSelects()
    ensures StepsTo(StaleConfig, StaleStates()[3], StaleActions[3], StaleStates()[4])
  {
    assert Selected(Lettuce, StaleConfig.settings, 0);
    assert IsReply(StaleConfig.batches, StaleConfig.settings, 0, [0]);
    assert Next(StaleConfig, StaleStates()[3], StaleActions[3]).evals[0].rows == [(0, Lettuce)];
  }

  lemma StaleSells()
    ensures StepsTo(StaleConfig, StaleStates()[4], StaleActions[4], StaleStates()[5])
  {
    assert ResolveAll(map[], {}, 0) == map[];
  }

  lemma StaleInserts()
    ensures StepsTo(StaleConfig, StaleStates()[5], StaleActions[5], StaleStates()[6])
  {}

  lemma StaleCommits()
    ensures StepsTo(StaleConfig, StaleStates()[6], StaleActions[6], StaleStates()[7])
  {
    assert ResolveAll(map[], {}, 0) == map[];
    assert multiset(Raised.Keys) == multiset{Spoils};
  }

  /** A sale that empties the batch between selection and insert leaves an open warning on no stock. */
  lemma StaleWarningHappens()
    ensures CanRun(StaleConfig, StaleActions)
    ensures Reached(StaleConfig, StaleActions) == State(0, SoldOut, Raised, [Phase.Committed], multiset{Spoils})
    ensures SoldOut[0].remaining == 0 && Raised[Spoils].resolvedAt.None?
  {
    StaleOpens();
    StaleSelects();
    StaleSells();
    StaleInserts();
    StaleCommits();
    TraceRuns(StaleConfig, StaleStates(), StaleActions, 7);
    assert StaleActions[..7] == StaleActions;
  }

  // ----- a late warning -----

  /** When the warning window of `Intake(days)` opens. */
  function Opens(days: nat, lead: Time): Time { days * DAY - lead }

  /** The batch of `Intake(days)`, one second before its warning window opens. */
  function LateConfig(days: nat, s: Settings): Config {
    Config(true, s, 2, Opens(days, s.lead) - 1, map[0 := Intake(days)], map[])
  }

  /** One evaluation just before the window, and one that starts `gap` after it opens. */
  function LateActions(gap: nat, duration: nat): seq<Action> {
    [ ReadClock(0), BeginTxn(0), Sweep(0), Select(0, []), Commit(0), Tick(1 + gap),
      ReadClock(1), BeginTxn(1), Sweep(1), Select(1, [0]), Insert(1), Tick(duration), Commit(1) ]
  }

  function LateWarning(days: nat, t: Time): Alerts { map[Spoils := NewAlert(Intake(days), MediumToSpoiled, t)] }

  function LatePhases(days: nat, w: Time, gap: nat, n: nat): seq<Phase> {
    var e, t := w - 1, w + gap;
    if n == 0 then [Idle, Idle]
    else if n == 1 then [Clocked(e), Idle]
    else if n == 2 then [Begun(e, e), Idle]
    else if n == 3 then [Swept(e, e, {}), Idle]
    else if n == 4 then [Inserting(e, e, {}, [], 0, map[]), Idle]
    else if n <= 6 then [Phase.Committed, Idle]
    else if n == 7 then [Phase.Committed, Clocked(t)]
    else if n == 8 then [Phase.Committed, Begun(t, t)]
    else if n == 9 then [Phase.Committed, Swept(t, t, {})]
    else if n == 10 then [Phase.Committed, Inserting(t, t, {}, [(0, Intake(days))], 0, map[])]
    else if n <= 12 then [Phase.Committed, Inserting(t, t, {}, [(0, Intake(days))], 1, LateWarning(days, t))]
    else [Phase.Committed, Phase.Committed]
  }

  function LateClock(w: Time, gap: nat, duration: nat, n: nat): Time {
    if n <= 5 then w - 1 else if n <= 11 then w + gap else w + gap + duration
  }

  function LateState(days: nat, w: Time, gap: nat, duration: nat, n: nat): State {
    State(LateClock(w, gap, duration, n), map[0 := Intake(days)],
          if n <= 12 then map[] else LateWarning(days, w + gap), LatePhases(days, w, gap, n),
          if n <= 12 then multiset{} else multiset{Spoils})
  }

  ghost predicate LateStep(days: nat, s: Settings, gap: nat, duration: nat, n: nat) {
    var w := Opens(days, s.lead);
    n < 13 ==>
      StepsTo(LateConfig(days, s), LateState(days, w, gap, duration, n), LateActions(gap, duration)[n],
              LateState(days, w, gap, duration, n + 1))
  }

  lemma LateBefore(days: nat, s: Settings, gap: nat, duration: nat, n: nat)
    requires n <= 2 || 4 <= n <= 8
    ensures LateStep(days, s, gap, duration, n)
  {
    assert OutdatedKeys(map[0 := Intake(days)], map[], LateClock(Opens(days, s.lead), gap, duration, n)) == {};
    assert ResolveAll(map[], {}, 0) + map[] == map[];
  }

  lemma LateSelectsNone(days: nat, s: Settings, gap: nat, duration: nat)
    ensures LateStep(days, s, gap, duration, 3)
  {
    var c, w := LateConfig(days, s), Opens(days, s.lead);
    var state := LateState(days, w, gap, duration, 3);
    assert !Selected(Intake(days), s, w - 1);
    assert IsReply(state.batches, s, w - 1, []);
    assert Next(c, state, Select(0, [])).evals[0] == Inserting(w - 1, w - 1, {}, [], 0, map[]);
  }

  lemma LateSelectsOne(days: nat, s: Settings, gap: nat, duration: nat)
    requires s.ratio <= 1.0
    ensures LateStep(days, s, gap, duration, 9)
  {
    var c, w := LateConfig(days, s), Opens(days, s.lead);
    var state := LateState(days, w, gap, duration, 9);
    assert Selected(Intake(days), s, w + gap);
    assert IsReply(state.batches, s, w + gap, [0]);
    assert Next(c, state, Select(1, [0])).evals[1].rows == [(0, Intake(days))];
  }

  lemma LateInserts(days: nat, s: Settings, gap: nat, duration: nat, n: nat)
    requires 10 <= n <= 11
    ensures LateStep(days, s, gap, duration, n)
  {}

  lemma CommitsAlone(batches: Batches, clock: Time, now: Time, rows: seq<(Uuid, Batch)>, own: Alerts, k: Key)
    requires own.Keys == {k}
    ensures Committing(State(clock, batches, map[], [Phase.Committed, Inserting(now, now, {}, rows, 1, own)], multiset{}), 1) ==
            State(clock, batches, own, [Phase.Committed, Phase.Committed], multiset{k})
  {
    assert ResolveAll(map[], {}, now) == map[];
    assert map[] + own == own;
  }

  lemma LateRecords(days: nat, s: Settings, gap: nat, duration: nat)
    ensures LateStep(days, s, gap, duration, 12)
  {
    var t := Opens(days, s.lead) + gap;
    CommitsAlone(map[0 := Intake(days)], t + duration, t, [(0, Intake(days))], LateWarning(days, t), Spoils);
  }

  lemma LateRuns(days: nat, s: Settings, gap: nat, duration: nat, n: nat)
    requires s.ratio <= 1.0 && n <= 13
    ensures CanRun(LateConfig(days, s), LateActions(gap, duration)[..n])
    ensures Reached(LateConfig(days, s), LateActions(gap, duration)[..n]) ==
            LateState(days, Opens(days, s.lead), gap, duration, n)
  {
    var c, w := LateConfig(days, s), Opens(days, s.lead);
    var states := seq(14, k requires 0 <= k => LateState(days, w, gap, duration, k));
    forall k: nat | k < 13 ensures StepsTo(c, states[k], LateActions(gap, duration)[k], states[k + 1]) {
      if k == 3 { LateSelectsNone(days, s, gap, duration); }
      else if k == 9 { LateSelectsOne(days, s, gap, duration); }
      else if k < 9 { LateBefore(days, s, gap, duration, k); }
      else if k < 12 { LateInserts(days, s, gap, duration, k); }
      else { LateRecords(days, s, gap, duration); }
      assert LateStep(days, s, gap, duration, k);
    }
    TraceRuns(c, states, LateActions(gap, duration), n);
  }

  lemma LateAt(days: nat, s: Settings, gap: nat, duration: nat, n: nat)
    requires 0.0 <= s.ratio <= 1.0 && n <= 13
    ensures var c, actions, w := LateConfig(days, s), LateActions(gap, duration), Opens(days, s.lead);
            && CanRun(c, actions) && CanRun(c, actions[..n])
            && ClockAt(c, actions, n) == LateClock(w, gap, duration, n) && StockedAt(c, actions, 0, n)
            && Reached(c, actions[..n]) == LateState(days, w, gap, duration, n)
  {
    LateRuns(days, s, gap, duration, 13);
    assert LateActions(gap, duration)[..13] == LateActions(gap, duration);
    LateRuns(days, s, gap, duration, n);
  }

  lemma FirstIsEvaluated(days: nat, s: Settings, gap: nat, duration: nat)
    requires 0.0 <= s.ratio <= 1.0
    ensures CanRun(LateConfig(days, s), LateActions(gap, duration))
    ensures EvaluatedAfter(LateConfig(days, s), LateActions(gap, duration), Opens(days, s.lead) - 1, gap, duration)
  {
    LateAt(days, s, gap, duration, 0);
    LateAt(days, s, gap, duration, 4);
    assert Evaluates(LateConfig(days, s), LateActions(gap, duration), 0, 4, Opens(days, s.lead) - 1, gap, duration);
  }

  lemma SecondIsEvaluated(days: nat, s: Settings, gap: nat, duration: nat)
    requires 0.0 <= s.ratio <= 1.0
    ensures CanRun(LateConfig(days, s), LateActions(gap, duration))
    ensures EvaluatedAfter(LateConfig(days, s), LateActions(gap, duration), Opens(days, s.lead), gap, duration)
  {
    LateAt(days, s, gap, duration, 6);
    LateAt(days, s, gap, duration, 12);
    assert Evaluates(LateConfig(days, s), LateActions(gap, duration), 6, 12, Opens(days, s.lead), gap, duration);
  }

  lemma TwoMakePunctual(c: Config, actions: seq<Action>, gap: Time, duration: Time)
    requires CanRun(c, actions) && Reached(c, actions).clock == c.clock + 1 + gap + duration
    requires EvaluatedAfter(c, actions, c.clock, gap, duration) && EvaluatedAfter(c, actions, c.clock + 1, gap, duration)
    ensures Punctual(c, actions, gap, duration)
  {
    forall t | c.clock <= t && t + gap + duration <= Reached(c, actions).clock
      ensures EvaluatedAfter(c, actions, t, gap, duration)
    {
      if t != c.clock { assert t == c.clock + 1; }
    }
  }

  lemma LateIsPunctual(days: nat, s: Settings, gap: nat, duration: nat)
    requires 0.0 <= s.ratio <= 1.0
    ensures CanRun(LateConfig(days, s), LateActions(gap, duration))
    ensures Punctual(LateConfig(days, s), LateActions(gap, duration), gap, duration)
  {
    LateAt(days, s, gap, duration, 13);
    assert LateActions(gap, duration)[..13] == LateActions(gap, duration);
    FirstIsEvaluated(days, s, gap, duration);
    SecondIsEvaluated(days, s, gap, duration);
    TwoMakePunctual(LateConfig(days, s), LateActions(gap, duration), gap, duration);
  }

  ghost predicate NotWarnedAt(c: Config, actions: seq<Action>, id: Uuid, deadline: Time, n: nat)
    requires n <= |actions|
  {
    CanRun(c, actions[..n]) && id in Reached(c, actions[..n]).batches && !Warned(Reached(c, actions[..n]), id, deadline)
  }

  /** The bound on gap and duration cannot be relaxed. Under any configuration and any rule whose medium stage is
      longer than the lead: whenever gap and duration exceed the lead together there is a punctual run in which a
      batch as the worker creates it, there before its window and never sold, is not warned of by its deadline. */
  lemma LateWhenSlowerThanTheLead(hours: int, ratio: real, days: nat, gap: nat, duration: nat)
    requires gap + duration > FromEnvironment(hours, ratio).lead && days * DAY > FromEnvironment(hours, ratio).lead
    ensures var c, actions, deadline := LateConfig(days, FromEnvironment(hours, ratio)), LateActions(gap, duration), days * DAY;
            && c.batches[0].deadlines == Schedule(c.batches[0].initial, Some(Rule(Some(1), Some(days))), 0) && 0 <= c.clock
            && CanRun(c, actions) && Punctual(c, actions, gap, duration)
            && StockedAt(c, actions, 0, 0) && StockedUntil(c, actions, 0, 0, deadline)
            && ClockAt(c, actions, 0) < deadline - c.settings.lead && deadline <= Reached(c, actions).clock
            && MustWarn(Reached(c, actions[..0]).batches[0], deadline)
            && forall n :: 0 <= n <= |actions| && ClockAt(c, actions, n) <= deadline ==> NotWarnedAt(c, actions, 0, deadline, n)
  {
    var s := FromEnvironment(hours, ratio);
    var c, actions := LateConfig(days, s), LateActions(gap, duration);
    LateIsPunctual(days, s, gap, duration);
    LateAt(days, s, gap, duration, 13);
    assert actions[..13] == actions;
    forall n | 0 <= n <= 13
      ensures StockedAt(c, actions, 0, n)
      ensures ClockAt(c, actions, n) <= days * DAY ==> NotWarnedAt(c, actions, 0, days * DAY, n)
    {
      LateAt(days, s, gap, duration, n);
    }
    LateAt(days, s, gap, duration, 0);
  }
}
