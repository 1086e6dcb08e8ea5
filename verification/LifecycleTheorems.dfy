/** What the lifecycle warnings guarantee over every run. */
module LifecycleTheorems {
  import opened Prelude
  import opened Freshness
  import opened Lifecycle
  import opened LifecycleMachine
  import opened LifecycleSafety

  /** However evaluations overlap, repeat or fail: a warning was inserted once if it is new in the alerts
      table since the start, and never otherwise. So a batch gets at most one alert per event. */
  lemma OneAlertPerEvent(c: Config, actions: seq<Action>, k: Key)
    requires CanRun(c, actions)
    ensures Reached(c, actions).raised[k] <= 1
    ensures Reached(c, actions).raised[k] == 1 <==> IsWarning(k.event) && k in Reached(c, actions).alerts && k !in c.alerts
  {
    RunKeepsInv(c, actions);
    assert RaisedOnce(c, Reached(c, actions));
  }

  /** Once resolved, an alert stays resolved at that time and is never raised again; its other timestamps
      are written at most once too. */
  lemma ResolvedForGood(c: Config, actions: seq<Action>, n: nat, k: Key)
    requires CanRun(c, actions) && n <= |actions|
    ensures CanRun(c, actions[..n])
    ensures k in Reached(c, actions[..n]).alerts ==>
              k in Reached(c, actions).alerts && AlertGrows(Reached(c, actions[..n]).alerts[k], Reached(c, actions).alerts[k])
  {
    RunGrows(c, actions, n);
  }

  // ----- the machine and the procedure -----

  function Fetched(batches: Batches, reply: seq<Uuid>): seq<(Uuid, Batch)>
    requires forall m :: 0 <= m < |reply| ==> reply[m] in batches
  {
    seq(|reply|, m requires 0 <= m < |reply| => (reply[m], batches[reply[m]]))
  }

  function OwnAfter(c: Config, keys: set<Key>): Alerts
    requires forall k :: k in keys ==> k.batch in c.batches
  {
    map k | k in keys && k !in c.alerts :: NewAlert(c.batches[k.batch], k.event, c.clock)
  }

  /** A lone evaluation after `n` iterations of its loop. */
  ghost predicate IsLooping(c: Config, reply: seq<Uuid>, n: nat, s: State)
    requires n <= |reply| && forall m :: 0 <= m < |reply| ==> reply[m] in c.batches
  {
    s == State(c.clock, c.batches, c.alerts,
               [Inserting(c.clock, c.clock, OutdatedKeys(c.batches, c.alerts, c.clock), Fetched(c.batches, reply), n,
                          OwnAfter(c, KeysOf(c.batches, c.settings, c.clock, reply[..n])))],
               multiset{})
  }

  lemma LoneSweeps(c: Config) returns (actions: seq<Action>)
    requires c.runs == 1
    ensures CanRun(c, actions)
    ensures Reached(c, actions) ==
            State(c.clock, c.batches, c.alerts, [Swept(c.clock, c.clock, OutdatedKeys(c.batches, c.alerts, c.clock))], multiset{})
  {
    assert CanRun(c, []);
    OneMore(c, [], ReadClock(0), [ReadClock(0)]);
    OneMore(c, [ReadClock(0)], BeginTxn(0), [ReadClock(0), BeginTxn(0)]);
    actions := [ReadClock(0), BeginTxn(0), Sweep(0)];
    OneMore(c, [ReadClock(0), BeginTxn(0)], Sweep(0), actions);
  }

  lemma LoneSelects(c: Config, reply: seq<Uuid>) returns (actions: seq<Action>)
    requires c.joinable && c.runs == 1 && IsReply(c.batches, c.settings, c.clock, reply)
    ensures CanRun(c, actions) && IsLooping(c, reply, 0, Reached(c, actions))
  {
    var front := LoneSweeps(c);
    actions := front + [Select(0, reply)];
    OneMore(c, front, Select(0, reply), actions);
    assert OwnAfter(c, KeysOf(c.batches, c.settings, c.clock, reply[..0])) == map[];
    assert Reached(c, actions).evals[0].rows == Fetched(c.batches, reply);
  }

  lemma LoneInserts(c: Config, reply: seq<Uuid>, n: nat, s: State)
    requires c.joinable && n < |reply| && forall m :: 0 <= m < |reply| ==> reply[m] in c.batches
    requires IsLooping(c, reply, n, s)
    ensures Enabled(c, s, Insert(0)) && IsLooping(c, reply, n + 1, Next(c, s, Insert(0)))
  {
    var keys, k := KeysOf(c.batches, c.settings, c.clock, reply[..n]), DueKey(reply[n], c.batches[reply[n]], c.settings, c.clock);
    OneMoreRow(c.batches, c.settings, c.clock, reply, n);
    assert RowKey(c, s.evals[0], n) == k;
    assert OwnAfter(c, keys + {k}) ==
           if k in c.alerts || k in OwnAfter(c, keys) then OwnAfter(c, keys)
           else OwnAfter(c, keys)[k := NewAlert(c.batches[k.batch], k.event, c.clock)];
  }

  lemma CommittedIsEvaluated(c: Config, keys: set<Key>, swept: set<Key>)
    requires forall k :: k in keys ==> k.batch in c.batches
    ensures ResolveAll(c.alerts, swept, c.clock) + OwnAfter(c, keys) ==
            WithWarnings(c.batches, ResolveAll(c.alerts, swept, c.clock), keys, c.clock)
  {}

  lemma {:induction false} LoneLoops(c: Config, reply: seq<Uuid>, n: nat) returns (actions: seq<Action>)
    requires c.joinable && c.runs == 1 && IsReply(c.batches, c.settings, c.clock, reply) && n <= |reply|
    ensures CanRun(c, actions) && IsLooping(c, reply, n, Reached(c, actions))
  {
    if n == 0 {
      actions := LoneSelects(c, reply);
    } else {
      var front := LoneLoops(c, reply, n - 1);
      var s := Reached(c, front);
      LoneInserts(c, reply, n - 1, s);
      actions := front + [Insert(0)];
      OneMore(c, front, Insert(0), actions);
      assert Reached(c, actions) == Next(c, s, Insert(0));
    }
  }

  /** An evaluation that nothing interleaves with does exactly what the procedure does. */
  lemma AloneIsTheEvaluation(c: Config, reply: seq<Uuid>) returns (actions: seq<Action>)
    requires c.joinable && c.runs == 1 && IsReply(c.batches, c.settings, c.clock, reply)
    ensures CanRun(c, actions) && Reached(c, actions).evals == [Phase.Committed]
    ensures Reached(c, actions).alerts == Evaluated(c.batches, c.alerts, c.settings, c.clock, c.clock)
  {
    var front := LoneLoops(c, reply, |reply|);
    actions := front + [Commit(0)];
    OneMore(c, front, Commit(0), actions);
    assert reply[..|reply|] == reply;
    ReplyIsTheSelection(c.batches, c.settings, c.clock, reply);
    CommittedIsEvaluated(c, DueKeys(c.batches, c.settings, c.clock), OutdatedKeys(c.batches, c.alerts, c.clock));
  }

  /** On the migrated schema it leaves nothing, as the procedure does. */
  lemma AloneIsTheRefusal(c: Config) returns (actions: seq<Action>)
    requires !c.joinable && c.runs == 1
    ensures CanRun(c, actions) && Reached(c, actions).evals == [Phase.Failed] && Reached(c, actions).alerts == c.alerts
  {
    var front := LoneSweeps(c);
    actions := front + [Fail(0)];
    OneMore(c, front, Fail(0), actions);
  }

  // ----- stale warnings -----

  predicate IsResolved(alerts: Alerts, k: Key) { k in alerts && alerts[k].resolvedAt.Some? }

  /** What evaluation `i` owes an alert that was outdated when it swept. */
  predicate Owes(s: State, i: nat, k: Key)
    requires InRange(s, i)
  {
    match s.evals[i]
    case Swept(_, _, swept) => k in swept || IsResolved(s.alerts, k)
    case Inserting(_, _, swept, _, _, _) => k in swept || IsResolved(s.alerts, k)
    case Committed => IsResolved(s.alerts, k)
    case Failed => true
    case _ => false
  }

  /** The alert is open on a batch that is sold out or past its freshness deadline, or already resolved. */
  predicate Stale(s: State, i: nat, k: Key)
    requires InRange(s, i) && s.evals[i].Begun?
  {
    IsResolved(s.alerts, k) || Outdated(s.batches, s.alerts, s.evals[i].began, k)
  }

  lemma OwnStepKeepsOwing(c: Config, s: State, a: Action, i: nat, k: Key)
    requires Enabled(c, s, a) && InRange(s, i) && Owes(s, i, k) && EvalInv(c, s.alerts, s.evals[i])
    requires Next(c, s, a).evals[i] != s.evals[i]
    ensures Owes(Next(c, s, a), i, k)
  {}

  lemma StepKeepsOwing(c: Config, s: State, a: Action, i: nat, k: Key)
    requires Inv(c, s) && Enabled(c, s, a) && InRange(s, i) && Owes(s, i, k)
    ensures InRange(Next(c, s, a), i) && Owes(Next(c, s, a), i, k)
  {
    StepGrows(c, s, a);
    if Next(c, s, a).evals[i] != s.evals[i] {
      assert EvalInv(c, s.alerts, s.evals[i]);
      OwnStepKeepsOwing(c, s, a, i, k);
    }
  }

  /** A stale warning may be left behind, but the next evaluation that sweeps after it is committed, and
      itself commits, leaves it resolved. */
  lemma {:induction false} NextEvaluationResolves(c: Config, actions: seq<Action>, p: nat, k: Key)
    requires CanRun(c, actions) && p < |actions| && actions[p].Sweep?
    requires CanRun(c, actions[..p]) && Enabled(c, Reached(c, actions[..p]), actions[p])
    requires Stale(Reached(c, actions[..p]), actions[p].i, k)
    ensures InRange(Reached(c, actions), actions[p].i) && Owes(Reached(c, actions), actions[p].i, k)
    ensures Reached(c, actions).evals[actions[p].i].Committed? ==> IsResolved(Reached(c, actions).alerts, k)
  {
    var front, last := actions[..|actions| - 1], actions[|actions| - 1];
    if p == |actions| - 1 {
      assert actions[..p] == front;
    } else {
      assert front[..p] == actions[..p];
      NextEvaluationResolves(c, front, p, k);
      RunKeepsInv(c, front);
      StepKeepsOwing(c, Reached(c, front), last, actions[p].i, k);
      StepKeepsInv(c, Reached(c, front), last);
    }
  }

  // ----- warned by the deadline -----

  /** `now` is inside the warning window of one of the batch's two deadlines. */
  predicate InWindow(b: Batch, s: Settings, now: Time) {
    WarnsFresh(b, s, now) || WarnsSpoiled(b, s, now)
  }

  /** What evaluation `i`, which read the clock as `now`, still owes the batch. */
  predicate OwesWarning(c: Config, s: State, i: nat, id: Uuid, key: Key, now: Time)
    requires InRange(s, i)
  {
    match s.evals[i]
    case Idle => false
    case Clocked(t) => t == now
    case Begun(t, _) => t == now
    case Swept(t, _, _) => t == now
    case Inserting(t, _, _, rows, n, _) =>
      t == now && exists m :: 0 <= m < |rows| && RowKey(c, s.evals[i], m) == key
    case Committed => key in s.alerts
    case Failed => true
  }

  lemma SelectOwes(c: Config, s: State, a: Action, id: Uuid, now: Time)
    requires Enabled(c, s, a) && a.Select? && s.evals[a.i].now == now
    requires id in s.batches && EnoughLeft(s.batches[id], c.settings.ratio) && InWindow(s.batches[id], c.settings, now)
    ensures OwesWarning(c, Next(c, s, a), a.i, id, DueKey(id, s.batches[id], c.settings, now), now)
  {
    StockedIsEnoughLeft(s.batches[id], c.settings.ratio);
    BranchesPartitionTheSelection(s.batches[id], c.settings, now);
    var m :| 0 <= m < |a.reply| && a.reply[m] == id;
    var p := Next(c, s, a).evals[a.i];
    assert RowKey(c, p, m) == DueKey(id, s.batches[id], c.settings, now);
  }

  lemma CommitPays(c: Config, s: State, i: nat, id: Uuid, key: Key, now: Time)
    requires Inv(c, s) && Enabled(c, s, Commit(i)) && OwesWarning(c, s, i, id, key, now)
    ensures key in Next(c, s, Commit(i)).alerts
  {
    assert EvalInv(c, s.alerts, s.evals[i]);
  }

  lemma StepKeepsWarning(c: Config, s: State, a: Action, i: nat, id: Uuid, now: Time)
    requires Inv(c, s) && Enabled(c, s, a) && InRange(s, i)
    requires id in s.batches && EnoughLeft(s.batches[id], c.settings.ratio) && InWindow(s.batches[id], c.settings, now)
    requires OwesWarning(c, s, i, id, DueKey(id, s.batches[id], c.settings, now), now)
    ensures OwesWarning(c, Next(c, s, a), i, id, DueKey(id, s.batches[id], c.settings, now), now)
  {
    var key := DueKey(id, s.batches[id], c.settings, now);
    if a == Commit(i) {
      CommitPays(c, s, i, id, key, now);
    } else if a.Select? && a.i == i {
      SelectOwes(c, s, a, id, now);
    } else if a == Insert(i) {
      var p := s.evals[i];
      var m :| 0 <= m < |p.rows| && RowKey(c, p, m) == key;
      assert RowKey(c, Next(c, s, a).evals[i], m) == key;
    } else {
      StepGrows(c, s, a);
    }
  }

  ghost predicate StockedAt(c: Config, actions: seq<Action>, id: Uuid, n: nat)
    requires n <= |actions|
  {
    CanRun(c, actions[..n]) && id in Reached(c, actions[..n]).batches &&
    EnoughLeft(Reached(c, actions[..n]).batches[id], c.settings.ratio)
  }

  /** The batch has enough stock for a warning at every state from the `from`-th on. */
  ghost predicate StaysStocked(c: Config, actions: seq<Action>, id: Uuid, from: nat) {
    forall n :: from <= n <= |actions| ==> StockedAt(c, actions, id, n)
  }

  lemma StockedBefore(c: Config, actions: seq<Action>, id: Uuid, from: nat)
    requires actions != [] && StaysStocked(c, actions, id, from)
    ensures StaysStocked(c, actions[..|actions| - 1], id, from)
  {
    var front := actions[..|actions| - 1];
    forall n | from <= n <= |front| ensures StockedAt(c, front, id, n) {
      assert StockedAt(c, actions, id, n);
      assert front[..n] == actions[..n];
    }
  }

  lemma WindowStays(b: Batch, b': Batch, s: Settings, now: Time, id: Uuid)
    requires BatchGrows(b, b')
    ensures InWindow(b, s, now) == InWindow(b', s, now) && DueKey(id, b, s, now) == DueKey(id, b', s, now)
  {}

  /** An evaluation that reads the clock inside a batch's warning window, and commits, leaves the warning
      recorded, if the batch stays stocked meanwhile. */
  lemma {:induction false} EvaluationWarns(c: Config, actions: seq<Action>, p: nat, id: Uuid, s: State)
    requires CanRun(c, actions) && p < |actions| && actions[p].ReadClock?
    requires CanRun(c, actions[..p]) && s == Reached(c, actions[..p]) && Enabled(c, s, actions[p])
    requires StaysStocked(c, actions, id, p)
    requires id in s.batches && InWindow(s.batches[id], c.settings, s.clock)
    ensures InRange(Reached(c, actions), actions[p].i)
    ensures OwesWarning(c, Reached(c, actions), actions[p].i, id, DueKey(id, s.batches[id], c.settings, s.clock), s.clock)
  {
    var front, last := actions[..|actions| - 1], actions[|actions| - 1];
    if p == |actions| - 1 {
      assert actions[..p] == front;
    } else {
      assert front[..p] == actions[..p];
      StockedBefore(c, actions, id, p);
      EvaluationWarns(c, front, p, id, s);
      WarnsOn(c, front, last, p, id, s, actions[p].i);
    }
  }

  lemma StillStocked(c: Config, front: seq<Action>, p: nat, id: Uuid)
    requires CanRun(c, front) && p <= |front| && StaysStocked(c, front, id, p)
    ensures CanRun(c, front[..p]) && id in Reached(c, front[..p]).batches
    ensures id in Reached(c, front).batches && EnoughLeft(Reached(c, front).batches[id], c.settings.ratio)
    ensures BatchGrows(Reached(c, front[..p]).batches[id], Reached(c, front).batches[id])
  {
    assert StockedAt(c, front, id, p) && StockedAt(c, front, id, |front|);
    assert front[..|front|] == front;
    RunGrows(c, front, p);
  }

  lemma WarnsOn(c: Config, front: seq<Action>, last: Action, p: nat, id: Uuid, s: State, i: nat)
    requires CanRun(c, front) && Enabled(c, Reached(c, front), last) && p <= |front|
    requires CanRun(c, front[..p]) && s == Reached(c, front[..p])
    requires StaysStocked(c, front, id, p)
    requires id in s.batches && InWindow(s.batches[id], c.settings, s.clock)
    requires InRange(Reached(c, front), i)
    requires OwesWarning(c, Reached(c, front), i, id, DueKey(id, s.batches[id], c.settings, s.clock), s.clock)
    ensures InRange(Next(c, Reached(c, front), last), i)
    ensures OwesWarning(c, Next(c, Reached(c, front), last), i, id, DueKey(id, s.batches[id], c.settings, s.clock), s.clock)
  {
    var t := Reached(c, front);
    RunKeepsInv(c, front);
    StillStocked(c, front, p, id);
    WindowStays(s.batches[id], t.batches[id], c.settings, s.clock, id);
    StepKeepsWarning(c, t, last, i, id, s.clock);
  }

  // ----- deadlines -----

  lemma GrowsBetween(c: Config, actions: seq<Action>, n: nat, m: nat)
    requires CanRun(c, actions) && n <= m <= |actions|
    ensures Grows(At(c, actions, n), At(c, actions, m))
  {
    PrefixRuns(c, actions, m);
    RunGrows(c, actions[..m], n);
    assert actions[..m][..n] == actions[..n];
  }

  ghost function ClockAt(c: Config, actions: seq<Action>, n: nat): Time
    requires CanRun(c, actions) && n <= |actions|
  {
    At(c, actions, n).clock
  }

  lemma ClockAdvances(c: Config, actions: seq<Action>, n: nat, m: nat)
    requires CanRun(c, actions) && n <= m <= |actions|
    ensures ClockAt(c, actions, n) <= ClockAt(c, actions, m)
  {
    GrowsBetween(c, actions, n, m);
  }

  /** One evaluation reads the clock as action `p` and commits as action `q`; it reads it within `gap` of
      `t` and takes no longer than `duration`. */
  ghost predicate Evaluates(c: Config, actions: seq<Action>, p: nat, q: nat, t: Time, gap: Time, duration: Time)
    requires CanRun(c, actions)
  {
    && p < q < |actions| && actions[p].ReadClock? && actions[q] == Commit(actions[p].i)
    && t <= ClockAt(c, actions, p) <= t + gap
    && ClockAt(c, actions, q) <= ClockAt(c, actions, p) + duration
  }

  /** At any time of the run an evaluation starts within `gap` and commits within a further `duration`. */
  ghost predicate Punctual(c: Config, actions: seq<Action>, gap: Time, duration: Time)
    requires CanRun(c, actions)
  {
    forall t :: c.clock <= t && t + gap + duration <= Reached(c, actions).clock ==> EvaluatedAfter(c, actions, t, gap, duration)
  }

  ghost predicate EvaluatedAfter(c: Config, actions: seq<Action>, t: Time, gap: Time, duration: Time)
    requires CanRun(c, actions)
  {
    exists p, q :: Evaluates(c, actions, p, q, t, gap, duration)
  }

  /** From state `start` until the clock passes `deadline`, the batch is there with enough stock. */
  ghost predicate StockedUntil(c: Config, actions: seq<Action>, id: Uuid, start: nat, deadline: Time)
    requires CanRun(c, actions)
  {
    forall n :: start <= n <= |actions| && ClockAt(c, actions, n) <= deadline ==> StockedAt(c, actions, id, n)
  }

  predicate Warned(s: State, id: Uuid, deadline: Time)
    requires id in s.batches
  {
    var b := s.batches[id];
    || Key(id, MediumToSpoiled) in s.alerts
    || (b.deadlines.spoiledAt != Some(deadline) && Key(id, FreshToMedium) in s.alerts)
  }

  /** `deadline` is one of those the batch must be warned of: its spoil deadline, or the end of its freshness. */
  predicate MustWarn(b: Batch, deadline: Time) {
    b.deadlines.spoiledAt == Some(deadline) || (b.initial == Some(Fresh) && b.deadlines.freshAt == Some(deadline))
  }

  lemma WindowOpens(b: Batch, s: Settings, deadline: Time, now: Time)
    requires MustWarn(b, deadline) && deadline <= now + s.lead
    ensures InWindow(b, s, now)
    ensures b.deadlines.spoiledAt == Some(deadline) ==> EventOf(b, s, now) == MediumToSpoiled
  {}

  lemma StockedMeanwhile(c: Config, actions: seq<Action>, id: Uuid, start: nat, deadline: Time, p: nat, q: nat)
    requires CanRun(c, actions) && start <= p <= q <= |actions| && ClockAt(c, actions, q) <= deadline
    requires StockedUntil(c, actions, id, start, deadline)
    ensures StaysStocked(c, actions[..q], id, p)
  {
    forall n | p <= n <= q ensures StockedAt(c, actions[..q], id, n) {
      ClockAdvances(c, actions, n, q);
      assert StockedAt(c, actions, id, n);
      assert actions[..q][..n] == actions[..n];
    }
  }

  lemma CommitEnds(c: Config, actions: seq<Action>, q: nat)
    requires CanRun(c, actions) && q < |actions| && actions[q].Commit?
    ensures CanRun(c, actions[..q + 1]) && InRange(Reached(c, actions[..q + 1]), actions[q].i)
    ensures Reached(c, actions[..q + 1]).evals[actions[q].i].Committed?
    ensures ClockAt(c, actions, q + 1) == ClockAt(c, actions, q)
  {
    AtNext(c, actions, q);
  }

  lemma EvaluationInTime(c: Config, actions: seq<Action>, gap: Time, duration: Time, t: Time, start: nat) returns (p: nat, q: nat)
    requires CanRun(c, actions) && Punctual(c, actions, gap, duration)
    requires start <= |actions| && ClockAt(c, actions, start) < t && t + gap + duration <= Reached(c, actions).clock
    ensures start <= p && Evaluates(c, actions, p, q, t, gap, duration)
  {
    ClockAdvances(c, actions, 0, start);
    assert actions[..0] == [];
    assert EvaluatedAfter(c, actions, t, gap, duration);
    p, q :| Evaluates(c, actions, p, q, t, gap, duration);
    if p < start { ClockAdvances(c, actions, p, start); }
  }

  /** When evaluations start at most `gap` apart, take at most `duration`, and gap and duration together fit
      in the warning lead, a batch that is there before its window opens and stays stocked is warned of
      every deadline by that deadline: of spoiling by a spoil warning, of losing freshness by either. */
  lemma WarnedByDeadline(c: Config, actions: seq<Action>, gap: Time, duration: Time, id: Uuid, start: nat, deadline: Time)
    returns (n: nat)
    requires CanRun(c, actions) && Punctual(c, actions, gap, duration) && gap + duration <= c.settings.lead
    requires start <= |actions| && StockedAt(c, actions, id, start)
    requires ClockAt(c, actions, start) < deadline - c.settings.lead && deadline <= Reached(c, actions).clock
    requires MustWarn(Reached(c, actions[..start]).batches[id], deadline)
    requires StockedUntil(c, actions, id, start, deadline)
    ensures n <= |actions| && CanRun(c, actions[..n]) && ClockAt(c, actions, n) <= deadline
    ensures id in Reached(c, actions[..n]).batches && Warned(Reached(c, actions[..n]), id, deadline)
  {
    var p, q := EvaluationInTime(c, actions, gap, duration, deadline - c.settings.lead, start);
    n := q + 1;
    CommitEnds(c, actions, q);
    StockedMeanwhile(c, actions, id, start, deadline, p, n);
    RecordedByCommit(c, actions, p, q, id, start, deadline);
  }

  lemma RecordedByCommit(c: Config, actions: seq<Action>, p: nat, q: nat, id: Uuid, start: nat, deadline: Time)
    requires CanRun(c, actions) && start <= p < q < |actions| && actions[p].ReadClock? && actions[q] == Commit(actions[p].i)
    requires StockedAt(c, actions, id, start) && MustWarn(Reached(c, actions[..start]).batches[id], deadline)
    requires deadline <= ClockAt(c, actions, p) + c.settings.lead
    requires StaysStocked(c, actions[..q + 1], id, p)
    ensures CanRun(c, actions[..q + 1])
    ensures id in Reached(c, actions[..q + 1]).batches && Warned(Reached(c, actions[..q + 1]), id, deadline)
  {
    AtNext(c, actions, p);
    var s, run := Reached(c, actions[..p]), actions[..q + 1];
    PrefixRuns(c, actions, p);
    RunGrows(c, actions[..p], start);
    assert actions[..p][..start] == actions[..start] && run[..p] == actions[..p];
    CommitEnds(c, actions, q);
    WindowOpens(s.batches[id], c.settings, deadline, s.clock);
    EvaluationWarns(c, run, p, id, s);
    RunGrows(c, run, p);
  }

  /** The beat sends a task every hour from `first` on; the task sent at a beat starts within `delay` of it
      and commits within a further `duration`, for every beat whose time is up. */
  ghost predicate BeatServed(c: Config, actions: seq<Action>, first: Time, delay: Time, duration: Time)
    requires CanRun(c, actions)
  {
    forall n: nat :: Served(c, actions, first, delay, duration, n)
  }

  ghost predicate Served(c: Config, actions: seq<Action>, first: Time, delay: Time, duration: Time, n: nat)
    requires CanRun(c, actions)
  {
    first + n * HOUR + delay + duration <= Reached(c, actions).clock ==>
      EvaluatedAfter(c, actions, first + n * HOUR, delay, duration)
  }

  /** The first beat at or after `t`. */
  function BeatAfter(first: Time, t: Time): (n: nat)
    ensures t <= first + n * HOUR
    ensures first <= t + HOUR ==> first + n * HOUR <= t + HOUR
  {
    if t <= first then 0 else (t - first + HOUR - 1) / HOUR
  }

  lemma SpanWidens(c: Config, actions: seq<Action>, b: Time, delay: Time, t: Time, gap: Time, duration: Time)
    requires CanRun(c, actions) && EvaluatedAfter(c, actions, b, delay, duration) && t <= b && b + delay <= t + gap
    ensures EvaluatedAfter(c, actions, t, gap, duration)
  {
    var p: nat, q: nat :| Evaluates(c, actions, p, q, b, delay, duration);
    assert Evaluates(c, actions, p, q, t, gap, duration);
  }

  lemma BeatCovers(c: Config, actions: seq<Action>, first: Time, delay: nat, duration: nat, t: Time, gap: Time)
    requires CanRun(c, actions) && BeatServed(c, actions, first, delay, duration)
    requires first <= t + HOUR && gap == HOUR + delay && t + gap + duration <= Reached(c, actions).clock
    ensures EvaluatedAfter(c, actions, t, gap, duration)
  {
    var n := BeatAfter(first, t);
    assert Served(c, actions, first, delay, duration, n);
    SpanWidens(c, actions, first + n * HOUR, delay, t, gap, duration);
  }

  lemma BeatIsPunctual(c: Config, actions: seq<Action>, first: Time, delay: nat, duration: nat, gap: Time)
    requires CanRun(c, actions) && BeatServed(c, actions, first, delay, duration)
    requires first <= c.clock + HOUR && gap == HOUR + delay
    ensures Punctual(c, actions, gap, duration)
  {
    forall t | c.clock <= t && t + gap + duration <= Reached(c, actions).clock
      ensures EvaluatedAfter(c, actions, t, gap, duration)
    {
      BeatCovers(c, actions, first, delay, duration, t, gap);
    }
  }

  /** With the hourly beat the guarantee holds for any configured lead, as long as queueing and running a
      task together take no longer than the hours of lead beyond the first. */
  lemma HourlyBeatSuffices(c: Config, actions: seq<Action>, hours: int, ratio: real, first: Time, delay: nat, duration: nat,
                           id: Uuid, start: nat, deadline: Time)
    returns (n: nat)
    requires c.settings == FromEnvironment(hours, ratio) && delay + duration <= (if hours > 1 then hours - 1 else 0) * HOUR
    requires CanRun(c, actions) && BeatServed(c, actions, first, delay, duration) && first <= c.clock + HOUR
    requires start <= |actions| && StockedAt(c, actions, id, start)
    requires ClockAt(c, actions, start) < deadline - c.settings.lead && deadline <= Reached(c, actions).clock
    requires MustWarn(Reached(c, actions[..start]).batches[id], deadline)
    requires StockedUntil(c, actions, id, start, deadline)
    ensures n <= |actions| && CanRun(c, actions[..n]) && ClockAt(c, actions, n) <= deadline
    ensures id in Reached(c, actions[..n]).batches && Warned(Reached(c, actions[..n]), id, deadline)
  {
    BeatIsPunctual(c, actions, first, delay, duration, HOUR + delay);
    n := WarnedByDeadline(c, actions, HOUR + delay, duration, id, start, deadline);
  }

  // ----- the migrated schema -----

  predicate NothingEvaluated(s: State) {
    forall i :: 0 <= i < |s.evals| ==> !s.evals[i].Inserting? && !s.evals[i].Committed?
  }

  lemma StepEvaluatesNothing(c: Config, s: State, a: Action)
    requires Enabled(c, s, a) && !c.joinable && NothingEvaluated(s)
    ensures NothingEvaluated(Next(c, s, a)) && Next(c, s, a).raised == s.raised
  {}

  lemma {:induction false} RunEvaluatesNothing(c: Config, actions: seq<Action>)
    requires CanRun(c, actions) && !c.joinable
    ensures NothingEvaluated(Reached(c, actions)) && Reached(c, actions).raised == multiset{}
  {
    if actions != [] {
      RunEvaluatesNothing(c, actions[..|actions| - 1]);
      StepEvaluatesNothing(c, Reached(c, actions[..|actions| - 1]), actions[|actions| - 1]);
    }
  }

  /** Once the column that the selection joins on is gone, no evaluation commits and no warning is ever raised. */
  lemma MigratedSchemaNeverWarns(c: Config, actions: seq<Action>, k: Key)
    requires CanRun(c, actions) && !c.joinable
    ensures NothingEvaluated(Reached(c, actions))
    ensures IsWarning(k.event) && k in Reached(c, actions).alerts ==> k in c.alerts
  {
    RunEvaluatesNothing(c, actions);
    OneAlertPerEvent(c, actions, k);
  }

  /** So no run on that schema that outlasts a gap and a duration is punctual. */
  lemma MigratedSchemaIsNeverPunctual(c: Config, actions: seq<Action>, gap: Time, duration: Time)
    requires CanRun(c, actions) && !c.joinable && c.clock + gap + duration <= Reached(c, actions).clock
    ensures !Punctual(c, actions, gap, duration)
  {
    if Punctual(c, actions, gap, duration) {
      assert EvaluatedAfter(c, actions, c.clock, gap, duration);
      var p: nat, q: nat :| Evaluates(c, actions, p, q, c.clock, gap, duration);
      CommitEnds(c, actions, q);
      RunEvaluatesNothing(c, actions[..q + 1]);
    }
  }
}
