/** Every step of the lifecycle machine keeps its invariant, and only adds facts. */
module LifecycleSafety {
  import opened Prelude
  import opened Lifecycle
  import opened LifecycleMachine

  lemma CommitGrows(alerts: Alerts, swept: set<Key>, own: Alerts, t: Time)
    requires forall k :: k in own ==> k !in alerts
    ensures AlertsGrow(alerts, ResolveAll(alerts, swept, t) + own)
  {}

  lemma ResolvingGrows(alerts: Alerts, seen: set<Key>, t: Time)
    ensures AlertsGrow(alerts, ResolveAll(alerts, seen, t))
  {}

  lemma TouchingGrows(alerts: Alerts, k: Key, mark: Mark, t: Time)
    requires k in alerts
    ensures AlertsGrow(alerts, alerts[k := Touched(alerts[k], mark, t)])
  {}

  lemma StepGrows(c: Config, s: State, a: Action)
    requires Inv(c, s) && Enabled(c, s, a)
    ensures Grows(s, Next(c, s, a))
  {
    match a
    case Commit(i) =>
      assert EvalInv(c, s.alerts, s.evals[i]);
      CommitGrows(s.alerts, s.evals[i].swept, s.evals[i].own, s.evals[i].began);
    case Sell(id, sold, seen) => ResolvingGrows(s.alerts, seen, s.clock);
    case Touch(k, mark) => TouchingGrows(s.alerts, k, mark, s.clock);
    case _ =>
  }

  lemma GrowsOn(s: State, s': State, s'': State)
    requires Grows(s, s') && Grows(s', s'')
    ensures Grows(s, s'')
  {}

  /** An evaluation's invariant survives any change of the alerts that leaves its own alone. */
  lemma StillHolds(c: Config, alerts: Alerts, alerts': Alerts, p: Phase)
    requires EvalInv(c, alerts, p) && AlertsGrow(alerts, alerts')
    requires forall k :: k in SweptBy(p) ==> alerts'[k].resolvedAt.None?
    requires forall k :: k in OwnOf(p) ==> k !in alerts'
    ensures EvalInv(c, alerts', p)
  {}

  /** Steps of sales, intake, vendors and the clock. */
  lemma OutsideKeepsInv(c: Config, s: State, a: Action)
    requires Inv(c, s) && Enabled(c, s, a) && (a.Tick? || a.Receive? || a.Sell? || a.Touch? || a.Alarm?)
    ensures Inv(c, Next(c, s, a))
  {
    var s' := Next(c, s, a);
    StepGrows(c, s, a);
    forall i | 0 <= i < |s'.evals| ensures EvalInv(c, s'.alerts, s'.evals[i]) {
      var p := s.evals[i];
      assert EvalInv(c, s.alerts, p);
      forall k | k in SweptBy(p) ensures s'.alerts[k].resolvedAt.None? {}
      StillHolds(c, s.alerts, s'.alerts, p);
    }
  }

  lemma InsertKeepsEval(c: Config, s: State, p: Phase)
    requires p.Inserting? && p.n < |p.rows| && EvalInv(c, s.alerts, p)
    ensures EvalInv(c, s.alerts, Inserted(c, s, p))
  {
    var p' := Inserted(c, s, p);
    forall m | 0 <= m < p'.n ensures RowKey(c, p', m) in p'.own || RowKey(c, p', m) in s.alerts {
      assert RowKey(c, p', m) == RowKey(c, p, m);
    }
  }

  lemma PutKeepsInv(c: Config, s: State, i: nat, p: Phase)
    requires Inv(c, s) && InRange(s, i) && EvalInv(c, s.alerts, p)
    requires forall j :: 0 <= j < |s.evals| && j != i ==> Apart(p, s.evals[j])
    ensures Inv(c, Put(s, i, p))
  {}

  predicate IsInside(a: Action) {
    a.ReadClock? || a.BeginTxn? || a.Sweep? || a.Select? || a.Insert? || a.Fail?
  }

  lemma InsideIsAPut(c: Config, s: State, a: Action)
    requires Enabled(c, s, a) && IsInside(a) && EvalInv(c, s.alerts, s.evals[a.i])
    ensures Next(c, s, a) == Put(s, a.i, Next(c, s, a).evals[a.i])
    ensures EvalInv(c, s.alerts, Next(c, s, a).evals[a.i])
  {
    if a.Insert? { InsertKeepsEval(c, s, s.evals[a.i]); }
  }

  lemma InsideStaysApart(c: Config, s: State, a: Action, j: nat)
    requires Enabled(c, s, a) && IsInside(a) && j < |s.evals| && j != a.i && Apart(s.evals[a.i], s.evals[j])
    ensures Apart(Next(c, s, a).evals[a.i], s.evals[j])
  {}

  /** Steps of an evaluation inside its transaction. */
  lemma InsideKeepsInv(c: Config, s: State, a: Action)
    requires Inv(c, s) && Enabled(c, s, a) && IsInside(a)
    ensures Inv(c, Next(c, s, a))
  {
    InsideIsAPut(c, s, a);
    forall j | 0 <= j < |s.evals| && j != a.i ensures Apart(Next(c, s, a).evals[a.i], s.evals[j]) {
      ApartFrom(c, s, a.i, j);
      InsideStaysApart(c, s, a, j);
    }
    PutKeepsInv(c, s, a.i, Next(c, s, a).evals[a.i]);
  }

  lemma ApartFrom(c: Config, s: State, i: nat, j: nat)
    requires Inv(c, s) && i < |s.evals| && j < |s.evals| && i != j
    ensures Apart(s.evals[i], s.evals[j])
  {
    if j < i { assert Apart(s.evals[j], s.evals[i]); }
  }

  lemma CommitKeepsOther(c: Config, s: State, i: nat, j: nat)
    requires Inv(c, s) && Enabled(c, s, Commit(i)) && j < |s.evals| && j != i
    ensures EvalInv(c, Next(c, s, Commit(i)).alerts, s.evals[j])
  {
    assert EvalInv(c, s.alerts, s.evals[i]) && EvalInv(c, s.alerts, s.evals[j]);
    ApartFrom(c, s, i, j);
    StepGrows(c, s, Commit(i));
    StillHolds(c, s.alerts, Next(c, s, Commit(i)).alerts, s.evals[j]);
  }

  lemma CommitKeepsEvals(c: Config, s: State, i: nat)
    requires Inv(c, s) && Enabled(c, s, Commit(i))
    ensures var s' := Next(c, s, Commit(i));
            && |s'.evals| == |s.evals|
            && (forall j :: 0 <= j < |s'.evals| ==> EvalInv(c, s'.alerts, s'.evals[j]))
            && (forall j, k :: 0 <= j < k < |s'.evals| ==> Apart(s'.evals[j], s'.evals[k]))
  {
    var s' := Next(c, s, Commit(i));
    assert EvalInv(c, s'.alerts, Phase.Committed);
    forall j | 0 <= j < |s.evals| && j != i ensures EvalInv(c, s'.alerts, s'.evals[j]) {
      CommitKeepsOther(c, s, i, j);
    }
  }

  lemma RaisedWith(c: Config, alerts: Alerts, alerts': Alerts, own: Alerts, raised: multiset<Key>)
    requires forall k: Key :: raised[k] == if IsWarning(k.event) && k in alerts && k !in c.alerts then 1 else 0
    requires forall k :: k in own ==> k !in alerts && IsWarning(k.event)
    requires forall k :: k in c.alerts ==> k in alerts
    requires alerts'.Keys == alerts.Keys + own.Keys
    ensures forall k: Key ::
              (raised + multiset(own.Keys))[k] == if IsWarning(k.event) && k in alerts' && k !in c.alerts then 1 else 0
  {}

  lemma CommitRaisesOnce(c: Config, s: State, i: nat)
    requires InRange(s, i) && s.evals[i].Inserting? && EvalInv(c, s.alerts, s.evals[i])
    requires RaisedOnce(c, s) && forall k :: k in c.alerts ==> k in s.alerts
    ensures RaisedOnce(c, Committing(s, i)) && forall k :: k in c.alerts ==> k in Committing(s, i).alerts
  {
    RaisedWith(c, s.alerts, Committing(s, i).alerts, s.evals[i].own, s.raised);
  }

  lemma CommitKeepsInv(c: Config, s: State, i: nat)
    requires Inv(c, s) && Enabled(c, s, Commit(i))
    ensures Inv(c, Next(c, s, Commit(i)))
  {
    CommitKeepsEvals(c, s, i);
    CommitRaisesOnce(c, s, i);
  }

  lemma StepKeepsInv(c: Config, s: State, a: Action)
    requires Inv(c, s) && Enabled(c, s, a)
    ensures Inv(c, Next(c, s, a)) && Grows(s, Next(c, s, a))
  {
    StepGrows(c, s, a);
    if a.Tick? || a.Receive? || a.Sell? || a.Touch? || a.Alarm? { OutsideKeepsInv(c, s, a); }
    else if a.Commit? { CommitKeepsInv(c, s, a.i); }
    else { InsideKeepsInv(c, s, a); }
  }

  lemma {:induction false} RunKeepsInv(c: Config, actions: seq<Action>)
    requires CanRun(c, actions)
    ensures Inv(c, Reached(c, actions))
  {
    if actions != [] {
      RunKeepsInv(c, actions[..|actions| - 1]);
      StepKeepsInv(c, Reached(c, actions[..|actions| - 1]), actions[|actions| - 1]);
    }
  }

  lemma {:induction false} RunGrows(c: Config, actions: seq<Action>, n: nat)
    requires CanRun(c, actions) && n <= |actions|
    ensures CanRun(c, actions[..n]) && Grows(Reached(c, actions[..n]), Reached(c, actions))
  {
    if n == |actions| {
      assert actions[..n] == actions;
    } else {
      var front, last := actions[..|actions| - 1], actions[|actions| - 1];
      RunGrows(c, front, n);
      assert front[..n] == actions[..n];
      RunKeepsInv(c, front);
      StepKeepsInv(c, Reached(c, front), last);
      GrowsOn(Reached(c, actions[..n]), Reached(c, front), Reached(c, actions));
    }
  }
}
