/** Where in a run each decision takes effect, and which transactions stand behind the log. */
module SalesCommits {
  import opened Prelude
  import opened SaleLines
  import opened SaleTables
  import opened SalesMachine

  /** The transaction of a logged outcome: an accepted one has committed and ended with it; any other
      changed no table, and has ended with it, is about to, or was rolled back after giving it. */
  predicate Behind(t: Txn, outcome: Outcome) {
    || t.phase == Closed(Some(outcome))
    || (!outcome.Accepted? && (t.phase == Ending(outcome) || t.phase == Closed(None)))
  }

  ghost predicate EntryBacked(s: State, k: nat)
    requires k < |s.log| == |s.who|
  {
    s.log[k].Decided? ==> s.who[k].Some? && s.who[k].value < |s.txns| && Behind(s.txns[s.who[k].value], s.log[k].outcome)
  }

  ghost predicate Backed(s: State) {
    |s.log| == |s.who| && forall k :: 0 <= k < |s.log| ==> EntryBacked(s, k)
  }

  /** What one step adds to the log: nothing, or one entry of the transaction that took the step. */
  ghost predicate Logs(s: State, a: Action, s': State) {
    || (s'.log == s.log && s'.who == s.who)
    || (|s'.log| == |s'.who| == |s.log| + 1 && s'.log == s.log + [s'.log[|s.log|]] && s'.who == s.who + [s'.who[|s.log|]] &&
        match s'.log[|s.log|]
        case Received(id, batch) => a == Intake(id, batch)
        case Decided(_, _, outcome) =>
          && a.Advance? && s'.who[|s.log|] == Some(a.i) && a.i < |s.txns| == |s'.txns|
          && (outcome.Accepted? ==> s.txns[a.i].phase == Ending(outcome) && s'.txns[a.i].phase == Closed(Some(outcome)))
          && (!outcome.Accepted? ==> s'.txns[a.i].phase == Ending(outcome)))
  }

  lemma StepLogs(c: Config, s: State, a: Action)
    requires Enabled(c, s, a) && |s.log| == |s.who|
    ensures Logs(s, a, Next(c, s, a))
  {
    if a.Advance? { AdvanceLogs(c, s, a.i, a.readback); }
  }

  lemma AdvanceLogs(c: Config, s: State, i: nat, readback: seq<Line>)
    requires Enabled(c, s, Advance(i, readback)) && |s.log| == |s.who|
    ensures Logs(s, Advance(i, readback), Advanced(c, s, i, readback))
  {}

  /** Only the transaction that steps changes, and never back out of what stands behind an entry. */
  lemma StepStaysBehind(c: Config, s: State, a: Action, j: nat, outcome: Outcome)
    requires Enabled(c, s, a) && j < |s.txns| && Behind(s.txns[j], outcome)
    ensures |Next(c, s, a).txns| == |s.txns| && Behind(Next(c, s, a).txns[j], outcome)
  {}

  lemma StepBacked(c: Config, s: State, a: Action)
    requires Enabled(c, s, a) && Backed(s)
    ensures Backed(Next(c, s, a))
  {
    var s' := Next(c, s, a);
    StepLogs(c, s, a);
    forall k | 0 <= k < |s'.log| ensures EntryBacked(s', k) {
      if k < |s.log| {
        assert EntryBacked(s, k);
        if s.log[k].Decided? { StepStaysBehind(c, s, a, s.who[k].value, s.log[k].outcome); }
      }
    }
  }

  lemma {:induction false} RunBacked(c: Config, db: Db, actions: seq<Action>)
    requires CanRun(c, db, actions)
    ensures Backed(Reached(c, db, actions))
  {
    if actions != [] {
      RunBacked(c, db, actions[..|actions| - 1]);
      StepBacked(c, Reached(c, db, actions[..|actions| - 1]), actions[|actions| - 1]);
    }
  }

  lemma {:induction false} PrefixRuns(c: Config, db: Db, actions: seq<Action>, n: nat)
    requires CanRun(c, db, actions) && n <= |actions|
    ensures CanRun(c, db, actions[..n])
  {
    if n == |actions| {
      assert actions[..n] == actions;
    } else {
      PrefixRuns(c, db, actions[..|actions| - 1], n);
      assert actions[..|actions| - 1][..n] == actions[..n];
    }
  }

  ghost function At(c: Config, db: Db, actions: seq<Action>, n: nat): State
    requires CanRun(c, db, actions) && n <= |actions|
  {
    PrefixRuns(c, db, actions, n);
    Reached(c, db, actions[..n])
  }

  lemma AtNext(c: Config, db: Db, actions: seq<Action>, n: nat)
    requires CanRun(c, db, actions) && n < |actions|
    ensures Enabled(c, At(c, db, actions, n), actions[n])
    ensures At(c, db, actions, n + 1) == Next(c, At(c, db, actions, n), actions[n])
  {
    PrefixRuns(c, db, actions, n + 1);
    assert actions[..n + 1][..n] == actions[..n];
  }

  /** The log is only ever added to: at any earlier moment it was a prefix of what it is now. */
  lemma {:induction false} LogOnlyGrows(c: Config, db: Db, actions: seq<Action>, n: nat, m: nat)
    requires CanRun(c, db, actions) && n <= m <= |actions|
    ensures At(c, db, actions, n).log <= At(c, db, actions, m).log
    ensures At(c, db, actions, n).who <= At(c, db, actions, m).who
  {
    if n < m {
      LogOnlyGrows(c, db, actions, n, m - 1);
      AtNext(c, db, actions, m - 1);
      PrefixRuns(c, db, actions, m - 1);
      RunBacked(c, db, actions[..m - 1]);
      StepLogs(c, At(c, db, actions, m - 1), actions[m - 1]);
    }
  }

  /** Entry `k` of the log took effect as action `n`: the statement of its own transaction that answered it
      or, if it was accepted, that committed it; or the intake of its batch. */
  ghost predicate TookEffect(c: Config, db: Db, actions: seq<Action>, k: nat, n: nat)
    requires CanRun(c, db, actions)
  {
    && n < |actions| && |At(c, db, actions, n).log| == k
    && |At(c, db, actions, n + 1).log| == k + 1
    && Logs(At(c, db, actions, n), actions[n], At(c, db, actions, n + 1))
  }

  lemma {:induction false} EffectOf(c: Config, db: Db, actions: seq<Action>, k: nat, m: nat) returns (n: nat)
    requires CanRun(c, db, actions) && m <= |actions| && k < |At(c, db, actions, m).log|
    ensures n < m && TookEffect(c, db, actions, k, n)
  {
    assert actions[..0] == [];
    n := m - 1;
    PrefixRuns(c, db, actions, n);
    RunBacked(c, db, actions[..n]);
    AtNext(c, db, actions, n);
    StepLogs(c, At(c, db, actions, n), actions[n]);
    if k < |At(c, db, actions, n).log| { n := EffectOf(c, db, actions, k, n); }
  }

  lemma EffectLasts(c: Config, db: Db, actions: seq<Action>, k: nat, n: nat)
    requires CanRun(c, db, actions) && TookEffect(c, db, actions, k, n)
    ensures At(c, db, actions, n + 1).log <= Reached(c, db, actions).log
  {
    assert actions[..|actions|] == actions;
    LogOnlyGrows(c, db, actions, n + 1, |actions|);
  }

  /** The log is in the order of the steps that made its entries, so accepted entries are in commit order. */
  lemma LogIsInCommitOrder(c: Config, db: Db, actions: seq<Action>, k: nat, k': nat) returns (n: nat, n': nat)
    requires CanRun(c, db, actions) && k < k' < |Reached(c, db, actions).log|
    ensures TookEffect(c, db, actions, k, n) && TookEffect(c, db, actions, k', n') && n < n'
    ensures At(c, db, actions, n + 1).log <= Reached(c, db, actions).log
    ensures At(c, db, actions, n' + 1).log <= Reached(c, db, actions).log
  {
    assert actions[..|actions|] == actions;
    n' := EffectOf(c, db, actions, k', |actions|);
    n := EffectOf(c, db, actions, k, n');
    EffectLasts(c, db, actions, k, n);
    EffectLasts(c, db, actions, k', n');
  }
}
