/** What every run of concurrent sale transactions and intake guarantees. */
module SalesTheorems {
  import opened Prelude
  import opened SaleTables
  import opened SaleLog
  import opened SalesMachine
  import opened SalesRefinement
  import opened SalesCommits
  import opened SaleAnswers

  /** What transaction `i` ended with, if it has ended by committing or by raising. */
  function ResultOf(s: State, i: nat): Option<Outcome> {
    if i < |s.txns| && s.txns[i].phase.Closed? then s.txns[i].phase.result else None
  }

  /** Each attempt's outcome is logged under it, at most once; and each logged outcome is one its attempt
      stands behind: an accepted one has committed, any other changed no table. */
  ghost predicate LogMatches(c: Config, s: State) {
    && |s.txns| == |c.calls| && |s.who| == |s.log|
    && (forall i :: 0 <= i < |c.calls| && ResultOf(s, i).Some? ==> LoggedAs(s, i, c.calls[i], ResultOf(s, i).value))
    && (forall k :: 0 <= k < |s.log| && s.log[k].Decided? ==>
          s.who[k].Some? && s.who[k].value < |c.calls| && s.log[k].call == c.calls[s.who[k].value] &&
          Behind(s.txns[s.who[k].value], s.log[k].outcome))
    && (forall k, m :: 0 <= k < m < |s.log| && s.log[k].Decided? && s.log[m].Decided? ==> s.who[k] != s.who[m])
  }

  lemma InvariantMatches(c: Config, s: State)
    requires |s.txns| == |c.calls| && LogInv(c, s) && Backed(s)
    ensures LogMatches(c, s)
  {
    forall k | 0 <= k < |s.log| && s.log[k].Decided? ensures Behind(s.txns[s.who[k].value], s.log[k].outcome) {
      assert EntryBacked(s, k);
    }
  }

  lemma LogUsesFreshIds(c: Config, db: Db, s: State)
    requires Admissible(c, db) && LogMatches(c, s)
    ensures FreshIds(db, s.log)
  {
    forall k, m | 0 <= k < m < |s.log| && s.log[k].Decided? && s.log[m].Decided?
      ensures s.log[k].call.saleId != s.log[m].call.saleId
    {
      assert s.who[k] != s.who[m];
    }
  }

  /** The committed tables of any interleaving are those of running the logged entries one at a time; every
      logged outcome is the sequential one at that point; each accepted entry is of a transaction that has
      committed and ended with it; and the outcome each transaction ended with is the one logged for it.
      `SalesCommits.LogIsInCommitOrder` says that the log is in commit order. */
  lemma InterleavingRefinesSequential(c: Config, db: Db, actions: seq<Action>)
    requires Admissible(c, db) && CanRun(c, db, actions)
    ensures var s := Reached(c, db, actions);
            Legal(db, s.log) && s.db == Fold(db, s.log) && FreshIds(db, s.log) && LogMatches(c, s)
  {
    RunKeepsInv(c, db, actions);
    RunBacked(c, db, actions);
    InvariantMatches(c, Reached(c, db, actions));
    LogUsesFreshIds(c, db, Reached(c, db, actions));
  }

  /** In every reachable committed state keys are unique; a batch received in the run has received stock equal
      to remaining plus sold, within bounds, and one that was there before has so exactly when it had at the
      start; and each initial batch has lost exactly what accepted requests asked for. */
  lemma StockIsConserved(c: Config, db: Db, actions: seq<Action>)
    requires Admissible(c, db) && CanRun(c, db, actions)
    ensures var s := Reached(c, db, actions);
            && UniqueKeys(s.db.sales)
            && (forall b :: b in s.db.batches ==> (Conserving(s.db, b) <==> (b in db.batches ==> Conserving(db, b))))
            && (forall b :: b in db.batches ==>
                  b in s.db.batches && s.db.batches[b].remaining == db.batches[b].remaining - Deducted(s.log, b))
  {
    InterleavingRefinesSequential(c, db, actions);
    var s := Reached(c, db, actions);
    HistoryKeepsSound(db, s.log);
    forall b | b in s.db.batches ensures Conserving(s.db, b) <==> (b in db.batches ==> Conserving(db, b)) {
      HistoryConserves(db, s.log, b);
    }
    forall b | b in db.batches
      ensures b in s.db.batches && s.db.batches[b].remaining == db.batches[b].remaining - Deducted(s.log, b)
    {
      NoDeductionLost(db, s.log, b);
    }
  }

  /** For any hash: two attempts with one key are never both accepted, and the attempt that loses
      leaves with a replay of the winner's sale or a conflict. */
  lemma OneAcceptedAttemptPerKey(c: Config, db: Db, actions: seq<Action>, i: nat, j: nat)
    requires Admissible(c, db) && CanRun(c, db, actions)
    requires i < |c.calls| && j < |c.calls| && i != j && SameKey(c.calls[i].request, c.calls[j].request)
    requires ResultOf(Reached(c, db, actions), i).Some? && ResultOf(Reached(c, db, actions), i).value.Accepted?
    ensures var r := ResultOf(Reached(c, db, actions), j);
            r.Some? ==> !r.value.Accepted? && (r.value.Replayed? ==> r.value.sale.id == c.calls[i].saleId)
  {
    InterleavingRefinesSequential(c, db, actions);
    var s := Reached(c, db, actions);
    var r := ResultOf(s, j);
    if r.Some? {
      assert LoggedAs(s, i, c.calls[i], ResultOf(s, i).value);
      assert LoggedAs(s, j, c.calls[j], r.value);
      var k :| 0 <= k < |s.log| && s.who[k] == Some(i) && s.log[k].Decided? &&
               s.log[k].call == c.calls[i] && s.log[k].outcome == ResultOf(s, i).value;
      var m :| 0 <= m < |s.log| && s.who[m] == Some(j) && s.log[m].Decided? &&
               s.log[m].call == c.calls[j] && s.log[m].outcome == r.value;
      if k < m {
        DeductsOnce(db, s.log, k, m);
      } else {
        if r.value.Accepted? { DeductsOnce(db, s.log, m, k); }
        EarlierFindsNone(db, s.log, m, k);
      }
    }
  }

  /** Nothing is replayed before the key's sale exists. */
  lemma EarlierFindsNone(db: Db, log: seq<Entry>, m: nat, k: nat)
    requires Legal(db, log) && m < k < |log| && log[m].Decided? && log[k].Decided?
    requires SameKey(log[m].call.request, log[k].call.request) && log[k].outcome.Accepted?
    ensures !log[m].outcome.Replayed?
  {
    LegalAt(db, log, m);
    LegalAt(db, log, k);
    var r := log[k].call.request;
    SalesPersist(db, log[..k], m, r.tenant, r.key);
    assert log[..k][..m] == log[..m];
  }

  /** The unique-violation fallback is unreachable: the key lock precedes the read, so at the insert no
      sale with the key is committed or pending, and no alert insert meets the unique index. */
  lemma FallbackUnreachable(c: Config, db: Db, actions: seq<Action>, i: nat)
    requires Admissible(c, db) && CanRun(c, db, actions) && i < |c.calls|
    ensures var s := Reached(c, db, actions);
            && |s.txns| == |c.calls|
            && !s.txns[i].phase.Raced? && !s.txns[i].phase.Failed?
            && (s.txns[i].phase.Inserting? ==>
                  FindSale(s.db.sales, c.calls[i].request.tenant, c.calls[i].request.key).None? &&
                  forall j :: 0 <= j < |c.calls| ==> !WaitsFor(c, s, i, j))
            && (NextInsert(c, s, i).Some? ==>
                  NextInsert(c, s, i).value !in s.db.alerts && forall j :: 0 <= j < |c.calls| ==> !WaitsFor(c, s, i, j))
  {
    RunKeepsInv(c, db, actions);
    var s := Reached(c, db, actions);
    assert TxnInv(s.db, c.calls[i], s.txns[i]);
    if s.txns[i].phase.Inserting? {
      forall j | 0 <= j < |c.calls| ensures !WaitsFor(c, s, i, j) {
        if j != i { assert if i < j then Apart(c, s, i, j) else Apart(c, s, j, i); }
      }
    }
    if NextInsert(c, s, i).Some? {
      InsertMeetsNoIndex(c, db, s, i, NextInsert(c, s, i).value);
    }
  }

  /** While a transaction holds its locks, what it read is what is committed. */
  lemma LockedRowsAreCurrent(c: Config, db: Db, actions: seq<Action>, i: nat)
    requires Admissible(c, db) && CanRun(c, db, actions) && i < |c.calls|
    ensures var s := Reached(c, db, actions);
            |s.txns| == |c.calls| &&
            (SalePending(s.txns[i]) ==>
               forall b :: b in s.txns[i].rows ==> RowOf(s.db, c.calls[i].request.tenant, b) == Some(s.txns[i].rows[b]))
  {
    RunKeepsInv(c, db, actions);
    var s := Reached(c, db, actions);
    assert TxnInv(s.db, c.calls[i], s.txns[i]);
    if SalePending(s.txns[i]) {
      RowsAreLocked(s.db, c.calls[i].request, s.txns[i], |LockOrder(c.calls[i].request)|);
    }
  }

  // ----- answers and tenants -----

  /** Each tenant's stock, of an initial batch, is reduced by that tenant's own accepted requests and by nothing else. */
  lemma StockIsTheTenantsOwn(c: Config, db: Db, actions: seq<Action>, b: Uuid)
    requires Admissible(c, db) && CanRun(c, db, actions) && b in db.batches
    ensures var s, tenant := Reached(c, db, actions), db.batches[b].tenant;
            b in s.db.batches && s.db.batches[b].tenant == tenant &&
            s.db.batches[b].remaining == db.batches[b].remaining - DeductedBy(s.log, tenant, b)
  {
    InterleavingRefinesSequential(c, db, actions);
    OnlyOwnSalesDeduct(db, Reached(c, db, actions).log, b);
  }

  /** What a transaction that ended accepted has answered: its own id and source, and each requested line with
      the stock it left of its own tenant's batch, counted from the tables as they were when it committed. */
  lemma AnswersTellWhatIsLeft(c: Config, db: Db, actions: seq<Action>, i: nat) returns (k: nat)
    requires Admissible(c, db) && CanRun(c, db, actions) && i < |c.calls|
    requires ResultOf(Reached(c, db, actions), i).Some? && ResultOf(Reached(c, db, actions), i).value.Accepted?
    ensures var s := Reached(c, db, actions);
            && k < |s.log| == |s.who| && s.who[k] == Some(i) && s.log[k].Decided?
            && TellsWhatIsLeft(Fold(db, s.log[..k]), c.calls[i], ResultOf(s, i).value.sale)
            && Fold(db, s.log[..k + 1]) == Create(Fold(db, s.log[..k]), c.calls[i], s.log[k].readback)
            && (forall j :: 0 <= j < |c.calls[i].request.items| ==>
                  c.calls[i].request.items[j].batch in Fold(db, s.log[..k]).batches &&
                  Fold(db, s.log[..k]).batches[c.calls[i].request.items[j].batch].tenant == c.calls[i].request.tenant)
  {
    InterleavingRefinesSequential(c, db, actions);
    var s := Reached(c, db, actions);
    assert LoggedAs(s, i, c.calls[i], ResultOf(s, i).value);
    k :| 0 <= k < |s.log| && s.who[k] == Some(i) && s.log[k].Decided? && s.log[k].call == c.calls[i] &&
         s.log[k].outcome == ResultOf(s, i).value;
    LegalAt(db, s.log, k);
    AcceptedTellsWhatIsLeft(Fold(db, s.log[..k]), c.calls[i], s.log[k].readback);
    OnlyOwnBatchesAreSold(Fold(db, s.log[..k]), c.calls[i], s.log[k].readback);
  }

  ghost predicate EndedAnswered(c: Config, s: State, i: nat) {
    InRange(c, s, i) && (s.txns[i].phase.Closed? ==> ResultOf(s, i).Some?)
  }

  lemma StepAnswers(c: Config, s: State, a: Action, i: nat)
    requires Enabled(c, s, a) && a != Abort(i) && EndedAnswered(c, s, i)
    ensures EndedAnswered(c, Next(c, s, a), i)
  {}

  /** A transaction that has ended without being rolled back has an answer. */
  lemma {:induction false} EndedIsAnswered(c: Config, db: Db, actions: seq<Action>, i: nat)
    requires CanRun(c, db, actions) && i < |c.calls|
    requires forall k :: 0 <= k < |actions| ==> actions[k] != Abort(i)
    ensures EndedAnswered(c, Reached(c, db, actions), i)
  {
    if actions != [] {
      var front := actions[..|actions| - 1];
      EndedIsAnswered(c, db, front, i);
      StepAnswers(c, Reached(c, db, front), actions[|front|], i);
    }
  }
}
