/** What a request is answered, and whose rows it touches, in terms of the tables and the request alone. */
module SaleAnswers {
  import opened Prelude
  import opened SaleLines
  import opened SaleTables
  import opened SaleHistory
  import opened SaleLog

  // ----- which answer -----

  predicate AllOwned(db: Db, request: Request) {
    forall i :: 0 <= i < |request.items| ==> Sees(db, request.tenant, request.items[i].batch)
  }

  predicate KeyUsed(db: Db, request: Request) {
    exists j :: 0 <= j < |db.sales| && db.sales[j].tenant == request.tenant && db.sales[j].key == request.key
  }

  /** Line `n` names its batch's product, and the batch covers it and the lines before it. */
  predicate LineFits(db: Db, items: seq<Line>, n: nat)
    requires n < |items|
  {
    && items[n].batch in db.batches && db.batches[items[n].batch].product == items[n].product
    && Total(items[..n + 1], items[n].batch) <= db.batches[items[n].batch].remaining
  }

  lemma RowsRead(db: Db, request: Request)
    ensures RowsFor(db, request.tenant, LockOrder(request)).Some? <==> AllOwned(db, request)
    ensures AllOwned(db, request) ==>
              var rows := RowsFor(db, request.tenant, LockOrder(request)).value;
              Known(rows, request.items) &&
              forall i :: 0 <= i < |request.items| ==>
                rows[request.items[i].batch].product == db.batches[request.items[i].batch].product &&
                rows[request.items[i].batch].remaining == db.batches[request.items[i].batch].remaining
  {
    RowsForMeans(db, request.tenant, LockOrder(request));
    forall i | 0 <= i < |request.items| ensures request.items[i].batch in LockOrder(request) {
      assert request.items[i].batch in BatchIds(request.items);
    }
    if AllOwned(db, request) {
      forall b | b in LockOrder(request) ensures RowOf(db, request.tenant, b).Some? {
        var i :| 0 <= i < |request.items| && request.items[i].batch == b;
        assert Sees(db, request.tenant, request.items[i].batch);
      }
    }
  }

  lemma KeyUsedIsFound(db: Db, request: Request)
    ensures FindSale(db.sales, request.tenant, request.key).Some? <==> KeyUsed(db, request)
  {
    FindSaleMeans(db.sales, request.tenant, request.key);
  }

  /** A plan exists exactly when every line fits, and otherwise its reason is that of the first one that does not. */
  lemma {:induction false} PlanFits(db: Db, rows: map<Uuid, LockedRow>, items: seq<Line>, n: nat)
    requires Known(rows, items) && n <= |items| && Positive(items)
    requires forall i :: 0 <= i < |items| ==>
               items[i].batch in db.batches && rows[items[i].batch].product == db.batches[items[i].batch].product &&
               rows[items[i].batch].remaining == db.batches[items[i].batch].remaining
    ensures Plan(rows, items[..n]).Lines? <==> forall i :: 0 <= i < n ==> LineFits(db, items, i)
    ensures Plan(rows, items[..n]).Refused? ==>
              exists i :: 0 <= i < n && FirstMisfit(db, items, i, Plan(rows, items[..n]).reason)
  {
    if n > 0 {
      PlanFits(db, rows, items, n - 1);
      assert items[..n][..n - 1] == items[..n - 1];
      assert items[..n] == items[..n - 1] + [items[n - 1]];
      if Plan(rows, items[..n]).Refused? && Plan(rows, items[..n - 1]).Lines? {
        assert FirstMisfit(db, items, n - 1, Plan(rows, items[..n]).reason);
      }
    }
  }

  /** Line `n` is the first that does not fit: a product mismatch is noticed before missing stock. */
  predicate FirstMisfit(db: Db, items: seq<Line>, n: nat, reason: Refusal)
    requires n < |items|
  {
    && (forall i :: 0 <= i < n ==> LineFits(db, items, i)) && !LineFits(db, items, n) && items[n].batch in db.batches
    && reason == if db.batches[items[n].batch].product != items[n].product then ProductMismatch else OutOfStock
  }

  predicate AllFit(db: Db, items: seq<Line>) { forall i :: 0 <= i < |items| ==> LineFits(db, items, i) }

  /** Every answer, and exactly when it is given: a used key replays or conflicts; then a batch that is not
      the tenant's is refused, then the first line that does not fit, then an unknown user. */
  lemma AnswerIs(db: Db, call: Call, readback: seq<Line>)
    requires Positive(call.request.items)
    ensures var r, o := call.request, Decide(db, call, readback);
            && (o.Replayed? || o.Conflict? <==> KeyUsed(db, r))
            && (o == Rejected(UnknownBatch) <==> !KeyUsed(db, r) && !AllOwned(db, r))
            && (o.Rejected? && (o.reason.ProductMismatch? || o.reason.OutOfStock?) <==>
                  !KeyUsed(db, r) && AllOwned(db, r) && !AllFit(db, r.items))
            && (o.Rejected? && !o.reason.UnknownBatch? && !o.reason.UnknownUser? ==>
                  exists n :: 0 <= n < |r.items| && FirstMisfit(db, r.items, n, o.reason))
            && (o == Rejected(UnknownUser) <==>
                  !KeyUsed(db, r) && AllOwned(db, r) && AllFit(db, r.items) && r.user !in db.users)
            && (o.Accepted? <==> !KeyUsed(db, r) && AllOwned(db, r) && AllFit(db, r.items) && r.user in db.users)
  {
    var r := call.request;
    KeyUsedIsFound(db, r);
    RowsRead(db, r);
    if AllOwned(db, r) {
      var rows := RowsFor(db, r.tenant, LockOrder(r)).value;
      forall i | 0 <= i < |r.items| ensures r.items[i].batch in db.batches { assert Sees(db, r.tenant, r.items[i].batch); }
      PlanFits(db, rows, r.items, |r.items|);
      assert r.items[..|r.items|] == r.items;
    }
  }

  // ----- what it says -----

  /** An accepted sale's answer: its own id and source, and each requested line, in order, with the stock it left. */
  predicate TellsWhatIsLeft(db: Db, call: Call, sale: SaleView) {
    var items := call.request.items;
    && sale.id == call.saleId && sale.source == call.request.source && |sale.items| == |items|
    && forall i :: 0 <= i < |items| ==>
         && sale.items[i].0 == items[i] && items[i].batch in db.batches
         && sale.items[i].1 == db.batches[items[i].batch].remaining - Total(items[..i + 1], items[i].batch)
  }

  lemma AcceptedTellsWhatIsLeft(db: Db, call: Call, readback: seq<Line>)
    requires Decide(db, call, readback).Accepted?
    ensures TellsWhatIsLeft(db, call, Decide(db, call, readback).sale)
  {
    var items := call.request.items;
    var rows, lines := AcceptedPlan(db, call, readback);
    forall i | 0 <= i < |items| ensures RowOf(db, call.request.tenant, items[i].batch) == Some(rows[items[i].batch]) {
      assert items[i].batch in BatchIds(items);
    }
  }

  /** What the answer says of the last line of each batch is the stock the tables then hold. */
  lemma LastLineTellsFinalStock(db: Db, call: Call, readback: seq<Line>, n: nat)
    requires Positive(call.request.items) && Decide(db, call, readback).Accepted? && n < |call.request.items|
    requires forall i :: n < i < |call.request.items| ==> call.request.items[i].batch != call.request.items[n].batch
    ensures |Decide(db, call, readback).sale.items| == |call.request.items|
    ensures call.request.items[n].batch in Create(db, call, readback).batches
    ensures Decide(db, call, readback).sale.items[n].1 == Create(db, call, readback).batches[call.request.items[n].batch].remaining
  {
    AcceptedTellsWhatIsLeft(db, call, readback);
    BatchEffect(db, call, readback, call.request.items[n].batch);
    NothingAfter(call.request.items, n, |call.request.items|);
    assert call.request.items[..|call.request.items|] == call.request.items;
  }

  lemma {:induction false} NothingAfter(items: seq<Line>, n: nat, m: nat)
    requires n < m <= |items| && forall i :: n < i < |items| ==> items[i].batch != items[n].batch
    ensures Total(items[..m], items[n].batch) == Total(items[..n + 1], items[n].batch)
  {
    if n + 1 < m {
      NothingAfter(items, n, m - 1);
      assert items[..m][..m - 1] == items[..m - 1];
    }
  }

  /** A replay's answer: the stored sale's id and source, and the requested lines with their batches' stock now. */
  lemma ReplayTellsCurrentStock(db: Db, call: Call, readback: seq<Line>)
    requires Decide(db, call, readback).Replayed?
    ensures var sale, items := Decide(db, call, readback).sale, call.request.items;
            && (exists j :: 0 <= j < |db.sales| && db.sales[j].tenant == call.request.tenant &&
                  db.sales[j].key == call.request.key && db.sales[j].id == sale.id && db.sales[j].source == call.request.source)
            && sale.source == call.request.source && readback == items && |sale.items| == |items|
            && forall i :: 0 <= i < |items| && items[i].batch in db.batches ==>
                 sale.items[i] == (items[i], db.batches[items[i].batch].remaining)
  {
    FindSaleMeans(db.sales, call.request.tenant, call.request.key);
    var row := FindSale(db.sales, call.request.tenant, call.request.key).value;
    var j :| 0 <= j < |db.sales| && db.sales[j] == row;
  }

  /** The sale row of an accepted request is its own. */
  lemma AcceptedSaleRow(db: Db, call: Call, readback: seq<Line>)
    requires Decide(db, call, readback).Accepted?
    ensures Create(db, call, readback).sales ==
            db.sales + [SaleRow(call.saleId, call.request.tenant, call.request.user, call.request.source, call.request.key)]
  {}

  // ----- whose rows -----

  /** Only the tenant's own batches are sold: a request that names another tenant's is never accepted. */
  lemma OnlyOwnBatchesAreSold(db: Db, call: Call, readback: seq<Line>)
    requires Positive(call.request.items) && Decide(db, call, readback).Accepted?
    ensures forall i :: 0 <= i < |call.request.items| ==>
              call.request.items[i].batch in db.batches &&
              db.batches[call.request.items[i].batch].tenant == call.request.tenant
  {
    AnswerIs(db, call, readback);
    forall i | 0 <= i < |call.request.items| ensures Sees(db, call.request.tenant, call.request.items[i].batch) {}
  }

  lemma ForeignTotalIsZero(db: Db, call: Call, readback: seq<Line>, b: Uuid)
    requires Positive(call.request.items) && Decide(db, call, readback).Accepted?
    requires b in db.batches && db.batches[b].tenant != call.request.tenant
    ensures Total(call.request.items, b) == 0
  {
    OnlyOwnBatchesAreSold(db, call, readback);
    TotalOfPrefix(call.request.items, 0, b);
  }

  /** A request leaves every batch, alert, item and sale of other tenants as they were. */
  lemma OtherTenantsUntouched(db: Db, call: Call, readback: seq<Line>)
    requires WellFormed(db) && Positive(call.request.items)
    ensures var db', tenant := Create(db, call, readback), call.request.tenant;
            && (forall b :: b in db.batches && db.batches[b].tenant != tenant ==>
                  b in db'.batches && db'.batches[b] == db.batches[b])
            && (forall k: AlertKey :: k.tenant != tenant ==>
                  (k in db'.alerts <==> k in db.alerts) && (k in db.alerts ==> db'.alerts[k] == db.alerts[k]))
            && db.items <= db'.items && (forall i :: |db.items| <= i < |db'.items| ==> db'.items[i].tenant == tenant)
            && db.sales <= db'.sales && (forall i :: |db.sales| <= i < |db'.sales| ==> db'.sales[i].tenant == tenant)
  {
    if Decide(db, call, readback).Accepted? {
      var db', tenant := Create(db, call, readback), call.request.tenant;
      ItemsEffect(db, call, readback);
      OwnItems(db, db', call);
      forall b | b in db.batches && db.batches[b].tenant != tenant ensures b in db'.batches && db'.batches[b] == db.batches[b] {
        ForeignTotalIsZero(db, call, readback, b);
        BatchEffect(db, call, readback, b);
      }
      forall k: AlertKey | k.tenant != tenant
        ensures (k in db'.alerts <==> k in db.alerts) && (k in db.alerts ==> db'.alerts[k] == db.alerts[k])
      {
        AlertEffect(db, call, readback, k);
      }
    }
  }

  lemma OwnItems(db: Db, db': Db, call: Call)
    requires ItemsAppended(db, db', call)
    ensures db.items <= db'.items && forall i :: |db.items| <= i < |db'.items| ==> db'.items[i].tenant == call.request.tenant
  {
    forall i | |db.items| <= i < |db'.items| ensures db'.items[i].tenant == call.request.tenant {
      var j := i - |db.items|;
      assert db'.items[|db.items| + j] == ItemRow(call.request.tenant, call.saleId, call.request.items[j]);
    }
  }

  /** A freshness warning's resolution is written at most once, by the sale that takes its batch's last item, and
      nothing else of it changes; alerts of other events are never resolved by a sale. */
  lemma ResolutionIsWriteOnce(db: Db, call: Call, readback: seq<Line>, k: AlertKey)
    requires WellFormed(db) && Positive(call.request.items) && Decide(db, call, readback).Accepted? && k in db.alerts
    ensures k in Create(db, call, readback).alerts
    ensures var a, a', db' := db.alerts[k], Create(db, call, readback).alerts[k], Create(db, call, readback);
            && a' == a.(resolvedAt := a'.resolvedAt)
            && (a'.resolvedAt != a.resolvedAt <==>
                  && a.resolvedAt.None? && (k.event == FreshToMedium || k.event == MediumToSpoiled)
                  && k.tenant == call.request.tenant && k.batch in BatchIds(call.request.items)
                  && k.batch in db'.batches && db'.batches[k.batch].remaining == 0)
            && (a'.resolvedAt != a.resolvedAt ==> a'.resolvedAt == Some(call.now))
  {
    AlertEffect(db, call, readback, k);
  }

  // ----- over histories -----

  /** What the accepted entries of one tenant asked of a batch. */
  ghost function DeductedBy(log: seq<Entry>, tenant: Uuid, batch: Uuid): int {
    if log == [] then 0
    else
      var last := log[|log| - 1];
      DeductedBy(log[..|log| - 1], tenant, batch) +
      if last.Decided? && last.outcome.Accepted? && last.call.request.tenant == tenant
      then Total(last.call.request.items, batch) else 0
  }

  /** Over any history a batch stays its tenant's, and has lost exactly what that tenant's own accepted requests
      asked of it. */
  lemma {:induction false} OnlyOwnSalesDeduct(db: Db, log: seq<Entry>, batch: Uuid)
    requires Legal(db, log) && batch in db.batches
    ensures batch in Fold(db, log).batches && Fold(db, log).batches[batch].tenant == db.batches[batch].tenant
    ensures Fold(db, log).batches[batch].remaining ==
            db.batches[batch].remaining - DeductedBy(log, db.batches[batch].tenant, batch)
  {
    if log != [] {
      var front, last := log[..|log| - 1], log[|log| - 1];
      OnlyOwnSalesDeduct(db, front, batch);
      if last.Decided? && last.outcome.Accepted? {
        BatchEffect(Fold(db, front), last.call, last.readback, batch);
        if last.call.request.tenant != db.batches[batch].tenant {
          ForeignTotalIsZero(Fold(db, front), last.call, last.readback, batch);
        }
      }
    }
  }
}
