/** Requests and intake run one at a time: what every sequential history keeps. */
module SaleHistory {
  import opened Prelude
  import opened SaleLines
  import opened SaleTables
  import opened SaleEffects

  // ----- the effect of one accepted sale -----

  /** A low-stock alert names its batch's own product: it is only ever raised from the locked row. */
  predicate WellFormed(db: Db) {
    forall k :: k in db.alerts && k.event == LowStock ==>
      k.batch in db.batches && db.alerts[k].product == db.batches[k.batch].product
  }

  lemma {:induction false} TotalOfPrefix(items: seq<Line>, n: nat, batch: Uuid)
    requires Positive(items) && n <= |items|
    ensures 0 <= Total(items[..n], batch) <= Total(items, batch)
    ensures Total(items, batch) > 0 <==> batch in BatchIds(items)
  {
    if items == [] {
    } else if n == |items| {
      assert items[..n] == items;
      TotalOfPrefix(items[..n - 1], 0, batch);
      BatchIdsAppend(items);
    } else {
      assert items[..|items| - 1][..n] == items[..n];
      TotalOfPrefix(items[..|items| - 1], n, batch);
      BatchIdsAppend(items);
    }
  }

  lemma BatchIdsAppend(items: seq<Line>)
    requires items != []
    ensures BatchIds(items) == BatchIds(items[..|items| - 1]) + {items[|items| - 1].batch}
  {
    var front := items[..|items| - 1];
    forall b | b in BatchIds(items) ensures b in BatchIds(front) || b == items[|front|].batch {
      var i :| 0 <= i < |items| && items[i].batch == b;
      if i < |front| { assert front[i].batch == b; }
    }
    forall b | b in BatchIds(front) ensures b in BatchIds(items) {
      var i :| 0 <= i < |front| && front[i].batch == b;
      assert items[i].batch == b;
    }
  }

  /** Everything known about the plan of an accepted call. */
  lemma AcceptedPlan(db: Db, call: Call, readback: seq<Line>) returns (rows: map<Uuid, LockedRow>, lines: seq<Planned>)
    requires Decide(db, call, readback).Accepted?
    ensures Known(rows, call.request.items) && Plan(rows, call.request.items) == Lines(lines)
    ensures lines == PlanOf(db, call.request)
    ensures forall b :: b in rows <==> b in BatchIds(call.request.items)
    ensures forall b :: b in rows ==> RowOf(db, call.request.tenant, b) == Some(rows[b])
    ensures OneRow(lines)
    ensures |lines| == |call.request.items|
    ensures forall i :: 0 <= i < |lines| ==>
              lines[i].line == call.request.items[i] && lines[i].row == rows[lines[i].line.batch] &&
              lines[i].remaining == lines[i].row.remaining - Total(call.request.items[..i + 1], lines[i].line.batch)
    ensures FindSale(db.sales, call.request.tenant, call.request.key).None? && call.request.user in db.users
  {
    var request := call.request;
    RowsForMeans(db, request.tenant, LockOrder(request));
    rows := RowsFor(db, request.tenant, LockOrder(request)).value;
    lines := Plan(rows, request.items).lines;
    if request.items != [] { PlannedAt(rows, request.items, 0); }
    forall i | 0 <= i < |lines|
      ensures lines[i].line == request.items[i] && lines[i].row == rows[lines[i].line.batch]
      ensures lines[i].remaining == lines[i].row.remaining - Total(request.items[..i + 1], lines[i].line.batch)
    {
      PlannedAt(rows, request.items, i);
    }
  }

  /** What the plan leaves in a batch after its line `i`. */
  lemma LeftAfterLine(rows: map<Uuid, LockedRow>, items: seq<Line>, lines: seq<Planned>, i: nat)
    requires Known(rows, items) && Positive(items) && Plan(rows, items) == Lines(lines) && i < |items|
    ensures |lines| == |items| && lines[i].line == items[i] && lines[i].row == rows[items[i].batch]
    ensures lines[i].remaining == rows[items[i].batch].remaining - Total(items[..i + 1], items[i].batch)
    ensures lines[i].remaining >= rows[items[i].batch].remaining - Total(items, items[i].batch) >= 0
  {
    PlannedAt(rows, items, i);
    TotalOfPrefix(items, i + 1, items[i].batch);
    AcceptedIff(rows, items);
  }

  /** A line takes its batch to the threshold (or to zero) exactly when the final stock is there:
      positive quantities make the last line of a batch leave the least. */
  lemma FinalStockDecides(rows: map<Uuid, LockedRow>, items: seq<Line>, lines: seq<Planned>, batch: Uuid)
    requires Known(rows, items) && Positive(items) && Plan(rows, items) == Lines(lines)
    ensures 0 <= Total(items, batch)
    ensures Total(items, batch) > 0 <==> batch in BatchIds(items)
    ensures batch in BatchIds(items) ==> batch in rows && Total(items, batch) <= rows[batch].remaining
    ensures FirstLow(lines, batch).Some? <==>
              batch in BatchIds(items) && rows[batch].remaining - Total(items, batch) <= rows[batch].threshold
    ensures Empties(lines, batch) <==> batch in BatchIds(items) && rows[batch].remaining == Total(items, batch)
    ensures LastLeft(lines, batch) ==
            if batch in BatchIds(items) then Some(rows[batch].remaining - Total(items, batch)) else None
  {
    TotalOfPrefix(items, 0, batch);
    LastLeftIsStockMinusTotal(rows, items, batch);
    NoFirstLow(lines, batch);
    forall i | 0 <= i < |items|
      ensures |lines| == |items| && lines[i].line == items[i] && lines[i].row == rows[items[i].batch]
      ensures lines[i].remaining >= rows[items[i].batch].remaining - Total(items, items[i].batch) >= 0
    {
      LeftAfterLine(rows, items, lines, i);
    }
    if batch in BatchIds(items) {
      var n := LastLine(items, batch);
      LeftAfterLine(rows, items, lines, n);
      assert lines[n].line.batch == batch;
    } else if items == [] {
    } else {
      forall i | 0 <= i < |lines| ensures lines[i].line.batch != batch { assert items[i].batch in BatchIds(items); }
    }
  }

  lemma {:induction false} LastLine(items: seq<Line>, batch: Uuid) returns (n: nat)
    requires batch in BatchIds(items)
    ensures n < |items| && items[n].batch == batch && Total(items[..n + 1], batch) == Total(items, batch)
  {
    if items[|items| - 1].batch == batch {
      n := |items| - 1;
      assert items[..n + 1] == items;
    } else {
      var front := items[..|items| - 1];
      BatchIdsAppend(items);
      n := LastLine(front, batch);
      assert front[..n + 1] == items[..n + 1];
    }
  }

  ghost predicate StockReduced(db: Db, db': Db, items: seq<Line>) {
    && db'.batches.Keys == db.batches.Keys
    && forall b :: b in db.batches ==>
         0 <= Total(items, b) <= db.batches[b].remaining &&
         db'.batches[b] == db.batches[b].(remaining := db.batches[b].remaining - Total(items, b))
  }

  predicate Sold(call: Call, k: AlertKey) {
    k.tenant == call.request.tenant && k.batch in BatchIds(call.request.items)
  }

  predicate AtThreshold(db: Db, batch: Uuid) {
    && batch in db.batches && db.batches[batch].product in db.thresholds
    && db.batches[batch].remaining <= db.thresholds[db.batches[batch].product]
  }

  /** Low-stock alerts after a sale: old ones are untouched (they keep their first severity), and a
      new one exists exactly for a sold batch that ends at or below its product's threshold. */
  predicate LowStockRaised(db: Db, db': Db, call: Call, k: AlertKey) {
    if k in db.alerts then k in db'.alerts && db'.alerts[k] == db.alerts[k]
    else
      && (k in db'.alerts <==> Sold(call, k) && AtThreshold(db', k.batch))
      && (k in db'.alerts ==>
            db'.alerts[k].resolvedAt == None && db'.alerts[k].createdAt == call.now &&
            db'.alerts[k].product == db'.batches[k.batch].product)
  }

  /** Freshness warnings after a sale: none appears, and exactly those of a batch sold out are resolved. */
  predicate WarningResolved(db: Db, db': Db, call: Call, k: AlertKey) {
    && (k in db'.alerts <==> k in db.alerts)
    && (k in db.alerts ==>
          db'.alerts[k] ==
          if IsWarning(k.event) && Sold(call, k) && k.batch in db'.batches && db'.batches[k.batch].remaining == 0
          then Resolve(db.alerts[k], call.now) else db.alerts[k])
  }

  predicate ItemsAppended(db: Db, db': Db, call: Call) {
    var items := call.request.items;
    && |db'.items| == |db.items| + |items|
    && db'.items[..|db.items|] == db.items
    && forall i :: 0 <= i < |items| ==>
         db'.items[|db.items| + i] == ItemRow(call.request.tenant, call.saleId, items[i])
  }

  lemma BatchEffect(db: Db, call: Call, readback: seq<Line>, b: Uuid)
    requires Positive(call.request.items)
    requires Decide(db, call, readback).Accepted? && b in db.batches
    ensures b in Create(db, call, readback).batches
    ensures 0 <= Total(call.request.items, b) <= db.batches[b].remaining
    ensures Create(db, call, readback).batches[b] ==
            db.batches[b].(remaining := db.batches[b].remaining - Total(call.request.items, b))
  {
    var items := call.request.items;
    var rows, lines := AcceptedPlan(db, call, readback);
    PlanWrites(db, call, lines);
    var w := ExecAll(db, call, NoWrites, Program(lines));
    FinalStockDecides(rows, items, lines, b);
    assert (b in w.stock) == LastLeft(lines, b).Some?;
    if b in BatchIds(items) {
      assert RowOf(db, call.request.tenant, b) == Some(rows[b]);
    }
  }

  lemma ItemsEffect(db: Db, call: Call, readback: seq<Line>)
    requires Positive(call.request.items)
    requires Decide(db, call, readback).Accepted?
    ensures ItemsAppended(db, Create(db, call, readback), call)
  {
    var rows, lines := AcceptedPlan(db, call, readback);
    PlanWrites(db, call, lines);
    assert Create(db, call, readback).items == db.items + ItemRows(call, lines);
  }

  lemma StockEffect(db: Db, call: Call, readback: seq<Line>)
    requires Positive(call.request.items)
    requires Decide(db, call, readback).Accepted?
    ensures StockReduced(db, Create(db, call, readback), call.request.items)
    ensures ItemsAppended(db, Create(db, call, readback), call)
  {
    ItemsEffect(db, call, readback);
    forall b | b in db.batches { BatchEffect(db, call, readback, b); }
  }

  lemma LowStockAfter(db: Db, call: Call, lines: seq<Planned>, w: Writes, k: AlertKey)
    requires WritesArePlan(db, call, lines, w) && k.event == LowStock
    ensures k in Commit(db, call, w).alerts <==> k in db.alerts || Raises(db, call, lines, k)
    ensures Raises(db, call, lines, k) ==>
              Commit(db, call, w).alerts[k] ==
              Alert(FirstLow(lines, k.batch).value.row.product, SeverityOf(FirstLow(lines, k.batch).value), call.now, None)
    ensures k in db.alerts && !Raises(db, call, lines, k) ==> Commit(db, call, w).alerts[k] == db.alerts[k]
  {
    assert (k in w.raised) == Raises(db, call, lines, k);
    assert (k in w.resolved) == Resolves(db, call, lines, k);
  }

  lemma LowStockEffect(db: Db, call: Call, readback: seq<Line>, k: AlertKey)
    requires WellFormed(db) && Positive(call.request.items) && k.event == LowStock
    requires Decide(db, call, readback).Accepted?
    ensures LowStockRaised(db, Create(db, call, readback), call, k)
  {
    var items := call.request.items;
    var rows, lines := AcceptedPlan(db, call, readback);
    PlanWrites(db, call, lines);
    LowStockAfter(db, call, lines, ExecAll(db, call, NoWrites, Program(lines)), k);
    FinalStockDecides(rows, items, lines, k.batch);
    if k.batch in BatchIds(items) {
      assert RowOf(db, call.request.tenant, k.batch) == Some(rows[k.batch]);
      BatchEffect(db, call, readback, k.batch);
      if FirstLow(lines, k.batch).Some? {
        var i := FirstLowIsPlanned(lines, k.batch);
      }
    }
  }

  lemma WarningAfter(db: Db, call: Call, lines: seq<Planned>, w: Writes, k: AlertKey)
    requires WritesArePlan(db, call, lines, w) && k.event != LowStock
    ensures k in Commit(db, call, w).alerts <==> k in db.alerts
    ensures k in db.alerts ==>
              Commit(db, call, w).alerts[k] == if Resolves(db, call, lines, k) then Resolve(db.alerts[k], call.now) else db.alerts[k]
  {
    assert (k in w.raised) == Raises(db, call, lines, k);
    assert (k in w.resolved) == Resolves(db, call, lines, k);
  }

  lemma WarningEffect(db: Db, call: Call, readback: seq<Line>, k: AlertKey)
    requires WellFormed(db) && Positive(call.request.items) && k.event != LowStock
    requires Decide(db, call, readback).Accepted?
    ensures WarningResolved(db, Create(db, call, readback), call, k)
  {
    var items := call.request.items;
    var rows, lines := AcceptedPlan(db, call, readback);
    PlanWrites(db, call, lines);
    WarningAfter(db, call, lines, ExecAll(db, call, NoWrites, Program(lines)), k);
    FinalStockDecides(rows, items, lines, k.batch);
    if k.batch in BatchIds(items) {
      assert RowOf(db, call.request.tenant, k.batch) == Some(rows[k.batch]);
      BatchEffect(db, call, readback, k.batch);
    }
  }

  lemma AlertEffect(db: Db, call: Call, readback: seq<Line>, k: AlertKey)
    requires WellFormed(db) && Positive(call.request.items)
    requires Decide(db, call, readback).Accepted?
    ensures k.event == LowStock ==> LowStockRaised(db, Create(db, call, readback), call, k)
    ensures k.event != LowStock ==> WarningResolved(db, Create(db, call, readback), call, k)
  {
    if k.event == LowStock { LowStockEffect(db, call, readback, k); } else { WarningEffect(db, call, readback, k); }
  }

  /** The whole effect of an accepted sale, in terms of the request alone. */
  lemma SaleEffect(db: Db, call: Call, readback: seq<Line>)
    requires WellFormed(db) && Positive(call.request.items)
    requires Decide(db, call, readback).Accepted?
    ensures var db' := Create(db, call, readback);
            && StockReduced(db, db', call.request.items)
            && ItemsAppended(db, db', call)
            && db'.sales == db.sales + [SaleOf(call)]
            && (forall k: AlertKey :: k.event == LowStock ==> LowStockRaised(db, db', call, k))
            && (forall k: AlertKey :: k.event != LowStock ==> WarningResolved(db, db', call, k))
            && db'.users == db.users && db'.thresholds == db.thresholds
            && WellFormed(db')
  {
    StockEffect(db, call, readback);
    forall k: AlertKey { AlertEffect(db, call, readback, k); }
  }

  function StockAfter(db: Db, items: seq<Line>, n: nat, batch: Uuid): int
    requires n <= |items|
  {
    (if batch in db.batches then db.batches[batch].remaining else 0) - Total(items[..n], batch)
  }

  /** When the sale raises a low-stock alert, its severity is the one of the first line that
      brought the batch to the threshold. */
  lemma FirstCrossingSetsSeverity(db: Db, call: Call, readback: seq<Line>, k: AlertKey) returns (n: nat)
    requires WellFormed(db) && Positive(call.request.items)
    requires Decide(db, call, readback).Accepted?
    requires k.event == LowStock && k !in db.alerts && k in Create(db, call, readback).alerts
    ensures k.batch in db.batches && db.batches[k.batch].product in db.thresholds
    ensures n < |call.request.items| && call.request.items[n].batch == k.batch
    ensures StockAfter(db, call.request.items, n + 1, k.batch) <= db.thresholds[db.batches[k.batch].product]
    ensures forall j :: 0 <= j < n && call.request.items[j].batch == k.batch ==>
              StockAfter(db, call.request.items, j + 1, k.batch) > db.thresholds[db.batches[k.batch].product]
    ensures Create(db, call, readback).alerts[k].severity ==
            if StockAfter(db, call.request.items, n + 1, k.batch) == 0 then Critical else Warning
  {
    var items := call.request.items;
    var rows, lines := AcceptedPlan(db, call, readback);
    PlanWrites(db, call, lines);
    LowStockAfter(db, call, lines, ExecAll(db, call, NoWrites, Program(lines)), k);
    n := FirstLowIsPlanned(lines, k.batch);
    assert RowOf(db, call.request.tenant, k.batch) == Some(rows[k.batch]) by {
      assert items[n].batch in BatchIds(items);
    }
    forall j | 0 <= j < n && items[j].batch == k.batch
      ensures StockAfter(db, items, j + 1, k.batch) > rows[k.batch].threshold
    {
      assert lines[j].line == items[j];
    }
  }
}
