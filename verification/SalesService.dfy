/** `SalesService` as the source writes it: statements that update the tables in place. */
module SalesService {
  import opened Prelude
  import opened SaleLines
  import opened SaleTables
  import opened SaleEffects
  import opened SaleHistory
  import opened SaleAnswers

  // ----- in-place statements and buffered writes agree -----

  predicate RaisesLowStockOnly(w: Writes) {
    forall k :: k in w.raised ==> k.event == LowStock
  }

  function ResolveIn(alerts: map<AlertKey, Alert>, tenant: Uuid, batch: Uuid, now: Time): map<AlertKey, Alert> {
    map k | k in alerts ::
      if k.tenant == tenant && k.batch == batch && IsWarning(k.event) then Resolve(alerts[k], now) else alerts[k]
  }

  lemma ResolveInPlace(alerts: map<AlertKey, Alert>, raised: map<AlertKey, Alert>, resolved: set<AlertKey>, call: Call, batch: Uuid)
    requires forall k :: k in raised ==> k.event == LowStock
    ensures var tenant := call.request.tenant;
            ResolveIn(AlertsAfter(alerts, raised, resolved, call.now), tenant, batch, call.now) ==
            AlertsAfter(alerts, raised,
                        resolved + (set k | k in alerts && k.tenant == tenant && k.batch == batch && IsWarning(k.event)), call.now)
  {}

  lemma StockInPlace(db: Db, call: Call, w: Writes, batch: Uuid, left: nat)
    requires batch in db.batches
    ensures var bs := Commit(db, call, w).batches;
            batch in bs && bs[batch := bs[batch].(remaining := left)] ==
            Commit(db, call, Exec(db, call, w, SetStock(batch, left))).batches
  {
    var bs := Commit(db, call, w).batches;
    var after := Commit(db, call, Exec(db, call, w, SetStock(batch, left))).batches;
    assert bs[batch := bs[batch].(remaining := left)].Keys == after.Keys;
    assert forall b :: b in after ==> bs[batch := bs[batch].(remaining := left)][b] == after[b];
  }

  /** The tables after the statements of one planned line, run in place. */
  function LineTables(t: Db, call: Call, p: Planned): Db
    requires p.line.batch in t.batches
  {
    var k := AlertKey(call.request.tenant, p.line.batch, LowStock);
    var raised := if p.remaining > p.row.threshold || k in t.alerts then t.alerts
                  else t.alerts[k := Alert(p.row.product, SeverityOf(p), call.now, None)];
    t.(items := t.items + [ItemRow(call.request.tenant, call.saleId, p.line)],
       batches := t.batches[p.line.batch := t.batches[p.line.batch].(remaining := p.remaining)],
       alerts := if p.remaining == 0 then ResolveIn(raised, call.request.tenant, p.line.batch, call.now) else raised)
  }

  lemma AlertsInPlace(db: Db, call: Call, w: Writes, p: Planned)
    requires p.line.batch in db.batches && RaisesLowStockOnly(w)
    requires var t, k := Commit(db, call, w), AlertKey(call.request.tenant, p.line.batch, LowStock);
             k in t.alerts ==> t.alerts[k].product == p.row.product
    ensures LineTables(Commit(db, call, w), call, p).alerts == Commit(db, call, ExecAll(db, call, w, LineProgram(p))).alerts
  {
    LineFields(db, call, w, p);
    RaiseInPlace(db, call, w, p);
    if p.remaining == 0 {
      ResolveInPlace(db.alerts, ExecAll(db, call, w, LineProgram(p)).raised, w.resolved, call, p.line.batch);
    }
  }

  /** Running a line in place on what the transaction sees is the same as adding it to its writes. */
  lemma LineInPlace(db: Db, call: Call, w: Writes, p: Planned)
    requires p.line.batch in db.batches && RaisesLowStockOnly(w)
    requires var t, k := Commit(db, call, w), AlertKey(call.request.tenant, p.line.batch, LowStock);
             k in t.alerts ==> t.alerts[k].product == p.row.product
    ensures LineTables(Commit(db, call, w), call, p) == Commit(db, call, ExecAll(db, call, w, LineProgram(p)))
  {
    var t, w' := Commit(db, call, w), ExecAll(db, call, w, LineProgram(p));
    AlertsInPlace(db, call, w, p);
    LineFields(db, call, w, p);
    StockInPlace(db, call, w, p.line.batch, p.remaining);
    assert Commit(db, call, w').batches == Commit(db, call, Exec(db, call, w, SetStock(p.line.batch, p.remaining))).batches;
    assert LineTables(t, call, p).items == Commit(db, call, w').items;
  }

  lemma RaiseInPlace(db: Db, call: Call, w: Writes, p: Planned)
    requires var t, k := Commit(db, call, w), AlertKey(call.request.tenant, p.line.batch, LowStock);
             k in t.alerts ==> t.alerts[k].product == p.row.product
    ensures var t, k := Commit(db, call, w), AlertKey(call.request.tenant, p.line.batch, LowStock);
            (if p.remaining > p.row.threshold || k in t.alerts then t.alerts
             else t.alerts[k := Alert(p.row.product, SeverityOf(p), call.now, None)]) ==
            AlertsAfter(db.alerts, ExecAll(db, call, w, LineProgram(p)).raised, w.resolved, call.now)
  {
    LineFields(db, call, w, p);
    assert AlertKey(call.request.tenant, p.line.batch, LowStock) in Commit(db, call, w).alerts <==>
           AlertKnown(db, w, AlertKey(call.request.tenant, p.line.batch, LowStock), p.row.product);
  }

  datatype InsertResult = Inserted | UniqueViolation | ForeignKeyViolation

  class Service {
    var users: set<Uuid>
    var thresholds: map<Uuid, nat>
    var batches: map<Uuid, Batch>
    var sales: seq<SaleRow>
    var items: seq<ItemRow>
    var alerts: map<AlertKey, Alert>

    function Tables(): Db
      reads this
    {
      Db(users, thresholds, batches, sales, items, alerts)
    }

    constructor (db: Db)
      ensures Tables() == db
    {
      users, thresholds, batches := db.users, db.thresholds, db.batches;
      sales, items, alerts := db.sales, db.items, db.alerts;
    }

    /** `_load_by_idempotency_key`; `readback` is the order in which the database returns the items. */
    method LoadByIdempotencyKey(tenant: Uuid, key: string, readback: seq<Line>)
      returns (existing: Option<(SaleRow, SaleView)>)
      ensures existing == match FindSale(sales, tenant, key)
                          case None => None
                          case Some(row) => Some((row, ReplayView(Tables(), row, readback)))
    {
      for i := 0 to |sales|
        invariant FindSale(sales[i..], tenant, key) == FindSale(sales, tenant, key)
      {
        if sales[i].tenant == tenant && sales[i].key == key {
          return Some((sales[i], ReplayView(Tables(), sales[i], readback)));
        }
        assert sales[i..][1..] == sales[i + 1..];
      }
      return None;
    }

    /** The loop of `_lock_batches`: one row lock per distinct batch, in ascending order of identifier. */
    method LockInOrder(request: Request) returns (rows: Option<map<Uuid, LockedRow>>)
      ensures rows == RowsFor(Tables(), request.tenant, LockOrder(request))
    {
      ghost var order := LockOrder(request);
      var pending := BatchIds(request.items);
      var locked: map<Uuid, LockedRow> := map[];
      ghost var n := 0;
      assert order[..0] == [] && order[0..] == order;
      while pending != {}
        invariant PendingAfter(order, n, pending)
        invariant RowsFor(Tables(), request.tenant, order[..n]) == Some(locked)
        decreases pending
      {
        LeastUnique(pending);
        var b :| b in pending && forall x :: x in pending ==> b <= x;
        NextInOrder(order, n, pending, b);
        var row := RowOf(Tables(), request.tenant, b);
        if row.None? {
          MissingRow(Tables(), request.tenant, order, n);
          return None;
        }
        locked := locked[b := row.value];
        pending := pending - {b};
        n := n + 1;
      }
      NonePending(order, n, pending);
      return Some(locked);
    }

    /** `_lock_batches`: the rows of all requested batches, if each is the tenant's own. */
    method LockBatches(request: Request) returns (rows: Option<map<Uuid, LockedRow>>)
      ensures rows == RowsFor(Tables(), request.tenant, LockOrder(request))
      ensures rows.Some? <==> forall i :: 0 <= i < |request.items| ==> Sees(Tables(), request.tenant, request.items[i].batch)
      ensures rows.Some? ==>
                rows.value.Keys == BatchIds(request.items) &&
                forall b :: b in rows.value ==>
                  Sees(Tables(), request.tenant, b) &&
                  rows.value[b] == LockedRow(batches[b].product, batches[b].remaining, thresholds[batches[b].product])
    {
      rows := LockInOrder(request);
      LockedRowsAre(Tables(), request);
    }

    /** `_insert_sale`, with the table's unique key and its foreign key to the user. */
    method InsertSale(call: Call) returns (result: InsertResult)
      modifies this`sales
      ensures result.UniqueViolation? <==> FindSale(old(sales), call.request.tenant, call.request.key).Some?
      ensures result.ForeignKeyViolation? <==> !result.UniqueViolation? && call.request.user !in users
      ensures sales == if result.Inserted? then old(sales) + [SaleOf(call)] else old(sales)
    {
      var duplicate := FindSale(sales, call.request.tenant, call.request.key);
      if duplicate.Some? { return UniqueViolation; }
      if call.request.user !in users { return ForeignKeyViolation; }
      sales := sales + [SaleOf(call)];
      return Inserted;
    }

    /** `_insert_alert_once`: look up, then insert. The insert never meets the unique index. */
    method InsertAlertOnce(call: Call, batch: Uuid, product: Uuid, severity: Severity)
      requires var k := AlertKey(call.request.tenant, batch, LowStock); k in alerts ==> alerts[k].product == product
      modifies this`alerts
      ensures var k := AlertKey(call.request.tenant, batch, LowStock);
              alerts == if k in old(alerts) then old(alerts)
                        else old(alerts)[k := Alert(product, severity, call.now, None)]
    {
      var k := AlertKey(call.request.tenant, batch, LowStock);
      var exists_ := k in alerts && alerts[k].product == product;
      if exists_ { return; }
      assert k !in alerts;
      alerts := alerts[k := Alert(product, severity, call.now, None)];
    }

    /** `_evaluate_alerts`. */
    method EvaluateAlerts(call: Call, p: Planned)
      requires var k := AlertKey(call.request.tenant, p.line.batch, LowStock); k in alerts ==> alerts[k].product == p.row.product
      modifies this`alerts
      ensures var k := AlertKey(call.request.tenant, p.line.batch, LowStock);
              alerts == if p.remaining > p.row.threshold || k in old(alerts) then old(alerts)
                        else old(alerts)[k := Alert(p.row.product, SeverityOf(p), call.now, None)]
    {
      if p.remaining <= p.row.threshold {
        InsertAlertOnce(call, p.line.batch, p.row.product, if p.remaining == 0 then Critical else Warning);
      }
    }

    /** The loop body of `create` for one planned line: item, stock, alerts. */
    method WriteLine(call: Call, p: Planned)
      requires p.line.batch in batches
      requires var k := AlertKey(call.request.tenant, p.line.batch, LowStock); k in alerts ==> alerts[k].product == p.row.product
      modifies this`items, this`batches, this`alerts
      ensures Tables() == LineTables(old(Tables()), call, p)
    {
      items := items + [ItemRow(call.request.tenant, call.saleId, p.line)];
      batches := batches[p.line.batch := batches[p.line.batch].(remaining := p.remaining)];
      EvaluateAlerts(call, p);
      if p.remaining == 0 {
        alerts := ResolveIn(alerts, call.request.tenant, p.line.batch, call.now);
      }
    }

    /** The second loop of `create`: every planned line, in order. */
    method WriteLines(call: Call, lines: seq<Planned>, ghost db: Db)
      requires WellFormed(db) && PlannedFor(db, call, lines) && Tables() == Commit(db, call, NoWrites)
      modifies this`items, this`batches, this`alerts
      ensures Tables() == Commit(db, call, ExecAll(db, call, NoWrites, Program(lines)))
    {
      NothingWritten(db, call);
      for i := 0 to |lines|
        invariant Tables() == Commit(db, call, ExecAll(db, call, NoWrites, Program(lines[..i])))
      {
        ghost var w := ExecAll(db, call, NoWrites, Program(lines[..i]));
        BeforeLine(db, call, lines, i);
        WriteLine(call, lines[i]);
        LineInPlace(db, call, w, lines[i]);
        assert lines[..i + 1][..i] == lines[..i];
        ExecAllAppend(db, call, NoWrites, Program(lines[..i]), LineProgram(lines[i]));
      }
      assert lines[..|lines|] == lines;
    }

    /** `create`, for the case that the transaction is not interrupted. It raises before it writes. */
    method Create(call: Call, readback: seq<Line>) returns (outcome: Outcome)
      requires WellFormed(Tables())
      modifies this
      ensures outcome == Decide(old(Tables()), call, readback)
      ensures outcome.Accepted? ==> TellsWhatIsLeft(old(Tables()), call, outcome.sale)
      ensures Tables() == SaleTables.Create(old(Tables()), call, readback)
    {
      ghost var db := Tables();
      var request := call.request;
      var existing := LoadByIdempotencyKey(request.tenant, request.key, readback);
      if existing.Some? {
        if Requested(readback, existing.value.0, request) { return Replayed(existing.value.1); }
        return Conflict;
      }
      var rows := LockBatches(request);
      if rows.None? { return Rejected(UnknownBatch); }
      RowsForMeans(db, request.tenant, LockOrder(request));
      var planning := Deduct(rows.value, request.items);
      if planning.Refused? { return Rejected(planning.reason); }
      var lines := planning.lines;
      var inserted := InsertSale(call);
      if inserted.UniqueViolation? { assert false; }
      if inserted.ForeignKeyViolation? { return Rejected(UnknownUser); }
      NothingWritten(db, call);
      PlanFacts(db, call, rows.value, lines);
      WriteLines(call, lines, db);
      AcceptedTellsWhatIsLeft(db, call, readback);
      return Accepted(AcceptedView(call, lines));
    }

    /** `tenant_transaction` around one request: commit when the body returns, roll back when it raises,
        when access was revoked, or when it is interrupted. */
    method TenantTransaction(call: Call, hasAccess: bool, interrupted: bool, readback: seq<Line>)
      returns (outcome: Option<Outcome>)
      requires WellFormed(Tables())
      modifies this
      ensures outcome == if hasAccess && !interrupted then Some(Decide(old(Tables()), call, readback)) else None
      ensures Tables() == if hasAccess && !interrupted then SaleTables.Create(old(Tables()), call, readback) else old(Tables())
    {
      var start := Tables();
      if !hasAccess { return None; }
      var result := Create(call, readback);
      if interrupted || result.Conflict? || result.Rejected? {
        users, thresholds, batches := start.users, start.thresholds, start.batches;
        sales, items, alerts := start.sales, start.items, start.alerts;
      }
      return if interrupted then None else Some(result);
    }
  }

  lemma LockedRowsAre(db: Db, request: Request)
    ensures var rows := RowsFor(db, request.tenant, LockOrder(request));
            && (rows.Some? <==> forall i :: 0 <= i < |request.items| ==> Sees(db, request.tenant, request.items[i].batch))
            && (rows.Some? ==>
                  rows.value.Keys == BatchIds(request.items) &&
                  forall b :: b in rows.value ==>
                    Sees(db, request.tenant, b) &&
                    rows.value[b] == LockedRow(db.batches[b].product, db.batches[b].remaining, db.thresholds[db.batches[b].product]))
  {
    RowsForMeans(db, request.tenant, LockOrder(request));
    forall i | 0 <= i < |request.items| ensures request.items[i].batch in LockOrder(request) {
      assert request.items[i].batch in BatchIds(request.items);
    }
    if forall i :: 0 <= i < |request.items| ==> Sees(db, request.tenant, request.items[i].batch) {
      forall b | b in LockOrder(request) ensures RowOf(db, request.tenant, b).Some? {
        var i :| 0 <= i < |request.items| && request.items[i].batch == b;
        assert Sees(db, request.tenant, request.items[i].batch);
      }
    }
  }

  /** After locking the first `n` batches of the order, the rest are pending. */
  ghost predicate PendingAfter(order: seq<Uuid>, n: nat, pending: set<Uuid>) {
    && n <= |order|
    && forall x :: x in pending <==> x in order[n..]
  }

  lemma NextInOrder(order: seq<Uuid>, n: nat, pending: set<Uuid>, b: Uuid)
    requires Ascending(order) && PendingAfter(order, n, pending) && IsLeast(b, pending)
    ensures n < |order| && order[n] == b && order[..n + 1][..n] == order[..n]
    ensures PendingAfter(order, n + 1, pending - {b})
  {
    var i :| 0 <= i < |order[n..]| && order[n..][i] == b;
    assert order[n] in order[n..];
    assert order[n..] == [order[n]] + order[n + 1..];
    assert order[n] !in order[n + 1..];
  }

  lemma NonePending(order: seq<Uuid>, n: nat, pending: set<Uuid>)
    requires PendingAfter(order, n, pending)
    ensures pending == {} ==> order[..n] == order
  {
    if n < |order| { assert order[n] in order[n..]; }
  }

  lemma MissingRow(db: Db, tenant: Uuid, order: seq<Uuid>, n: nat)
    requires n < |order| && RowOf(db, tenant, order[n]).None?
    ensures RowsFor(db, tenant, order).None?
  {
    RowsForMeans(db, tenant, order);
    assert order[n] in order;
  }

  lemma NothingWritten(db: Db, call: Call)
    ensures Commit(db, call, NoWrites) == db.(sales := db.sales + [SaleOf(call)])
    ensures ExecAll(db, call, NoWrites, Program([])) == NoWrites
  {
    assert Commit(db, call, NoWrites).batches == db.batches;
    assert Commit(db, call, NoWrites).alerts == db.alerts;
    assert db.items + [] == db.items;
  }

  ghost predicate PlannedFor(db: Db, call: Call, lines: seq<Planned>) {
    && OneRow(lines)
    && forall i :: 0 <= i < |lines| ==> RowOf(db, call.request.tenant, lines[i].line.batch) == Some(lines[i].row)
  }

  lemma PlanFacts(db: Db, call: Call, rows: map<Uuid, LockedRow>, lines: seq<Planned>)
    requires RowsFor(db, call.request.tenant, LockOrder(call.request)) == Some(rows)
    requires Known(rows, call.request.items) && Plan(rows, call.request.items) == Lines(lines)
    ensures PlannedFor(db, call, lines)
  {
    RowsForMeans(db, call.request.tenant, LockOrder(call.request));
    if call.request.items != [] { PlannedAt(rows, call.request.items, 0); }
    forall i | 0 <= i < |lines|
      ensures lines[i].line.batch in rows && lines[i].row == rows[lines[i].line.batch]
      ensures RowOf(db, call.request.tenant, lines[i].line.batch) == Some(lines[i].row)
    {
      PlannedAt(rows, call.request.items, i);
    }
  }

  lemma BeforeLine(db: Db, call: Call, lines: seq<Planned>, i: nat)
    requires WellFormed(db) && PlannedFor(db, call, lines) && i < |lines|
    ensures var w := ExecAll(db, call, NoWrites, Program(lines[..i]));
            var k := AlertKey(call.request.tenant, lines[i].line.batch, LowStock);
            && RaisesLowStockOnly(w) && lines[i].line.batch in db.batches
            && (k in Commit(db, call, w).alerts ==> Commit(db, call, w).alerts[k].product == lines[i].row.product)
  {
    var front := lines[..i];
    var w := ExecAll(db, call, NoWrites, Program(front));
    var k := AlertKey(call.request.tenant, lines[i].line.batch, LowStock);
    PlanWrites(db, call, front);
    forall x | x in w.raised ensures x.event == LowStock { assert Raises(db, call, front, x); }
    if k in w.raised {
      assert Raises(db, call, front, k);
      var j := FirstLowIsPlanned(front, k.batch);
      assert lines[j] == front[j];
    }
  }
}
