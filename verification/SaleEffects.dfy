/** What an accepted sale does to every table, stated without the statement program. */
module SaleEffects {
  import opened Prelude
  import opened SaleLines
  import opened SaleTables

  // ----- running statements -----

  lemma {:induction false} ExecAllAppend(db: Db, call: Call, w: Writes, p: seq<Statement>, q: seq<Statement>)
    ensures ExecAll(db, call, w, p + q) == ExecAll(db, call, ExecAll(db, call, w, p), q)
  {
    if q == [] {
      assert p + q == p;
    } else {
      var n := |q| - 1;
      assert (p + q)[..|p + q| - 1] == p + q[..n];
      ExecAllAppend(db, call, w, p, q[..n]);
    }
  }

  /** The statements of one line, run one after another. */
  lemma ExecLine(db: Db, call: Call, w: Writes, p: Planned)
    ensures ExecAll(db, call, w, LineProgram(p)) ==
            var w1 := Exec(db, call, Exec(db, call, w, InsertItem(p.line)), SetStock(p.line.batch, p.remaining));
            var w2 := if p.remaining <= p.row.threshold
                      then Exec(db, call, Exec(db, call, w1, FindAlert(p.line.batch, p.row.product)),
                                RaiseAlert(p.line.batch, p.row.product, if p.remaining == 0 then Critical else Warning))
                      else w1;
            if p.remaining == 0 then Exec(db, call, w2, ResolveWarnings(p.line.batch)) else w2
  {
    var a := [InsertItem(p.line), SetStock(p.line.batch, p.remaining)];
    var b := if p.remaining <= p.row.threshold
      then [FindAlert(p.line.batch, p.row.product),
            RaiseAlert(p.line.batch, p.row.product, if p.remaining == 0 then Critical else Warning)]
      else [];
    var c := if p.remaining == 0 then [ResolveWarnings(p.line.batch)] else [];
    assert LineProgram(p) == a + b + c;
    ExecAllAppend(db, call, w, a + b, c);
    ExecAllAppend(db, call, w, a, b);
    ExecTwo(db, call, w, a[0], a[1]);
    var w1 := ExecAll(db, call, w, a);
    if b != [] { ExecTwo(db, call, w1, b[0], b[1]); }
    var w2 := ExecAll(db, call, w1, b);
    if c != [] { assert c[..0] == []; }
  }

  lemma ExecTwo(db: Db, call: Call, w: Writes, s: Statement, t: Statement)
    ensures ExecAll(db, call, w, [s, t]) == Exec(db, call, Exec(db, call, w, s), t)
  {
    assert [s, t][..1] == [s] && [s][..0] == [];
    assert ExecAll(db, call, w, [s]) == Exec(db, call, w, s);
  }

  // ----- the writes of a whole plan -----

  function ItemRows(call: Call, lines: seq<Planned>): seq<ItemRow> {
    seq(|lines|, i requires 0 <= i < |lines| => ItemRow(call.request.tenant, call.saleId, lines[i].line))
  }

  /** The first line that takes a batch to its low-stock threshold. */
  function FirstLow(lines: seq<Planned>, batch: Uuid): Option<Planned> {
    if lines == [] then None
    else
      var last := lines[|lines| - 1];
      match FirstLow(lines[..|lines| - 1], batch)
      case Some(p) => Some(p)
      case None =>
        if last.line.batch == batch && last.remaining <= last.row.threshold then Some(last) else None
  }

  predicate Empties(lines: seq<Planned>, batch: Uuid) {
    exists i :: 0 <= i < |lines| && lines[i].line.batch == batch && lines[i].remaining == 0
  }

  /** Lines of one batch were planned from the same locked row. */
  predicate OneRow(lines: seq<Planned>) {
    forall i, j :: 0 <= i < |lines| && 0 <= j < |lines| && lines[i].line.batch == lines[j].line.batch ==>
      lines[i].row == lines[j].row
  }

  function SeverityOf(p: Planned): Severity { if p.remaining == 0 then Critical else Warning }

  predicate Raises(db: Db, call: Call, lines: seq<Planned>, k: AlertKey) {
    && k.tenant == call.request.tenant && k.event == LowStock
    && FirstLow(lines, k.batch).Some?
    && !(k in db.alerts && db.alerts[k].product == FirstLow(lines, k.batch).value.row.product)
  }

  predicate Resolves(db: Db, call: Call, lines: seq<Planned>, k: AlertKey) {
    k in db.alerts && k.tenant == call.request.tenant && IsWarning(k.event) && Empties(lines, k.batch)
  }

  ghost predicate WritesArePlan(db: Db, call: Call, lines: seq<Planned>, w: Writes) {
    && w.items == ItemRows(call, lines)
    && (forall b :: (b in w.stock) == LastLeft(lines, b).Some?)
    && (forall b :: b in w.stock ==> LastLeft(lines, b) == Some(w.stock[b]))
    && (forall k :: (k in w.raised) == Raises(db, call, lines, k))
    && (forall k :: k in w.raised ==>
          w.raised[k] == Alert(FirstLow(lines, k.batch).value.row.product,
                               SeverityOf(FirstLow(lines, k.batch).value), call.now, None))
    && (forall k :: (k in w.resolved) == Resolves(db, call, lines, k))
  }

  lemma FirstLowIsPlanned(lines: seq<Planned>, batch: Uuid) returns (i: nat)
    requires FirstLow(lines, batch).Some?
    ensures i < |lines| && lines[i] == FirstLow(lines, batch).value && lines[i].line.batch == batch
    ensures lines[i].remaining <= lines[i].row.threshold
    ensures forall j :: 0 <= j < i && lines[j].line.batch == batch ==> lines[j].remaining > lines[j].row.threshold
  {
    var front := lines[..|lines| - 1];
    if FirstLow(front, batch).Some? {
      i := FirstLowIsPlanned(front, batch);
    } else {
      i := |front|;
      NoFirstLow(front, batch);
    }
  }

  lemma {:induction false} NoFirstLow(lines: seq<Planned>, batch: Uuid)
    ensures FirstLow(lines, batch).None? <==>
            forall j :: 0 <= j < |lines| && lines[j].line.batch == batch ==> lines[j].remaining > lines[j].row.threshold
  {
    if lines != [] {
      var front, last := lines[..|lines| - 1], lines[|lines| - 1];
      NoFirstLow(front, batch);
      assert lines == front + [last];
    }
  }

  lemma {:induction false} PlanWrites(db: Db, call: Call, lines: seq<Planned>)
    requires OneRow(lines)
    ensures WritesArePlan(db, call, lines, ExecAll(db, call, NoWrites, Program(lines)))
  {
    if lines != [] {
      var front, last := lines[..|lines| - 1], lines[|lines| - 1];
      PlanWrites(db, call, front);
      var w := ExecAll(db, call, NoWrites, Program(front));
      ExecAllAppend(db, call, NoWrites, Program(front), LineProgram(last));
      ExecLine(db, call, w, last);
      LineWrites(db, call, front, last, w);
      assert front + [last] == lines;
    }
  }

  lemma EmptiesAppend(front: seq<Planned>, last: Planned, batch: Uuid)
    ensures Empties(front + [last], batch) <==>
            Empties(front, batch) || (last.line.batch == batch && last.remaining == 0)
  {
    var lines := front + [last];
    if Empties(front, batch) {
      var i :| 0 <= i < |front| && front[i].line.batch == batch && front[i].remaining == 0;
      assert lines[i] == front[i];
    }
    if last.line.batch == batch && last.remaining == 0 {
      assert lines[|front|] == last;
    }
  }

  predicate AlertKnown(db: Db, w: Writes, k: AlertKey, product: Uuid) {
    (k in w.raised && w.raised[k].product == product) || (k in db.alerts && db.alerts[k].product == product)
  }

  lemma LineFields(db: Db, call: Call, w: Writes, p: Planned)
    ensures var w' := ExecAll(db, call, w, LineProgram(p));
            var k := AlertKey(call.request.tenant, p.line.batch, LowStock);
            && w'.items == w.items + [ItemRow(call.request.tenant, call.saleId, p.line)]
            && w'.stock == w.stock[p.line.batch := p.remaining]
            && w'.raised == (if p.remaining <= p.row.threshold && !AlertKnown(db, w, k, p.row.product)
                             then w.raised[k := Alert(p.row.product, SeverityOf(p), call.now, None)] else w.raised)
            && w'.resolved == w.resolved +
                 (if p.remaining == 0
                  then set x | x in db.alerts && x.tenant == call.request.tenant && x.batch == p.line.batch && IsWarning(x.event)
                  else {})
  {
    ExecLine(db, call, w, p);
  }

  lemma LineRaises(db: Db, call: Call, front: seq<Planned>, last: Planned, w: Writes, k: AlertKey)
    requires OneRow(front + [last])
    requires WritesArePlan(db, call, front, w)
    ensures var lines := front + [last];
            var w' := ExecAll(db, call, w, LineProgram(last));
            (k in w'.raised) == Raises(db, call, lines, k) &&
            (k in w'.raised ==>
              w'.raised[k] == Alert(FirstLow(lines, k.batch).value.row.product,
                                    SeverityOf(FirstLow(lines, k.batch).value), call.now, None))
  {
    var lines := front + [last];
    assert lines[..|lines| - 1] == front;
    LineFields(db, call, w, last);
    var key := AlertKey(call.request.tenant, last.line.batch, LowStock);
    assert (k in w.raised) == Raises(db, call, front, k);
    if k == key && FirstLow(front, k.batch).Some? {
      var i := FirstLowIsPlanned(front, k.batch);
      assert lines[i] == front[i] && lines[|front|] == last;
      assert FirstLow(lines, k.batch).value.row == last.row;
    }
  }

  lemma LineResolves(db: Db, call: Call, front: seq<Planned>, last: Planned, w: Writes, k: AlertKey)
    requires WritesArePlan(db, call, front, w)
    ensures (k in ExecAll(db, call, w, LineProgram(last)).resolved) == Resolves(db, call, front + [last], k)
  {
    LineFields(db, call, w, last);
    EmptiesAppend(front, last, k.batch);
    assert (k in w.resolved) == Resolves(db, call, front, k);
  }

  lemma LineWrites(db: Db, call: Call, front: seq<Planned>, last: Planned, w: Writes)
    requires OneRow(front + [last])
    requires WritesArePlan(db, call, front, w)
    ensures WritesArePlan(db, call, front + [last], ExecAll(db, call, w, LineProgram(last)))
  {
    var lines := front + [last];
    var w' := ExecAll(db, call, w, LineProgram(last));
    assert lines[..|lines| - 1] == front;
    LineFields(db, call, w, last);
    assert w'.items == ItemRows(call, lines);
    forall k { LineRaises(db, call, front, last, w, k); }
    forall k { LineResolves(db, call, front, last, w, k); }
  }
}
