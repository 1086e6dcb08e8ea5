/** The interleaved machine refines the sequential service. */
module SalesRefinement {
  import opened Prelude
  import opened SaleLines
  import opened SaleTables
  import opened SaleEffects
  import opened SaleHistory
  import opened SaleLog
  import opened SalesMachine

  // ----- what another transaction's commit leaves alone -----

  lemma {:induction false} RowsStable(db: Db, db': Db, tenant: Uuid, ids: seq<Uuid>)
    requires forall b :: b in ids ==> RowOf(db', tenant, b) == RowOf(db, tenant, b)
    ensures RowsFor(db', tenant, ids) == RowsFor(db, tenant, ids)
  {
    if ids != [] {
      assert ids[|ids| - 1] in ids;
      RowsStable(db, db', tenant, ids[..|ids| - 1]);
    }
  }

  function BatchOf(s: Statement): Uuid {
    match s
    case InsertItem(line) => line.batch
    case SetStock(batch, _) => batch
    case FindAlert(batch, _) => batch
    case RaiseAlert(batch, _, _) => batch
    case ResolveWarnings(batch) => batch
  }

  ghost predicate SameAlerts(db: Db, db': Db, batch: Uuid) {
    forall e, t {:trigger AlertKey(t, batch, e)} ::
      var k := AlertKey(t, batch, e);
      (k in db.alerts <==> k in db'.alerts) && (k in db.alerts ==> db.alerts[k] == db'.alerts[k])
  }

  lemma ExecStable(db: Db, db': Db, call: Call, w: Writes, s: Statement)
    requires SameAlerts(db, db', BatchOf(s))
    ensures Exec(db', call, w, s) == Exec(db, call, w, s)
  {
    if s.ResolveWarnings? {
      var tenant := call.request.tenant;
      forall k: AlertKey ensures
        (k in db.alerts && k.tenant == tenant && k.batch == s.batch && IsWarning(k.event)) <==>
        (k in db'.alerts && k.tenant == tenant && k.batch == s.batch && IsWarning(k.event))
      {
        assert k == AlertKey(k.tenant, k.batch, k.event);
      }
    }
  }

  lemma {:induction false} ExecAllStable(db: Db, db': Db, call: Call, program: seq<Statement>)
    requires forall s :: s in program ==> SameAlerts(db, db', BatchOf(s))
    ensures ExecAll(db', call, NoWrites, program) == ExecAll(db, call, NoWrites, program)
  {
    if program != [] {
      var n := |program| - 1;
      assert program[n] in program;
      ExecAllStable(db, db', call, program[..n]);
      ExecStable(db, db', call, ExecAll(db, call, NoWrites, program[..n]), program[n]);
    }
  }

  lemma {:induction false} ProgramBatches(lines: seq<Planned>, s: Statement)
    requires s in Program(lines)
    ensures exists i :: 0 <= i < |lines| && BatchOf(s) == lines[i].line.batch
  {
    var n := |lines| - 1;
    if s in Program(lines[..n]) {
      ProgramBatches(lines[..n], s);
      var i :| 0 <= i < |lines[..n]| && BatchOf(s) == lines[..n][i].line.batch;
      assert lines[i] == lines[..n][i];
    } else {
      assert s in LineProgram(lines[n]);
      assert BatchOf(s) == lines[n].line.batch;
    }
  }

  /** The plan of a transaction touches only batches it has locked. */
  lemma PlanTouchesLocked(db: Db, request: Request, t: Txn)
    requires HasPlan(db, request, t)
    ensures |t.plan| == |request.items| && OneRow(t.plan)
    ensures forall i :: 0 <= i < |t.plan| ==> t.plan[i].line.batch in t.rows
    ensures forall s :: s in Program(t.plan) ==> BatchOf(s) in t.rows
  {
    if request.items != [] { PlannedAt(t.rows, request.items, 0); }
    forall i | 0 <= i < |t.plan|
      ensures t.plan[i].line.batch in t.rows && t.plan[i].row == t.rows[t.plan[i].line.batch]
    {
      PlannedAt(t.rows, request.items, i);
    }
    forall s | s in Program(t.plan) ensures BatchOf(s) in t.rows {
      ProgramBatches(t.plan, s);
    }
  }

  lemma RowsAreLocked(db: Db, request: Request, t: Txn, n: nat)
    requires HoldsRows(db, request, t, n)
    ensures forall b :: b in LockOrder(request)[..n] <==> b in t.rows
    ensures forall b :: b in t.rows ==> RowOf(db, request.tenant, b) == Some(t.rows[b])
  {
    RowsForMeans(db, request.tenant, LockOrder(request)[..n]);
  }

  /** Two table states that agree on what a transaction has locked, and on its key's sale. */
  ghost predicate AgreeFor(db: Db, db': Db, request: Request, t: Txn) {
    && (forall b :: b in t.rows ==> RowOf(db', request.tenant, b) == RowOf(db, request.tenant, b) && SameAlerts(db, db', b))
    && (HoldsKey(t) ==> FindSale(db'.sales, request.tenant, request.key) == FindSale(db.sales, request.tenant, request.key))
    && db'.users == db.users
  }

  lemma HoldsRowsStable(db: Db, db': Db, request: Request, t: Txn, n: nat)
    requires HoldsRows(db, request, t, n) && AgreeFor(db, db', request, t)
    ensures HoldsRows(db', request, t, n)
  {
    RowsAreLocked(db, request, t, n);
    RowsStable(db, db', request.tenant, LockOrder(request)[..n]);
  }

  lemma HasPlanStable(db: Db, db': Db, call: Call, t: Txn, program: seq<Statement>)
    requires HasPlan(db, call.request, t) && AgreeFor(db, db', call.request, t) && HoldsKey(t)
    requires forall s :: s in program ==> s in Program(t.plan)
    ensures HasPlan(db', call.request, t)
    ensures ExecAll(db', call, NoWrites, program) == ExecAll(db, call, NoWrites, program)
  {
    HoldsRowsStable(db, db', call.request, t, |LockOrder(call.request)|);
    PlanTouchesLocked(db, call.request, t);
    ExecAllStable(db, db', call, program);
  }

  lemma TxnStable(db: Db, db': Db, call: Call, t: Txn)
    requires TxnInv(db, call, t) && AgreeFor(db, db', call.request, t)
    ensures TxnInv(db', call, t)
  {
    match t.phase
    case Locking(n) => HoldsRowsStable(db, db', call.request, t, n);
    case Inserting => HasPlanStable(db, db', call, t, []);
    case Writing(n) => HasPlanStable(db, db', call, t, Program(t.plan)[..n]);
    case Ending(outcome) => if outcome.Accepted? { HasPlanStable(db, db', call, t, Program(t.plan)); }
    case _ =>
  }

  // ----- the log -----

  lemma LoggedStays(s: State, s': State, i: nat, call: Call, outcome: Outcome)
    requires LoggedAs(s, i, call, outcome)
    requires s.log <= s'.log && s.who <= s'.who && |s'.log| == |s'.who|
    ensures LoggedAs(s', i, call, outcome)
  {
    var k :| 0 <= k < |s.log| == |s.who| && s.who[k] == Some(i) &&
             s.log[k].Decided? && s.log[k].call == call && s.log[k].outcome == outcome;
    assert s'.who[k] == Some(i) && s'.log[k] == s.log[k];
  }

  /** A step of transaction `i` that decides nothing and commits nothing. */
  lemma QuietStep(c: Config, db0: Db, s: State, i: nat, t: Txn)
    requires Inv(c, db0, s) && i < |c.calls|
    requires TxnInv(s.db, c.calls[i], t)
    requires forall j :: 0 <= j < |c.calls| && j != i ==>
               (HoldsKey(t) && HoldsKey(s.txns[j]) ==> LockHash(c, i) != LockHash(c, j)) && t.rows.Keys !! s.txns[j].rows.Keys
    requires Settled(s.txns[i]) ==> Settled(t)
    requires t.phase.Ending? ==> !Settled(t)
    requires t.phase.Closed? && t.phase.result.Some? ==> LoggedAs(s, i, c.calls[i], t.phase.result.value)
    ensures Inv(c, db0, Put(s, i, t))
  {
    var s' := Put(s, i, t);
    forall j | 0 <= j < |c.calls| && s'.txns[j].phase.Ending? && Settled(s'.txns[j])
      ensures LoggedAs(s', j, c.calls[j], s'.txns[j].phase.outcome)
    {
      LoggedStays(s, s', j, c.calls[j], s.txns[j].phase.outcome);
    }
    forall j | 0 <= j < |c.calls| && s'.txns[j].phase.Closed? && s'.txns[j].phase.result.Some?
      ensures LoggedAs(s', j, c.calls[j], s'.txns[j].phase.result.value)
    {
      LoggedStays(s, s', j, c.calls[j], s'.txns[j].phase.result.value);
    }
    forall j, k | 0 <= j < k < |c.calls| ensures Apart(c, s', j, k) {
      assert Apart(c, s, j, k);
    }
  }

  /** Logging one more entry of transaction `i`, which settles it. */
  lemma LogStep(c: Config, s: State, s': State, i: nat, e: Entry, outcome: Outcome)
    requires |s.txns| == |c.calls| && LogInv(c, s) && i < |c.calls| && !Settled(s.txns[i])
    requires e.Decided? && e.call == c.calls[i] && e.outcome == outcome
    requires s'.log == s.log + [e] && s'.who == s.who + [Some(i)]
    requires |s'.txns| == |s.txns| && (forall j :: 0 <= j < |s.txns| && j != i ==> s'.txns[j] == s.txns[j])
    requires Settled(s'.txns[i])
    requires s'.txns[i].phase == Ending(outcome) || s'.txns[i].phase == Closed(Some(outcome))
    ensures LogInv(c, s')
  {
    var n := |s.log|;
    assert s'.who[n] == Some(i) && s'.log[n] == e;
    assert LoggedAs(s', i, c.calls[i], outcome);
    forall j | 0 <= j < |c.calls| && s'.txns[j].phase.Ending? && Settled(s'.txns[j])
      ensures LoggedAs(s', j, c.calls[j], s'.txns[j].phase.outcome)
    {
      if j != i { LoggedStays(s, s', j, c.calls[j], s.txns[j].phase.outcome); }
    }
    forall j | 0 <= j < |c.calls| && s'.txns[j].phase.Closed? && s'.txns[j].phase.result.Some?
      ensures LoggedAs(s', j, c.calls[j], s'.txns[j].phase.result.value)
    {
      if j != i { LoggedStays(s, s', j, c.calls[j], s.txns[j].phase.result.value); }
    }
  }

  /** Replacing one transaction by one that holds no more keeps all apart. */
  lemma ShrinkingStaysApart(c: Config, s: State, s': State, i: nat)
    requires |s.txns| == |c.calls| == |s'.txns| && i < |c.calls|
    requires forall j :: 0 <= j < |s.txns| && j != i ==> s'.txns[j] == s.txns[j]
    requires (HoldsKey(s'.txns[i]) ==> HoldsKey(s.txns[i])) && s'.txns[i].rows.Keys <= s.txns[i].rows.Keys
    requires forall j, k :: 0 <= j < k < |c.calls| ==> Apart(c, s, j, k)
    ensures forall j, k :: 0 <= j < k < |c.calls| ==> Apart(c, s', j, k)
  {
    forall j, k | 0 <= j < k < |c.calls| ensures Apart(c, s', j, k) {
      assert Apart(c, s, j, k);
    }
  }

  lemma AnswerKeepsTxns(c: Config, s: State, i: nat, t: Txn)
    requires |s.txns| == |c.calls| && i < |c.calls| && TxnInv(s.db, c.calls[i], t)
    requires forall j :: 0 <= j < |c.calls| ==> TxnInv(s.db, c.calls[j], s.txns[j])
    ensures forall j :: 0 <= j < |c.calls| ==> TxnInv(s.db, c.calls[j], s.txns[i := t][j])
  {}

  lemma AnswerStep(c: Config, db0: Db, s: State, i: nat, readback: seq<Line>, outcome: Outcome)
    requires Inv(c, db0, s) && i < |c.calls| && HoldsKey(s.txns[i]) && !Settled(s.txns[i])
    requires s.txns[i].writes == NoWrites && !outcome.Accepted?
    requires LegalEntry(s.db, Decided(c.calls[i], readback, outcome))
    ensures Inv(c, db0, Answer(s, i, c.calls[i], readback, outcome))
  {
    var s' := Answer(s, i, c.calls[i], readback, outcome);
    var e := Decided(c.calls[i], readback, outcome);
    FoldAppend(db0, s.log, e);
    LogStep(c, s, s', i, e, outcome);
    AnswerKeepsTxns(c, s, i, s'.txns[i]);
    ShrinkingStaysApart(c, s, s', i);
  }

  // ----- commit -----

  lemma CommitAgrees(db: Db, db': Db, call: Call, t: Txn, other: Request, u: Txn)
    requires HasPlan(db, call.request, t) && t.writes == ExecAll(db, call, NoWrites, Program(t.plan))
    requires db' == Commit(db, call, t.writes)
    requires HoldsKey(u) ==> !SameKey(call.request, other)
    requires t.rows.Keys !! u.rows.Keys
    ensures AgreeFor(db, db', other, u)
  {
    PlanTouchesLocked(db, call.request, t);
    PlanWrites(db, call, t.plan);
    var w := t.writes;
    forall b | b in w.stock ensures b in t.rows { LastLeftPlanned(t.plan, b); }
    forall k | k in w.raised ensures k.batch in t.rows {
      assert Raises(db, call, t.plan, k);
      var i := FirstLowIsPlanned(t.plan, k.batch);
    }
    forall k | k in w.resolved ensures k.batch in t.rows {
      assert Resolves(db, call, t.plan, k);
    }
    forall b | b in u.rows ensures SameAlerts(db, db', b) {}
    FindSaleAppend(db.sales, SaleOf(call), other.tenant, other.key);
  }

  lemma {:induction false} LastLeftPlanned(lines: seq<Planned>, b: Uuid)
    requires LastLeft(lines, b).Some?
    ensures exists i :: 0 <= i < |lines| && lines[i].line.batch == b
  {
    var n := |lines| - 1;
    if lines[n].line.batch != b {
      LastLeftPlanned(lines[..n], b);
      var i :| 0 <= i < n && lines[..n][i].line.batch == b;
      assert lines[i].line.batch == b;
    }
  }

  /** At its commit an accepted transaction is exactly what the sequential service would do now. */
  lemma CommitIsCreate(db: Db, call: Call, t: Txn)
    requires HasPlan(db, call.request, t) && call.request.user in db.users
    requires t.writes == ExecAll(db, call, NoWrites, Program(t.plan))
    ensures Decide(db, call, []) == Accepted(AcceptedView(call, t.plan))
    ensures Create(db, call, []) == Commit(db, call, t.writes)
  {
    var order := LockOrder(call.request);
    assert order[..|order|] == order;
  }

  lemma CommitLeavesOthers(c: Config, s: State, i: nat, j: nat)
    requires |s.txns| == |c.calls| && i < |c.calls| && j < |c.calls| && i != j
    requires TxnInv(s.db, c.calls[i], s.txns[i]) && TxnInv(s.db, c.calls[j], s.txns[j])
    requires Apart(c, s, i, j)
    requires s.txns[i].phase.Ending? && s.txns[i].phase.outcome.Accepted?
    ensures TxnInv(Commit(s.db, c.calls[i], s.txns[i].writes), c.calls[j], s.txns[j])
  {
    var db' := Commit(s.db, c.calls[i], s.txns[i].writes);
    CommitAgrees(s.db, db', c.calls[i], s.txns[i], c.calls[j].request, s.txns[j]);
    TxnStable(s.db, db', c.calls[j], s.txns[j]);
  }

  /** The state in which accepted transaction `i` has committed. */
  function Committed(s: State, i: nat, call: Call): State
    requires i < |s.txns| && s.txns[i].phase.Ending?
  {
    var t := s.txns[i];
    State(Commit(s.db, call, t.writes), s.txns[i := Txn(Closed(Some(t.phase.outcome)), map[], [], NoWrites)],
          s.log + [Decided(call, [], t.phase.outcome)], s.who + [Some(i)])
  }

  lemma AdvancedCommits(c: Config, s: State, i: nat, readback: seq<Line>)
    requires InRange(c, s, i) && s.txns[i].phase.Ending? && s.txns[i].phase.outcome.Accepted?
    ensures Advanced(c, s, i, readback) == Committed(s, i, c.calls[i])
  {}

  lemma CommitKeepsTxns(c: Config, s: State, i: nat)
    requires InRange(c, s, i) && s.txns[i].phase.Ending? && s.txns[i].phase.outcome.Accepted?
    requires forall j :: 0 <= j < |c.calls| ==> TxnInv(s.db, c.calls[j], s.txns[j])
    requires forall j, k :: 0 <= j < k < |c.calls| ==> Apart(c, s, j, k)
    ensures var s' := Committed(s, i, c.calls[i]);
            forall j :: 0 <= j < |c.calls| ==> TxnInv(s'.db, c.calls[j], s'.txns[j])
  {
    var s' := Committed(s, i, c.calls[i]);
    forall j | 0 <= j < |c.calls| ensures TxnInv(s'.db, c.calls[j], s'.txns[j]) {
      if j != i {
        assert if i < j then Apart(c, s, i, j) else Apart(c, s, j, i);
        CommitLeavesOthers(c, s, i, j);
      }
    }
  }

  lemma CommitIsLegal(db0: Db, s: State, i: nat, call: Call)
    requires i < |s.txns| && s.txns[i].phase.Ending? && s.txns[i].phase.outcome.Accepted?
    requires Legal(db0, s.log) && s.db == Fold(db0, s.log) && TxnInv(s.db, call, s.txns[i]) && Positive(call.request.items)
    ensures Legal(db0, Committed(s, i, call).log) && Committed(s, i, call).db == Fold(db0, Committed(s, i, call).log)
  {
    CommitIsCreate(s.db, call, s.txns[i]);
    FoldAppend(db0, s.log, Decided(call, [], s.txns[i].phase.outcome));
  }

  lemma CommitStep(c: Config, db0: Db, s: State, i: nat, readback: seq<Line>)
    requires Admissible(c, db0) && Inv(c, db0, s) && i < |c.calls|
    requires s.txns[i].phase.Ending? && s.txns[i].phase.outcome.Accepted?
    ensures Inv(c, db0, Advanced(c, s, i, readback))
  {
    var s' := Committed(s, i, c.calls[i]);
    AdvancedCommits(c, s, i, readback);
    CommitIsLegal(db0, s, i, c.calls[i]);
    LogStep(c, s, s', i, Decided(c.calls[i], [], s.txns[i].phase.outcome), s.txns[i].phase.outcome);
    CommitKeepsTxns(c, s, i);
    ShrinkingStaysApart(c, s, s', i);
  }

  // ----- intake -----

  lemma IntakeStep(c: Config, db0: Db, s: State, id: Uuid, batch: Batch)
    requires Inv(c, db0, s) && Enabled(c, s, Intake(id, batch))
    ensures Inv(c, db0, Next(c, s, Intake(id, batch)))
  {
    var s' := Next(c, s, Intake(id, batch));
    FoldAppend(db0, s.log, Received(id, batch));
    IntakeLog(c, s, s', Received(id, batch));
    forall j | 0 <= j < |c.calls| ensures TxnInv(s'.db, c.calls[j], s'.txns[j]) {
      IntakeLeaves(s.db, id, batch, c.calls[j], s.txns[j]);
    }
    forall j, k | 0 <= j < k < |c.calls| ensures Apart(c, s', j, k) {
      assert Apart(c, s, j, k);
    }
  }

  lemma IntakeLeaves(db: Db, id: Uuid, batch: Batch, call: Call, t: Txn)
    requires id !in db.batches && TxnInv(db, call, t)
    ensures TxnInv(db.(batches := db.batches[id := batch]), call, t)
  {
    if !(t.phase.Ending? && !t.phase.outcome.Accepted?) {
      LockedExist(db, call, t);
      TxnStable(db, db.(batches := db.batches[id := batch]), call, t);
    }
  }

  lemma IntakeLog(c: Config, s: State, s': State, e: Entry)
    requires |s.txns| == |c.calls| && LogInv(c, s) && e.Received?
    requires s'.txns == s.txns && s'.log == s.log + [e] && s'.who == s.who + [None]
    ensures LogInv(c, s')
  {
    forall j | 0 <= j < |c.calls| && s'.txns[j].phase.Ending? && Settled(s'.txns[j])
      ensures LoggedAs(s', j, c.calls[j], s'.txns[j].phase.outcome)
    {
      LoggedStays(s, s', j, c.calls[j], s.txns[j].phase.outcome);
    }
    forall j | 0 <= j < |c.calls| && s'.txns[j].phase.Closed? && s'.txns[j].phase.result.Some?
      ensures LoggedAs(s', j, c.calls[j], s'.txns[j].phase.result.value)
    {
      LoggedStays(s, s', j, c.calls[j], s.txns[j].phase.result.value);
    }
  }

  lemma LockedExist(db: Db, call: Call, t: Txn)
    requires TxnInv(db, call, t) && !(t.phase.Ending? && !t.phase.outcome.Accepted?)
    ensures forall b :: b in t.rows ==> RowOf(db, call.request.tenant, b).Some?
  {
    match t.phase
    case Locking(n) => RowsAreLocked(db, call.request, t, n);
    case Inserting => RowsAreLocked(db, call.request, t, |LockOrder(call.request)|);
    case Writing(_) => RowsAreLocked(db, call.request, t, |LockOrder(call.request)|);
    case Ending(_) => RowsAreLocked(db, call.request, t, |LockOrder(call.request)|);
    case _ =>
  }

  // ----- the alert insert never meets the unique index -----

  lemma {:induction false} RaisedFrom(db: Db, call: Call, program: seq<Statement>, k: AlertKey)
    requires k in ExecAll(db, call, NoWrites, program).raised
    ensures k.tenant == call.request.tenant && k.event == LowStock
    ensures exists s :: s in program && s.RaiseAlert? && s.batch == k.batch &&
                        s.product == ExecAll(db, call, NoWrites, program).raised[k].product
  {
    var n := |program| - 1;
    var w := ExecAll(db, call, NoWrites, program[..n]);
    if program[n].RaiseAlert? && !w.found && k == AlertKey(call.request.tenant, program[n].batch, LowStock) {
      assert program[n] in program;
    } else {
      RaisedFrom(db, call, program[..n], k);
      var s :| s in program[..n] && s.RaiseAlert? && s.batch == k.batch && s.product == w.raised[k].product;
      assert s in program;
    }
  }

  lemma {:induction false} RaiseFollowsFind(lines: seq<Planned>, n: nat) returns (i: nat)
    requires n < |Program(lines)| && Program(lines)[n].RaiseAlert?
    ensures 0 < n && Program(lines)[n - 1] == FindAlert(Program(lines)[n].batch, Program(lines)[n].product)
    ensures i < |lines| && lines[i].line.batch == Program(lines)[n].batch && lines[i].row.product == Program(lines)[n].product
  {
    var m := |lines| - 1;
    var front := Program(lines[..m]);
    if n < |front| {
      i := RaiseFollowsFind(lines[..m], n);
    } else {
      i := m;
      assert Program(lines) == front + LineProgram(lines[m]);
      assert LineProgram(lines[m])[n - |front|] == Program(lines)[n];
      assert n - |front| == 3;
      assert Program(lines)[n - 1] == LineProgram(lines[m])[2];
    }
  }

  /** The look-up that precedes an insert saw everything an insert could collide with. */
  lemma LookupPrecedesInsert(db: Db, call: Call, t: Txn, n: nat)
    requires WellFormed(db) && HasPlan(db, call.request, t)
    requires n < |Program(t.plan)| && Program(t.plan)[n].RaiseAlert?
    requires t.writes == ExecAll(db, call, NoWrites, Program(t.plan)[..n]) && !t.writes.found
    ensures var k := AlertKey(call.request.tenant, Program(t.plan)[n].batch, LowStock);
            k !in db.alerts && k !in t.writes.raised && k.batch in t.rows
  {
    var program := Program(t.plan);
    var k := AlertKey(call.request.tenant, program[n].batch, LowStock);
    PlanTouchesLocked(db, call.request, t);
    RowsAreLocked(db, call.request, t, |LockOrder(call.request)|);
    var p := RaiseFollowsFind(t.plan, n);
    PlannedAt(t.rows, call.request.items, p);
    assert t.rows[k.batch].product == program[n].product;
    FoundNothing(db, call, program, n);
    if k in t.writes.raised { RaisedKnows(db, call, t, n, k); }
  }

  lemma FoundNothing(db: Db, call: Call, program: seq<Statement>, n: nat)
    requires 0 < n < |program| && program[n - 1].FindAlert?
    requires !ExecAll(db, call, NoWrites, program[..n]).found
    ensures var k, w := AlertKey(call.request.tenant, program[n - 1].batch, LowStock), ExecAll(db, call, NoWrites, program[..n]);
            && (k in w.raised ==> w.raised[k].product != program[n - 1].product)
            && (k in db.alerts ==> db.alerts[k].product != program[n - 1].product)
  {
    assert program[..n][..n - 1] == program[..n - 1];
  }

  /** What the look-up before insert `n` would have found. */
  lemma RaisedKnows(db: Db, call: Call, t: Txn, n: nat, k: AlertKey)
    requires HasPlan(db, call.request, t) && n < |Program(t.plan)|
    requires t.writes == ExecAll(db, call, NoWrites, Program(t.plan)[..n])
    requires k in t.writes.raised
    ensures k.batch in t.rows && t.rows[k.batch].product == t.writes.raised[k].product
  {
    var program := Program(t.plan);
    PlanTouchesLocked(db, call.request, t);
    RaisedFrom(db, call, program[..n], k);
    var r :| r in program[..n] && r.RaiseAlert? && r.batch == k.batch && r.product == t.writes.raised[k].product;
    var m :| 0 <= m < n && program[m] == r;
    var q := RaiseFollowsFind(t.plan, m);
    PlannedAt(t.rows, call.request.items, q);
  }

  /** When a sale is about to insert a low-stock alert, no alert for that batch is committed,
      its own, or pending in another transaction. */
  lemma InsertMeetsNoIndex(c: Config, db0: Db, s: State, i: nat, k: AlertKey)
    requires Admissible(c, db0) && Inv(c, db0, s) && i < |c.calls|
    requires NextInsert(c, s, i) == Some(k)
    ensures k !in s.db.alerts
    ensures forall j :: 0 <= j < |c.calls| ==> k !in s.txns[j].writes.raised
  {
    HistoryKeepsSound(db0, s.log);
    LookupPrecedesInsert(s.db, c.calls[i], s.txns[i], s.txns[i].phase.n);
    forall j | 0 <= j < |c.calls| && j != i ensures k !in s.txns[j].writes.raised {
      assert if i < j then Apart(c, s, i, j) else Apart(c, s, j, i);
      OwnRaises(s.db, c.calls[j], s.txns[j], k);
    }
  }

  /** What a transaction has raised, it has locked. */
  lemma OwnRaises(db: Db, call: Call, t: Txn, k: AlertKey)
    requires TxnInv(db, call, t)
    ensures k in t.writes.raised ==> k.batch in t.rows
  {
    if k in t.writes.raised {
      PlanTouchesLocked(db, call.request, t);
      var program := if t.phase.Writing? then Program(t.plan)[..t.phase.n] else Program(t.plan);
      RaisedFrom(db, call, program, k);
      var r :| r in program && r.RaiseAlert? && r.batch == k.batch && r.product == t.writes.raised[k].product;
      assert r in Program(t.plan);
    }
  }

  // ----- one step -----

  lemma TakeStep(c: Config, db0: Db, s: State, i: nat, readback: seq<Line>)
    requires Inv(c, db0, s) && Enabled(c, s, Advance(i, readback)) && s.txns[i].phase.Begin?
    ensures Inv(c, db0, Advanced(c, s, i, readback))
  {
    forall j | 0 <= j < |c.calls| && j != i
      ensures HoldsKey(s.txns[j]) ==> LockHash(c, i) != LockHash(c, j)
    {
      assert !WaitsFor(c, s, i, j);
    }
    QuietStep(c, db0, s, i, s.txns[i].(phase := Looking));
  }

  lemma MissStep(c: Config, db0: Db, s: State, i: nat)
    requires Inv(c, db0, s) && i < |c.calls| && s.txns[i].phase.Locking? && Positive(c.calls[i].request.items)
    requires s.txns[i].phase.n < |LockOrder(c.calls[i].request)|
    requires RowOf(s.db, c.calls[i].request.tenant, LockOrder(c.calls[i].request)[s.txns[i].phase.n]).None?
    ensures Inv(c, db0, Answer(s, i, c.calls[i], [], Rejected(UnknownBatch)))
  {
    var request := c.calls[i].request;
    RowsForMeans(s.db, request.tenant, LockOrder(request));
    assert LockOrder(request)[s.txns[i].phase.n] in LockOrder(request);
    AnswerStep(c, db0, s, i, [], Rejected(UnknownBatch));
  }

  /** A transaction in its lock loop after the row it waited for is free. */
  function Locked(db: Db, request: Request, t: Txn, b: Uuid): Txn
    requires t.phase.Locking? && RowOf(db, request.tenant, b).Some?
  {
    t.(phase := Locking(t.phase.n + 1), rows := t.rows[b := RowOf(db, request.tenant, b).value])
  }

  lemma LockedInv(db: Db, call: Call, t: Txn)
    requires TxnInv(db, call, t) && t.phase.Locking? && t.phase.n < |LockOrder(call.request)|
    requires RowOf(db, call.request.tenant, LockOrder(call.request)[t.phase.n]).Some?
    ensures TxnInv(db, call, Locked(db, call.request, t, LockOrder(call.request)[t.phase.n]))
  {
    var order, n := LockOrder(call.request), t.phase.n;
    assert order[..n + 1][..n] == order[..n];
  }

  lemma FreeRowIsApart(c: Config, s: State, i: nat, j: nat)
    requires InRange(c, s, i) && InRange(c, s, j) && i != j && !WaitsFor(c, s, i, j)
    requires s.txns[i].phase.Locking? && s.txns[i].phase.n < |LockOrder(c.calls[i].request)|
    requires RowOf(s.db, c.calls[i].request.tenant, LockOrder(c.calls[i].request)[s.txns[i].phase.n]).Some?
    requires forall k, m :: 0 <= k < m < |c.calls| ==> Apart(c, s, k, m)
    ensures HoldsKey(s.txns[j]) ==> LockHash(c, i) != LockHash(c, j)
    ensures Locked(s.db, c.calls[i].request, s.txns[i], LockOrder(c.calls[i].request)[s.txns[i].phase.n]).rows.Keys !!
            s.txns[j].rows.Keys
  {
    assert if i < j then Apart(c, s, i, j) else Apart(c, s, j, i);
  }

  lemma LockStep(c: Config, db0: Db, s: State, i: nat, readback: seq<Line>)
    requires Inv(c, db0, s) && i < |c.calls| && s.txns[i].phase.Locking?
    requires forall j :: 0 <= j < |c.calls| ==> !WaitsFor(c, s, i, j)
    requires s.txns[i].phase.n < |LockOrder(c.calls[i].request)|
    requires RowOf(s.db, c.calls[i].request.tenant, LockOrder(c.calls[i].request)[s.txns[i].phase.n]).Some?
    ensures Inv(c, db0, Advanced(c, s, i, readback))
  {
    var t' := Locked(s.db, c.calls[i].request, s.txns[i], LockOrder(c.calls[i].request)[s.txns[i].phase.n]);
    LockedInv(s.db, c.calls[i], s.txns[i]);
    forall j | 0 <= j < |c.calls| && j != i
      ensures HoldsKey(s.txns[j]) ==> LockHash(c, i) != LockHash(c, j)
      ensures t'.rows.Keys !! s.txns[j].rows.Keys
    {
      FreeRowIsApart(c, s, i, j);
    }
    QuietStep(c, db0, s, i, t');
  }

  lemma KeepsApart(c: Config, s: State, i: nat, t: Txn)
    requires |s.txns| == |c.calls| && i < |c.calls|
    requires forall j, k :: 0 <= j < k < |c.calls| ==> Apart(c, s, j, k)
    requires (HoldsKey(t) ==> HoldsKey(s.txns[i])) && t.rows.Keys <= s.txns[i].rows.Keys
    ensures forall j :: 0 <= j < |c.calls| && j != i ==>
              (HoldsKey(t) && HoldsKey(s.txns[j]) ==> LockHash(c, i) != LockHash(c, j)) && t.rows.Keys !! s.txns[j].rows.Keys
  {
    forall j | 0 <= j < |c.calls| && j != i
      ensures (HoldsKey(t) && HoldsKey(s.txns[j]) ==> LockHash(c, i) != LockHash(c, j)) && t.rows.Keys !! s.txns[j].rows.Keys
    {
      assert if i < j then Apart(c, s, i, j) else Apart(c, s, j, i);
    }
  }

  lemma PlanStep(c: Config, db0: Db, s: State, i: nat, readback: seq<Line>)
    requires Inv(c, db0, s) && Enabled(c, s, Advance(i, readback)) && s.txns[i].phase.Locking?
    requires s.txns[i].phase.n >= |LockOrder(c.calls[i].request)|
    requires Positive(c.calls[i].request.items)
    ensures Inv(c, db0, Advanced(c, s, i, readback))
  {
    var t, request := s.txns[i], c.calls[i].request;
    AllRowsLocked(s.db, request, t);
    match Plan(t.rows, request.items)
    case Refused(reason) => AnswerStep(c, db0, s, i, [], Rejected(reason));
    case Lines(lines) => PlannedStep(c, db0, s, i, lines);
  }

  lemma PlannedStep(c: Config, db0: Db, s: State, i: nat, lines: seq<Planned>)
    requires Inv(c, db0, s) && i < |c.calls| && s.txns[i].phase.Locking?
    requires var t, request := s.txns[i], c.calls[i].request;
             t.phase.n >= |LockOrder(request)| && Known(t.rows, request.items) && Plan(t.rows, request.items) == Lines(lines)
    ensures Inv(c, db0, Put(s, i, s.txns[i].(phase := Inserting, plan := lines)))
  {
    var t' := s.txns[i].(phase := Inserting, plan := lines);
    KeepsApart(c, s, i, t');
    QuietStep(c, db0, s, i, t');
  }

  lemma AllRowsLocked(db: Db, request: Request, t: Txn)
    requires HoldsRows(db, request, t, |LockOrder(request)|)
    ensures RowsFor(db, request.tenant, LockOrder(request)) == Some(t.rows) && Known(t.rows, request.items)
  {
    var order := LockOrder(request);
    assert order[..|order|] == order;
    RowsForMeans(db, request.tenant, order);
    forall j | 0 <= j < |request.items| ensures request.items[j].batch in t.rows {
      assert request.items[j].batch in BatchIds(request.items);
    }
  }

  lemma InsertStep(c: Config, db0: Db, s: State, i: nat, readback: seq<Line>)
    requires Inv(c, db0, s) && Enabled(c, s, Advance(i, readback)) && s.txns[i].phase.Inserting?
    requires Positive(c.calls[i].request.items)
    ensures Inv(c, db0, Advanced(c, s, i, readback))
  {
    var t, request := s.txns[i], c.calls[i].request;
    if request.user !in s.db.users {
      var order := LockOrder(request);
      assert order[..|order|] == order;
      AnswerStep(c, db0, s, i, [], Rejected(UnknownUser));
    } else {
      var t' := t.(phase := Writing(0));
      KeepsApart(c, s, i, t');
      assert Program(t'.plan)[..0] == [];
      QuietStep(c, db0, s, i, t');
    }
  }

  /** A transaction after its next write, or after its last. */
  function Wrote(db: Db, call: Call, t: Txn): Txn
    requires t.phase.Writing?
  {
    var n := t.phase.n;
    if n < |Program(t.plan)| then t.(phase := Writing(n + 1), writes := Exec(db, call, t.writes, Program(t.plan)[n]))
    else t.(phase := Ending(Accepted(AcceptedView(call, t.plan))))
  }

  lemma OneMoreStatement(db: Db, call: Call, program: seq<Statement>, n: nat)
    requires n < |program|
    ensures ExecAll(db, call, NoWrites, program[..n + 1]) == Exec(db, call, ExecAll(db, call, NoWrites, program[..n]), program[n])
  {
    assert program[..n + 1][..n] == program[..n];
  }

  lemma WroteInv(db: Db, call: Call, t: Txn)
    requires TxnInv(db, call, t) && t.phase.Writing?
    ensures TxnInv(db, call, Wrote(db, call, t))
  {
    var program, n, t' := Program(t.plan), t.phase.n, Wrote(db, call, t);
    assert HasPlan(db, call.request, t');
    if n < |program| {
      OneMoreStatement(db, call, program, n);
    } else {
      assert program[..n] == program;
    }
  }

  lemma WriteIsAPut(c: Config, db0: Db, s: State, i: nat, readback: seq<Line>)
    requires Admissible(c, db0) && Inv(c, db0, s) && i < |c.calls| && s.txns[i].phase.Writing?
    ensures Advanced(c, s, i, readback) == Put(s, i, Wrote(s.db, c.calls[i], s.txns[i]))
  {
    if NextInsert(c, s, i).Some? { InsertMeetsNoIndex(c, db0, s, i, NextInsert(c, s, i).value); }
  }

  lemma WriteStep(c: Config, db0: Db, s: State, i: nat, readback: seq<Line>)
    requires Admissible(c, db0) && Inv(c, db0, s) && i < |c.calls| && s.txns[i].phase.Writing?
    ensures Inv(c, db0, Advanced(c, s, i, readback))
  {
    WriteIsAPut(c, db0, s, i, readback);
    var t' := Wrote(s.db, c.calls[i], s.txns[i]);
    WroteInv(s.db, c.calls[i], s.txns[i]);
    KeepsApart(c, s, i, t');
    QuietStep(c, db0, s, i, t');
  }

  lemma ReadStep(c: Config, db0: Db, s: State, i: nat, readback: seq<Line>)
    requires Inv(c, db0, s) && Enabled(c, s, Advance(i, readback)) && s.txns[i].phase.Reading?
    requires Positive(c.calls[i].request.items)
    ensures Inv(c, db0, Advanced(c, s, i, readback))
  {
    var row, call := s.txns[i].phase.row, c.calls[i];
    var outcome := if Requested(readback, row, call.request) then Replayed(ReplayView(s.db, row, readback)) else Conflict;
    assert LegalEntry(s.db, Decided(call, readback, outcome));
    AnswerStep(c, db0, s, i, readback, outcome);
  }

  lemma LookStep(c: Config, db0: Db, s: State, i: nat, readback: seq<Line>)
    requires Inv(c, db0, s) && Enabled(c, s, Advance(i, readback)) && s.txns[i].phase.Looking?
    ensures Inv(c, db0, Advanced(c, s, i, readback))
  {
    var t, request := s.txns[i], c.calls[i].request;
    var t' := match FindSale(s.db.sales, request.tenant, request.key)
      case Some(row) => t.(phase := Reading(row))
      case None => t.(phase := Locking(0));
    assert LockOrder(request)[..0] == [];
    KeepsApart(c, s, i, t');
    QuietStep(c, db0, s, i, t');
  }

  /** Closing without effect: a rollback, or the end of a transaction that decided earlier. */
  lemma CloseStep(c: Config, db0: Db, s: State, i: nat, result: Option<Outcome>)
    requires Inv(c, db0, s) && i < |c.calls| && !s.txns[i].phase.Closed?
    requires result.Some? ==> s.txns[i].phase == Ending(result.value) && !result.value.Accepted?
    ensures Inv(c, db0, Put(s, i, Txn(Closed(result), map[], [], NoWrites)))
  {
    var t' := Txn(Closed(result), map[], [], NoWrites);
    KeepsApart(c, s, i, t');
    QuietStep(c, db0, s, i, t');
  }

  /** Every step, by any transaction or by the worker, keeps the invariant. */
  lemma StepKeepsInv(c: Config, db0: Db, s: State, a: Action)
    requires Admissible(c, db0) && Inv(c, db0, s) && Enabled(c, s, a)
    ensures Inv(c, db0, Next(c, s, a))
  {
    match a
    case Intake(id, batch) => IntakeStep(c, db0, s, id, batch);
    case Abort(i) => CloseStep(c, db0, s, i, None);
    case Advance(i, readback) =>
      match s.txns[i].phase
      case Begin => TakeStep(c, db0, s, i, readback);
      case Looking => LookStep(c, db0, s, i, readback);
      case Reading(_) => ReadStep(c, db0, s, i, readback);
      case Locking(n) =>
        var order := LockOrder(c.calls[i].request);
        if n >= |order| { PlanStep(c, db0, s, i, readback); }
        else if RowOf(s.db, c.calls[i].request.tenant, order[n]).None? { MissStep(c, db0, s, i); }
        else { LockStep(c, db0, s, i, readback); }
      case Inserting => InsertStep(c, db0, s, i, readback);
      case Writing(_) => WriteStep(c, db0, s, i, readback);
      case Ending(outcome) =>
        if outcome.Accepted? { CommitStep(c, db0, s, i, readback); }
        else { CloseStep(c, db0, s, i, Some(outcome)); }
  }

  lemma {:induction false} RunKeepsInv(c: Config, db: Db, actions: seq<Action>)
    requires Admissible(c, db) && CanRun(c, db, actions)
    ensures Inv(c, db, Reached(c, db, actions))
  {
    if actions != [] {
      RunKeepsInv(c, db, actions[..|actions| - 1]);
      StepKeepsInv(c, db, Reached(c, db, actions[..|actions| - 1]), actions[|actions| - 1]);
    }
  }
}
