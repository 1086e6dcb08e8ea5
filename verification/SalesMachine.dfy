/** Concurrent sale transactions, one SQL statement at a time, over shared committed tables. */
module SalesMachine {
  import opened Prelude
  import opened SaleLines
  import opened SaleTables
  import opened SaleLog

  /** Where a transaction stands. `Raced` and `Failed` are the unique-violation branches. */
  datatype Phase =
    | Begin
    | Looking
    | Reading(row: SaleRow)
    | Locking(n: nat)
    | Inserting
    | Raced
    | Writing(n: nat)
    | Failed
    | Ending(outcome: Outcome)
    | Closed(result: Option<Outcome>)

  /** `rows` are the batch rows it has locked; `writes` are its uncommitted effects. */
  datatype Txn = Txn(phase: Phase, rows: map<Uuid, LockedRow>, plan: seq<Planned>, writes: Writes)

  /** The committed tables, the transactions, and the order in which decisions took effect:
      entry `k` of the log was made by transaction `who[k]` (None for intake). */
  datatype State = State(db: Db, txns: seq<Txn>, log: seq<Entry>, who: seq<Option<nat>>)

  /** The attempts of a run, and the advisory-lock hash, which may collide. */
  datatype Config = Config(calls: seq<Call>, hash: (Uuid, string) -> int)

  datatype Action =
    | Advance(i: nat, readback: seq<Line>)
    | Abort(i: nat)
    | Intake(id: Uuid, batch: Batch)

  const Fresh := Txn(Begin, map[], [], NoWrites)

  function Init(c: Config, db: Db): State {
    State(db, seq(|c.calls|, _ => Fresh), [], [])
  }

  function LockHash(c: Config, i: nat): int
    requires i < |c.calls|
  {
    c.hash(c.calls[i].request.tenant, c.calls[i].request.key)
  }

  predicate HoldsKey(t: Txn) { !t.phase.Begin? && !t.phase.Closed? }

  /** Its sale row is inserted but not committed. */
  predicate SalePending(t: Txn) {
    t.phase.Writing? || t.phase.Failed? || (t.phase.Ending? && t.phase.outcome.Accepted?)
  }

  predicate InRange(c: Config, s: State, i: nat) { i < |s.txns| == |c.calls| }

  /** The low-stock insert that transaction `i` is about to run, if that is its next statement. */
  function NextInsert(c: Config, s: State, i: nat): Option<AlertKey>
    requires InRange(c, s, i)
  {
    var t := s.txns[i];
    if t.phase.Writing? && t.phase.n < |Program(t.plan)| && Program(t.plan)[t.phase.n].RaiseAlert? && !t.writes.found
    then Some(AlertKey(c.calls[i].request.tenant, Program(t.plan)[t.phase.n].batch, LowStock))
    else None
  }

  /** Transaction `i` cannot run its next statement until `j` ends. */
  ghost predicate WaitsFor(c: Config, s: State, i: nat, j: nat)
    requires InRange(c, s, i) && InRange(c, s, j)
  {
    var t, u, request := s.txns[i], s.txns[j], c.calls[i].request;
    i != j &&
    match t.phase
    case Begin => HoldsKey(u) && LockHash(c, i) == LockHash(c, j)
    case Locking(n) =>
      n < |LockOrder(request)| && RowOf(s.db, request.tenant, LockOrder(request)[n]).Some? &&
      LockOrder(request)[n] in u.rows
    case Inserting => SalePending(u) && SameKey(request, c.calls[j].request)
    case Writing(n) => NextInsert(c, s, i).Some? && NextInsert(c, s, i).value in u.writes.raised
    case _ => false
  }

  ghost predicate Enabled(c: Config, s: State, a: Action) {
    match a
    case Advance(i, readback) =>
      && InRange(c, s, i)
      && !s.txns[i].phase.Closed? && !s.txns[i].phase.Raced? && !s.txns[i].phase.Failed?
      && (forall j :: 0 <= j < |s.txns| ==> !WaitsFor(c, s, i, j))
      && (s.txns[i].phase.Reading? ==> multiset(readback) == multiset(ItemsOf(s.db.items, s.txns[i].phase.row.id)))
    case Abort(i) => InRange(c, s, i) && !s.txns[i].phase.Closed?
    case Intake(id, batch) => id !in s.db.batches && batch.remaining == batch.received
  }

  function Put(s: State, i: nat, t: Txn): (s': State)
    requires i < |s.txns|
    ensures |s'.txns| == |s.txns|
  {
    s.(txns := s.txns[i := t])
  }

  /** Transaction `i` has its answer: it is logged now unless it still has to commit. */
  function Answer(s: State, i: nat, call: Call, readback: seq<Line>, outcome: Outcome): (s': State)
    requires i < |s.txns|
    ensures |s'.txns| == |s.txns|
  {
    Put(s, i, s.txns[i].(phase := Ending(outcome))).(
      log := s.log + [Decided(call, readback, outcome)], who := s.who + [Some(i)])
  }

  /** The next statement of transaction `i`. */
  ghost function Advanced(c: Config, s: State, i: nat, readback: seq<Line>): (s': State)
    requires InRange(c, s, i)
    ensures |s'.txns| == |s.txns|
  {
    var t, call := s.txns[i], c.calls[i];
    var request := call.request;
    match t.phase
    case Begin => Put(s, i, t.(phase := Looking))
    case Looking =>
      (match FindSale(s.db.sales, request.tenant, request.key)
       case Some(row) => Put(s, i, t.(phase := Reading(row)))
       case None => Put(s, i, t.(phase := Locking(0))))
    case Reading(row) =>
      Answer(s, i, call, readback,
             if Requested(readback, row, request) then Replayed(ReplayView(s.db, row, readback)) else Conflict)
    case Locking(n) =>
      if n < |LockOrder(request)| then
        var b := LockOrder(request)[n];
        match RowOf(s.db, request.tenant, b)
        case None => Answer(s, i, call, [], Rejected(UnknownBatch))
        case Some(row) => Put(s, i, t.(phase := Locking(n + 1), rows := t.rows[b := row]))
      else if !Known(t.rows, request.items) then s
      else
        (match Plan(t.rows, request.items)
         case Refused(reason) => Answer(s, i, call, [], Rejected(reason))
         case Lines(lines) => Put(s, i, t.(phase := Inserting, plan := lines)))
    case Inserting =>
      if FindSale(s.db.sales, request.tenant, request.key).Some? then Put(s, i, t.(phase := Raced))
      else if request.user !in s.db.users then Answer(s, i, call, [], Rejected(UnknownUser))
      else Put(s, i, t.(phase := Writing(0)))
    case Writing(n) =>
      if n >= |Program(t.plan)| then Put(s, i, t.(phase := Ending(Accepted(AcceptedView(call, t.plan)))))
      else if NextInsert(c, s, i).Some? && (NextInsert(c, s, i).value in s.db.alerts || NextInsert(c, s, i).value in t.writes.raised)
      then Put(s, i, t.(phase := Failed))
      else Put(s, i, t.(phase := Writing(n + 1), writes := Exec(s.db, call, t.writes, Program(t.plan)[n])))
    case Ending(outcome) =>
      var ended := Put(s, i, Txn(Closed(Some(outcome)), map[], [], NoWrites));
      if outcome.Accepted?
      then ended.(db := Commit(s.db, call, t.writes), log := s.log + [Decided(call, [], outcome)], who := s.who + [Some(i)])
      else ended
    case _ => s
  }

  ghost function Next(c: Config, s: State, a: Action): State
    requires Enabled(c, s, a)
  {
    match a
    case Advance(i, readback) => Advanced(c, s, i, readback)
    case Abort(i) => Put(s, i, Txn(Closed(None), map[], [], NoWrites))
    case Intake(id, batch) =>
      s.(db := s.db.(batches := s.db.batches[id := batch]), log := s.log + [Received(id, batch)], who := s.who + [None])
  }

  // ----- runs -----

  ghost predicate CanRun(c: Config, db: Db, actions: seq<Action>)
    decreases |actions|, 0
  {
    actions == [] ||
    (CanRun(c, db, actions[..|actions| - 1]) &&
     Enabled(c, Reached(c, db, actions[..|actions| - 1]), actions[|actions| - 1]))
  }

  ghost function Reached(c: Config, db: Db, actions: seq<Action>): State
    requires CanRun(c, db, actions)
    decreases |actions|, 1
  {
    if actions == [] then Init(c, db)
    else Next(c, Reached(c, db, actions[..|actions| - 1]), actions[|actions| - 1])
  }

  /** What a run may start from: requests as the schema admits them, sale identifiers that are
      used once, and tables that satisfy their constraints. */
  ghost predicate Admissible(c: Config, db: Db) {
    && Sound(db)
    && (forall i :: 0 <= i < |c.calls| ==> Positive(c.calls[i].request.items))
    && (forall i, j :: 0 <= i < j < |c.calls| ==> c.calls[i].saleId != c.calls[j].saleId)
    && (forall i, j :: 0 <= i < |c.calls| && 0 <= j < |db.items| ==> c.calls[i].saleId != db.items[j].sale)
  }

  // ----- the invariant -----

  ghost predicate HoldsRows(db: Db, request: Request, t: Txn, n: nat) {
    && n <= |LockOrder(request)|
    && RowsFor(db, request.tenant, LockOrder(request)[..n]) == Some(t.rows)
  }

  predicate NoSale(db: Db, request: Request) { FindSale(db.sales, request.tenant, request.key).None? }

  ghost predicate HasPlan(db: Db, request: Request, t: Txn) {
    && HoldsRows(db, request, t, |LockOrder(request)|)
    && NoSale(db, request)
    && Known(t.rows, request.items)
    && Plan(t.rows, request.items) == Lines(t.plan)
  }

  /** What a transaction knows about the committed tables, phase by phase. */
  ghost predicate TxnInv(db: Db, call: Call, t: Txn) {
    var request := call.request;
    match t.phase
    case Begin => t == Fresh
    case Looking => t.rows == map[] && t.writes == NoWrites
    case Reading(row) => t.rows == map[] && t.writes == NoWrites && FindSale(db.sales, request.tenant, request.key) == Some(row)
    case Locking(n) => HoldsRows(db, request, t, n) && NoSale(db, request) && t.writes == NoWrites
    case Inserting => HasPlan(db, request, t) && t.writes == NoWrites
    case Writing(n) =>
      && HasPlan(db, request, t) && request.user in db.users && n <= |Program(t.plan)|
      && t.writes == ExecAll(db, call, NoWrites, Program(t.plan)[..n])
    case Ending(outcome) =>
      if outcome.Accepted? then
        && HasPlan(db, request, t) && request.user in db.users
        && t.writes == ExecAll(db, call, NoWrites, Program(t.plan))
        && outcome == Accepted(AcceptedView(call, t.plan))
      else t.writes == NoWrites
    case Closed(_) => t.rows == map[] && t.writes == NoWrites
    case Raced => false
    case Failed => false
  }

  ghost predicate Apart(c: Config, s: State, i: nat, j: nat)
    requires InRange(c, s, i) && InRange(c, s, j)
  {
    && (HoldsKey(s.txns[i]) && HoldsKey(s.txns[j]) ==> LockHash(c, i) != LockHash(c, j))
    && s.txns[i].rows.Keys !! s.txns[j].rows.Keys
  }

  /** Its decision has taken effect (or it will never take one). */
  predicate Settled(t: Txn) {
    t.phase.Closed? || (t.phase.Ending? && !t.phase.outcome.Accepted?)
  }

  ghost predicate LoggedAs(s: State, i: nat, call: Call, outcome: Outcome) {
    exists k :: 0 <= k < |s.log| == |s.who| && s.who[k] == Some(i) &&
                s.log[k].Decided? && s.log[k].call == call && s.log[k].outcome == outcome
  }

  ghost predicate LogInv(c: Config, s: State) {
    && |s.who| == |s.log|
    && (forall k :: 0 <= k < |s.log| && s.log[k].Decided? ==>
          s.who[k].Some? && InRange(c, s, s.who[k].value) && s.log[k].call == c.calls[s.who[k].value] &&
          Settled(s.txns[s.who[k].value]))
    && (forall k, m :: 0 <= k < m < |s.log| && s.log[k].Decided? && s.log[m].Decided? ==> s.who[k] != s.who[m])
    && (forall i :: 0 <= i < |s.txns| == |c.calls| && s.txns[i].phase.Ending? && Settled(s.txns[i]) ==>
          LoggedAs(s, i, c.calls[i], s.txns[i].phase.outcome))
    && (forall i :: 0 <= i < |s.txns| == |c.calls| && s.txns[i].phase.Closed? && s.txns[i].phase.result.Some? ==>
          LoggedAs(s, i, c.calls[i], s.txns[i].phase.result.value))
  }

  ghost predicate Inv(c: Config, db0: Db, s: State) {
    && |s.txns| == |c.calls|
    && Legal(db0, s.log) && s.db == Fold(db0, s.log)
    && (forall i :: 0 <= i < |c.calls| ==> TxnInv(s.db, c.calls[i], s.txns[i]))
    && (forall i, j :: 0 <= i < j < |c.calls| ==> Apart(c, s, i, j))
    && LogInv(c, s)
  }
}
