/** The tables a sale reads and writes, the statements of one sale, and the sequential
    meaning of `SalesService.create`: what one request does when it runs alone. */
module SaleTables {
  import opened Prelude
  import opened SaleLines

  datatype Source = Manual | Voice

  datatype Request = Request(tenant: Uuid, user: Uuid, key: string, source: Source, items: seq<Line>)

  datatype Batch = Batch(tenant: Uuid, product: Uuid, received: nat, remaining: nat)

  datatype SaleRow = SaleRow(id: Uuid, tenant: Uuid, user: Uuid, source: Source, key: string)

  datatype ItemRow = ItemRow(tenant: Uuid, sale: Uuid, line: Line)

  datatype Event = LowStock | FreshToMedium | MediumToSpoiled | SpoiledDetected

  /** The unique index on alerts: tenant, batch and event key. */
  datatype AlertKey = AlertKey(tenant: Uuid, batch: Uuid, event: Event)

  datatype Severity = Warning | Critical

  datatype Alert = Alert(product: Uuid, severity: Severity, createdAt: Time, resolvedAt: Option<Time>)

  /** `thresholds` is the product catalogue, reduced to each product's low-stock threshold. */
  datatype Db = Db(
    users: set<Uuid>,
    thresholds: map<Uuid, nat>,
    batches: map<Uuid, Batch>,
    sales: seq<SaleRow>,
    items: seq<ItemRow>,
    alerts: map<AlertKey, Alert>)

  /** One attempt at a request: the identifier its sale row would get, and its transaction's time. */
  datatype Call = Call(request: Request, saleId: Uuid, now: Time)

  /** The response body: each line with the stock it reports. */
  datatype SaleView = SaleView(id: Uuid, source: Source, items: seq<(Line, nat)>)

  datatype Outcome =
    | Accepted(sale: SaleView)
    | Replayed(sale: SaleView)
    | Conflict
    | Rejected(reason: Refusal)

  // ----- reads -----

  /** The row that `select … for update of b` returns under the tenant's row policy. */
  function RowOf(db: Db, tenant: Uuid, batch: Uuid): Option<LockedRow> {
    if batch in db.batches && db.batches[batch].tenant == tenant && db.batches[batch].product in db.thresholds then
      var b := db.batches[batch];
      Some(LockedRow(b.product, b.remaining, db.thresholds[b.product]))
    else None
  }

  /** The batch belongs to the tenant and joins to a product. */
  predicate Sees(db: Db, tenant: Uuid, batch: Uuid) {
    batch in db.batches && db.batches[batch].tenant == tenant && db.batches[batch].product in db.thresholds
  }

  function FindSale(sales: seq<SaleRow>, tenant: Uuid, key: string): Option<SaleRow> {
    if sales == [] then None
    else if sales[0].tenant == tenant && sales[0].key == key then Some(sales[0])
    else FindSale(sales[1..], tenant, key)
  }

  /** The lines of one sale, in insertion order. */
  function ItemsOf(items: seq<ItemRow>, sale: Uuid): seq<Line> {
    if items == [] then []
    else
      var front := ItemsOf(items[..|items| - 1], sale);
      var last := items[|items| - 1];
      if last.sale == sale then front + [last.line] else front
  }

  function BatchIds(items: seq<Line>): set<Uuid> {
    set i | 0 <= i < |items| :: items[i].batch
  }

  predicate Ascending(ids: seq<Uuid>) {
    forall i, j :: 0 <= i < j < |ids| ==> ids[i] < ids[j]
  }

  ghost predicate IsLeast(x: Uuid, s: set<Uuid>) {
    x in s && forall y :: y in s ==> x <= y
  }

  lemma {:induction false} LeastExists(s: set<Uuid>) returns (x: Uuid)
    requires s != {}
    ensures IsLeast(x, s)
  {
    var c :| c in s;
    x := c;
    if s == {c} { return; }
    var y := LeastExists(s - {c});
    forall z | z in s ensures z == c || y <= z {
      assert z != c ==> z in s - {c};
    }
    if y < c { x := y; }
  }

  lemma LeastUnique(s: set<Uuid>)
    requires s != {}
    ensures exists x :: IsLeast(x, s)
  {
    var x := LeastExists(s);
  }

  /** Python's `sorted` on a set of identifiers. */
  ghost function Sorted(s: set<Uuid>): (ids: seq<Uuid>)
    ensures Ascending(ids)
    ensures forall x :: x in ids <==> x in s
    decreases |s|
  {
    if s == {} then []
    else
      LeastUnique(s);
      var x :| IsLeast(x, s);
      [x] + Sorted(s - {x})
  }

  /** The lock order of a request. */
  ghost function LockOrder(request: Request): seq<Uuid> {
    Sorted(BatchIds(request.items))
  }

  /** The rows the lock loop has read after taking `ids` in order, or None at a missing batch. */
  function RowsFor(db: Db, tenant: Uuid, ids: seq<Uuid>): Option<map<Uuid, LockedRow>> {
    if ids == [] then Some(map[])
    else
      var last := ids[|ids| - 1];
      match RowsFor(db, tenant, ids[..|ids| - 1])
      case None => None
      case Some(rows) =>
        match RowOf(db, tenant, last)
        case None => None
        case Some(row) => Some(rows[last := row])
  }

  lemma {:induction false} RowsForMeans(db: Db, tenant: Uuid, ids: seq<Uuid>)
    ensures RowsFor(db, tenant, ids).Some? <==> forall b :: b in ids ==> RowOf(db, tenant, b).Some?
    ensures RowsFor(db, tenant, ids).Some? ==>
              var rows := RowsFor(db, tenant, ids).value;
              (forall b :: b in rows <==> b in ids) &&
              (forall b :: b in rows ==> RowOf(db, tenant, b) == Some(rows[b])) &&
              (forall b :: b in rows ==> b in db.batches && db.batches[b].tenant == tenant)
  {
    if ids != [] {
      RowsForMeans(db, tenant, ids[..|ids| - 1]);
      assert ids == ids[..|ids| - 1] + [ids[|ids| - 1]];
    }
  }

  // ----- the statements of one accepted sale -----

  datatype Statement =
    | InsertItem(line: Line)
    | SetStock(batch: Uuid, left: nat)
    | FindAlert(batch: Uuid, product: Uuid)
    | RaiseAlert(batch: Uuid, product: Uuid, severity: Severity)
    | ResolveWarnings(batch: Uuid)

  /** A transaction's own, uncommitted effects. `found` is what the last alert look-up returned. */
  datatype Writes = Writes(
    items: seq<ItemRow>,
    stock: map<Uuid, nat>,
    raised: map<AlertKey, Alert>,
    resolved: set<AlertKey>,
    found: bool)

  const NoWrites := Writes([], map[], map[], {}, false)

  function LineProgram(p: Planned): seq<Statement> {
    [InsertItem(p.line), SetStock(p.line.batch, p.remaining)] +
    (if p.remaining <= p.row.threshold
     then [FindAlert(p.line.batch, p.row.product),
           RaiseAlert(p.line.batch, p.row.product, if p.remaining == 0 then Critical else Warning)]
     else []) +
    (if p.remaining == 0 then [ResolveWarnings(p.line.batch)] else [])
  }

  function Program(lines: seq<Planned>): seq<Statement> {
    if lines == [] then []
    else Program(lines[..|lines| - 1]) + LineProgram(lines[|lines| - 1])
  }

  predicate IsWarning(e: Event) { e.FreshToMedium? || e.MediumToSpoiled? }

  /** One statement, run over the committed tables and the transaction's own writes. */
  function Exec(db: Db, call: Call, w: Writes, s: Statement): Writes {
    var tenant := call.request.tenant;
    match s
    case InsertItem(line) => w.(items := w.items + [ItemRow(tenant, call.saleId, line)])
    case SetStock(batch, left) => w.(stock := w.stock[batch := left])
    case FindAlert(batch, product) =>
      var k := AlertKey(tenant, batch, LowStock);
      w.(found := (k in w.raised && w.raised[k].product == product) ||
                  (k in db.alerts && db.alerts[k].product == product))
    case RaiseAlert(batch, product, severity) =>
      if w.found then w
      else w.(raised := w.raised[AlertKey(tenant, batch, LowStock) := Alert(product, severity, call.now, None)])
    case ResolveWarnings(batch) =>
      w.(resolved := w.resolved +
           set k | k in db.alerts && k.tenant == tenant && k.batch == batch && IsWarning(k.event))
  }

  function ExecAll(db: Db, call: Call, w: Writes, program: seq<Statement>): Writes {
    if program == [] then w
    else
      Exec(db, call, ExecAll(db, call, w, program[..|program| - 1]), program[|program| - 1])
  }

  function Resolve(a: Alert, now: Time): Alert {
    a.(resolvedAt := Some(Coalesce(a.resolvedAt, now)))
  }

  function SaleOf(call: Call): SaleRow {
    SaleRow(call.saleId, call.request.tenant, call.request.user, call.request.source, call.request.key)
  }

  /** Committing a sale: its row and its writes become visible together. */
  function Commit(db: Db, call: Call, w: Writes): Db {
    db.(
      batches := map b | b in db.batches ::
        if b in w.stock then db.batches[b].(remaining := w.stock[b]) else db.batches[b],
      sales := db.sales + [SaleOf(call)],
      items := db.items + w.items,
      alerts := AlertsAfter(db.alerts, w.raised, w.resolved, call.now))
  }

  function AlertsAfter(alerts: map<AlertKey, Alert>, raised: map<AlertKey, Alert>, resolved: set<AlertKey>, now: Time)
    : map<AlertKey, Alert>
  {
    (map k | k in alerts :: if k in resolved then Resolve(alerts[k], now) else alerts[k]) + raised
  }

  // ----- one request, running alone -----

  function Requested(readback: seq<Line>, row: SaleRow, request: Request): bool {
    row.source == request.source && readback == request.items
  }

  /** The stock an item read-back joins to a line: the batch's current value. */
  function CurrentStock(db: Db, line: Line): nat {
    if line.batch in db.batches then db.batches[line.batch].remaining else 0
  }

  function ReplayView(db: Db, row: SaleRow, readback: seq<Line>): SaleView {
    SaleView(row.id, row.source, seq(|readback|, i requires 0 <= i < |readback| => (readback[i], CurrentStock(db, readback[i]))))
  }

  function AcceptedView(call: Call, lines: seq<Planned>): SaleView {
    SaleView(call.saleId, call.request.source,
             seq(|lines|, i requires 0 <= i < |lines| => (lines[i].line, lines[i].remaining)))
  }

  /** The database may return the items of a sale in any order that `created_at` allows. */
  predicate ValidReadback(db: Db, request: Request, readback: seq<Line>) {
    match FindSale(db.sales, request.tenant, request.key)
    case None => true
    case Some(row) => multiset(readback) == multiset(ItemsOf(db.items, row.id))
  }

  ghost function Decide(db: Db, call: Call, readback: seq<Line>): Outcome {
    var request := call.request;
    match FindSale(db.sales, request.tenant, request.key)
    case Some(row) =>
      if Requested(readback, row, request) then Replayed(ReplayView(db, row, readback)) else Conflict
    case None =>
      match RowsFor(db, request.tenant, LockOrder(request))
      case None => Rejected(UnknownBatch)
      case Some(rows) =>
        RowsForMeans(db, request.tenant, LockOrder(request));
        match Plan(rows, request.items)
        case Refused(reason) => Rejected(reason)
        case Lines(lines) =>
          if request.user in db.users then Accepted(AcceptedView(call, lines)) else Rejected(UnknownUser)
  }

  /** The rows and plan of an accepted call. */
  ghost function PlanOf(db: Db, request: Request): seq<Planned> {
    match RowsFor(db, request.tenant, LockOrder(request))
    case None => []
    case Some(rows) =>
      RowsForMeans(db, request.tenant, LockOrder(request));
      match Plan(rows, request.items)
      case Refused(_) => []
      case Lines(lines) => lines
  }

  /** The tables after one request has run alone. */
  ghost function Create(db: Db, call: Call, readback: seq<Line>): Db {
    if Decide(db, call, readback).Accepted?
    then Commit(db, call, ExecAll(db, call, NoWrites, Program(PlanOf(db, call.request))))
    else db
  }
}
