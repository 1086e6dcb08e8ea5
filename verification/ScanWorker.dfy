/** The scan worker: one transaction that completes a scan and attaches its inventory batch. */
module ScanWorker {
  import opened Prelude
  import opened Freshness

  datatype Status = Pending | Processing | Completed | Failed

  datatype Scan = Scan(tenant: Uuid, quantity: nat, status: Status, grade: Option<Label>,
                       product: Option<Uuid>, batch: Option<Uuid>)

  datatype StockBatch = StockBatch(tenant: Uuid, product: Uuid, intake: Time, received: nat, remaining: nat,
                                   initial: Option<Label>, deadlines: Deadlines)

  datatype Classification = Classification(grade: Option<Label>, identity: Option<string>, score: Option<real>)

  datatype Product = Product(id: Uuid, name: string)

  /** The shared catalogue, products in the order `created_at, id`; `normal` is lower(trim(…)). */
  datatype Catalogue = Catalogue(products: seq<Product>, rules: map<string, Rule>, normal: string -> string)

  /** `spoilage` maps a batch to its `spoiled_detected` alert. */
  datatype Tables = Tables(scans: map<Uuid, Scan>, batches: map<Uuid, StockBatch>, spoilage: map<Uuid, Uuid>)

  /** One run of the task: its arguments, what the classifier will say, and the ids its inserts would get. */
  datatype Job = Job(tenant: Uuid, scan: Uuid, result: Classification, intake: Time, batchId: Uuid, alertId: Uuid)

  const MIN_CONFIDENCE := 0.75

  function ByName(c: Catalogue, products: seq<Product>, name: string): Option<Uuid> {
    if products == [] then None
    else if c.normal(products[0].name) == c.normal(name) then Some(products[0].id)
    else ByName(c, products[1..], name)
  }

  /** The product of a scan: the one supplied, or a confident exact match of the label. */
  function ProductFor(c: Catalogue, scan: Scan, r: Classification): Option<Uuid> {
    if scan.product.Some? then scan.product
    else if r.score.Some? && r.score.value >= MIN_CONFIDENCE && r.identity.Some? && r.identity.value != ""
    then ByName(c, c.products, r.identity.value)
    else None
  }

  /** The product of a label is the first in catalogue order whose name matches, if any does. */
  lemma {:induction false} FirstMatchByName(c: Catalogue, products: seq<Product>, name: string) returns (n: nat)
    ensures ByName(c, products, name).None? <==> forall i :: 0 <= i < |products| ==> c.normal(products[i].name) != c.normal(name)
    ensures ByName(c, products, name).Some? ==>
              n < |products| && c.normal(products[n].name) == c.normal(name) && ByName(c, products, name) == Some(products[n].id) &&
              (forall i :: 0 <= i < n ==> c.normal(products[i].name) != c.normal(name))
  {
    n := 0;
    if products != [] && c.normal(products[0].name) != c.normal(name) {
      var m := FirstMatchByName(c, products[1..], name);
      n := m + 1;
    }
  }

  function NameOf(products: seq<Product>, id: Uuid): Option<string> {
    if products == [] then None
    else if products[0].id == id then Some(products[0].name)
    else NameOf(products[1..], id)
  }

  /** The left join of the product with its category's rule. */
  function RuleFor(c: Catalogue, product: Uuid): Option<Rule> {
    match NameOf(c.products, product)
    case None => None
    case Some(name) => if c.normal(name) in c.rules then Some(c.rules[c.normal(name)]) else None
  }

  function NewBatch(c: Catalogue, scan: Scan, job: Job, product: Uuid): StockBatch {
    StockBatch(scan.tenant, product, job.intake, scan.quantity, scan.quantity, job.result.grade,
               Schedule(job.result.grade, RuleFor(c, product), job.intake))
  }

  /** What `_ensure_inventory_batch` returns for the scan row it locked. */
  function Attached(c: Catalogue, scan: Scan, job: Job): (Option<Uuid>, Option<Uuid>) {
    if scan.batch.Some? then (scan.product, scan.batch)
    else
      match ProductFor(c, scan, job.result)
      case None => (None, None)
      case Some(p) => (Some(p), Some(job.batchId))
  }

  function Either(a: Option<Uuid>, b: Option<Uuid>): Option<Uuid> { if a.Some? then a else b }

  /** The effect of `complete` on the tables, given the scan row it has locked. */
  function WithCompleted(t: Tables, c: Catalogue, scan: Scan, job: Job): Tables {
    var (product, batch) := Attached(c, scan, job);
    t.(
      scans := t.scans[job.scan := Scan(scan.tenant, scan.quantity, Completed, job.result.grade,
                                        Either(product, scan.product), Either(batch, scan.batch))],
      batches := if scan.batch.None? && batch.Some? then t.batches[job.batchId := NewBatch(c, scan, job, product.value)]
                 else t.batches,
      spoilage := if job.result.grade == Some(Spoiled) && product.Some? && batch.Some? && batch.value !in t.spoilage
                  then t.spoilage[batch.value := job.alertId] else t.spoilage)
  }

  /** The scan under the tenant's row policy. */
  function Visible(t: Tables, job: Job): Option<Scan> {
    if job.scan in t.scans && t.scans[job.scan].tenant == job.tenant then Some(t.scans[job.scan]) else None
  }

  function Complete(t: Tables, c: Catalogue, job: Job): Tables {
    match Visible(t, job)
    case None => t
    case Some(scan) => WithCompleted(t, c, scan, job)
  }

  function WithStatus(t: Tables, job: Job, status: Status): Tables {
    match Visible(t, job)
    case None => t
    case Some(scan) => t.(scans := t.scans[job.scan := scan.(status := status)])
  }

  // ----- which product, which deadlines -----

  predicate FirstNamed(c: Catalogue, n: nat, name: string) {
    && n < |c.products| && c.normal(c.products[n].name) == c.normal(name)
    && forall i :: 0 <= i < n ==> c.normal(c.products[i].name) != c.normal(name)
  }

  /** The product comes from the scan, or from a label of at least three quarters confidence: then it is the
      first in catalogue order whose normalised name is the label's. */
  ghost predicate Chosen(c: Catalogue, scan: Scan, r: Classification, product: Uuid) {
    if scan.product.Some? then scan.product == Some(product)
    else
      && r.score.Some? && r.score.value >= 0.75 && r.identity.Some? && r.identity.value != ""
      && exists n: nat :: FirstNamed(c, n, r.identity.value) && c.products[n].id == product
  }

  lemma ProductForChooses(c: Catalogue, scan: Scan, r: Classification)
    ensures forall p: Uuid :: ProductFor(c, scan, r) == Some(p) <==> Chosen(c, scan, r, p)
  {
    if r.identity.Some? {
      var n := FirstMatchByName(c, c.products, r.identity.value);
      if ByName(c, c.products, r.identity.value).Some? { assert FirstNamed(c, n, r.identity.value); }
    }
  }

  predicate FirstWithId(products: seq<Product>, k: nat, id: Uuid) {
    k < |products| && products[k].id == id && forall j :: 0 <= j < k ==> products[j].id != id
  }

  lemma {:induction false} NameOfFirst(products: seq<Product>, id: Uuid, k: nat)
    requires FirstWithId(products, k, id)
    ensures NameOf(products, id) == Some(products[k].name)
  {
    if k > 0 { NameOfFirst(products[1..], id, k - 1); }
  }

  lemma {:induction false} NameOfNone(products: seq<Product>, id: Uuid)
    requires forall j :: 0 <= j < |products| ==> products[j].id != id
    ensures NameOf(products, id).None?
  {
    if products != [] { NameOfNone(products[1..], id); }
  }

  /** The deadlines that a rule gives a batch, counted from its intake. */
  predicate DatedBy(r: Rule, b: StockBatch) {
    if r.freshDays.None? || r.mediumDays.None? || b.initial.None? then b.deadlines == Deadlines(None, None)
    else
      b.deadlines ==
      match b.initial.value
      case Fresh => Deadlines(Some(b.intake + r.freshDays.value * 86400),
                              Some(b.intake + (r.freshDays.value + r.mediumDays.value) * 86400))
      case Medium => Deadlines(Some(b.intake), Some(b.intake + r.mediumDays.value * 86400))
      case Spoiled => Deadlines(Some(b.intake), Some(b.intake))
  }

  /** A batch is dated by the rule for its product's normalised name, and has no deadlines if there is none. */
  ghost predicate Dated(c: Catalogue, b: StockBatch) {
    && (forall k: nat :: FirstWithId(c.products, k, b.product) ==>
          if c.normal(c.products[k].name) in c.rules then DatedBy(c.rules[c.normal(c.products[k].name)], b)
          else b.deadlines == Deadlines(None, None))
    && ((forall j :: 0 <= j < |c.products| ==> c.products[j].id != b.product) ==> b.deadlines == Deadlines(None, None))
  }

  lemma NewBatchIsDated(c: Catalogue, scan: Scan, job: Job, product: Uuid)
    ensures Dated(c, NewBatch(c, scan, job, product))
  {
    forall k: nat | FirstWithId(c.products, k, product) ensures NameOf(c.products, product) == Some(c.products[k].name) {
      NameOfFirst(c.products, product, k);
    }
    if forall j :: 0 <= j < |c.products| ==> c.products[j].id != product { NameOfNone(c.products, product); }
  }

  /** What intake says of a new batch. */
  ghost predicate IntakeOf(c: Catalogue, scan: Scan, job: Job, b: StockBatch) {
    && Chosen(c, scan, job.result, b.product) && Dated(c, b)
    && b.tenant == scan.tenant && b.intake == job.intake && b.initial == job.result.grade
    && b.received == b.remaining == scan.quantity
  }

  /** A batch is inserted exactly for a scan without one whose product is supplied or confidently recognised,
      for that product, whole, unsold, and dated by the rule of its product's name. */
  lemma BatchInsertedIff(t: Tables, c: Catalogue, scan: Scan, job: Job)
    ensures var batches := WithCompleted(t, c, scan, job).batches;
            && (job.batchId !in t.batches ==>
                  (batches != t.batches <==> scan.batch.None? && exists p: Uuid :: Chosen(c, scan, job.result, p)))
            && (batches != t.batches ==>
                  && job.batchId in batches && batches == t.batches[job.batchId := batches[job.batchId]]
                  && IntakeOf(c, scan, job, batches[job.batchId]))
  {
    ProductForChooses(c, scan, job.result);
    var chosen := ProductFor(c, scan, job.result);
    if chosen.Some? {
      NewBatchIsDated(c, scan, job, chosen.value);
      assert Chosen(c, scan, job.result, chosen.value);
    } else {
      forall p: Uuid ensures !Chosen(c, scan, job.result, p) {
        assert ProductFor(c, scan, job.result) != Some(p);
      }
    }
  }

  // ----- in place -----

  class Worker {
    var scans: map<Uuid, Scan>
    var batches: map<Uuid, StockBatch>
    var spoilage: map<Uuid, Uuid>

    function State(): Tables
      reads this
    {
      Tables(scans, batches, spoilage)
    }

    constructor (t: Tables)
      ensures State() == t
    {
      scans, batches, spoilage := t.scans, t.batches, t.spoilage;
    }

    method SetStatus(job: Job, status: Status)
      modifies this`scans
      ensures State() == WithStatus(old(State()), job, status)
      ensures scans.Keys == old(scans).Keys
      ensures forall id :: id in scans ==>
                && (id == job.scan && old(scans)[id].tenant == job.tenant ==> scans[id].status == status)
                && (id != job.scan || old(scans)[id].tenant != job.tenant ==> scans[id] == old(scans)[id])
                && scans[id].(status := old(scans)[id].status) == old(scans)[id]
    {
      var scan := Visible(State(), job);
      if scan.Some? { scans := scans[job.scan := scan.value.(status := status)]; }
    }

    /** The statements of `_ensure_inventory_batch`. */
    method AttachBatch(c: Catalogue, job: Job) returns (product: Option<Uuid>, batch: Option<Uuid>)
      modifies this`batches
      ensures (product, batch) == match Visible(old(State()), job)
                                  case None => (None, None)
                                  case Some(scan) => Attached(c, scan, job)
      ensures batches == match Visible(old(State()), job)
                         case None => old(batches)
                         case Some(scan) => WithCompleted(old(State()), c, scan, job).batches
    {
      var row := Visible(State(), job);
      if row.None? { return None, None; }
      var scan := row.value;
      product, batch := scan.product, scan.batch;
      if batch.Some? { return; }
      if product.None? && job.result.score.Some? && job.result.score.value >= MIN_CONFIDENCE {
        if job.result.identity.Some? && job.result.identity.value != "" {
          product := ByName(c, c.products, job.result.identity.value);
        }
      }
      if product.None? { return None, None; }
      var rule := RuleFor(c, product.value);
      var freshAt: Option<Time>, spoiledAt: Option<Time> := None, None;
      if rule.Some? {
        var freshDays, mediumDays := rule.value.freshDays, rule.value.mediumDays;
        if freshDays.Some? && mediumDays.Some? {
          if job.result.grade == Some(Fresh) {
            freshAt := Some(job.intake + freshDays.value * DAY);
            spoiledAt := Some(freshAt.value + mediumDays.value * DAY);
          } else if job.result.grade == Some(Medium) {
            freshAt := Some(job.intake);
            spoiledAt := Some(job.intake + mediumDays.value * DAY);
          } else if job.result.grade == Some(Spoiled) {
            freshAt, spoiledAt := Some(job.intake), Some(job.intake);
          }
        }
      }
      batches := batches[job.batchId := StockBatch(scan.tenant, product.value, job.intake, scan.quantity, scan.quantity,
                                                   job.result.grade, Deadlines(freshAt, spoiledAt))];
      batch := Some(job.batchId);
    }

    /** `_ensure_inventory_batch`: a batch is inserted only for a scan that has none and whose product is known. */
    method EnsureInventoryBatch(c: Catalogue, job: Job) returns (product: Option<Uuid>, batch: Option<Uuid>)
      modifies this`batches
      ensures (product, batch) == match Visible(old(State()), job)
                                  case None => (None, None)
                                  case Some(scan) => Attached(c, scan, job)
      ensures batches == match Visible(old(State()), job)
                         case None => old(batches)
                         case Some(scan) => WithCompleted(old(State()), c, scan, job).batches
      ensures batches != old(batches) ==>
                && job.scan in old(scans) && old(scans)[job.scan].tenant == job.tenant && old(scans)[job.scan].batch.None?
                && batch == Some(job.batchId) && job.batchId in batches
                && batches == old(batches)[job.batchId := batches[job.batchId]]
                && IntakeOf(c, old(scans)[job.scan], job, batches[job.batchId])
    {
      ghost var before := State();
      product, batch := AttachBatch(c, job);
      var row := Visible(State(), job);
      if row.Some? { BatchInsertedIff(before, c, row.value, job); }
    }

    /** `complete`, returning the id of a newly raised spoilage alert. */
    method CompleteScan(c: Catalogue, job: Job) returns (alert: Option<Uuid>)
      modifies this
      ensures State() == Complete(old(State()), c, job)
      ensures alert == if spoilage != old(spoilage) then Some(job.alertId) else None
    {
      var row := Visible(State(), job);
      var product, batch := EnsureInventoryBatch(c, job);
      if row.Some? {
        scans := scans[job.scan := Scan(row.value.tenant, row.value.quantity, Completed, job.result.grade,
                                        Either(product, row.value.product), Either(batch, row.value.batch))];
      }
      if job.result.grade == Some(Spoiled) && product.Some? && batch.Some? {
        if batch.value !in spoilage {
          spoilage := spoilage[batch.value := job.alertId];
          assert batch.value in spoilage;
          return Some(job.alertId);
        }
      }
      return None;
    }

    /** `classify_scan`: a failed classification, or a transaction that does not commit, marks the scan. */
    method ClassifyScan(c: Catalogue, job: Job, classified: bool, committed: bool)
      returns (raised: bool, alert: Option<Uuid>)
      modifies this
      ensures raised == !(classified && committed)
      ensures State() == if raised then WithStatus(old(State()), job, Failed)
                         else Complete(WithStatus(old(State()), job, Processing), c, job)
      ensures alert.Some? <==> !raised && spoilage != old(spoilage)
    {
      SetStatus(job, Processing);
      raised, alert := !classified, None;
      if classified {
        var before := State();
        alert := CompleteScan(c, job);
        if !committed {
          scans, batches, spoilage := before.scans, before.batches, before.spoilage;
          raised, alert := true, None;
        }
      }
      if raised { SetStatus(job, Failed); }
    }
  }

  // ----- redelivered and concurrent runs -----

  /** `Locked` holds the scan's row lock from its read to its commit. */
  datatype Phase =
    | Queued
    | Classifying
    | Locked(row: Scan)
    | Broken
    | Over

  /** `attached` is history: the (scan, batch) pairs inserted so far. */
  datatype Pool = Pool(tables: Tables, runs: seq<Phase>, attached: seq<(Uuid, Uuid)>)

  datatype Action =
    | Start(i: nat)
    | Lock(i: nat)
    | Commit(i: nat, catalogue: Catalogue)
    | Fail(i: nat)
    | MarkFailed(i: nat)

  predicate RowFree(jobs: seq<Job>, s: Pool, i: nat)
    requires i < |jobs| == |s.runs|
  {
    forall j :: 0 <= j < |s.runs| && j != i && s.runs[j].Locked? ==> jobs[j].scan != jobs[i].scan
  }

  /** Updates and row locks of a scan wait for the run that has it locked; new ids are unused. */
  predicate Enabled(jobs: seq<Job>, s: Pool, a: Action) {
    && a.i < |jobs| == |s.runs|
    && match a
       case Start(i) => s.runs[i].Queued? && RowFree(jobs, s, i)
       case Lock(i) => s.runs[i].Classifying? && RowFree(jobs, s, i)
       case Commit(i, _) => s.runs[i].Locked? && jobs[i].batchId !in s.tables.batches
       case Fail(i) => s.runs[i].Classifying? || s.runs[i].Locked?
       case MarkFailed(i) => s.runs[i].Broken? && RowFree(jobs, s, i)
  }

  function Next(jobs: seq<Job>, s: Pool, a: Action): Pool
    requires Enabled(jobs, s, a)
  {
    var job := jobs[a.i];
    match a
    case Start(i) => s.(tables := WithStatus(s.tables, job, Processing), runs := s.runs[i := Classifying])
    case Lock(i) =>
      (match Visible(s.tables, job)
       case None => s.(runs := s.runs[i := Over])
       case Some(row) => s.(runs := s.runs[i := Locked(row)]))
    case Commit(i, c) =>
      s.(tables := WithCompleted(s.tables, c, s.runs[i].row, job),
         runs := s.runs[i := Over],
         attached := if s.runs[i].row.batch.None? && Attached(c, s.runs[i].row, job).1.Some?
                     then s.attached + [(job.scan, job.batchId)] else s.attached)
    case Fail(i) => s.(runs := s.runs[i := Broken])
    case MarkFailed(i) => s.(tables := WithStatus(s.tables, job, Failed), runs := s.runs[i := Over])
  }

  predicate CanRun(jobs: seq<Job>, t: Tables, actions: seq<Action>)
    decreases |actions|, 0
  {
    actions == [] ||
    (CanRun(jobs, t, actions[..|actions| - 1]) &&
     Enabled(jobs, Reached(jobs, t, actions[..|actions| - 1]), actions[|actions| - 1]))
  }

  function Reached(jobs: seq<Job>, t: Tables, actions: seq<Action>): Pool
    requires CanRun(jobs, t, actions)
    decreases |actions|, 1
  {
    if actions == [] then Pool(t, seq(|jobs|, _ => Queued), [])
    else Next(jobs, Reached(jobs, t, actions[..|actions| - 1]), actions[|actions| - 1])
  }

  /** A locked row is the committed row, and no two runs lock one scan. */
  ghost predicate RowsHeld(jobs: seq<Job>, s: Pool) {
    && |s.runs| == |jobs|
    && (forall i :: 0 <= i < |jobs| && s.runs[i].Locked? ==> Visible(s.tables, jobs[i]) == Some(s.runs[i].row))
    && (forall i, j :: 0 <= i < j < |jobs| && s.runs[i].Locked? && s.runs[j].Locked? ==> jobs[i].scan != jobs[j].scan)
  }

  ghost predicate AllHold(t: Tables, attached: seq<(Uuid, Uuid)>) {
    forall k :: 0 <= k < |attached| ==> HoldsBatch(t, attached[k].0, attached[k].1)
  }

  /** Batches were inserted for different scans, each of them without a batch at the start. */
  predicate OnceEach(t0: Tables, attached: seq<(Uuid, Uuid)>) {
    && (forall k, m :: 0 <= k < m < |attached| ==> attached[k].0 != attached[m].0)
    && (forall k :: 0 <= k < |attached| ==> attached[k].0 in t0.scans && t0.scans[attached[k].0].batch == None)
  }

  /** The batches that exist are the initial ones and the inserted ones. */
  predicate Counted(t0: Tables, s: Pool) {
    && s.tables.batches.Keys == t0.batches.Keys + Inserted(s.attached)
    && |s.tables.batches| == |t0.batches| + |s.attached|
  }

  ghost predicate Inv(jobs: seq<Job>, t0: Tables, s: Pool) {
    RowsHeld(jobs, s) && AllHold(s.tables, s.attached) && OnceEach(t0, s.attached) && Counted(t0, s)
  }

  /** The batches that the runs have inserted. */
  function Inserted(attached: seq<(Uuid, Uuid)>): set<Uuid> {
    set k | 0 <= k < |attached| :: attached[k].1
  }

  lemma InsertedAppend(attached: seq<(Uuid, Uuid)>, scan: Uuid, batch: Uuid)
    ensures Inserted(attached + [(scan, batch)]) == Inserted(attached) + {batch}
  {
    var more := attached + [(scan, batch)];
    assert more[|attached|].1 == batch;
    forall b | b in Inserted(attached) ensures b in Inserted(more) {
      var k :| 0 <= k < |attached| && attached[k].1 == b;
      assert more[k].1 == b;
    }
  }

  predicate HoldsBatch(t: Tables, scan: Uuid, batch: Uuid) {
    && scan in t.scans && t.scans[scan].batch == Some(batch)
    && batch in t.batches
    && t.scans[scan].product == Some(t.batches[batch].product)
    && t.batches[batch].received == t.batches[batch].remaining == t.scans[scan].quantity
    && t.batches[batch].tenant == t.scans[scan].tenant
  }

  /** What a step may do to the tables: quantities are fixed, product and batch are written once, and an
      existing batch keeps its row, deadlines included, whatever the rules are by now. */
  ghost predicate Grows(t: Tables, t': Tables) {
    && t'.scans.Keys == t.scans.Keys
    && (forall id :: id in t.scans ==>
          && t'.scans[id].quantity == t.scans[id].quantity && t'.scans[id].tenant == t.scans[id].tenant
          && (t.scans[id].product.Some? ==> t'.scans[id].product == t.scans[id].product)
          && (t.scans[id].batch.Some? ==> t'.scans[id].batch == t.scans[id].batch))
    && (forall b :: b in t.batches ==> b in t'.batches && t'.batches[b] == t.batches[b])
    && (forall b :: b in t.spoilage ==> b in t'.spoilage && t'.spoilage[b] == t.spoilage[b])
  }

  lemma StatusGrows(t: Tables, job: Job, status: Status)
    ensures Grows(t, WithStatus(t, job, status))
  {}

  lemma CompletionGrows(t: Tables, c: Catalogue, scan: Scan, job: Job)
    requires Visible(t, job) == Some(scan) && job.batchId !in t.batches
    ensures Grows(t, WithCompleted(t, c, scan, job))
  {}

  lemma StepGrows(jobs: seq<Job>, s: Pool, a: Action)
    requires RowsHeld(jobs, s) && Enabled(jobs, s, a)
    ensures Grows(s.tables, Next(jobs, s, a).tables)
  {
    match a
    case Start(i) => StatusGrows(s.tables, jobs[i], Processing);
    case MarkFailed(i) => StatusGrows(s.tables, jobs[i], Failed);
    case Commit(i, c) => CompletionGrows(s.tables, c, s.runs[i].row, jobs[i]);
    case _ =>
  }

  lemma GrowsOn(t: Tables, t': Tables, t'': Tables)
    requires Grows(t, t') && Grows(t', t'')
    ensures Grows(t, t'')
  {}

  lemma StepKeepsRows(jobs: seq<Job>, s: Pool, a: Action)
    requires RowsHeld(jobs, s) && Enabled(jobs, s, a)
    ensures RowsHeld(jobs, Next(jobs, s, a))
  {}

  lemma QuietKeepsHeld(jobs: seq<Job>, s: Pool, a: Action)
    requires Enabled(jobs, s, a) && !a.Commit? && AllHold(s.tables, s.attached)
    ensures AllHold(Next(jobs, s, a).tables, s.attached)
  {
    forall k | 0 <= k < |s.attached|
      ensures HoldsBatch(Next(jobs, s, a).tables, s.attached[k].0, s.attached[k].1)
    {
      assert HoldsBatch(s.tables, s.attached[k].0, s.attached[k].1);
    }
  }

  lemma QuietKeepsBatches(jobs: seq<Job>, s: Pool, a: Action)
    requires Enabled(jobs, s, a) && !a.Commit?
    ensures Next(jobs, s, a).attached == s.attached && Next(jobs, s, a).tables.batches == s.tables.batches
  {}

  /** A commit inserts nothing, or one batch under a new id for a scan that had none. */
  lemma CommitInserts(jobs: seq<Job>, s: Pool, a: Action)
    requires RowsHeld(jobs, s) && Enabled(jobs, s, a) && a.Commit?
    ensures var s', job := Next(jobs, s, a), jobs[a.i];
            || (s'.attached == s.attached && s'.tables.batches == s.tables.batches)
            || (&& s'.attached == s.attached + [(job.scan, job.batchId)]
                && s'.tables.batches.Keys == s.tables.batches.Keys + {job.batchId}
                && |s'.tables.batches| == |s.tables.batches| + 1
                && job.scan in s.tables.scans && s.tables.scans[job.scan].batch.None?
                && HoldsBatch(s'.tables, job.scan, job.batchId))
  {
    assert Visible(s.tables, jobs[a.i]) == Some(s.runs[a.i].row);
  }

  lemma CommitKeepsHeld(t: Tables, c: Catalogue, scan: Scan, job: Job, other: Uuid, batch: Uuid)
    requires Visible(t, job) == Some(scan) && job.batchId !in t.batches && HoldsBatch(t, other, batch)
    ensures HoldsBatch(WithCompleted(t, c, scan, job), other, batch)
  {}

  lemma OnceMore(t0: Tables, t: Tables, attached: seq<(Uuid, Uuid)>, scan: Uuid, batch: Uuid)
    requires OnceEach(t0, attached) && AllHold(t, attached) && Grows(t0, t)
    requires scan in t.scans && t.scans[scan].batch.None?
    ensures OnceEach(t0, attached + [(scan, batch)])
  {
    forall k | 0 <= k < |attached| ensures attached[k].0 != scan {
      assert HoldsBatch(t, attached[k].0, attached[k].1);
    }
  }

  lemma CommitKeepsOnce(jobs: seq<Job>, t0: Tables, s: Pool, a: Action)
    requires Inv(jobs, t0, s) && Grows(t0, s.tables) && Enabled(jobs, s, a) && a.Commit?
    ensures OnceEach(t0, Next(jobs, s, a).attached)
  {
    CommitInserts(jobs, s, a);
    if Next(jobs, s, a).attached != s.attached { OnceMore(t0, s.tables, s.attached, jobs[a.i].scan, jobs[a.i].batchId); }
  }

  lemma CommitKeepsCount(jobs: seq<Job>, t0: Tables, s: Pool, a: Action)
    requires RowsHeld(jobs, s) && Counted(t0, s) && Enabled(jobs, s, a) && a.Commit?
    ensures Counted(t0, Next(jobs, s, a))
  {
    CommitInserts(jobs, s, a);
    InsertedAppend(s.attached, jobs[a.i].scan, jobs[a.i].batchId);
  }

  lemma CommitKeepsAllHeld(jobs: seq<Job>, s: Pool, a: Action)
    requires RowsHeld(jobs, s) && AllHold(s.tables, s.attached) && Enabled(jobs, s, a) && a.Commit?
    ensures AllHold(Next(jobs, s, a).tables, Next(jobs, s, a).attached)
  {
    CommitInserts(jobs, s, a);
    forall k | 0 <= k < |s.attached|
      ensures HoldsBatch(Next(jobs, s, a).tables, s.attached[k].0, s.attached[k].1)
    {
      CommitKeepsHeld(s.tables, a.catalogue, s.runs[a.i].row, jobs[a.i], s.attached[k].0, s.attached[k].1);
    }
  }

  lemma StepKeepsInv(jobs: seq<Job>, t0: Tables, s: Pool, a: Action)
    requires Inv(jobs, t0, s) && Grows(t0, s.tables) && Enabled(jobs, s, a)
    ensures Inv(jobs, t0, Next(jobs, s, a))
  {
    StepKeepsRows(jobs, s, a);
    if a.Commit? {
      CommitKeepsAllHeld(jobs, s, a);
      CommitKeepsOnce(jobs, t0, s, a);
      CommitKeepsCount(jobs, t0, s, a);
    } else {
      QuietKeepsHeld(jobs, s, a);
      QuietKeepsBatches(jobs, s, a);
    }
  }

  lemma {:induction false} RunKeepsInv(jobs: seq<Job>, t: Tables, actions: seq<Action>)
    requires CanRun(jobs, t, actions)
    ensures Inv(jobs, t, Reached(jobs, t, actions)) && Grows(t, Reached(jobs, t, actions).tables)
  {
    if actions != [] {
      var front, last := actions[..|actions| - 1], actions[|actions| - 1];
      RunKeepsInv(jobs, t, front);
      var s := Reached(jobs, t, front);
      StepGrows(jobs, s, last);
      GrowsOn(t, s.tables, Next(jobs, s, last).tables);
      StepKeepsInv(jobs, t, s, last);
    }
  }

  /** However often a scan's task is delivered and however its runs interleave and fail: the batches that
      exist are the initial ones and one more for each of some scans that had none, no two for one scan; each
      holds exactly its scan's quantity, and the scan names it. */
  lemma OneBatchPerScan(jobs: seq<Job>, t: Tables, actions: seq<Action>)
    requires CanRun(jobs, t, actions)
    ensures var s := Reached(jobs, t, actions);
            && s.tables.batches.Keys == t.batches.Keys + Inserted(s.attached)
            && |s.tables.batches| == |t.batches| + |s.attached|
            && (forall k, m :: 0 <= k < m < |s.attached| ==> s.attached[k].0 != s.attached[m].0)
            && (forall k :: 0 <= k < |s.attached| ==>
                  HoldsBatch(s.tables, s.attached[k].0, s.attached[k].1) &&
                  s.attached[k].0 in t.scans && t.scans[s.attached[k].0].batch == None &&
                  s.tables.batches[s.attached[k].1].received == t.scans[s.attached[k].0].quantity)
  {
    RunKeepsInv(jobs, t, actions);
  }

  /** Between any two moments of a run, a scan's product and batch are written at most once, and the rows
      of existing batches, with their deadlines, do not change. */
  lemma {:induction false} LinksAreWriteOnce(jobs: seq<Job>, t: Tables, actions: seq<Action>, n: nat)
    requires CanRun(jobs, t, actions) && n <= |actions|
    ensures CanRun(jobs, t, actions[..n])
    ensures Grows(Reached(jobs, t, actions[..n]).tables, Reached(jobs, t, actions).tables)
  {
    if n == |actions| {
      assert actions[..n] == actions;
    } else {
      var front, last := actions[..|actions| - 1], actions[|actions| - 1];
      LinksAreWriteOnce(jobs, t, front, n);
      assert front[..n] == actions[..n];
      RunKeepsInv(jobs, t, front);
      StepGrows(jobs, Reached(jobs, t, front), last);
      GrowsOn(Reached(jobs, t, actions[..n]).tables, Reached(jobs, t, front).tables, Reached(jobs, t, actions).tables);
    }
  }

  lemma OneMore(jobs: seq<Job>, t: Tables, front: seq<Action>, a: Action, actions: seq<Action>)
    requires CanRun(jobs, t, front) && Enabled(jobs, Reached(jobs, t, front), a) && actions == front + [a]
    ensures CanRun(jobs, t, actions) && Reached(jobs, t, actions) == Next(jobs, Reached(jobs, t, front), a)
  {
    assert actions[..|actions| - 1] == front;
  }

  lemma StartAlone(job: Job, t: Tables)
    ensures CanRun([job], t, [Start(0)])
    ensures Reached([job], t, [Start(0)]) == Pool(WithStatus(t, job, Processing), [Classifying], [])
  {
    OneMore([job], t, [], Start(0), [Start(0)]);
  }

  /** A run that is not interleaved reaches exactly what the task's own procedure leaves. */
  lemma AloneIsTheTask(job: Job, t: Tables, c: Catalogue)
    requires Visible(t, job).Some? && job.batchId !in t.batches
    ensures CanRun([job], t, [Start(0), Lock(0), Commit(0, c)])
    ensures Reached([job], t, [Start(0), Lock(0), Commit(0, c)]).tables == Complete(WithStatus(t, job, Processing), c, job)
  {
    StartAlone(job, t);
    OneMore([job], t, [Start(0)], Lock(0), [Start(0), Lock(0)]);
    OneMore([job], t, [Start(0), Lock(0)], Commit(0, c), [Start(0), Lock(0), Commit(0, c)]);
  }

  lemma FailingAloneIsTheTask(job: Job, t: Tables)
    ensures CanRun([job], t, [Start(0), Fail(0), MarkFailed(0)])
    ensures Reached([job], t, [Start(0), Fail(0), MarkFailed(0)]).tables == WithStatus(t, job, Failed)
  {
    StartAlone(job, t);
    OneMore([job], t, [Start(0)], Fail(0), [Start(0), Fail(0)]);
    OneMore([job], t, [Start(0), Fail(0)], MarkFailed(0), [Start(0), Fail(0), MarkFailed(0)]);
  }

  /** So does one that fails after it has locked the scan: its transaction leaves nothing behind. */
  lemma FailingLockedIsTheTask(job: Job, t: Tables)
    requires Visible(t, job).Some?
    ensures CanRun([job], t, [Start(0), Lock(0), Fail(0), MarkFailed(0)])
    ensures Reached([job], t, [Start(0), Lock(0), Fail(0), MarkFailed(0)]).tables == WithStatus(t, job, Failed)
  {
    StartAlone(job, t);
    OneMore([job], t, [Start(0)], Lock(0), [Start(0), Lock(0)]);
    OneMore([job], t, [Start(0), Lock(0)], Fail(0), [Start(0), Lock(0), Fail(0)]);
    OneMore([job], t, [Start(0), Lock(0), Fail(0)], MarkFailed(0), [Start(0), Lock(0), Fail(0), MarkFailed(0)]);
  }
}
