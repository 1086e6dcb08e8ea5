/** Sequential histories of sale requests and intake, and what every one of them keeps. */
module SaleLog {
  import opened Prelude
  import opened SaleLines
  import opened SaleTables
  import opened SaleHistory

  /** One step of a sequential history: a request with its outcome, or a batch the worker inserted. */
  datatype Entry =
    | Decided(call: Call, readback: seq<Line>, outcome: Outcome)
    | Received(id: Uuid, batch: Batch)

  ghost function After(db: Db, e: Entry): Db {
    match e
    case Decided(call, readback, _) => Create(db, call, readback)
    case Received(id, batch) => db.(batches := db.batches[id := batch])
  }

  /** The outcome is the one the sequential service gives, and intake starts a batch unsold under a fresh id. */
  ghost predicate LegalEntry(db: Db, e: Entry) {
    match e
    case Decided(call, readback, outcome) =>
      && Positive(call.request.items)
      && ValidReadback(db, call.request, readback)
      && outcome == Decide(db, call, readback)
    case Received(id, batch) => id !in db.batches && batch.remaining == batch.received
  }

  ghost function Fold(db: Db, log: seq<Entry>): Db {
    if log == [] then db else After(Fold(db, log[..|log| - 1]), log[|log| - 1])
  }

  ghost predicate Legal(db: Db, log: seq<Entry>) {
    log == [] ||
    (Legal(db, log[..|log| - 1]) && LegalEntry(Fold(db, log[..|log| - 1]), log[|log| - 1]))
  }

  lemma FoldAppend(db: Db, log: seq<Entry>, e: Entry)
    ensures Fold(db, log + [e]) == After(Fold(db, log), e)
    ensures Legal(db, log + [e]) <==> Legal(db, log) && LegalEntry(Fold(db, log), e)
  {
    assert (log + [e])[..|log|] == log;
  }

  // ----- conservation -----

  function SoldOf(items: seq<ItemRow>, batch: Uuid): int {
    if items == [] then 0
    else
      var last := items[|items| - 1];
      SoldOf(items[..|items| - 1], batch) + if last.line.batch == batch then last.line.quantity else 0
  }

  lemma {:induction false} SoldOfAppend(items: seq<ItemRow>, more: seq<ItemRow>, lines: seq<Line>, batch: Uuid)
    requires |more| == |lines|
    requires forall i :: 0 <= i < |lines| ==> more[i].line == lines[i]
    ensures SoldOf(items + more, batch) == SoldOf(items, batch) + Total(lines, batch)
  {
    if more == [] {
      assert items + more == items;
    } else {
      var n := |more| - 1;
      assert (items + more)[..|items + more| - 1] == items + more[..n];
      SoldOfAppend(items, more[..n], lines[..n], batch);
    }
  }

  lemma SoldAfter(db: Db, db': Db, call: Call, batch: Uuid)
    requires ItemsAppended(db, db', call)
    ensures SoldOf(db'.items, batch) == SoldOf(db.items, batch) + Total(call.request.items, batch)
  {
    var more := db'.items[|db.items|..];
    assert db'.items == db.items + more;
    forall i | 0 <= i < |call.request.items| ensures more[i].line == call.request.items[i] {
      assert more[i] == db'.items[|db.items| + i];
    }
    SoldOfAppend(db.items, more, call.request.items, batch);
  }

  /** Received stock of a batch is its remaining stock plus everything sold of it, and stock is within bounds. */
  predicate Conserving(db: Db, b: Uuid)
    requires b in db.batches
  {
    && db.batches[b].received == db.batches[b].remaining + SoldOf(db.items, b)
    && 0 <= db.batches[b].remaining <= db.batches[b].received
  }

  /** What received stock lacks or exceeds: zero for a batch that was received whole and only sold from. */
  function Unaccounted(db: Db, b: Uuid): int
    requires b in db.batches
  {
    db.batches[b].received - db.batches[b].remaining - SoldOf(db.items, b)
  }

  /** Item rows refer to existing batches and sales, as the foreign keys demand. */
  predicate Referential(db: Db) {
    && (forall i :: 0 <= i < |db.items| ==> db.items[i].line.batch in db.batches && db.items[i].line.quantity >= 1)
    && (forall i :: 0 <= i < |db.items| ==> SaleKnown(db.sales, db.items[i].sale))
  }

  predicate SaleKnown(sales: seq<SaleRow>, id: Uuid) {
    exists j :: 0 <= j < |sales| && sales[j].id == id
  }

  predicate UniqueKeys(sales: seq<SaleRow>) {
    forall i, j :: 0 <= i < j < |sales| ==> !(sales[i].tenant == sales[j].tenant && sales[i].key == sales[j].key)
  }

  ghost predicate Sound(db: Db) {
    WellFormed(db) && Referential(db) && UniqueKeys(db.sales)
  }

  lemma {:induction false} FindSaleMeans(sales: seq<SaleRow>, tenant: Uuid, key: string)
    ensures FindSale(sales, tenant, key).None? <==>
            forall i :: 0 <= i < |sales| ==> !(sales[i].tenant == tenant && sales[i].key == key)
    ensures FindSale(sales, tenant, key).Some? ==>
              var row := FindSale(sales, tenant, key).value;
              row in sales && row.tenant == tenant && row.key == key
  {
    if sales != [] {
      FindSaleMeans(sales[1..], tenant, key);
      assert sales == [sales[0]] + sales[1..];
    }
  }

  lemma {:induction false} FindSaleAppend(sales: seq<SaleRow>, more: SaleRow, tenant: Uuid, key: string)
    ensures FindSale(sales + [more], tenant, key) ==
            if FindSale(sales, tenant, key).Some? then FindSale(sales, tenant, key)
            else if more.tenant == tenant && more.key == key then Some(more) else None
  {
    if sales == [] {
      assert [more][1..] == [];
    } else {
      assert (sales + [more])[1..] == sales[1..] + [more];
      FindSaleAppend(sales[1..], more, tenant, key);
    }
  }

  lemma {:induction false} UnsoldBatch(items: seq<ItemRow>, batch: Uuid)
    requires forall i :: 0 <= i < |items| ==> items[i].line.batch != batch
    ensures SoldOf(items, batch) == 0
  {
    if items != [] { UnsoldBatch(items[..|items| - 1], batch); }
  }

  lemma {:induction false} SoldNonNegative(items: seq<ItemRow>, batch: Uuid)
    requires forall i :: 0 <= i < |items| ==> items[i].line.quantity >= 1
    ensures SoldOf(items, batch) >= 0
  {
    if items != [] { SoldNonNegative(items[..|items| - 1], batch); }
  }

  lemma SaleKeepsReferences(db: Db, db': Db, call: Call)
    requires Referential(db) && Positive(call.request.items)
    requires ItemsAppended(db, db', call) && db'.sales == db.sales + [SaleOf(call)]
    requires db'.batches.Keys == db.batches.Keys
    requires forall i :: 0 <= i < |call.request.items| ==> call.request.items[i].batch in db.batches
    ensures Referential(db')
  {
    assert db'.sales[|db.sales|].id == call.saleId;
    forall i | 0 <= i < |db'.items|
      ensures db'.items[i].line.batch in db'.batches && db'.items[i].line.quantity >= 1
      ensures SaleKnown(db'.sales, db'.items[i].sale)
    {
      if i < |db.items| {
        assert db'.items[i] == db'.items[..|db.items|][i] == db.items[i];
        var j :| 0 <= j < |db.sales| && db.sales[j].id == db.items[i].sale;
        assert db'.sales[j] == db.sales[j];
      } else {
        var n := i - |db.items|;
        assert db'.items[|db.items| + n].line == call.request.items[n];
      }
    }
  }

  lemma SoldBatchesExist(db: Db, call: Call, readback: seq<Line>)
    requires Decide(db, call, readback).Accepted?
    ensures forall i :: 0 <= i < |call.request.items| ==> call.request.items[i].batch in db.batches
  {
    var rows, lines := AcceptedPlan(db, call, readback);
    forall i | 0 <= i < |call.request.items| ensures call.request.items[i].batch in db.batches {
      assert RowOf(db, call.request.tenant, call.request.items[i].batch) == Some(rows[call.request.items[i].batch]);
    }
  }

  lemma SaleKeepsSound(db: Db, call: Call, readback: seq<Line>)
    requires Sound(db) && Positive(call.request.items)
    requires Decide(db, call, readback).Accepted?
    ensures Sound(Create(db, call, readback))
  {
    SaleEffect(db, call, readback);
    SoldBatchesExist(db, call, readback);
    SaleKeepsReferences(db, Create(db, call, readback), call);
    FindSaleMeans(db.sales, call.request.tenant, call.request.key);
  }

  /** Every sequential history keeps sale keys unique, references intact and rows well formed. */
  lemma {:induction false} HistoryKeepsSound(db: Db, log: seq<Entry>)
    requires Sound(db) && Legal(db, log)
    ensures Sound(Fold(db, log))
  {
    if log != [] {
      var front, last := log[..|log| - 1], log[|log| - 1];
      HistoryKeepsSound(db, front);
      if last.Decided? && last.outcome.Accepted? { SaleKeepsSound(Fold(db, front), last.call, last.readback); }
    }
  }

  lemma SaleKeepsBalance(db: Db, call: Call, readback: seq<Line>, b: Uuid)
    requires Positive(call.request.items) && Decide(db, call, readback).Accepted? && b in db.batches
    ensures b in Create(db, call, readback).batches
    ensures Create(db, call, readback).batches[b].received == db.batches[b].received
    ensures Unaccounted(Create(db, call, readback), b) == Unaccounted(db, b)
  {
    BatchEffect(db, call, readback, b);
    ItemsEffect(db, call, readback);
    SoldAfter(db, Create(db, call, readback), call, b);
  }

  lemma EntryKeepsBalance(db: Db, e: Entry, b: Uuid)
    requires Referential(db) && LegalEntry(db, e) && b in After(db, e).batches
    ensures b in db.batches ==>
              After(db, e).batches[b].received == db.batches[b].received && Unaccounted(After(db, e), b) == Unaccounted(db, b)
    ensures b !in db.batches ==> Unaccounted(After(db, e), b) == 0
  {
    if e.Received? {
      if b == e.id { UnsoldBatch(db.items, b); }
    } else if e.outcome.Accepted? {
      SaleKeepsBatches(db, e.call, e.readback);
      SaleKeepsBalance(db, e.call, e.readback, b);
    }
  }

  lemma SaleKeepsBatches(db: Db, call: Call, readback: seq<Line>)
    ensures Create(db, call, readback).batches.Keys == db.batches.Keys
  {}

  lemma {:induction false} HistoryKeepsBalance(db: Db, log: seq<Entry>, b: Uuid)
    requires Sound(db) && Legal(db, log)
    ensures b in db.batches ==> b in Fold(db, log).batches
    ensures b in Fold(db, log).batches ==>
              Unaccounted(Fold(db, log), b) == if b in db.batches then Unaccounted(db, b) else 0
    ensures b in db.batches ==> Fold(db, log).batches[b].received == db.batches[b].received
  {
    if log != [] {
      var front, last := log[..|log| - 1], log[|log| - 1];
      HistoryKeepsBalance(db, front, b);
      HistoryKeepsSound(db, front);
      if last.Decided? { SaleKeepsBatches(Fold(db, front), last.call, last.readback); }
      if b in Fold(db, log).batches { EntryKeepsBalance(Fold(db, front), last, b); }
    }
  }

  /** A batch received in the history conserves its stock at every later time; one that was there before
      conserves it exactly when it did at the start, whatever the other batches did. */
  lemma HistoryConserves(db: Db, log: seq<Entry>, b: Uuid)
    requires Sound(db) && Legal(db, log) && b in Fold(db, log).batches
    ensures b in db.batches ==> (Conserving(Fold(db, log), b) <==> Conserving(db, b))
    ensures b !in db.batches ==> Conserving(Fold(db, log), b)
  {
    HistoryKeepsBalance(db, log, b);
    HistoryKeepsSound(db, log);
    SoldNonNegative(db.items, b);
    SoldNonNegative(Fold(db, log).items, b);
  }

  // ----- one deduction per key -----

  predicate SameKey(a: Request, b: Request) {
    a.tenant == b.tenant && a.key == b.key
  }

  /** Once a sale exists for a key it stays, unchanged. */
  lemma {:induction false} SalesPersist(db: Db, log: seq<Entry>, n: nat, tenant: Uuid, key: string)
    requires Legal(db, log) && n <= |log|
    ensures Legal(db, log[..n])
    ensures FindSale(Fold(db, log[..n]).sales, tenant, key).Some? ==>
              FindSale(Fold(db, log).sales, tenant, key) == FindSale(Fold(db, log[..n]).sales, tenant, key)
  {
    if n < |log| {
      var front, last := log[..|log| - 1], log[|log| - 1];
      SalesPersist(db, front, n, tenant, key);
      assert front[..n] == log[..n];
      if last.Decided? && last.outcome.Accepted? {
        FindSaleAppend(Fold(db, front).sales, SaleOf(last.call), tenant, key);
      }
    } else {
      assert log[..n] == log;
    }
  }

  lemma LegalAt(db: Db, log: seq<Entry>, n: nat)
    requires Legal(db, log) && n < |log|
    ensures Legal(db, log[..n]) && LegalEntry(Fold(db, log[..n]), log[n])
    ensures Fold(db, log[..n + 1]) == After(Fold(db, log[..n]), log[n])
  {
    LegalPrefix(db, log, n + 1);
    assert log[..n + 1][..n] == log[..n];
  }

  lemma {:induction false} LegalPrefix(db: Db, log: seq<Entry>, n: nat)
    requires Legal(db, log) && n <= |log|
    ensures Legal(db, log[..n])
  {
    if n < |log| {
      LegalPrefix(db, log[..|log| - 1], n);
      assert log[..|log| - 1][..n] == log[..n];
    } else {
      assert log[..n] == log;
    }
  }

  lemma FindSalePresent(db: Db, log: seq<Entry>, i: nat)
    requires Legal(db, log) && i < |log| && log[i].Decided? && log[i].outcome.Accepted?
    ensures FindSale(Fold(db, log).sales, log[i].call.request.tenant, log[i].call.request.key) == Some(SaleOf(log[i].call))
  {
    var r := log[i].call.request;
    LegalAt(db, log, i);
    FindSaleAppend(Fold(db, log[..i]).sales, SaleOf(log[i].call), r.tenant, r.key);
    SalesPersist(db, log, i + 1, r.tenant, r.key);
  }

  /** However often a key is retried, with whatever payload and whatever read-back order, at most one
      attempt is accepted; every later attempt replays or conflicts, and changes no table. */
  lemma DeductsOnce(db: Db, log: seq<Entry>, i: nat, j: nat)
    requires Legal(db, log) && i < j < |log|
    requires log[i].Decided? && log[j].Decided? && SameKey(log[i].call.request, log[j].call.request)
    requires log[i].outcome.Accepted?
    ensures log[j].outcome.Replayed? || log[j].outcome.Conflict?
    ensures log[j].outcome.Replayed? ==> log[j].outcome.sale.id == log[i].call.saleId
    ensures log[j].outcome.Replayed? <==>
              log[j].call.request.source == log[i].call.request.source && log[j].readback == log[j].call.request.items
    ensures Fold(db, log[..j + 1]) == Fold(db, log[..j])
  {
    LegalAt(db, log, j);
    FindSalePresent(db, log[..j], i);
  }

  /** The quantity of a batch that the accepted entries of a history asked for. */
  ghost function Deducted(log: seq<Entry>, batch: Uuid): int {
    if log == [] then 0
    else
      var last := log[|log| - 1];
      Deducted(log[..|log| - 1], batch) +
      if last.Decided? && last.outcome.Accepted? then Total(last.call.request.items, batch) else 0
  }

  /** No deduction is lost: a batch's stock is its initial stock minus what the accepted requests asked for. */
  lemma {:induction false} NoDeductionLost(db: Db, log: seq<Entry>, batch: Uuid)
    requires Legal(db, log) && batch in db.batches
    ensures batch in Fold(db, log).batches
    ensures Fold(db, log).batches[batch] ==
            db.batches[batch].(remaining := Fold(db, log).batches[batch].remaining)
    ensures Fold(db, log).batches[batch].remaining == db.batches[batch].remaining - Deducted(log, batch)
  {
    if log != [] {
      var front, last := log[..|log| - 1], log[|log| - 1];
      NoDeductionLost(db, front, batch);
      if last.Decided? && last.outcome.Accepted? {
        BatchEffect(Fold(db, front), last.call, last.readback, batch);
      }
    }
  }

  // ----- the lines of a sale -----

  lemma {:induction false} ItemsOfAppend(items: seq<ItemRow>, more: seq<ItemRow>, sale: Uuid, lines: seq<Line>)
    requires |more| == |lines|
    requires forall i :: 0 <= i < |more| ==> more[i].line == lines[i]
    requires (forall i :: 0 <= i < |more| ==> more[i].sale == sale) || (forall i :: 0 <= i < |more| ==> more[i].sale != sale)
    ensures (forall i :: 0 <= i < |more| ==> more[i].sale == sale) ==>
              ItemsOf(items + more, sale) == ItemsOf(items, sale) + lines
    ensures (forall i :: 0 <= i < |more| ==> more[i].sale != sale) ==>
              ItemsOf(items + more, sale) == ItemsOf(items, sale)
  {
    if more == [] {
      assert items + more == items;
      assert lines == [];
    } else {
      var n := |more| - 1;
      assert (items + more)[..|items + more| - 1] == items + more[..n];
      ItemsOfAppend(items, more[..n], sale, lines[..n]);
      assert lines == lines[..n] + [lines[n]];
    }
  }

  lemma {:induction false} NoItemsOf(items: seq<ItemRow>, sale: Uuid)
    requires forall i :: 0 <= i < |items| ==> items[i].sale != sale
    ensures ItemsOf(items, sale) == []
  {
    if items != [] { NoItemsOf(items[..|items| - 1], sale); }
  }

  /** Sale identifiers are never reused: the attempts of a history use distinct ones, none of them old. */
  predicate FreshIds(db: Db, log: seq<Entry>) {
    && (forall i, j :: 0 <= i < j < |log| && log[i].Decided? && log[j].Decided? ==> log[i].call.saleId != log[j].call.saleId)
    && (forall i, j :: 0 <= i < |log| && 0 <= j < |db.items| && log[i].Decided? ==> log[i].call.saleId != db.items[j].sale)
  }

  lemma {:induction false} ItemSalesKnown(db: Db, log: seq<Entry>, sale: Uuid)
    requires Legal(db, log)
    requires forall j :: 0 <= j < |db.items| ==> db.items[j].sale != sale
    requires forall i :: 0 <= i < |log| && log[i].Decided? ==> log[i].call.saleId != sale
    ensures forall j :: 0 <= j < |Fold(db, log).items| ==> Fold(db, log).items[j].sale != sale
  {
    if log != [] {
      var front, last := log[..|log| - 1], log[|log| - 1];
      ItemSalesKnown(db, front, sale);
      if last.Decided? && last.outcome.Accepted? {
        var more := AppendedItems(Fold(db, front), last.call, last.readback);
      }
    }
  }

  lemma AppendedItems(db: Db, call: Call, readback: seq<Line>) returns (more: seq<ItemRow>)
    requires Positive(call.request.items) && Decide(db, call, readback).Accepted?
    ensures Create(db, call, readback).items == db.items + more
    ensures |more| == |call.request.items|
    ensures forall i :: 0 <= i < |more| ==> more[i] == ItemRow(call.request.tenant, call.saleId, call.request.items[i])
  {
    StockEffect(db, call, readback);
    var db' := Create(db, call, readback);
    more := db'.items[|db.items|..];
    assert db'.items == db.items + more;
    forall i | 0 <= i < |more| ensures more[i] == ItemRow(call.request.tenant, call.saleId, call.request.items[i]) {
      assert more[i] == db'.items[|db.items| + i];
    }
  }

  /** In any history, the rows stored for an accepted attempt are exactly its request's lines, in order, for ever. */
  lemma {:induction false} StoredLines(db: Db, log: seq<Entry>, n: nat)
    requires Legal(db, log) && FreshIds(db, log) && n < |log|
    requires log[n].Decided? && log[n].outcome.Accepted?
    ensures ItemsOf(Fold(db, log).items, log[n].call.saleId) == log[n].call.request.items
  {
    var front, last := log[..|log| - 1], log[|log| - 1];
    var call := log[n].call;
    if n == |log| - 1 {
      ItemSalesKnown(db, front, call.saleId);
      NoItemsOf(Fold(db, front).items, call.saleId);
      var more := AppendedItems(Fold(db, front), call, last.readback);
      ItemsOfAppend(Fold(db, front).items, more, call.saleId, call.request.items);
    } else {
      StoredLines(db, front, n);
      if last.Decided? && last.outcome.Accepted? {
        var more := AppendedItems(Fold(db, front), last.call, last.readback);
        ItemsOfAppend(Fold(db, front).items, more, call.saleId, last.call.request.items);
      }
    }
  }

  // ----- when a retry replays -----

  lemma RetryReadback(db: Db, log: seq<Entry>, i: nat, retry: Call, readback: seq<Line>)
    requires Legal(db, log) && FreshIds(db, log) && i < |log|
    requires log[i].Decided? && log[i].outcome.Accepted? && retry.request == log[i].call.request
    ensures ValidReadback(Fold(db, log), retry.request, readback) <==>
            multiset(readback) == multiset(retry.request.items)
    ensures Decide(Fold(db, log), retry, readback).Replayed? <==> readback == retry.request.items
    ensures Decide(Fold(db, log), retry, readback).Replayed? ==>
              Decide(Fold(db, log), retry, readback).sale.id == log[i].call.saleId
  {
    var r := retry.request;
    LegalAt(db, log, i);
    FindSaleAppend(Fold(db, log[..i]).sales, SaleOf(log[i].call), r.tenant, r.key);
    SalesPersist(db, log, i + 1, r.tenant, r.key);
    StoredLines(db, log, i);
  }

  predicate AllAlike(items: seq<Line>) {
    forall i, j :: 0 <= i < j < |items| ==> items[i] == items[j]
  }

  /** `created_at` defaults to the transaction's time, so the items of one sale tie and may be read back
      in any order. An identical retry of an accepted request is sure to replay, whatever the order,
      exactly when its lines are all alike (in particular, when it has one line). */
  lemma RetryReplaysIff(db: Db, log: seq<Entry>, i: nat, retry: Call)
    requires Legal(db, log) && FreshIds(db, log) && i < |log|
    requires log[i].Decided? && log[i].outcome.Accepted? && retry.request == log[i].call.request
    ensures SureToReplay(Fold(db, log), retry) <==> AllAlike(retry.request.items)
  {
    if AllAlike(retry.request.items) {
      forall readback | ValidReadback(Fold(db, log), retry.request, readback)
        ensures Decide(Fold(db, log), retry, readback).Replayed?
      {
        RetryReadback(db, log, i, retry, readback);
        AlikeHasOneOrder(retry.request.items, readback);
      }
    } else {
      var other := AnotherOrder(retry.request.items);
      RetryReadback(db, log, i, retry, other);
    }
  }

  /** The call is replayed whatever order its sale's items are read back in. */
  ghost predicate SureToReplay(db: Db, call: Call) {
    forall readback :: ValidReadback(db, call.request, readback) ==> Decide(db, call, readback).Replayed?
  }

  lemma SwapKeepsMultiset(items: seq<Line>, m: nat, n: nat)
    requires m < n < |items|
    ensures multiset(items[m := items[n]][n := items[m]]) == multiset(items)
  {}

  lemma AnotherOrder(items: seq<Line>) returns (other: seq<Line>)
    requires !AllAlike(items)
    ensures multiset(other) == multiset(items) && other != items
  {
    var m, n :| 0 <= m < n < |items| && items[m] != items[n];
    other := items[m := items[n]][n := items[m]];
    SwapKeepsMultiset(items, m, n);
    assert other[m] != items[m];
  }

  lemma AlikeHasOneOrder(items: seq<Line>, other: seq<Line>)
    requires AllAlike(items) && multiset(other) == multiset(items)
    ensures other == items
  {
    assert |other| == |multiset(other)| == |multiset(items)| == |items|;
    forall k | 0 <= k < |other| ensures other[k] == items[k] {
      assert other[k] in multiset(items);
      var j :| 0 <= j < |items| && items[j] == other[k];
    }
  }

  /** The failing case in the small: two different lines, read back the other way round, conflict. */
  lemma TwoLinesMayConflict(db: Db, log: seq<Entry>, i: nat, retry: Call)
    requires Legal(db, log) && FreshIds(db, log) && i < |log|
    requires log[i].Decided? && log[i].outcome.Accepted? && retry.request == log[i].call.request
    requires |retry.request.items| == 2 && retry.request.items[0] != retry.request.items[1]
    ensures var readback := [retry.request.items[1], retry.request.items[0]];
            ValidReadback(Fold(db, log), retry.request, readback) &&
            Decide(Fold(db, log), retry, readback) == Conflict
  {
    var items := retry.request.items;
    var readback := [items[1], items[0]];
    assert items == [items[0], items[1]];
    RetryReadback(db, log, i, retry, readback);
    FindSalePresent(db, log, i);
  }
}
