/** The deduction loop of `SalesService.create`: which requests the locked stock
    can cover, and what each line leaves behind. */
module SaleLines {
  import opened Prelude

  /** One requested line; the request schema admits only quantities of at least one. */
  datatype Line = Line(product: Uuid, batch: Uuid, quantity: int)

  /** What the row lock on a batch reads. */
  datatype LockedRow = LockedRow(product: Uuid, remaining: nat, threshold: nat)

  /** One entry of the loop's `lines` list: a line, its row, and the stock it leaves. */
  datatype Planned = Planned(line: Line, row: LockedRow, remaining: nat)

  datatype Refusal = UnknownBatch | ProductMismatch | OutOfStock | UnknownUser

  datatype Planning = Lines(lines: seq<Planned>) | Refused(reason: Refusal)

  predicate Positive(items: seq<Line>) {
    forall i :: 0 <= i < |items| ==> items[i].quantity >= 1
  }

  predicate Known(rows: map<Uuid, LockedRow>, items: seq<Line>) {
    forall i :: 0 <= i < |items| ==> items[i].batch in rows
  }

  /** How much of a batch a list of lines asks for. */
  function Total(items: seq<Line>, batch: Uuid): int {
    if items == [] then 0
    else
      var last := items[|items| - 1];
      Total(items[..|items| - 1], batch) + if last.batch == batch then last.quantity else 0
  }

  /** The outcome of the loop, line by line from the left. */
  function Plan(rows: map<Uuid, LockedRow>, items: seq<Line>): Planning
    requires Known(rows, items)
  {
    if items == [] then Lines([])
    else
      var front := items[..|items| - 1];
      match Plan(rows, front)
      case Refused(reason) => Refused(reason)
      case Lines(lines) =>
        var last := items[|items| - 1];
        var row := rows[last.batch];
        var stock := row.remaining - Total(front, last.batch);
        if row.product != last.product then Refused(ProductMismatch)
        else if stock < last.quantity then Refused(OutOfStock)
        else Lines(lines + [Planned(last, row, stock - last.quantity)])
  }

  /** The loop itself, over the mutable `remaining` dictionary. */
  method Deduct(rows: map<Uuid, LockedRow>, items: seq<Line>) returns (planning: Planning)
    requires Known(rows, items)
    ensures planning == Plan(rows, items)
  {
    var remaining: map<Uuid, int> := map b | b in rows :: rows[b].remaining;
    var lines: seq<Planned> := [];
    for i := 0 to |items|
      invariant remaining.Keys == rows.Keys
      invariant forall b :: b in rows ==> remaining[b] == rows[b].remaining - Total(items[..i], b)
      invariant Plan(rows, items[..i]) == Lines(lines)
    {
      var item := items[i];
      var row := rows[item.batch];
      assert items[..i + 1][..i] == items[..i];
      if row.product != item.product {
        RefusalSticks(rows, items, i + 1);
        return Refused(ProductMismatch);
      }
      if remaining[item.batch] < item.quantity {
        RefusalSticks(rows, items, i + 1);
        return Refused(OutOfStock);
      }
      remaining := remaining[item.batch := remaining[item.batch] - item.quantity];
      lines := lines + [Planned(item, row, remaining[item.batch])];
    }
    assert items[..|items|] == items;
    return Lines(lines);
  }

  lemma {:induction false} RefusalSticks(rows: map<Uuid, LockedRow>, items: seq<Line>, n: nat)
    requires Known(rows, items) && n <= |items|
    requires Plan(rows, items[..n]).Refused?
    ensures Plan(rows, items) == Plan(rows, items[..n])
  {
    if n < |items| {
      assert items[..|items| - 1][..n] == items[..n];
      RefusalSticks(rows, items[..|items| - 1], n);
    } else {
      assert items[..n] == items;
    }
  }

  // ----- which requests are accepted -----

  predicate Matches(rows: map<Uuid, LockedRow>, items: seq<Line>)
    requires Known(rows, items)
  {
    forall i :: 0 <= i < |items| ==> rows[items[i].batch].product == items[i].product
  }

  predicate Covers(rows: map<Uuid, LockedRow>, items: seq<Line>) {
    forall b :: b in rows ==> Total(items, b) <= rows[b].remaining
  }

  /** A request is accepted exactly when every line names its batch's product and
      each batch's stock covers everything the request asks of it. */
  lemma {:induction false} AcceptedIff(rows: map<Uuid, LockedRow>, items: seq<Line>)
    requires Known(rows, items) && Positive(items)
    ensures Plan(rows, items).Lines? <==> Matches(rows, items) && Covers(rows, items)
  {
    if items != [] {
      var front, last := items[..|items| - 1], items[|items| - 1];
      AcceptedIff(rows, front);
      assert Matches(rows, items) <==>
             Matches(rows, front) && rows[last.batch].product == last.product by {
        assert forall i :: 0 <= i < |front| ==> items[i] == front[i];
        assert Matches(rows, items) ==> rows[items[|front|].batch].product == items[|front|].product;
      }
      assert Covers(rows, items) ==> Covers(rows, front) by {
        forall b | b in rows ensures Total(front, b) <= Total(items, b) {}
      }
      assert Covers(rows, items) <==> Covers(rows, front) && Total(items, last.batch) <= rows[last.batch].remaining by {
        forall b | b in rows && b != last.batch ensures Total(front, b) == Total(items, b) {}
      }
    }
  }

  /** A refusal names the first line that cannot be served, and mismatched products
      are noticed before missing stock. */
  lemma {:induction false} RefusedAtFirstBadLine(rows: map<Uuid, LockedRow>, items: seq<Line>) returns (n: nat)
    requires Known(rows, items)
    requires Plan(rows, items).Refused?
    ensures n < |items| && Plan(rows, items[..n]).Lines?
    ensures Plan(rows, items).reason ==
            (if rows[items[n].batch].product != items[n].product then ProductMismatch else OutOfStock)
    ensures Plan(rows, items).reason.OutOfStock? ==>
              rows[items[n].batch].remaining < Total(items[..n + 1], items[n].batch)
  {
    var front := items[..|items| - 1];
    if Plan(rows, front).Refused? {
      n := RefusedAtFirstBadLine(rows, front);
      assert front[..n] == items[..n] && front[..n + 1] == items[..n + 1];
    } else {
      n := |front|;
      assert items[..n + 1] == items;
    }
  }

  // ----- what an accepted request leaves -----

  /** The lines are planned in request order, each one leaving the stock its batch
      had minus everything asked of it so far. */
  lemma {:induction false} PlannedAt(rows: map<Uuid, LockedRow>, items: seq<Line>, i: nat)
    requires Known(rows, items) && Plan(rows, items).Lines? && i < |items|
    ensures |Plan(rows, items).lines| == |items|
    ensures var p := Plan(rows, items).lines[i];
            p.line == items[i] && p.row == rows[items[i].batch] &&
            p.remaining == rows[items[i].batch].remaining - Total(items[..i + 1], items[i].batch)
  {
    var front := items[..|items| - 1];
    if i < |front| {
      PlannedAt(rows, front, i);
      assert front[..i + 1] == items[..i + 1];
    } else {
      if front != [] {
        PlannedAt(rows, front, 0);
      }
      assert items[..i + 1] == items;
    }
  }

  /** The stock the last line of a batch leaves, if the plan touches the batch. */
  function LastLeft(lines: seq<Planned>, batch: Uuid): Option<nat> {
    if lines == [] then None
    else
      var last := lines[|lines| - 1];
      if last.line.batch == batch then Some(last.remaining) else LastLeft(lines[..|lines| - 1], batch)
  }

  /** The last write to a batch is its stock minus its total; other batches are not written. */
  lemma {:induction false} LastLeftIsStockMinusTotal(rows: map<Uuid, LockedRow>, items: seq<Line>, batch: Uuid)
    requires Known(rows, items) && Positive(items) && Plan(rows, items).Lines?
    ensures LastLeft(Plan(rows, items).lines, batch) ==
            if Total(items, batch) == 0 then None
            else if batch in rows && Total(items, batch) <= rows[batch].remaining
            then Some(rows[batch].remaining - Total(items, batch)) else None
    ensures Total(items, batch) >= 0
    ensures Total(items, batch) != 0 ==> batch in rows && Total(items, batch) <= rows[batch].remaining
  {
    if items != [] {
      var front := items[..|items| - 1];
      var lines := Plan(rows, items).lines;
      LastLeftIsStockMinusTotal(rows, front, batch);
      assert lines[..|lines| - 1] == Plan(rows, front).lines;
    }
  }

  // ----- independence of line order -----

  lemma {:induction false} TotalRemove(items: seq<Line>, k: nat, batch: Uuid)
    requires k < |items|
    ensures Total(items, batch) ==
            Total(items[..k] + items[k + 1..], batch) + if items[k].batch == batch then items[k].quantity else 0
  {
    var n := |items| - 1;
    if k == n {
      assert items[..k] + items[k + 1..] == items[..n];
    } else {
      var rest := items[..k] + items[k + 1..];
      assert rest[..|rest| - 1] == items[..n][..k] + items[..n][k + 1..];
      TotalRemove(items[..n], k, batch);
    }
  }

  lemma MultisetRemove<T>(s: seq<T>, k: nat)
    requires k < |s|
    ensures multiset(s[..k] + s[k + 1..]) == multiset(s) - multiset{s[k]}
  {
    assert s == s[..k] + [s[k]] + s[k + 1..];
  }

  lemma {:induction false} TotalOfPermutation(a: seq<Line>, b: seq<Line>, batch: Uuid)
    requires multiset(a) == multiset(b)
    ensures Total(a, batch) == Total(b, batch)
  {
    assert |a| == |multiset(a)| == |multiset(b)| == |b|;
    if a != [] {
      var n := |a| - 1;
      assert a[n] in multiset(b);
      var k :| 0 <= k < |b| && b[k] == a[n];
      var rest := b[..k] + b[k + 1..];
      MultisetRemove(a, n);
      MultisetRemove(b, k);
      assert a[..n] + a[n + 1..] == a[..n];
      TotalRemove(b, k, batch);
      TotalOfPermutation(a[..n], rest, batch);
    }
  }

  /** Reordering a request's lines changes neither its acceptance nor the stock it leaves. */
  lemma OrderDoesNotMatter(rows: map<Uuid, LockedRow>, a: seq<Line>, b: seq<Line>)
    requires Known(rows, a) && Positive(a) && Known(rows, b) && Positive(b)
    requires multiset(a) == multiset(b)
    ensures Plan(rows, a).Lines? <==> Plan(rows, b).Lines?
    ensures Plan(rows, a).Lines? ==>
              forall x :: LastLeft(Plan(rows, a).lines, x) == LastLeft(Plan(rows, b).lines, x)
  {
    AcceptedIff(rows, a);
    AcceptedIff(rows, b);
    forall x ensures Total(a, x) == Total(b, x) { TotalOfPermutation(a, b, x); }
    assert forall l :: l in a <==> l in b by {
      forall l ensures l in a <==> l in b { assert l in multiset(a) <==> l in multiset(b); }
    }
    assert Matches(rows, a) <==> Matches(rows, b) by {
      assert Matches(rows, a) <==> forall l :: l in a ==> rows[l.batch].product == l.product;
      assert Matches(rows, b) <==> forall l :: l in b ==> rows[l.batch].product == l.product;
    }
    if Plan(rows, a).Lines? {
      forall x ensures LastLeft(Plan(rows, a).lines, x) == LastLeft(Plan(rows, b).lines, x) {
        LastLeftIsStockMinusTotal(rows, a, x);
        LastLeftIsStockMinusTotal(rows, b, x);
      }
    }
  }
}
