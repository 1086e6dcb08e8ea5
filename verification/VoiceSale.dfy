/** The client's checks and merge of voice sale lines, and why the server then accepts them. */
module VoiceSale {
  import opened Prelude
  import opened SaleLines
  import opened SaleTables
  import opened SaleHistory

  datatype DraftItem = DraftItem(matched: Option<Uuid>, quantity: real)

  /** A line being edited. An empty identifier counts as none, as it does in the source. */
  datatype DraftLine = DraftLine(product: Option<Uuid>, batch: Option<Uuid>, quantity: real)

  datatype DraftBatch = DraftBatch(id: Uuid, product: Uuid, intake: Time, remaining: nat)

  datatype Payload = Payload(product: Uuid, batch: Uuid, quantity: real)

  datatype Problem =
    | NoItems
    | ChooseProduct(line: nat)
    | ChooseBatch(line: nat)
    | EnterQuantity(line: nat)
    | OnlyLeft(line: nat, left: nat)

  /** `Number.isInteger`. */
  predicate Whole(q: real) { q == q.Floor as real }

  function LinesFromDraft(items: seq<DraftItem>): seq<DraftLine> {
    seq(|items|, i requires 0 <= i < |items| =>
      DraftLine(items[i].matched, None, if items[i].quantity.Floor < 1 then 1.0 else items[i].quantity.Floor as real))
  }

  // ----- validateLines -----

  function Requested(lines: seq<DraftLine>, batch: Uuid): real {
    if lines == [] then 0.0
    else
      var last := lines[|lines| - 1];
      Requested(lines[..|lines| - 1], batch) + if last.batch == Some(batch) then last.quantity else 0.0
  }

  /** A line that names its product, a known batch of that product and a whole quantity of at least one. */
  predicate Resolved(line: DraftLine, batches: map<Uuid, DraftBatch>) {
    && line.product.Some? && line.batch.Some?
    && Whole(line.quantity) && line.quantity >= 1.0
    && line.batch.value in batches && batches[line.batch.value].product == line.product.value
  }

  predicate Within(lines: seq<DraftLine>, batches: map<Uuid, DraftBatch>) {
    forall b :: b in batches ==> Requested(lines, b) <= batches[b].remaining as real
  }

  predicate Submittable(lines: seq<DraftLine>, batches: map<Uuid, DraftBatch>) {
    && (forall i :: 0 <= i < |lines| ==> Resolved(lines[i], batches))
    && Within(lines, batches)
  }

  /** What is wrong with line `n`, given that the lines before it are in order. */
  function Fault(lines: seq<DraftLine>, n: nat, batches: map<Uuid, DraftBatch>): Option<Problem>
    requires n < |lines|
  {
    var line := lines[n];
    if line.product.None? then Some(ChooseProduct(n))
    else if line.batch.None? then Some(ChooseBatch(n))
    else if !Whole(line.quantity) || line.quantity < 1.0 then Some(EnterQuantity(n))
    else if line.batch.value !in batches || batches[line.batch.value].product != line.product.value then Some(ChooseBatch(n))
    else if Requested(lines[..n + 1], line.batch.value) > batches[line.batch.value].remaining as real
    then Some(OnlyLeft(n, batches[line.batch.value].remaining))
    else None
  }

  /** The draft can be submitted exactly when it is non-empty, every line is resolved and no batch is
      asked for more than it has; otherwise the first faulty line is reported. */
  method ValidateLines(lines: seq<DraftLine>, batches: map<Uuid, DraftBatch>) returns (problem: Option<Problem>)
    ensures problem.None? <==> lines != [] && Submittable(lines, batches)
    ensures lines == [] ==> problem == Some(NoItems)
    ensures lines != [] && problem.Some? ==>
              exists n :: 0 <= n < |lines| && Submittable(lines[..n], batches) && problem == Fault(lines, n, batches)
  {
    if |lines| == 0 { return Some(NoItems); }
    var requested: map<Uuid, real> := map[];
    for i := 0 to |lines|
      invariant Submittable(lines[..i], batches)
      invariant forall b :: (if b in requested then requested[b] else 0.0) == Requested(lines[..i], b)
    {
      var line := lines[i];
      assert lines[..i + 1][..i] == lines[..i];
      if line.product.None? { FaultBlocks(lines, i, batches); return Some(ChooseProduct(i)); }
      if line.batch.None? { FaultBlocks(lines, i, batches); return Some(ChooseBatch(i)); }
      if !Whole(line.quantity) || line.quantity < 1.0 { FaultBlocks(lines, i, batches); return Some(EnterQuantity(i)); }
      var b := line.batch.value;
      if b !in batches || batches[b].product != line.product.value {
        FaultBlocks(lines, i, batches);
        return Some(ChooseBatch(i));
      }
      requested := requested[b := (if b in requested then requested[b] else 0.0) + line.quantity];
      if requested[b] > batches[b].remaining as real {
        FaultBlocks(lines, i, batches);
        return Some(OnlyLeft(i, batches[b].remaining));
      }
    }
    assert lines[..|lines|] == lines;
    return None;
  }

  /** A faulty line makes the whole draft unsubmittable. */
  lemma FaultBlocks(lines: seq<DraftLine>, n: nat, batches: map<Uuid, DraftBatch>)
    requires n < |lines| && Fault(lines, n, batches).Some?
    ensures !Submittable(lines, batches)
  {
    if forall i :: 0 <= i < |lines| ==> Resolved(lines[i], batches) {
      RequestedGrows(lines, n + 1, lines[n].batch.value);
    }
  }

  /** What each problem says of its line, when the lines before it are in order: it is the first thing missing,
      in the order product, batch, quantity, match, stock; and no problem means none is. */
  lemma FaultNamesWhatIsMissing(lines: seq<DraftLine>, n: nat, batches: map<Uuid, DraftBatch>)
    requires n < |lines| && Submittable(lines[..n], batches)
    ensures Fault(lines, n, batches).None? <==> Submittable(lines[..n + 1], batches)
    ensures var line, fault := lines[n], Fault(lines, n, batches);
            && (fault == Some(ChooseProduct(n)) <==> line.product.None?)
            && (fault == Some(EnterQuantity(n)) <==>
                  line.product.Some? && line.batch.Some? && !(Whole(line.quantity) && line.quantity >= 1.0))
            && (fault == Some(ChooseBatch(n)) <==>
                  line.product.Some? &&
                  (line.batch.None? ||
                   (Whole(line.quantity) && line.quantity >= 1.0 && !Resolved(line, batches))))
            && (fault.Some? && fault.value.OnlyLeft? ==>
                  Resolved(line, batches) && fault.value.left == batches[line.batch.value].remaining &&
                  Requested(lines[..n + 1], line.batch.value) > fault.value.left as real)
  {
    assert lines[..n + 1][..n] == lines[..n] && lines[..n + 1] == lines[..n] + [lines[n]];
    assert Submittable(lines[..n + 1], batches) ==> Resolved(lines[..n + 1][n], batches);
    if Fault(lines, n, batches).None? {
      forall b | b in batches && Some(b) != lines[n].batch ensures Requested(lines[..n + 1], b) == Requested(lines[..n], b) {}
    }
  }

  lemma {:induction false} RequestedGrows(lines: seq<DraftLine>, n: nat, batch: Uuid)
    requires n <= |lines| && forall i :: 0 <= i < |lines| ==> lines[i].quantity >= 1.0
    ensures Requested(lines[..n], batch) <= Requested(lines, batch)
  {
    if n < |lines| {
      RequestedGrows(lines[..|lines| - 1], n, batch);
      assert lines[..|lines| - 1][..n] == lines[..n];
    } else {
      assert lines[..n] == lines;
    }
  }

  /** The largest whole quantity that was spoken, but at least one. */
  predicate Rounded(spoken: real, quantity: real) {
    && Whole(quantity) && quantity >= 1.0
    && (if spoken < 1.0 then quantity == 1.0 else quantity <= spoken < quantity + 1.0)
  }

  /** A draft straight from the parser is never submittable: the vendor must choose the batches. */
  lemma DraftNeedsConfirmation(items: seq<DraftItem>, batches: map<Uuid, DraftBatch>)
    ensures LinesFromDraft(items) == [] || !Submittable(LinesFromDraft(items), batches)
    ensures |LinesFromDraft(items)| == |items|
    ensures forall i :: 0 <= i < |items| ==>
              LinesFromDraft(items)[i].product == items[i].matched && Rounded(items[i].quantity, LinesFromDraft(items)[i].quantity)
  {
    var lines := LinesFromDraft(items);
    if lines != [] { assert !Resolved(lines[0], batches); }
  }

  // ----- buildSaleItems -----

  function IndexOf(items: seq<Payload>, batch: Uuid): Option<nat> {
    if items == [] then None
    else if items[|items| - 1].batch == batch then Some(|items| - 1)
    else IndexOf(items[..|items| - 1], batch)
  }

  lemma {:induction false} IndexOfMeans(items: seq<Payload>, batch: Uuid)
    ensures IndexOf(items, batch).Some? ==>
              IndexOf(items, batch).value < |items| && items[IndexOf(items, batch).value].batch == batch
    ensures IndexOf(items, batch).None? ==> forall i :: 0 <= i < |items| ==> items[i].batch != batch
  {
    if items != [] { IndexOfMeans(items[..|items| - 1], batch); }
  }

  predicate DistinctBatches(items: seq<Payload>) {
    forall i, j :: 0 <= i < j < |items| ==> items[i].batch != items[j].batch
  }

  /** What the server reads of a payload. */
  function ToLine(p: Payload): Line { Line(p.product, p.batch, p.quantity.Floor) }

  function ToLines(items: seq<Payload>): seq<Line> {
    seq(|items|, i requires 0 <= i < |items| => ToLine(items[i]))
  }

  function Chosen(line: DraftLine): bool { line.product.Some? && line.batch.Some? }

  /** The sum that the merged items ask of a batch. */
  function Asked(items: seq<Payload>, batch: Uuid): real {
    if items == [] then 0.0
    else
      var last := items[|items| - 1];
      Asked(items[..|items| - 1], batch) + if last.batch == batch then last.quantity else 0.0
  }

  /** Only lines with a product and a batch are merged. */
  function ChosenOnly(lines: seq<DraftLine>): seq<DraftLine> {
    if lines == [] then []
    else
      var front := ChosenOnly(lines[..|lines| - 1]);
      if Chosen(lines[|lines| - 1]) then front + [lines[|lines| - 1]] else front
  }

  /** One item per chosen batch, in order of first use, asking for the sum of its lines. */
  function Merge(lines: seq<DraftLine>): seq<Payload> {
    if lines == [] then []
    else
      var items, line := Merge(lines[..|lines| - 1]), lines[|lines| - 1];
      if !Chosen(line) then items
      else
        match IndexOf(items, line.batch.value)
        case Some(i) =>
          IndexOfMeans(items, line.batch.value);
          AddTo(items, i, line.quantity)
        case None => items + [Payload(line.product.value, line.batch.value, line.quantity)]
  }

  /** The source's loop over an insertion-ordered map, here a list and the slot of each batch in it. */
  method BuildSaleItems(lines: seq<DraftLine>) returns (items: seq<Payload>)
    ensures items == Merge(lines)
    ensures MergedFrom(items, lines)
  {
    items := [];
    var slot: map<Uuid, nat> := map[];
    for k := 0 to |lines|
      invariant items == Merge(lines[..k])
      invariant forall b :: IndexOf(items, b) == if b in slot then Some(slot[b]) else None
    {
      var line := lines[k];
      assert lines[..k + 1][..k] == lines[..k];
      if Chosen(line) {
        var b := line.batch.value;
        IndexOfMeans(items, b);
        if b in slot {
          KeepIndex(items, slot[b], line.quantity);
          items := AddTo(items, slot[b], line.quantity);
        } else {
          AppendIndex(items, Payload(line.product.value, b, line.quantity));
          slot := slot[b := |items|];
          items := items + [Payload(line.product.value, b, line.quantity)];
        }
      }
    }
    assert lines[..|lines|] == lines;
    MergeMeans(lines);
  }

  lemma KeepIndex(items: seq<Payload>, i: nat, q: real)
    requires i < |items|
    ensures forall b :: IndexOf(AddTo(items, i, q), b) == IndexOf(items, b)
  {
    forall b ensures IndexOf(AddTo(items, i, q), b) == IndexOf(items, b) { SameIndex(items, AddTo(items, i, q), b); }
  }

  ghost predicate FromLine(lines: seq<DraftLine>, p: Payload) {
    exists n :: 0 <= n < |lines| && lines[n].batch == Some(p.batch) && lines[n].product == Some(p.product)
  }

  /** What merging keeps of the lines. */
  ghost predicate MergedFrom(items: seq<Payload>, lines: seq<DraftLine>) {
    && DistinctBatches(items)
    && (forall b :: Asked(items, b) == Requested(ChosenOnly(lines), b))
    && (forall i :: 0 <= i < |items| ==> FromLine(lines, items[i]))
    && (forall n :: 0 <= n < |lines| && Chosen(lines[n]) ==> IndexOf(items, lines[n].batch.value).Some?)
  }

  lemma FromLonger(front: seq<DraftLine>, line: DraftLine, p: Payload)
    requires FromLine(front, p)
    ensures FromLine(front + [line], p)
  {
    var n :| 0 <= n < |front| && front[n].batch == Some(p.batch) && front[n].product == Some(p.product);
    assert (front + [line])[n] == front[n];
  }

  lemma RequestedAppend(front: seq<DraftLine>, line: DraftLine, b: Uuid)
    ensures Requested(ChosenOnly(front + [line]), b) ==
            Requested(ChosenOnly(front), b) + if Chosen(line) && line.batch == Some(b) then line.quantity else 0.0
  {
    assert (front + [line])[..|front|] == front;
    var chosen := ChosenOnly(front);
    assert (chosen + [line])[..|chosen|] == chosen;
  }

  function AddTo(items: seq<Payload>, i: nat, q: real): seq<Payload>
    requires i < |items|
  {
    items[i := items[i].(quantity := items[i].quantity + q)]
  }

  lemma MergeInto(front: seq<DraftLine>, line: DraftLine, items: seq<Payload>, i: nat)
    requires Chosen(line) && MergedFrom(items, front) && IndexOf(items, line.batch.value) == Some(i)
    requires i < |items| && items[i].batch == line.batch.value
    ensures MergedFrom(AddTo(items, i, line.quantity), front + [line])
  {
    var items' := AddTo(items, i, line.quantity);
    assert forall k :: 0 <= k < |items| ==> items'[k].batch == items[k].batch && items'[k].product == items[k].product;
    forall b ensures Asked(items', b) == Requested(ChosenOnly(front + [line]), b) {
      RequestedAppend(front, line, b);
      AddAsks(items, i, line.quantity, b);
    }
    forall k | 0 <= k < |items'| ensures FromLine(front + [line], items'[k]) { FromLonger(front, line, items[k]); }
    forall b ensures IndexOf(items', b) == IndexOf(items, b) { SameIndex(items, items', b); }
  }

  lemma MergeNew(front: seq<DraftLine>, line: DraftLine, items: seq<Payload>)
    requires Chosen(line) && MergedFrom(items, front) && IndexOf(items, line.batch.value).None?
    ensures MergedFrom(items + [Payload(line.product.value, line.batch.value, line.quantity)], front + [line])
  {
    var p := Payload(line.product.value, line.batch.value, line.quantity);
    IndexOfMeans(items, p.batch);
    AppendIndex(items, p);
    forall b ensures Asked(items + [p], b) == Requested(ChosenOnly(front + [line]), b) { RequestedAppend(front, line, b); }
    assert (front + [line])[|front|] == line;
    forall k | 0 <= k < |items| ensures FromLine(front + [line], items[k]) { FromLonger(front, line, items[k]); }
  }

  lemma MergeNone(front: seq<DraftLine>, line: DraftLine, items: seq<Payload>)
    requires !Chosen(line) && MergedFrom(items, front)
    ensures MergedFrom(items, front + [line])
  {
    forall b ensures Asked(items, b) == Requested(ChosenOnly(front + [line]), b) { RequestedAppend(front, line, b); }
    forall k | 0 <= k < |items| ensures FromLine(front + [line], items[k]) { FromLonger(front, line, items[k]); }
  }

  lemma {:induction false} MergeMeans(lines: seq<DraftLine>)
    ensures MergedFrom(Merge(lines), lines)
  {
    if lines != [] {
      var front, line := lines[..|lines| - 1], lines[|lines| - 1];
      var items := Merge(front);
      MergeMeans(front);
      assert lines == front + [line];
      if !Chosen(line) { MergeNone(front, line, items); }
      else if IndexOf(items, line.batch.value).Some? {
        IndexOfMeans(items, line.batch.value);
        MergeInto(front, line, items, IndexOf(items, line.batch.value).value);
      } else { MergeNew(front, line, items); }
    }
  }

  lemma {:induction false} AddAsks(items: seq<Payload>, i: nat, q: real, b: Uuid)
    requires i < |items|
    ensures Asked(AddTo(items, i, q), b) == Asked(items, b) + if b == items[i].batch then q else 0.0
  {
    var n := |items| - 1;
    if i < n {
      assert AddTo(items, i, q)[..n] == AddTo(items[..n], i, q);
      AddAsks(items[..n], i, q, b);
    } else {
      assert AddTo(items, i, q)[..n] == items[..n];
    }
  }

  lemma {:induction false} SameIndex(items: seq<Payload>, items': seq<Payload>, b: Uuid)
    requires |items| == |items'| && forall i :: 0 <= i < |items| ==> items[i].batch == items'[i].batch
    ensures IndexOf(items', b) == IndexOf(items, b)
  {
    if items != [] { SameIndex(items[..|items| - 1], items'[..|items| - 1], b); }
  }

  lemma AppendIndex(items: seq<Payload>, p: Payload)
    requires IndexOf(items, p.batch).None?
    ensures forall b :: IndexOf(items + [p], b) == if b == p.batch then Some(|items|) else IndexOf(items, b)
    ensures forall b :: Asked(items + [p], b) == Asked(items, b) + if b == p.batch then p.quantity else 0.0
  {
    assert (items + [p])[..|items|] == items;
  }

  // ----- client checks imply server acceptance -----

  lemma {:induction false} AllChosen(lines: seq<DraftLine>, batches: map<Uuid, DraftBatch>)
    requires forall i :: 0 <= i < |lines| ==> Resolved(lines[i], batches)
    ensures ChosenOnly(lines) == lines
  {
    if lines != [] {
      AllChosen(lines[..|lines| - 1], batches);
      assert lines == lines[..|lines| - 1] + [lines[|lines| - 1]];
    }
  }

  /** The unmerged lines as the server would read them. */
  function PlainLines(lines: seq<DraftLine>): seq<Line> {
    seq(|lines|, i requires 0 <= i < |lines| =>
      Line(Coalesce(lines[i].product, 0), Coalesce(lines[i].batch, 0), lines[i].quantity.Floor))
  }

  lemma {:induction false} PlainTotal(lines: seq<DraftLine>, batches: map<Uuid, DraftBatch>, b: Uuid)
    requires forall i :: 0 <= i < |lines| ==> Resolved(lines[i], batches)
    ensures Total(PlainLines(lines), b) as real == Requested(lines, b)
  {
    if lines != [] {
      var front := lines[..|lines| - 1];
      assert PlainLines(lines)[..|lines| - 1] == PlainLines(front);
      PlainTotal(front, batches, b);
    }
  }

  lemma {:induction false} MergedTotal(items: seq<Payload>, b: Uuid)
    requires forall i :: 0 <= i < |items| ==> Whole(items[i].quantity)
    ensures Total(ToLines(items), b) as real == Asked(items, b)
  {
    if items != [] {
      var front := items[..|items| - 1];
      assert ToLines(items)[..|items| - 1] == ToLines(front);
      MergedTotal(front, b);
    }
  }

  lemma {:induction false} AskedOfDistinct(items: seq<Payload>, b: Uuid)
    requires DistinctBatches(items)
    ensures forall i :: 0 <= i < |items| && items[i].batch == b ==> Asked(items, b) == items[i].quantity
    ensures (forall i :: 0 <= i < |items| ==> items[i].batch != b) ==> Asked(items, b) == 0.0
  {
    if items != [] { AskedOfDistinct(items[..|items| - 1], b); }
  }

  lemma {:induction false} WholeSum(lines: seq<DraftLine>, batches: map<Uuid, DraftBatch>, b: Uuid)
    requires forall i :: 0 <= i < |lines| ==> Resolved(lines[i], batches)
    ensures Whole(Requested(lines, b)) && Requested(lines, b) >= 0.0
    ensures (exists i :: 0 <= i < |lines| && lines[i].batch == Some(b)) ==> Requested(lines, b) >= 1.0
  {
    PlainTotal(lines, batches, b);
    var plain := PlainLines(lines);
    TotalOfPrefix(plain, 0, b);
    if exists i :: 0 <= i < |lines| && lines[i].batch == Some(b) {
      var i :| 0 <= i < |lines| && lines[i].batch == Some(b);
      assert plain[i].batch == b && b in BatchIds(plain);
    }
  }

  lemma MergedItem(lines: seq<DraftLine>, batches: map<Uuid, DraftBatch>, items: seq<Payload>, i: nat)
    requires Submittable(lines, batches) && MergedFrom(items, lines) && i < |items|
    ensures items[i].batch in batches && batches[items[i].batch].product == items[i].product
    ensures Whole(items[i].quantity) && items[i].quantity >= 1.0
  {
    AllChosen(lines, batches);
    assert FromLine(lines, items[i]);
    var n :| 0 <= n < |lines| && lines[n].batch == Some(items[i].batch) && lines[n].product == Some(items[i].product);
    assert Resolved(lines[n], batches);
    AskedOfDistinct(items, items[i].batch);
    WholeSum(lines, batches, items[i].batch);
  }

  /** The merged items are non-empty, of distinct batches, positive, of the batches' products, and ask of
      every batch exactly what the lines asked. */
  lemma MergedItems(lines: seq<DraftLine>, batches: map<Uuid, DraftBatch>, items: seq<Payload>)
    requires lines != [] && Submittable(lines, batches) && MergedFrom(items, lines)
    ensures items != [] && DistinctBatches(items) && Positive(ToLines(items))
    ensures forall i :: 0 <= i < |items| ==> items[i].batch in batches && batches[items[i].batch].product == items[i].product
    ensures forall b :: Total(ToLines(items), b) == Total(PlainLines(lines), b)
    ensures forall b :: b in batches ==> Total(ToLines(items), b) <= batches[b].remaining
  {
    AllChosen(lines, batches);
    assert Resolved(lines[0], batches);
    assert IndexOf(items, lines[0].batch.value).Some?;
    forall i | 0 <= i < |items|
      ensures items[i].batch in batches && batches[items[i].batch].product == items[i].product
      ensures Whole(items[i].quantity) && items[i].quantity >= 1.0
    {
      MergedItem(lines, batches, items, i);
    }
    forall b ensures Total(ToLines(items), b) == Total(PlainLines(lines), b) {
      MergedTotal(items, b);
      PlainTotal(lines, batches, b);
    }
    forall b | b in batches ensures Total(ToLines(items), b) <= batches[b].remaining {
      PlainTotal(lines, batches, b);
    }
  }

  /** Server rows that are no worse than what the client saw. */
  predicate NoWorse(rows: map<Uuid, LockedRow>, batches: map<Uuid, DraftBatch>) {
    forall b :: b in batches && b in rows ==>
      rows[b].product == batches[b].product && rows[b].remaining >= batches[b].remaining
  }

  lemma PlainLinesFit(lines: seq<DraftLine>, batches: map<Uuid, DraftBatch>)
    requires Submittable(lines, batches)
    ensures Positive(PlainLines(lines))
    ensures forall i :: 0 <= i < |lines| ==>
              PlainLines(lines)[i].batch in batches && batches[PlainLines(lines)[i].batch].product == PlainLines(lines)[i].product
    ensures forall b :: b in batches ==> Total(PlainLines(lines), b) <= batches[b].remaining
  {
    assert forall i :: 0 <= i < |lines| ==> Resolved(lines[i], batches);
    forall b | b in batches ensures Total(PlainLines(lines), b) <= batches[b].remaining {
      PlainTotal(lines, batches, b);
    }
  }

  lemma SameTotalsLeaveTheSame(rows: map<Uuid, LockedRow>, a: seq<Line>, b: seq<Line>)
    requires Known(rows, a) && Positive(a) && Plan(rows, a).Lines?
    requires Known(rows, b) && Positive(b) && Plan(rows, b).Lines?
    requires forall x :: Total(a, x) == Total(b, x)
    ensures forall x :: LastLeft(Plan(rows, a).lines, x) == LastLeft(Plan(rows, b).lines, x)
  {
    forall x ensures LastLeft(Plan(rows, a).lines, x) == LastLeft(Plan(rows, b).lines, x) {
      LastLeftIsStockMinusTotal(rows, a, x);
      LastLeftIsStockMinusTotal(rows, b, x);
    }
  }

  /** The server's line loop accepts the merged items on any stock at least as large as the client saw,
      and leaves every batch as processing the unmerged lines one by one would. */
  lemma ServerAcceptsMerged(lines: seq<DraftLine>, batches: map<Uuid, DraftBatch>, rows: map<Uuid, LockedRow>)
    requires lines != [] && Submittable(lines, batches)
    requires Known(rows, ToLines(Merge(lines))) && Known(rows, PlainLines(lines)) && NoWorse(rows, batches)
    ensures Plan(rows, ToLines(Merge(lines))).Lines? && Plan(rows, PlainLines(lines)).Lines?
    ensures forall b :: LastLeft(Plan(rows, ToLines(Merge(lines))).lines, b) == LastLeft(Plan(rows, PlainLines(lines)).lines, b)
  {
    var merged, plain := ToLines(Merge(lines)), PlainLines(lines);
    MergeMeans(lines);
    MergedItems(lines, batches, Merge(lines));
    PlainLinesFit(lines, batches);
    CoveredBySeen(merged, batches, rows);
    CoveredBySeen(plain, batches, rows);
    AcceptedIff(rows, merged);
    AcceptedIff(rows, plain);
    SameTotalsLeaveTheSame(rows, merged, plain);
  }

  lemma CoveredBySeen(items: seq<Line>, batches: map<Uuid, DraftBatch>, rows: map<Uuid, LockedRow>)
    requires Positive(items) && Known(rows, items) && NoWorse(rows, batches)
    requires forall i :: 0 <= i < |items| ==> items[i].batch in batches && batches[items[i].batch].product == items[i].product
    requires forall b :: b in batches ==> Total(items, b) <= batches[b].remaining
    ensures Matches(rows, items) && Covers(rows, items)
  {
    forall b | b in rows ensures Total(items, b) <= rows[b].remaining {
      TotalOfPrefix(items, 0, b);
      if b !in batches {
        assert b !in BatchIds(items);
      }
    }
  }

  /** The server still offers what the client saw of every batch. */
  ghost predicate StillThere(db: Db, tenant: Uuid, batches: map<Uuid, DraftBatch>) {
    forall b :: b in batches ==>
      RowOf(db, tenant, b).Some? && RowOf(db, tenant, b).value.product == batches[b].product &&
      RowOf(db, tenant, b).value.remaining >= batches[b].remaining
  }

  lemma RowsStillThere(db: Db, request: Request, batches: map<Uuid, DraftBatch>) returns (rows: map<Uuid, LockedRow>)
    requires StillThere(db, request.tenant, batches)
    requires forall i :: 0 <= i < |request.items| ==> request.items[i].batch in batches
    ensures RowsFor(db, request.tenant, LockOrder(request)) == Some(rows)
    ensures Known(rows, request.items) && NoWorse(rows, batches)
  {
    forall b | b in LockOrder(request) ensures RowOf(db, request.tenant, b).Some? {
      var i :| 0 <= i < |request.items| && request.items[i].batch == b;
    }
    RowsForMeans(db, request.tenant, LockOrder(request));
    rows := RowsFor(db, request.tenant, LockOrder(request)).value;
    forall i | 0 <= i < |request.items| ensures request.items[i].batch in rows {
      assert request.items[i].batch in BatchIds(request.items);
    }
  }

  /** End to end: a draft that the client validated is accepted by the service, whenever the batches it
      saw are still there with no less stock, the user is provisioned and the key is unused. */
  lemma ValidatedDraftIsAccepted(lines: seq<DraftLine>, batches: map<Uuid, DraftBatch>, db: Db, call: Call)
    requires lines != [] && Submittable(lines, batches)
    requires call.request.items == ToLines(Merge(lines)) && call.request.user in db.users
    requires FindSale(db.sales, call.request.tenant, call.request.key).None?
    requires StillThere(db, call.request.tenant, batches)
    ensures Decide(db, call, []).Accepted?
  {
    MergeMeans(lines);
    MergedItems(lines, batches, Merge(lines));
    var items := call.request.items;
    assert forall i :: 0 <= i < |items| ==> items[i].batch in batches && batches[items[i].batch].product == items[i].product;
    var rows := RowsStillThere(db, call.request, batches);
    CoveredBySeen(items, batches, rows);
    AcceptedIff(rows, items);
  }

  // ----- pickDefaultBatch -----

  /** The oldest batch with stock; the first listed among equally old ones. */
  function PickDefaultBatch(batches: seq<DraftBatch>): Option<DraftBatch> {
    if batches == [] then None
    else
      var last := batches[|batches| - 1];
      match PickDefaultBatch(batches[..|batches| - 1])
      case None => if last.remaining > 0 then Some(last) else None
      case Some(best) => if last.remaining > 0 && last.intake < best.intake then Some(last) else Some(best)
  }

  lemma {:induction false} DefaultIsOldestInStock(batches: seq<DraftBatch>) returns (n: nat)
    ensures PickDefaultBatch(batches).None? <==> forall i :: 0 <= i < |batches| ==> batches[i].remaining == 0
    ensures PickDefaultBatch(batches).Some? ==>
              n < |batches| && PickDefaultBatch(batches) == Some(batches[n]) && batches[n].remaining > 0 &&
              (forall i :: 0 <= i < |batches| && batches[i].remaining > 0 ==> batches[n].intake <= batches[i].intake) &&
              (forall i :: 0 <= i < n && batches[i].remaining > 0 ==> batches[n].intake < batches[i].intake)
  {
    n := 0;
    if batches != [] {
      var front, last := batches[..|batches| - 1], batches[|batches| - 1];
      n := DefaultIsOldestInStock(front);
      assert batches == front + [last];
      if PickDefaultBatch(front).None? || (last.remaining > 0 && last.intake < PickDefaultBatch(front).value.intake) {
        n := |front|;
      }
    }
  }
}
