/** A shop in which an identical retry of an accepted sale conflicts. */
module SaleExamples {
  import opened Prelude
  import opened SaleLines
  import opened SaleTables
  import opened SaleLog

  const Crate := Batch(0, 0, 5, 5)

  const Shop := Db({0}, map[0 := 0], map[0 := Crate, 1 := Crate], [], [], map[])

  const Basket := [Line(0, 0, 1), Line(0, 1, 1)]

  const FirstTry := Call(Request(0, 0, "key", Manual, Basket), 0, 0)

  const Retry := FirstTry.(saleId := 1, now := 1)

  lemma ShopCovers(rows: map<Uuid, LockedRow>)
    requires Known(rows, Basket)
    requires forall b :: b in rows ==> RowOf(Shop, 0, b) == Some(rows[b])
    ensures Plan(rows, Basket).Lines?
  {
    assert Basket[..1] == [Line(0, 0, 1)] && Basket[..1][..0] == [];
    forall b | b in rows ensures Total(Basket, b) <= rows[b].remaining {
      assert Total(Basket[..1], b) <= 1;
    }
    AcceptedIff(rows, Basket);
  }

  lemma ShopLocks()
    ensures RowsFor(Shop, 0, LockOrder(FirstTry.request)).Some?
  {
    var order := LockOrder(FirstTry.request);
    forall b | b in order ensures RowOf(Shop, 0, b).Some? {
      var i :| 0 <= i < |Basket| && Basket[i].batch == b;
    }
    RowsForMeans(Shop, 0, order);
  }

  lemma ShopAccepts()
    ensures Decide(Shop, FirstTry, []).Accepted?
  {
    ShopLocks();
    RowsForMeans(Shop, 0, LockOrder(FirstTry.request));
    var rows := RowsFor(Shop, 0, LockOrder(FirstTry.request)).value;
    forall i | 0 <= i < |Basket| ensures Basket[i].batch in rows {
      assert Basket[i].batch in BatchIds(Basket);
    }
    ShopCovers(rows);
  }

  ghost const History: seq<Entry> := [Decided(FirstTry, [], Decide(Shop, FirstTry, []))]

  lemma HistoryIsLegal()
    ensures Legal(Shop, History)
  {
    ShopAccepts();
    FoldAppend(Shop, [], History[0]);
    assert [] + [History[0]] == History;
  }

  lemma ShopIsSound()
    ensures Sound(Shop) && FreshIds(Shop, History)
  {}

  /** Read back in the other order, the retry of the accepted two-line sale is answered with a conflict. */
  lemma RetryConflicts()
    ensures Sound(Shop) && Legal(Shop, History) && FreshIds(Shop, History)
    ensures History[0].outcome.Accepted? && Retry.request == FirstTry.request
    ensures ValidReadback(Fold(Shop, History), Retry.request, [Basket[1], Basket[0]])
    ensures Decide(Fold(Shop, History), Retry, [Basket[1], Basket[0]]) == Conflict
  {
    ShopAccepts();
    HistoryIsLegal();
    ShopIsSound();
    TwoLinesMayConflict(Shop, History, 0, Retry);
  }
}
