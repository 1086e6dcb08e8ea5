/** When an evaluation leaves an open warning on an empty batch. */
module LifecycleStale {
  import opened Prelude
  import opened Lifecycle
  import opened LifecycleMachine
  import opened LifecycleTheorems

  predicate Empty(s: State, id: Uuid) { id in s.batches && s.batches[id].remaining == 0 }

  predicate InStock(s: State, id: Uuid) { id in s.batches && s.batches[id].remaining > 0 }

  /** Action `n` is a sale that takes the last of a batch. */
  ghost predicate SellsOut(c: Config, actions: seq<Action>, n: nat, id: Uuid)
    requires CanRun(c, actions) && n < |actions|
  {
    actions[n].Sell? && actions[n].id == id && InStock(At(c, actions, n), id) && Empty(At(c, actions, n + 1), id)
  }

  ghost predicate SoldOutBetween(c: Config, actions: seq<Action>, m: nat, q: nat, id: Uuid)
    requires CanRun(c, actions)
  {
    exists n :: m < n < q && n < |actions| && SellsOut(c, actions, n, id)
  }

  /** Only a sale takes the last of a batch. */
  lemma StepEmpties(c: Config, s: State, a: Action, id: Uuid)
    requires Enabled(c, s, a) && InStock(s, id)
    ensures InStock(Next(c, s, a), id) || (Empty(Next(c, s, a), id) && a.Sell? && a.id == id)
  {}

  lemma LastOfBatchIsSold(c: Config, actions: seq<Action>, n: nat, id: Uuid)
    requires CanRun(c, actions) && n < |actions| && InStock(At(c, actions, n), id)
    ensures InStock(At(c, actions, n + 1), id) || SellsOut(c, actions, n, id)
  {
    AtNext(c, actions, n);
    StepEmpties(c, At(c, actions, n), actions[n], id);
  }

  lemma {:induction false} Turns(flags: seq<bool>, m: nat, q: nat) returns (n: nat)
    requires m < q < |flags| && flags[m] && !flags[q]
    ensures m <= n < q && flags[n] && !flags[n + 1]
  {
    n := q - 1;
    if !flags[n] { n := Turns(flags, m, n); }
  }

  /** Whether the batch is in stock, state by state. */
  ghost function StockFlags(c: Config, actions: seq<Action>, id: Uuid): (flags: seq<bool>)
    requires CanRun(c, actions)
    ensures |flags| == |actions| + 1
  {
    seq(|actions| + 1, n requires 0 <= n <= |actions| => InStock(At(c, actions, n), id))
  }

  lemma FlagTurnsAtSale(c: Config, actions: seq<Action>, m: nat, n: nat, q: nat, id: Uuid)
    requires CanRun(c, actions) && m < n < q && n < |actions|
    requires StockFlags(c, actions, id)[n] && !StockFlags(c, actions, id)[n + 1]
    ensures SoldOutBetween(c, actions, m, q, id)
  {
    FlagIsStock(c, actions, id, n);
    FlagIsStock(c, actions, id, n + 1);
    LastOfBatchIsSold(c, actions, n, id);
  }

  lemma FlagIsStock(c: Config, actions: seq<Action>, id: Uuid, n: nat)
    requires CanRun(c, actions) && n <= |actions|
    ensures StockFlags(c, actions, id)[n] == InStock(At(c, actions, n), id)
  {}

  lemma EmptiedBySale(c: Config, actions: seq<Action>, m: nat, q: nat, id: Uuid)
    requires CanRun(c, actions) && m < q <= |actions| && StockFlags(c, actions, id)[m + 1]
    ensures StockFlags(c, actions, id)[q] || SoldOutBetween(c, actions, m, q, id)
  {
    if !StockFlags(c, actions, id)[q] {
      var n := Turns(StockFlags(c, actions, id), m + 1, q);
      FlagTurnsAtSale(c, actions, m, n, q, id);
    }
  }

  lemma EmptyStays(c: Config, actions: seq<Action>, n: nat, q: nat, id: Uuid)
    requires CanRun(c, actions) && n <= q <= |actions| && Empty(At(c, actions, n), id)
    ensures Empty(At(c, actions, q), id)
  {
    GrowsBetween(c, actions, n, q);
  }

  lemma SoldOutStaysEmpty(c: Config, actions: seq<Action>, m: nat, q: nat, id: Uuid)
    requires CanRun(c, actions) && q <= |actions| && SoldOutBetween(c, actions, m, q, id)
    ensures Empty(At(c, actions, q), id)
  {
    var n: nat :| m < n < q && n < |actions| && SellsOut(c, actions, n, id);
    EmptyStays(c, actions, n + 1, q, id);
  }

  /** An evaluation that selected from `batches` inserts open warnings that were earned then, and no others. */
  ghost predicate OwnsEarned(c: Config, batches: Batches, p: Phase) {
    match p
    case Inserting(now, _, _, rows, n, own) =>
      && (forall m :: 0 <= m < |rows| ==> Earned(batches, c.settings, now, RowKey(c, p, m)))
      && (forall k :: k in own ==> Earned(batches, c.settings, now, k) && own[k].resolvedAt.None?)
    case Committed => true
    case Failed => true
    case _ => false
  }

  lemma InsertOwnsEarned(c: Config, s: State, p: Phase, batches: Batches)
    requires p.Inserting? && p.n < |p.rows| && OwnsEarned(c, batches, p)
    ensures OwnsEarned(c, batches, Inserted(c, s, p))
  {
    var p' := Inserted(c, s, p);
    forall m | 0 <= m < |p'.rows| ensures Earned(batches, c.settings, p'.now, RowKey(c, p', m)) {
      assert RowKey(c, p', m) == RowKey(c, p, m);
    }
  }

  lemma StepOwnsEarned(c: Config, s: State, a: Action, i: nat, batches: Batches)
    requires Enabled(c, s, a) && InRange(s, i) && OwnsEarned(c, batches, s.evals[i])
    ensures InRange(Next(c, s, a), i) && OwnsEarned(c, batches, Next(c, s, a).evals[i])
  {
    if a == Insert(i) { InsertOwnsEarned(c, s, s.evals[i], batches); }
  }

  lemma SelectOwnsEarned(c: Config, s: State, a: Action)
    requires Enabled(c, s, a) && a.Select?
    ensures InRange(Next(c, s, a), a.i) && OwnsEarned(c, s.batches, Next(c, s, a).evals[a.i])
  {
    var p := Next(c, s, a).evals[a.i];
    forall m | 0 <= m < |p.rows| ensures Earned(s.batches, c.settings, p.now, RowKey(c, p, m)) {
      assert RowKey(c, p, m) == DueKey(a.reply[m], s.batches[a.reply[m]], c.settings, p.now);
      assert RowKey(c, p, m) in DueKeys(s.batches, c.settings, p.now);
      DueIsEarned(s.batches, c.settings, p.now, RowKey(c, p, m));
    }
  }

  lemma {:induction false} RunOwnsEarned(c: Config, actions: seq<Action>, m: nat, q: nat)
    requires CanRun(c, actions) && m < q <= |actions| && actions[m].Select?
    ensures InRange(At(c, actions, q), actions[m].i)
    ensures OwnsEarned(c, At(c, actions, m).batches, At(c, actions, q).evals[actions[m].i])
  {
    AtNext(c, actions, q - 1);
    if m + 1 < q {
      RunOwnsEarned(c, actions, m, q - 1);
      StepOwnsEarned(c, At(c, actions, q - 1), actions[q - 1], actions[m].i, At(c, actions, m).batches);
    } else {
      SelectOwnsEarned(c, At(c, actions, m), actions[m]);
    }
  }

  /** In any run, a warning that an evaluation selected for as action `m` and committed as action `q` stands
      open just after the commit, and its batch is empty then if and only if a sale between the two emptied it. */
  lemma StaleIffSoldOutMeanwhile(c: Config, actions: seq<Action>, m: nat, q: nat, k: Key)
    requires CanRun(c, actions) && m < q < |actions| && actions[m].Select? && actions[q] == Commit(actions[m].i)
    requires InRange(At(c, actions, q), actions[q].i) && k in OwnOf(At(c, actions, q).evals[actions[q].i])
    ensures var s := At(c, actions, q + 1);
            && k in s.alerts && s.alerts[k].resolvedAt.None? && k.batch in s.batches
            && (Empty(s, k.batch) <==> SoldOutBetween(c, actions, m, q, k.batch))
  {
    RunOwnsEarned(c, actions, m, q);
    AtNext(c, actions, m);
    AtNext(c, actions, q);
    GrowsBetween(c, actions, m, q);
    if SoldOutBetween(c, actions, m, q, k.batch) {
      SoldOutStaysEmpty(c, actions, m, q, k.batch);
    } else {
      FlagIsStock(c, actions, k.batch, m + 1);
      FlagIsStock(c, actions, k.batch, q);
      EmptiedBySale(c, actions, m, q, k.batch);
    }
  }

  /** In any run, every warning that an evaluation inserted was earned when it selected: a batch with less than
      the ratio left then gets no new warning from it. */
  lemma OnlyEarnedIsInserted(c: Config, actions: seq<Action>, m: nat, q: nat, k: Key)
    requires CanRun(c, actions) && m < q < |actions| && actions[m].Select? && actions[q] == Commit(actions[m].i)
    requires InRange(At(c, actions, q), actions[q].i) && k in OwnOf(At(c, actions, q).evals[actions[q].i])
    ensures Earned(At(c, actions, m).batches, c.settings, At(c, actions, q).evals[actions[q].i].now, k)
    ensures EnoughLeft(At(c, actions, m).batches[k.batch], c.settings.ratio)
  {
    RunOwnsEarned(c, actions, m, q);
    AtNext(c, actions, q);
  }
}
