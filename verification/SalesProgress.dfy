/** Sale transactions never deadlock and always finish. */
module SalesProgress {
  import opened Prelude
  import opened SaleLines
  import opened SaleTables
  import opened SalesMachine
  import opened SalesRefinement

  ghost predicate Waits(c: Config, s: State, i: nat)
    requires |s.txns| == |c.calls| && i < |c.calls|
  {
    exists j :: 0 <= j < |s.txns| && WaitsFor(c, s, i, j)
  }

  ghost predicate CanAdvance(c: Config, s: State, i: nat) {
    exists readback :: Enabled(c, s, Advance(i, readback))
  }

  lemma NotWaitingAdvances(c: Config, db: Db, s: State, i: nat)
    requires Inv(c, db, s) && i < |c.calls| && !s.txns[i].phase.Closed? && !Waits(c, s, i)
    ensures CanAdvance(c, s, i)
  {
    var t := s.txns[i];
    assert TxnInv(s.db, c.calls[i], t);
    var readback := if t.phase.Reading? then ItemsOf(s.db.items, t.phase.row.id) else [];
    assert Enabled(c, s, Advance(i, readback));
  }

  /** Past the locks a transaction waits for nobody. */
  lemma LockedNeverWaits(c: Config, db: Db, s: State, i: nat)
    requires Admissible(c, db) && Inv(c, db, s) && i < |c.calls|
    requires !s.txns[i].phase.Begin? && !s.txns[i].phase.Locking?
    ensures !Waits(c, s, i)
  {
    if NextInsert(c, s, i).Some? { InsertMeetsNoIndex(c, db, s, i, NextInsert(c, s, i).value); }
    forall j | 0 <= j < |s.txns| ensures !WaitsFor(c, s, i, j) {
      if j != i { assert if i < j then Apart(c, s, i, j) else Apart(c, s, j, i); }
    }
  }

  /** The batch that a transaction in its lock loop is about to lock. */
  ghost function NextBatch(c: Config, s: State, i: nat): Uuid
    requires |s.txns| == |c.calls| && i < |c.calls|
    requires s.txns[i].phase.Locking? && s.txns[i].phase.n < |LockOrder(c.calls[i].request)|
  {
    LockOrder(c.calls[i].request)[s.txns[i].phase.n]
  }

  ghost predicate WaitsInLoop(c: Config, s: State, i: nat)
    requires |s.txns| == |c.calls| && i < |c.calls|
  {
    s.txns[i].phase.Locking? && Waits(c, s, i)
  }

  /** The holder of the batch that `i` waits for either is past its loop or waits for a greater one. */
  lemma HolderIsFurther(c: Config, db: Db, s: State, i: nat) returns (j: nat)
    requires Admissible(c, db) && Inv(c, db, s) && i < |c.calls| && WaitsInLoop(c, s, i)
    ensures j < |c.calls| && !s.txns[j].phase.Closed? && !s.txns[j].phase.Begin?
    ensures WaitsInLoop(c, s, j) ==> NextBatch(c, s, j) > NextBatch(c, s, i)
  {
    j :| 0 <= j < |s.txns| && WaitsFor(c, s, i, j);
    assert TxnInv(s.db, c.calls[j], s.txns[j]);
    if WaitsInLoop(c, s, j) {
      var n := s.txns[j].phase.n;
      var k :| 0 <= k < |s.txns| && WaitsFor(c, s, j, k);
      var order := LockOrder(c.calls[j].request);
      RowsAreLocked(s.db, c.calls[j].request, s.txns[j], n);
      assert NextBatch(c, s, i) in order[..n];
    }
  }

  /** From a transaction waiting in its loop, following holders reaches one that can step. */
  lemma {:induction false} FollowHolders(c: Config, db: Db, s: State, i: nat, bound: nat) returns (j: nat)
    requires Admissible(c, db) && Inv(c, db, s) && i < |c.calls| && WaitsInLoop(c, s, i)
    requires forall k :: 0 <= k < |c.calls| && WaitsInLoop(c, s, k) ==> NextBatch(c, s, k) <= bound
    ensures j < |c.calls| && CanAdvance(c, s, j)
    decreases bound - NextBatch(c, s, i)
  {
    var h := HolderIsFurther(c, db, s, i);
    if WaitsInLoop(c, s, h) {
      j := FollowHolders(c, db, s, h, bound);
    } else {
      j := h;
      if !s.txns[j].phase.Locking? { LockedNeverWaits(c, db, s, j); }
      NotWaitingAdvances(c, db, s, j);
    }
  }

  lemma {:induction false} WaitBound(c: Config, s: State, n: nat) returns (bound: nat)
    requires |s.txns| == |c.calls| && n <= |c.calls|
    ensures forall k :: 0 <= k < n && WaitsInLoop(c, s, k) ==> NextBatch(c, s, k) <= bound
  {
    bound := 0;
    if n > 0 {
      bound := WaitBound(c, s, n - 1);
      if WaitsInLoop(c, s, n - 1) && NextBatch(c, s, n - 1) > bound { bound := NextBatch(c, s, n - 1); }
    }
  }

  /** No deadlock: while some transaction is unfinished, some transaction can run its next statement. */
  lemma SomeTransactionAdvances(c: Config, db: Db, s: State, i: nat) returns (j: nat)
    requires Admissible(c, db) && Inv(c, db, s) && i < |c.calls| && !s.txns[i].phase.Closed?
    ensures j < |c.calls| && CanAdvance(c, s, j)
  {
    j := i;
    if s.txns[i].phase.Begin? && Waits(c, s, i) {
      j :| 0 <= j < |s.txns| && WaitsFor(c, s, i, j);
    }
    if s.txns[j].phase.Locking? && Waits(c, s, j) {
      var bound := WaitBound(c, s, |c.calls|);
      j := FollowHolders(c, db, s, j, bound);
    } else {
      if !s.txns[j].phase.Locking? && !s.txns[j].phase.Begin? { LockedNeverWaits(c, db, s, j); }
      NotWaitingAdvances(c, db, s, j);
    }
  }

  // ----- termination -----

  /** How many statements a transaction can still run. */
  ghost function Left(call: Call, t: Txn): nat {
    var loop := |LockOrder(call.request)|;
    var most := 5 * |call.request.items|;
    match t.phase
    case Begin => most + loop + 6
    case Looking => most + loop + 5
    case Reading(_) => 2
    case Locking(n) => most + (if n <= loop then loop - n else 0) + 4
    case Inserting => most + 3
    case Raced => 1
    case Failed => 1
    case Writing(n) => (if n <= |Program(t.plan)| then |Program(t.plan)| - n else 0) + 2
    case Ending(_) => 1
    case Closed(_) => 0
  }

  ghost function Work(calls: seq<Call>, txns: seq<Txn>): nat
    requires |calls| == |txns|
  {
    if calls == [] then 0
    else Left(calls[|calls| - 1], txns[|calls| - 1]) + Work(calls[..|calls| - 1], txns[..|calls| - 1])
  }

  lemma {:induction false} WorkUpdate(calls: seq<Call>, txns: seq<Txn>, i: nat, t: Txn)
    requires |calls| == |txns| && i < |txns|
    ensures Work(calls, txns[i := t]) == Work(calls, txns) - Left(calls[i], txns[i]) + Left(calls[i], t)
  {
    var n := |calls| - 1;
    if i < n {
      assert txns[i := t][..n] == txns[..n][i := t];
      WorkUpdate(calls[..n], txns[..n], i, t);
    } else {
      assert txns[i := t][..n] == txns[..n];
    }
  }

  lemma {:induction false} ProgramLength(lines: seq<Planned>)
    ensures |Program(lines)| <= 5 * |lines|
  {
    if lines != [] { ProgramLength(lines[..|lines| - 1]); }
  }

  lemma LockShrinks(c: Config, s: State, i: nat, readback: seq<Line>)
    requires InRange(c, s, i) && s.txns[i].phase.Locking? && s.txns[i].phase.n < |LockOrder(c.calls[i].request)|
    ensures Left(c.calls[i], Advanced(c, s, i, readback).txns[i]) < Left(c.calls[i], s.txns[i])
  {
    var t, request := s.txns[i], c.calls[i].request;
    var row := RowOf(s.db, request.tenant, LockOrder(request)[t.phase.n]);
    assert row.Some? ==> Advanced(c, s, i, readback).txns[i].phase == Locking(t.phase.n + 1);
  }

  lemma PlanShrinks(c: Config, s: State, i: nat, readback: seq<Line>)
    requires InRange(c, s, i) && s.txns[i].phase.Locking? && s.txns[i].phase.n == |LockOrder(c.calls[i].request)|
    requires HoldsRows(s.db, c.calls[i].request, s.txns[i], s.txns[i].phase.n)
    ensures Left(c.calls[i], Advanced(c, s, i, readback).txns[i]) < Left(c.calls[i], s.txns[i])
  {
    AllRowsLocked(s.db, c.calls[i].request, s.txns[i]);
  }

  lemma InsertShrinks(c: Config, db: Db, s: State, i: nat, readback: seq<Line>)
    requires Inv(c, db, s) && Enabled(c, s, Advance(i, readback)) && s.txns[i].phase.Inserting?
    ensures Left(c.calls[i], Advanced(c, s, i, readback).txns[i]) < Left(c.calls[i], s.txns[i])
  {
    assert TxnInv(s.db, c.calls[i], s.txns[i]);
    PlanTouchesLocked(s.db, c.calls[i].request, s.txns[i]);
    ProgramLength(s.txns[i].plan);
  }

  lemma AdvanceShrinks(c: Config, db: Db, s: State, i: nat, readback: seq<Line>)
    requires Inv(c, db, s) && Enabled(c, s, Advance(i, readback))
    ensures Left(c.calls[i], Advanced(c, s, i, readback).txns[i]) < Left(c.calls[i], s.txns[i])
  {
    assert TxnInv(s.db, c.calls[i], s.txns[i]);
    if s.txns[i].phase.Locking? {
      if s.txns[i].phase.n < |LockOrder(c.calls[i].request)| { LockShrinks(c, s, i, readback); }
      else { PlanShrinks(c, s, i, readback); }
    }
    else if s.txns[i].phase.Inserting? { InsertShrinks(c, db, s, i, readback); }
    else if s.txns[i].phase.Writing? { WriteShrinks(c, s, i, readback); }
    else { OtherShrinks(c, s, i, readback); }
  }

  lemma WriteShrinks(c: Config, s: State, i: nat, readback: seq<Line>)
    requires InRange(c, s, i) && s.txns[i].phase.Writing?
    ensures Left(c.calls[i], Advanced(c, s, i, readback).txns[i]) < Left(c.calls[i], s.txns[i])
  {}

  lemma OtherShrinks(c: Config, s: State, i: nat, readback: seq<Line>)
    requires InRange(c, s, i)
    requires s.txns[i].phase.Begin? || s.txns[i].phase.Looking? || s.txns[i].phase.Reading? || s.txns[i].phase.Ending?
    ensures Left(c.calls[i], Advanced(c, s, i, readback).txns[i]) < Left(c.calls[i], s.txns[i])
  {}

  lemma OnlyOneMoves(c: Config, s: State, i: nat, readback: seq<Line>)
    requires InRange(c, s, i)
    ensures |Advanced(c, s, i, readback).txns| == |s.txns|
    ensures Advanced(c, s, i, readback).txns == s.txns[i := Advanced(c, s, i, readback).txns[i]]
  {}

  lemma AdvanceShrinksWork(c: Config, db: Db, s: State, i: nat, readback: seq<Line>)
    requires Inv(c, db, s) && Enabled(c, s, Advance(i, readback))
    ensures |Advanced(c, s, i, readback).txns| == |c.calls|
    ensures Work(c.calls, Advanced(c, s, i, readback).txns) < Work(c.calls, s.txns)
  {
    AdvanceShrinks(c, db, s, i, readback);
    OnlyOneMoves(c, s, i, readback);
    WorkUpdate(c.calls, s.txns, i, Advanced(c, s, i, readback).txns[i]);
  }

  lemma AbortShrinksWork(c: Config, s: State, i: nat)
    requires InRange(c, s, i) && !s.txns[i].phase.Closed?
    ensures var s' := Put(s, i, Txn(Closed(None), map[], [], NoWrites));
            |s'.txns| == |c.calls| && Work(c.calls, s'.txns) < Work(c.calls, s.txns)
  {
    WorkUpdate(c.calls, s.txns, i, Txn(Closed(None), map[], [], NoWrites));
  }

  /** Every step of a transaction uses up work; intake uses none. */
  lemma StepShrinksWork(c: Config, db: Db, s: State, a: Action)
    requires Inv(c, db, s) && Enabled(c, s, a)
    ensures |Next(c, s, a).txns| == |c.calls|
    ensures if a.Intake? then Work(c.calls, Next(c, s, a).txns) == Work(c.calls, s.txns)
            else Work(c.calls, Next(c, s, a).txns) < Work(c.calls, s.txns)
  {
    if a.Advance? {
      AdvanceShrinksWork(c, db, s, a.i, a.readback);
    } else if a.Abort? {
      AbortShrinksWork(c, s, a.i);
    }
  }

  function OwnSteps(actions: seq<Action>): nat {
    if actions == [] then 0
    else OwnSteps(actions[..|actions| - 1]) + if actions[|actions| - 1].Intake? then 0 else 1
  }

  ghost function InitialWork(c: Config, db: Db): nat {
    Work(c.calls, Init(c, db).txns)
  }

  /** The transactions of a run take boundedly many steps, whatever the schedule. */
  lemma {:induction false} RunsAreBounded(c: Config, db: Db, actions: seq<Action>)
    requires Admissible(c, db) && CanRun(c, db, actions)
    ensures |Reached(c, db, actions).txns| == |c.calls|
    ensures OwnSteps(actions) + Work(c.calls, Reached(c, db, actions).txns) <= InitialWork(c, db)
  {
    if actions != [] {
      var front := actions[..|actions| - 1];
      RunsAreBounded(c, db, front);
      RunKeepsInv(c, db, front);
      StepShrinksWork(c, db, Reached(c, db, front), actions[|actions| - 1]);
    }
  }

  ghost predicate AllClosed(s: State) {
    forall i :: 0 <= i < |s.txns| ==> s.txns[i].phase.Closed?
  }

  lemma SomeActionAdvances(c: Config, db: Db, s: State) returns (a: Action)
    requires Admissible(c, db) && Inv(c, db, s) && !AllClosed(s)
    ensures a.Advance? && Enabled(c, s, a)
  {
    var i :| 0 <= i < |s.txns| && !s.txns[i].phase.Closed?;
    var j := SomeTransactionAdvances(c, db, s, i);
    var readback :| Enabled(c, s, Advance(j, readback));
    a := Advance(j, readback);
  }

  lemma Extends(c: Config, db: Db, actions: seq<Action>, a: Action)
    requires CanRun(c, db, actions) && Enabled(c, Reached(c, db, actions), a)
    ensures CanRun(c, db, actions + [a])
  {
    assert (actions + [a])[..|actions|] == actions;
  }

  lemma CanExtend(c: Config, db: Db, actions: seq<Action>) returns (a: Action)
    requires Admissible(c, db) && CanRun(c, db, actions) && !AllClosed(Reached(c, db, actions))
    ensures a.Advance? && CanRun(c, db, actions + [a])
  {
    RunKeepsInv(c, db, actions);
    a := SomeActionAdvances(c, db, Reached(c, db, actions));
    Extends(c, db, actions, a);
  }

  lemma BudgetLeft(c: Config, db: Db, actions: seq<Action>)
    requires Admissible(c, db) && CanRun(c, db, actions)
    ensures OwnSteps(actions) <= InitialWork(c, db)
  {
    RunsAreBounded(c, db, actions);
  }

  lemma OneMore(c: Config, db: Db, actions: seq<Action>) returns (next: seq<Action>)
    requires Admissible(c, db) && CanRun(c, db, actions) && !AllClosed(Reached(c, db, actions))
    ensures Continues(actions, next) && CanRun(c, db, next)
    ensures OwnSteps(actions) < OwnSteps(next) <= InitialWork(c, db)
  {
    var a := CanExtend(c, db, actions);
    next := actions + [a];
    BudgetLeft(c, db, next);
  }

  /** The run is possible and leaves every transaction ended. */
  ghost predicate Finishes(c: Config, db: Db, actions: seq<Action>) {
    CanRun(c, db, actions) && AllClosed(Reached(c, db, actions))
  }

  /** The longer run goes on from the shorter one by statements alone: no abort and no intake. */
  predicate Continues(actions: seq<Action>, longer: seq<Action>) {
    actions <= longer && forall k :: |actions| <= k < |longer| ==> longer[k].Advance?
  }

  lemma ContinuesOn(actions: seq<Action>, next: seq<Action>, longer: seq<Action>)
    requires Continues(actions, next) && Continues(next, longer)
    ensures Continues(actions, longer)
  {}

  lemma {:induction false} FinishWithin(c: Config, db: Db, actions: seq<Action>, budget: nat) returns (longer: seq<Action>)
    requires Admissible(c, db) && CanRun(c, db, actions) && InitialWork(c, db) <= OwnSteps(actions) + budget
    ensures Finishes(c, db, longer) && Continues(actions, longer)
    decreases budget
  {
    longer := actions;
    if !AllClosed(Reached(c, db, actions)) {
      var next := OneMore(c, db, actions);
      longer := FinishWithin(c, db, next, budget - 1);
      ContinuesOn(actions, next, longer);
    }
  }

  /** From every reachable state all transactions can be run to their end, with no abort. */
  lemma CanFinish(c: Config, db: Db, actions: seq<Action>) returns (longer: seq<Action>)
    requires Admissible(c, db) && CanRun(c, db, actions)
    ensures Finishes(c, db, longer) && Continues(actions, longer)
  {
    longer := FinishWithin(c, db, actions, InitialWork(c, db));
  }
}
