/** Evaluations running beside sales, intake and vendors, one statement at a time, over committed tables. */
module LifecycleMachine {
  import opened Prelude
  import opened Lifecycle

  /** Where one evaluation stands. `swept` are the alerts it has resolved, `own` the alerts it has inserted,
      both uncommitted; `rows` is the reply of its selection and `n` the next row of the loop. */
  datatype Phase =
    | Idle
    | Clocked(now: Time)
    | Begun(now: Time, began: Time)
    | Swept(now: Time, began: Time, swept: set<Key>)
    | Inserting(now: Time, began: Time, swept: set<Key>, rows: seq<(Uuid, Batch)>, n: nat, own: Alerts)
    | Committed
    | Failed

  /** `raised` is history: how often an evaluation has inserted and committed each warning. */
  datatype State = State(clock: Time, batches: Batches, alerts: Alerts, evals: seq<Phase>, raised: multiset<Key>)

  datatype Action =
    | Tick(seconds: nat)
    | Receive(id: Uuid, batch: Batch)
    | Sell(id: Uuid, sold: nat, seen: set<Key>)
    | Touch(key: Key, mark: Mark)
    | Alarm(key: Key, alert: Alert)
    | ReadClock(i: nat)
    | BeginTxn(i: nat)
    | Sweep(i: nat)
    | Select(i: nat, reply: seq<Uuid>)
    | Insert(i: nat)
    | Commit(i: nat)
    | Fail(i: nat)

  /** The tables at the start of a run, how many evaluations may be delivered in it, and whether the schema
      still has the column that their selection joins on. */
  datatype Config = Config(joinable: bool, settings: Settings, runs: nat, clock: Time, batches: Batches, alerts: Alerts)

  function Init(c: Config): State {
    State(c.clock, c.batches, c.alerts, seq(c.runs, _ => Idle), multiset{})
  }

  function SweptBy(p: Phase): set<Key> {
    if p.Swept? || p.Inserting? then p.swept else {}
  }

  function OwnOf(p: Phase): Alerts {
    if p.Inserting? then p.own else map[]
  }

  function RowKey(c: Config, p: Phase, m: nat): Key
    requires p.Inserting? && m < |p.rows|
  {
    DueKey(p.rows[m].0, p.rows[m].1, c.settings, p.now)
  }

  predicate InRange(s: State, i: nat) { i < |s.evals| }

  /** No other evaluation has updated one of these alerts without committing. */
  predicate Unlocked(s: State, keys: set<Key>, i: int) {
    forall j :: 0 <= j < |s.evals| && j != i ==> SweptBy(s.evals[j]) !! keys
  }

  /** No other evaluation has inserted this alert without committing. */
  predicate NotPending(s: State, k: Key, i: int) {
    forall j :: 0 <= j < |s.evals| && j != i ==> k !in OwnOf(s.evals[j])
  }

  ghost predicate Enabled(c: Config, s: State, a: Action) {
    match a
    case Tick(_) => true
    case Receive(id, _) => id !in s.batches
    case Sell(id, sold, seen) =>
      && id in s.batches && 1 <= sold <= s.batches[id].remaining
      && (seen != {} ==> sold == s.batches[id].remaining)
      && (forall k :: k in seen ==> k in s.alerts && k.batch == id && IsWarning(k.event))
      && Unlocked(s, seen, -1)
    case Touch(k, _) => k in s.alerts && Unlocked(s, {k}, -1)
    case Alarm(k, alert) => k !in s.alerts && !IsWarning(k.event) && alert.raisedAt <= s.clock
    case ReadClock(i) => InRange(s, i) && s.evals[i].Idle?
    case BeginTxn(i) => InRange(s, i) && s.evals[i].Clocked?
    case Sweep(i) =>
      InRange(s, i) && s.evals[i].Begun? && Unlocked(s, OutdatedKeys(s.batches, s.alerts, s.evals[i].began), i)
    case Select(i, reply) =>
      c.joinable && InRange(s, i) && s.evals[i].Swept? && IsReply(s.batches, c.settings, s.evals[i].now, reply)
    case Insert(i) =>
      && InRange(s, i) && s.evals[i].Inserting? && s.evals[i].n < |s.evals[i].rows|
      && NotPending(s, RowKey(c, s.evals[i], s.evals[i].n), i)
    case Commit(i) => InRange(s, i) && s.evals[i].Inserting? && s.evals[i].n == |s.evals[i].rows|
    case Fail(i) => InRange(s, i) && !s.evals[i].Idle? && !s.evals[i].Committed? && !s.evals[i].Failed?
  }

  /** One iteration of the loop: insert the row's warning, unless it is there, committed or our own. */
  function Inserted(c: Config, s: State, p: Phase): Phase
    requires p.Inserting? && p.n < |p.rows|
  {
    var k := RowKey(c, p, p.n);
    p.(n := p.n + 1,
       own := if k in s.alerts || k in p.own then p.own
              else p.own[k := NewAlert(p.rows[p.n].1, k.event, p.began)])
  }

  function Put(s: State, i: nat, p: Phase): State
    requires InRange(s, i)
  {
    s.(evals := s.evals[i := p])
  }

  function Committing(s: State, i: nat): State
    requires InRange(s, i) && s.evals[i].Inserting?
  {
    var p := s.evals[i];
    State(s.clock, s.batches, ResolveAll(s.alerts, p.swept, p.began) + p.own, s.evals[i := Phase.Committed],
          s.raised + multiset(p.own.Keys))
  }

  ghost function Next(c: Config, s: State, a: Action): State
    requires Enabled(c, s, a)
  {
    match a
    case Tick(seconds) => s.(clock := s.clock + seconds)
    case Receive(id, batch) => s.(batches := s.batches[id := batch])
    case Sell(id, sold, seen) =>
      s.(batches := s.batches[id := s.batches[id].(remaining := s.batches[id].remaining - sold)],
         alerts := ResolveAll(s.alerts, seen, s.clock))
    case Touch(k, mark) => s.(alerts := s.alerts[k := Touched(s.alerts[k], mark, s.clock)])
    case Alarm(k, alert) => s.(alerts := s.alerts[k := alert])
    case ReadClock(i) => Put(s, i, Clocked(s.clock))
    case BeginTxn(i) => Put(s, i, Begun(s.evals[i].now, s.clock))
    case Sweep(i) =>
      var p := s.evals[i];
      Put(s, i, Swept(p.now, p.began, OutdatedKeys(s.batches, s.alerts, p.began)))
    case Select(i, reply) =>
      var p := s.evals[i];
      Put(s, i, Inserting(p.now, p.began, p.swept,
                          seq(|reply|, m requires 0 <= m < |reply| => (reply[m], s.batches[reply[m]])), 0, map[]))
    case Insert(i) => Put(s, i, Inserted(c, s, s.evals[i]))
    case Commit(i) => Committing(s, i)
    case Fail(i) => Put(s, i, Phase.Failed)
  }

  // ----- runs -----

  ghost predicate CanRun(c: Config, actions: seq<Action>)
    decreases |actions|, 0
  {
    actions == [] ||
    (CanRun(c, actions[..|actions| - 1]) && Enabled(c, Reached(c, actions[..|actions| - 1]), actions[|actions| - 1]))
  }

  ghost function Reached(c: Config, actions: seq<Action>): State
    requires CanRun(c, actions)
    decreases |actions|, 1
  {
    if actions == [] then Init(c) else Next(c, Reached(c, actions[..|actions| - 1]), actions[|actions| - 1])
  }

  lemma OneMore(c: Config, front: seq<Action>, a: Action, actions: seq<Action>)
    requires CanRun(c, front) && Enabled(c, Reached(c, front), a) && actions == front + [a]
    ensures CanRun(c, actions) && Reached(c, actions) == Next(c, Reached(c, front), a)
  {
    assert actions[..|actions| - 1] == front;
  }

  lemma {:induction false} PrefixRuns(c: Config, actions: seq<Action>, n: nat)
    requires CanRun(c, actions) && n <= |actions|
    ensures CanRun(c, actions[..n])
  {
    if n == |actions| {
      assert actions[..n] == actions;
    } else {
      PrefixRuns(c, actions[..|actions| - 1], n);
      assert actions[..|actions| - 1][..n] == actions[..n];
    }
  }

  ghost function At(c: Config, actions: seq<Action>, n: nat): State
    requires CanRun(c, actions) && n <= |actions|
  {
    PrefixRuns(c, actions, n);
    Reached(c, actions[..n])
  }

  lemma AtNext(c: Config, actions: seq<Action>, n: nat)
    requires CanRun(c, actions) && n < |actions|
    ensures CanRun(c, actions[..n]) && CanRun(c, actions[..n + 1])
    ensures Enabled(c, At(c, actions, n), actions[n])
    ensures At(c, actions, n + 1) == Next(c, At(c, actions, n), actions[n])
  {
    PrefixRuns(c, actions, n + 1);
    assert actions[..n + 1][..n] == actions[..n];
  }

  // ----- the invariant -----

  /** What an evaluation has touched: open alerts it updated, and alerts it inserted that nobody else sees. */
  ghost predicate EvalInv(c: Config, alerts: Alerts, p: Phase) {
    && (forall k :: k in SweptBy(p) ==> k in alerts && alerts[k].resolvedAt.None?)
    && (forall k :: k in OwnOf(p) ==> k !in alerts && IsWarning(k.event))
    && (p.Inserting? ==>
          p.n <= |p.rows| && forall m :: 0 <= m < p.n ==> RowKey(c, p, m) in p.own || RowKey(c, p, m) in alerts)
  }

  predicate Apart(p: Phase, q: Phase) {
    SweptBy(p) !! SweptBy(q) && OwnOf(p).Keys !! OwnOf(q).Keys
  }

  /** The warnings that are new since the start are exactly those an evaluation raised, once each. */
  ghost predicate RaisedOnce(c: Config, s: State) {
    forall k: Key :: s.raised[k] == if IsWarning(k.event) && k in s.alerts && k !in c.alerts then 1 else 0
  }

  ghost predicate Inv(c: Config, s: State) {
    && |s.evals| == c.runs
    && (forall i :: 0 <= i < |s.evals| ==> EvalInv(c, s.alerts, s.evals[i]))
    && (forall i, j :: 0 <= i < j < |s.evals| ==> Apart(s.evals[i], s.evals[j]))
    && (forall k :: k in c.alerts ==> k in s.alerts)
    && RaisedOnce(c, s)
  }

  predicate BatchGrows(b: Batch, b': Batch) {
    && b'.initial == b.initial && b'.received == b.received && b'.deadlines == b.deadlines
    && b'.remaining <= b.remaining
  }

  ghost predicate AlertsGrow(alerts: Alerts, alerts': Alerts) {
    forall k :: k in alerts ==> k in alerts' && AlertGrows(alerts[k], alerts'[k])
  }

  ghost predicate Grows(s: State, s': State) {
    && s.clock <= s'.clock
    && (forall id :: id in s.batches ==> id in s'.batches && BatchGrows(s.batches[id], s'.batches[id]))
    && AlertsGrow(s.alerts, s'.alerts)
  }
}
