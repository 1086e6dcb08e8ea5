/** The periodic evaluation that warns a vendor before a batch ages: resolve, select, then insert. */
module Lifecycle {
  import opened Prelude
  import opened Freshness

  /** Event keys. The evaluation raises the first two; sales and scans raise the next two. */
  datatype Event = FreshToMedium | MediumToSpoiled | LowStock | SpoiledDetected | Other(name: string)

  /** `LIFECYCLE_EVENT_KEYS`. */
  predicate IsWarning(e: Event) { e.FreshToMedium? || e.MediumToSpoiled? }

  datatype Severity = Warning | Critical

  datatype Batch = Batch(initial: Option<Label>, received: nat, remaining: nat, deadlines: Deadlines)

  /** The unique index of alerts, within one tenant. */
  datatype Key = Key(batch: Uuid, event: Event)

  datatype Alert = Alert(severity: Severity, transition: Option<Time>, raisedAt: Time,
                         readAt: Option<Time>, resolvedAt: Option<Time>, sentAt: Option<Time>)

  type Batches = map<Uuid, Batch>
  type Alerts = map<Key, Alert>

  datatype Settings = Settings(lead: Time, ratio: real)

  const HOUR := 3600

  function FromEnvironment(hours: int, ratio: real): Settings {
    Settings((if hours > 1 then hours else 1) * HOUR, if ratio < 0.0 then 0.0 else if ratio > 1.0 then 1.0 else ratio)
  }

  /** Whatever the environment says, the lead is at least an hour and the ratio a fraction; sensible values are kept. */
  lemma SettingsAreClamped(hours: int, ratio: real)
    ensures var s := FromEnvironment(hours, ratio);
            && s.lead >= HOUR && 0.0 <= s.ratio <= 1.0
            && (hours >= 1 ==> s.lead == hours * HOUR) && (0.0 <= ratio <= 1.0 ==> s.ratio == ratio)
  {}

  // ----- the queries -----

  /** SQL's three-valued logic: None is null. */
  function And(a: Option<bool>, b: Option<bool>): Option<bool> {
    if a == Some(false) || b == Some(false) then Some(false)
    else if a.None? || b.None? then None
    else Some(true)
  }

  function Or(a: Option<bool>, b: Option<bool>): Option<bool> {
    if a == Some(true) || b == Some(true) then Some(true)
    else if a.None? || b.None? then None
    else Some(false)
  }

  function AtMost(deadline: Option<Time>, t: Time): Option<bool> {
    match deadline
    case None => None
    case Some(d) => Some(d <= t)
  }

  function IsFresh(initial: Option<Label>): Option<bool> {
    match initial
    case None => None
    case Some(l) => Some(l == Fresh)
  }

  /** Enough stock is left for a warning to be worth raising. */
  predicate Stocked(b: Batch, ratio: real) {
    b.received > 0 && b.remaining > 0 && b.remaining as real / b.received as real >= ratio
  }

  /** The WHERE clause of the selection. */
  function Where(b: Batch, ratio: real, dueBefore: Time): Option<bool> {
    And(Some(Stocked(b, ratio)),
        Or(And(IsFresh(b.initial), AtMost(b.deadlines.freshAt, dueBefore)), AtMost(b.deadlines.spoiledAt, dueBefore)))
  }

  predicate Selected(b: Batch, s: Settings, now: Time) {
    Where(b, s.ratio, now + s.lead) == Some(true)
  }

  /** The first branch of the loop body. */
  predicate WarnsFresh(b: Batch, s: Settings, now: Time) {
    && b.initial == Some(Fresh) && b.deadlines.freshAt.Some? && b.deadlines.freshAt.value <= now + s.lead
    && (b.deadlines.spoiledAt.None? || now < b.deadlines.spoiledAt.value - s.lead)
  }

  /** The second branch of the loop body. */
  predicate WarnsSpoiled(b: Batch, s: Settings, now: Time) {
    b.deadlines.spoiledAt.Some? && b.deadlines.spoiledAt.value <= now + s.lead
  }

  /** The warning a selected batch is due. */
  function EventOf(b: Batch, s: Settings, now: Time): Event {
    if WarnsSpoiled(b, s, now) then MediumToSpoiled else FreshToMedium
  }

  /** The query and the two branches partition the cases, nulls included: a selected row takes exactly
      one branch, and a stocked row that is not selected would take neither. */
  lemma BranchesPartitionTheSelection(b: Batch, s: Settings, now: Time)
    ensures Selected(b, s, now) <==> Stocked(b, s.ratio) && (WarnsFresh(b, s, now) || WarnsSpoiled(b, s, now))
    ensures !(WarnsFresh(b, s, now) && WarnsSpoiled(b, s, now))
    ensures Selected(b, s, now) ==> (WarnsFresh(b, s, now) <==> EventOf(b, s, now) == FreshToMedium)
  {}

  function Deadline(b: Batch, e: Event): Option<Time> {
    if e == FreshToMedium then b.deadlines.freshAt else b.deadlines.spoiledAt
  }

  function NewAlert(b: Batch, e: Event, t: Time): Alert {
    Alert(if e == FreshToMedium then Warning else Critical, Deadline(b, e), t, None, None, None)
  }

  function Resolved(a: Alert, t: Time): Alert {
    a.(resolvedAt := Some(Coalesce(a.resolvedAt, t)))
  }

  /** The open warnings that the first statement resolves. */
  predicate Outdated(batches: Batches, alerts: Alerts, t: Time, k: Key) {
    && k in alerts && k.batch in batches && IsWarning(k.event) && alerts[k].resolvedAt.None?
    && (batches[k.batch].remaining == 0 || (k.event == FreshToMedium && Due(batches[k.batch].deadlines.freshAt, t)))
  }

  function OutdatedKeys(batches: Batches, alerts: Alerts, t: Time): set<Key> {
    set k | k in alerts && Outdated(batches, alerts, t, k)
  }

  function ResolveAll(alerts: Alerts, keys: set<Key>, t: Time): Alerts {
    map k | k in alerts :: if k in keys then Resolved(alerts[k], t) else alerts[k]
  }

  function DueKey(id: Uuid, b: Batch, s: Settings, now: Time): Key { Key(id, EventOf(b, s, now)) }

  function DueKeys(batches: Batches, s: Settings, now: Time): set<Key> {
    set id | id in batches && Selected(batches[id], s, now) :: DueKey(id, batches[id], s, now)
  }

  /** The alerts after the warnings `keys` were each inserted unless already present. */
  function WithWarnings(batches: Batches, alerts: Alerts, keys: set<Key>, t: Time): Alerts
    requires forall k :: k in keys ==> k.batch in batches
  {
    alerts + map k | k in keys && k !in alerts :: NewAlert(batches[k.batch], k.event, t)
  }

  /** One whole evaluation, running alone: what is outdated is resolved, what is due is raised once. */
  function Evaluated(batches: Batches, alerts: Alerts, s: Settings, now: Time, began: Time): Alerts {
    WithWarnings(batches, ResolveAll(alerts, OutdatedKeys(batches, alerts, began), began), DueKeys(batches, s, now), began)
  }

  // ----- what earns a warning -----

  /** At least the ratio of what was received is left, and something is. */
  predicate EnoughLeft(b: Batch, ratio: real) {
    b.received > 0 && b.remaining > 0 && b.remaining as real >= ratio * b.received as real
  }

  lemma QuotientAtLeast(x: real, y: real, ratio: real)
    requires y > 0.0
    ensures x / y >= ratio <==> x >= ratio * y
  {
    var q := x / y;
    assert q * y == x;
    if q >= ratio { assert (q - ratio) * y >= 0.0; } else { assert (ratio - q) * y > 0.0; }
  }

  lemma StockedIsEnoughLeft(b: Batch, ratio: real)
    ensures Stocked(b, ratio) <==> EnoughLeft(b, ratio)
  {
    if b.received > 0 { QuotientAtLeast(b.remaining as real, b.received as real, ratio); }
  }

  /** A batch with enough left earns the spoil warning once its spoil deadline is within the lead, and before
      that, if it came in fresh, the other warning once the end of its freshness is. */
  predicate Earned(batches: Batches, s: Settings, now: Time, k: Key) {
    k.batch in batches && EnoughLeft(batches[k.batch], s.ratio) &&
    var b := batches[k.batch];
    var spoils := b.deadlines.spoiledAt.Some? && b.deadlines.spoiledAt.value <= now + s.lead;
    var ages := b.initial == Some(Fresh) && b.deadlines.freshAt.Some? && b.deadlines.freshAt.value <= now + s.lead;
    (k.event == MediumToSpoiled && spoils) || (k.event == FreshToMedium && ages && !spoils)
  }

  lemma DueIsEarned(batches: Batches, s: Settings, now: Time, k: Key)
    ensures k in DueKeys(batches, s, now) <==> Earned(batches, s, now, k)
  {
    if k.batch in batches {
      StockedIsEnoughLeft(batches[k.batch], s.ratio);
      BranchesPartitionTheSelection(batches[k.batch], s, now);
      if Earned(batches, s, now, k) { assert k == DueKey(k.batch, batches[k.batch], s, now); }
    }
  }

  /** An evaluation raises exactly the warnings that are earned and not there yet. */
  lemma RaisedIffEarned(batches: Batches, alerts: Alerts, s: Settings, now: Time, began: Time, k: Key)
    ensures k in Evaluated(batches, alerts, s, now, began) <==> k in alerts || Earned(batches, s, now, k)
  {
    DueIsEarned(batches, s, now, k);
  }

  // ----- the reply of the selection -----

  /** `order by medium_to_spoiled_at, id`, nulls last. */
  predicate Before(batches: Batches, x: Uuid, y: Uuid)
    requires x in batches && y in batches
  {
    var dx, dy := batches[x].deadlines.spoiledAt, batches[y].deadlines.spoiledAt;
    if dx == dy then x < y
    else dx.Some? && (dy.None? || dx.value < dy.value)
  }

  ghost predicate IsReply(batches: Batches, s: Settings, now: Time, rows: seq<Uuid>) {
    && (forall i :: 0 <= i < |rows| ==> rows[i] in batches && Selected(batches[rows[i]], s, now))
    && (forall i, j :: 0 <= i < j < |rows| ==> Before(batches, rows[i], rows[j]))
    && (forall id :: id in batches && Selected(batches[id], s, now) ==> id in rows)
  }

  function KeysOf(batches: Batches, s: Settings, now: Time, rows: seq<Uuid>): set<Key> {
    set id | id in rows && id in batches :: DueKey(id, batches[id], s, now)
  }

  lemma ReplyIsTheSelection(batches: Batches, s: Settings, now: Time, rows: seq<Uuid>)
    requires IsReply(batches, s, now, rows)
    ensures KeysOf(batches, s, now, rows) == DueKeys(batches, s, now)
    ensures forall i, j :: 0 <= i < j < |rows| ==> rows[i] != rows[j]
  {}

  /** Rows with spoil deadlines come first, the earliest of them first, and ties go by identifier. */
  lemma ReplyIsOrdered(batches: Batches, s: Settings, now: Time, rows: seq<Uuid>, i: nat, j: nat)
    requires IsReply(batches, s, now, rows) && i < j < |rows|
    ensures var x, y := batches[rows[i]].deadlines.spoiledAt, batches[rows[j]].deadlines.spoiledAt;
            && (y.Some? ==> x.Some? && x.value <= y.value)
            && ((x.None? && y.None?) || (x.Some? && y.Some? && x.value == y.value) ==> rows[i] < rows[j])
  {
    assert Before(batches, rows[i], rows[j]);
  }

  // ----- in place -----

  class LifecycleTables {
    /** Whether `products` still has the tenant column that the selection joins on. Where it has, a foreign
        key makes the join find every batch's product; where it has not, the selection is refused. */
    const joinable: bool
    var batches: Batches
    var alerts: Alerts

    constructor (joinable: bool, batches: Batches, alerts: Alerts)
      ensures this.joinable == joinable && this.batches == batches && this.alerts == alerts
    {
      this.joinable, this.batches, this.alerts := joinable, batches, alerts;
    }

    /** `insert … on conflict do nothing returning id`. */
    method InsertAlert(id: Uuid, event: Event, deadline: Time, t: Time) returns (inserted: bool)
      requires id in batches && Deadline(batches[id], event) == Some(deadline)
      modifies this`alerts
      ensures inserted == (Key(id, event) !in old(alerts))
      ensures alerts == WithWarnings(batches, old(alerts), {Key(id, event)}, t)
    {
      var severity := Critical;
      if event == FreshToMedium { severity := Warning; }
      inserted := Key(id, event) !in alerts;
      if inserted { alerts := alerts[Key(id, event) := Alert(severity, Some(deadline), t, None, None, None)]; }
    }

    method ResolveOutdated(began: Time)
      modifies this`alerts
      ensures alerts == ResolveAll(old(alerts), OutdatedKeys(batches, old(alerts), began), began)
    {
      alerts := map k | k in alerts ::
        if k.batch in batches && (k.event == FreshToMedium || k.event == MediumToSpoiled) && alerts[k].resolvedAt.None? &&
           (batches[k.batch].remaining == 0 ||
            (k.event == FreshToMedium && batches[k.batch].deadlines.freshAt.Some? &&
             batches[k.batch].deadlines.freshAt.value <= began))
        then alerts[k].(resolvedAt := Some(began)) else alerts[k];
    }

    /** The loop body: a selected row makes exactly one insert attempt, for the event it is due. */
    method WarnAbout(id: Uuid, s: Settings, now: Time, began: Time) returns (inserted: nat)
      requires id in batches && Selected(batches[id], s, now)
      modifies this`alerts
      ensures alerts == WithWarnings(batches, old(alerts), {DueKey(id, batches[id], s, now)}, began)
      ensures alerts.Keys == old(alerts).Keys + {DueKey(id, batches[id], s, now)}
      ensures inserted == if DueKey(id, batches[id], s, now) in old(alerts) then 0 else 1
    {
      var dueBefore := now + s.lead;
      inserted := 0;
      var row := batches[id];
      var freshAt, spoiledAt := row.deadlines.freshAt, row.deadlines.spoiledAt;
      BranchesPartitionTheSelection(row, s, now);
      if row.initial == Some(Fresh) && freshAt.Some? && freshAt.value <= dueBefore &&
         (spoiledAt.None? || now < spoiledAt.value - s.lead)
      {
        var added := InsertAlert(id, FreshToMedium, freshAt.value, began);
        inserted := inserted + if added then 1 else 0;
      }
      if spoiledAt.Some? && spoiledAt.value <= dueBefore {
        var added := InsertAlert(id, MediumToSpoiled, spoiledAt.value, began);
        inserted := inserted + if added then 1 else 0;
      }
    }

    /** The loop over the selected rows. */
    method WarnAll(s: Settings, now: Time, began: Time, rows: seq<Uuid>) returns (inserted: nat)
      requires forall i :: 0 <= i < |rows| ==> rows[i] in batches && Selected(batches[rows[i]], s, now)
      modifies this`alerts
      ensures alerts == WithWarnings(batches, old(alerts), KeysOf(batches, s, now, rows), began)
      ensures inserted == |alerts.Keys - old(alerts).Keys|
    {
      inserted := 0;
      ghost var keys := {};
      for n := 0 to |rows|
        invariant keys == KeysOf(batches, s, now, rows[..n])
        invariant alerts == WithWarnings(batches, old(alerts), keys, began)
        invariant inserted == |alerts.Keys - old(alerts).Keys|
      {
        ghost var before, key := alerts.Keys, DueKey(rows[n], batches[rows[n]], s, now);
        OneMoreWarning(batches, old(alerts), keys, key, began);
        OneMoreRow(batches, s, now, rows, n);
        CountOneMore(before, old(alerts).Keys, key);
        var added := WarnAbout(rows[n], s, now, began);
        assert alerts.Keys == before + {key};
        inserted := inserted + added;
        keys := keys + {key};
      }
      assert rows[..|rows|] == rows;
    }

    /** The statements of `evaluate_due_lifecycle_alerts`; `rows` is the reply of the selection, `now` the worker's clock when
        it started, `began` the time of its transaction. None is the exception of a refused selection. */
    method RunStatements(hours: int, ratio: real, now: Time, began: Time, rows: seq<Uuid>) returns (inserted: Option<nat>)
      requires joinable ==> IsReply(batches, FromEnvironment(hours, ratio), now, rows)
      modifies this`alerts
      ensures inserted.Some? <==> joinable
      ensures alerts == if joinable then Evaluated(batches, old(alerts), FromEnvironment(hours, ratio), now, began) else old(alerts)
      ensures joinable ==> inserted == Some(|alerts.Keys - old(alerts).Keys|)
    {
      var before := alerts;
      ResolveOutdated(began);
      if !joinable {
        alerts := before;
        return None;
      }
      ReplyIsTheSelection(batches, FromEnvironment(hours, ratio), now, rows);
      assert alerts.Keys == old(alerts).Keys;
      var added := WarnAll(FromEnvironment(hours, ratio), now, began, rows);
      return Some(added);
    }

    /** `evaluate_due_lifecycle_alerts`: the new alerts are exactly the warnings earned and not there yet. */
    method Evaluate(hours: int, ratio: real, now: Time, began: Time, rows: seq<Uuid>) returns (inserted: Option<nat>)
      requires joinable ==> IsReply(batches, FromEnvironment(hours, ratio), now, rows)
      modifies this`alerts
      ensures inserted.Some? <==> joinable
      ensures alerts == if joinable then Evaluated(batches, old(alerts), FromEnvironment(hours, ratio), now, began) else old(alerts)
      ensures joinable ==> inserted == Some(|alerts.Keys - old(alerts).Keys|)
      ensures joinable ==> forall k: Key ::
                k in alerts <==> k in old(alerts) || Earned(batches, FromEnvironment(hours, ratio), now, k)
    {
      inserted := RunStatements(hours, ratio, now, began, rows);
      if joinable {
        forall k: Key ensures k in alerts <==> k in old(alerts) || Earned(batches, FromEnvironment(hours, ratio), now, k) {
          RaisedIffEarned(batches, old(alerts), FromEnvironment(hours, ratio), now, began, k);
        }
      }
    }

    method MarkRead(k: Key, t: Time) returns (found: bool)
      modifies this`alerts
      ensures found == (k in old(alerts))
      ensures Marks(old(alerts), alerts, k, true, false, false, t)
    {
      found := k in alerts;
      if found { alerts := alerts[k := alerts[k].(readAt := Some(Coalesce(alerts[k].readAt, t)))]; }
    }

    method Dismiss(k: Key, t: Time) returns (found: bool)
      modifies this`alerts
      ensures found == (k in old(alerts))
      ensures Marks(old(alerts), alerts, k, true, true, false, t)
    {
      found := k in alerts;
      if found {
        alerts := alerts[k := alerts[k].(readAt := Some(Coalesce(alerts[k].readAt, t)),
                                         resolvedAt := Some(Coalesce(alerts[k].resolvedAt, t)))];
      }
    }

    method MarkNotificationSent(k: Key, t: Time)
      modifies this`alerts
      ensures Marks(old(alerts), alerts, k, false, false, true, t)
    {
      if k in alerts { alerts := alerts[k := alerts[k].(sentAt := Some(Coalesce(alerts[k].sentAt, t)))]; }
    }

    /** The delivery loop of `evaluate_tenant_batch_lifecycle`; `accepts` says which pushes the provider takes. */
    method DeliverAll(reply: seq<Key>, accepts: Key -> bool, t: Time) returns (delivered: nat)
      requires (forall i :: 0 <= i < |reply| ==> reply[i] in alerts) && (forall i, j :: 0 <= i < j < |reply| ==> reply[i] != reply[j])
      modifies this`alerts
      ensures alerts == MarkAll(old(alerts), Accepted(reply, accepts), t)
      ensures delivered == |Accepted(reply, accepts)|
    {
      delivered := 0;
      ghost var done := {};
      for n := 0 to |reply|
        invariant done == Accepted(reply[..n], accepts) && done <= alerts.Keys
        invariant alerts == MarkAll(old(alerts), done, t)
        invariant delivered == |done|
      {
        var k := reply[n];
        AcceptedOneMore(reply, accepts, n);
        if accepts(k) {
          MarkOneMore(old(alerts), done, k, t);
          ghost var before := alerts;
          MarkNotificationSent(k, t);
          TouchingMarks(before, alerts, k, Sent, t);
          delivered := delivered + 1;
          done := done + {k};
        }
      }
      assert reply[..|reply|] == reply;
    }

    /** Pushing a page of `pending_alert_notifications`. */
    method DeliverPending(reply: seq<Key>, accepts: Key -> bool, t: Time) returns (delivered: nat)
      requires IsPendingReply(alerts, reply)
      modifies this`alerts
      ensures alerts == MarkAll(old(alerts), Accepted(reply, accepts), t)
      ensures Unsent(alerts) == Unsent(old(alerts)) - Accepted(reply, accepts)
      ensures delivered == |Accepted(reply, accepts)|
      ensures |reply| < PAGE && (forall k :: k in reply ==> accepts(k)) ==> Unsent(alerts) == {}
    {
      delivered := DeliverAll(reply, accepts, t);
      MarkedAreNotPending(old(alerts), Accepted(reply, accepts), t);
      if |reply| < PAGE && forall k :: k in reply ==> accepts(k) { PageEmpties(old(alerts), reply, accepts); }
    }
  }

  function Accepted(reply: seq<Key>, accepts: Key -> bool): set<Key> {
    set k | k in reply && accepts(k)
  }

  lemma PageEmpties(alerts: Alerts, reply: seq<Key>, accepts: Key -> bool)
    requires IsPendingReply(alerts, reply) && |reply| < PAGE && forall k :: k in reply ==> accepts(k)
    ensures Unsent(alerts) - Accepted(reply, accepts) == {}
  {}

  lemma AcceptedOneMore(reply: seq<Key>, accepts: Key -> bool, n: nat)
    requires n < |reply| && forall i, j :: 0 <= i < j < |reply| ==> reply[i] != reply[j]
    ensures reply[n] !in Accepted(reply[..n], accepts)
    ensures Accepted(reply[..n + 1], accepts) == Accepted(reply[..n], accepts) + if accepts(reply[n]) then {reply[n]} else {}
  {
    assert reply[..n + 1] == reply[..n] + [reply[n]];
  }

  function MarkAll(alerts: Alerts, keys: set<Key>, t: Time): Alerts {
    map k | k in alerts :: if k in keys then Touched(alerts[k], Sent, t) else alerts[k]
  }

  lemma MarkOneMore(alerts: Alerts, keys: set<Key>, k: Key, t: Time)
    requires k in alerts && k !in keys
    ensures MarkAll(alerts, keys, t)[k := Touched(alerts[k], Sent, t)] == MarkAll(alerts, keys + {k}, t)
  {}

  /** Marking takes exactly the marked alerts out of the pending ones. */
  lemma MarkedAreNotPending(alerts: Alerts, keys: set<Key>, t: Time)
    ensures Unsent(MarkAll(alerts, keys, t)) == Unsent(alerts) - keys
  {}

  const PAGE := 100

  function Unsent(alerts: Alerts): set<Key> {
    set k | k in alerts && alerts[k].sentAt.None? && alerts[k].resolvedAt.None?
  }

  /** The reply of `pending_alert_notifications`: distinct open alerts of any event without an accepted push,
      all of them unless the page is full. */
  ghost predicate IsPendingReply(alerts: Alerts, reply: seq<Key>) {
    && |reply| <= PAGE && (|reply| < PAGE ==> Unsent(alerts) <= set k | k in reply)
    && (forall i :: 0 <= i < |reply| ==> reply[i] in Unsent(alerts))
    && (forall i, j :: 0 <= i < j < |reply| ==> reply[i] != reply[j])
  }

  /** A page holds only alerts that are open and not pushed yet, and unless it is full it holds them all. */
  lemma PageIsOfOpenAlerts(alerts: Alerts, reply: seq<Key>, k: Key)
    requires IsPendingReply(alerts, reply)
    ensures k in reply ==> k in alerts && alerts[k].resolvedAt.None? && alerts[k].sentAt.None?
    ensures |reply| < 100 && k in alerts && alerts[k].resolvedAt.None? && alerts[k].sentAt.None? ==> k in reply
    ensures |reply| <= 100
  {
    if k in reply { var i :| 0 <= i < |reply| && reply[i] == k; }
    assert k in Unsent(alerts) <==> k in alerts && alerts[k].resolvedAt.None? && alerts[k].sentAt.None?;
    assert |reply| < 100 && k in Unsent(alerts) ==> k in set j | j in reply;
  }

  datatype Mark = MarkedRead | Dismissed | Sent

  /** What each of the three write-once updates does to an alert. */
  function Touched(a: Alert, mark: Mark, t: Time): Alert {
    match mark
    case MarkedRead => a.(readAt := Some(Coalesce(a.readAt, t)))
    case Dismissed => Resolved(a.(readAt := Some(Coalesce(a.readAt, t))), t)
    case Sent => a.(sentAt := Some(Coalesce(a.sentAt, t)))
  }

  /** A timestamp that is written is written only if it was null. */
  predicate Stamped(was: Option<Time>, now: Option<Time>, written: bool, t: Time) {
    if written && was.None? then now == Some(t) else now == was
  }

  /** Only the alert `k` may change, and of it only the timestamps named, each only if it was null. */
  ghost predicate Marks(alerts: Alerts, alerts': Alerts, k: Key, read: bool, resolved: bool, sent: bool, t: Time) {
    && alerts'.Keys == alerts.Keys
    && (forall j :: j in alerts && j != k ==> alerts'[j] == alerts[j])
    && (k in alerts ==>
          && SameFacts(alerts[k], alerts'[k])
          && Stamped(alerts[k].readAt, alerts'[k].readAt, read, t)
          && Stamped(alerts[k].resolvedAt, alerts'[k].resolvedAt, resolved, t)
          && Stamped(alerts[k].sentAt, alerts'[k].sentAt, sent, t))
  }

  predicate SameFacts(a: Alert, a': Alert) {
    a'.severity == a.severity && a'.transition == a.transition && a'.raisedAt == a.raisedAt
  }

  predicate Once(was: Option<Time>, now: Option<Time>) { was.Some? ==> now == was }

  /** What any stretch of a run does to an alert: facts stay, each timestamp is written at most once. */
  predicate AlertGrows(a: Alert, a': Alert) {
    SameFacts(a, a') && Once(a.readAt, a'.readAt) && Once(a.resolvedAt, a'.resolvedAt) && Once(a.sentAt, a'.sentAt)
  }

  /** Marking an alert only adds to it, and marking it again, at whatever time, changes nothing. */
  lemma MarksAreWriteOnce(alerts: Alerts, alerts': Alerts, alerts'': Alerts, k: Key,
                          read: bool, resolved: bool, sent: bool, t: Time, t': Time)
    requires Marks(alerts, alerts', k, read, resolved, sent, t)
    requires Marks(alerts', alerts'', k, read, resolved, sent, t')
    ensures alerts'' == alerts'
    ensures forall j :: j in alerts ==> AlertGrows(alerts[j], alerts'[j])
  {
    if k in alerts { assert alerts''[k] == alerts'[k]; }
  }

  /** The three kinds of mark are the three functions of an alert that the machine uses. */
  lemma TouchingMarks(alerts: Alerts, alerts': Alerts, k: Key, mark: Mark, t: Time)
    requires k in alerts
    ensures Marks(alerts, alerts', k, !mark.Sent?, mark.Dismissed?, mark.Sent?, t) <==>
            alerts' == alerts[k := Touched(alerts[k], mark, t)]
  {
    if Marks(alerts, alerts', k, !mark.Sent?, mark.Dismissed?, mark.Sent?, t) {
      assert alerts'[k] == Touched(alerts[k], mark, t);
    }
  }

  lemma OneMoreWarning(batches: Batches, alerts: Alerts, keys: set<Key>, key: Key, t: Time)
    requires key.batch in batches && forall k :: k in keys ==> k.batch in batches
    ensures WithWarnings(batches, alerts, keys + {key}, t) ==
            WithWarnings(batches, WithWarnings(batches, alerts, keys, t), {key}, t)
  {}

  lemma OneMoreRow(batches: Batches, s: Settings, now: Time, rows: seq<Uuid>, n: nat)
    requires n < |rows| && rows[n] in batches
    ensures KeysOf(batches, s, now, rows[..n + 1]) ==
            KeysOf(batches, s, now, rows[..n]) + {DueKey(rows[n], batches[rows[n]], s, now)}
  {
    assert rows[..n + 1] == rows[..n] + [rows[n]];
  }

  lemma CountOneMore(before: set<Key>, swept: set<Key>, key: Key)
    requires swept <= before
    ensures |before + {key} - swept| == |before - swept| + if key in before then 0 else 1
  {
    if key in before {
      assert before + {key} == before;
    } else {
      assert before + {key} - swept == (before - swept) + {key};
    }
  }

  // ----- laws of one evaluation -----

  /** Every due event has its alert afterwards, nothing else is new, and no alert loses a fact. */
  lemma EvaluationRaisesWhatIsDue(batches: Batches, alerts: Alerts, s: Settings, now: Time, began: Time)
    ensures Evaluated(batches, alerts, s, now, began).Keys == alerts.Keys + DueKeys(batches, s, now)
    ensures forall k :: k in alerts ==>
              Evaluated(batches, alerts, s, now, began)[k] ==
              if Outdated(batches, alerts, began, k) then Resolved(alerts[k], began) else alerts[k]
    ensures forall id :: id in batches ==>
              ((exists e :: Key(id, e) in DueKeys(batches, s, now)) <==> Selected(batches[id], s, now))
  {
    forall id | id in batches && Selected(batches[id], s, now)
      ensures exists e :: Key(id, e) in DueKeys(batches, s, now)
    {
      assert DueKey(id, batches[id], s, now) in DueKeys(batches, s, now);
    }
  }

  /** The warnings an evaluation raises past their own freshness deadline. */
  predicate BornOverdue(batches: Batches, alerts: Alerts, began: Time, k: Key) {
    && k !in alerts && k.event == FreshToMedium
    && k.batch in batches && Due(batches[k.batch].deadlines.freshAt, began)
  }

  lemma OutdatedAfterwards(batches: Batches, alerts: Alerts, s: Settings, now: Time, began: Time, k: Key)
    requires k in Evaluated(batches, alerts, s, now, began)
    ensures Outdated(batches, Evaluated(batches, alerts, s, now, began), began, k) <==> BornOverdue(batches, alerts, began, k)
  {
    EvaluationRaisesWhatIsDue(batches, alerts, s, now, began);
    if k !in alerts {
      assert k in DueKeys(batches, s, now);
      assert batches[k.batch].remaining > 0;
    }
  }

  /** Evaluating again at the same time inserts nothing. Only a warning that the first evaluation raised
      after its own freshness deadline changes: it is resolved. */
  lemma RepeatInsertsNothing(batches: Batches, alerts: Alerts, s: Settings, now: Time, began: Time)
    ensures var once := Evaluated(batches, alerts, s, now, began);
            var twice := Evaluated(batches, once, s, now, began);
            && twice.Keys == once.Keys
            && (forall k :: k in once ==> (twice[k] != once[k] <==> BornOverdue(batches, alerts, began, k)))
  {
    var once := Evaluated(batches, alerts, s, now, began);
    EvaluationRaisesWhatIsDue(batches, alerts, s, now, began);
    EvaluationRaisesWhatIsDue(batches, once, s, now, began);
    forall k | k in once
      ensures Evaluated(batches, once, s, now, began)[k] != once[k] <==> BornOverdue(batches, alerts, began, k)
    {
      OutdatedAfterwards(batches, alerts, s, now, began, k);
    }
  }

  /** From the second evaluation at a time on, nothing changes at all. */
  lemma SecondRepeatChangesNothing(batches: Batches, alerts: Alerts, s: Settings, now: Time, began: Time)
    ensures var twice := Evaluated(batches, Evaluated(batches, alerts, s, now, began), s, now, began);
            Evaluated(batches, twice, s, now, began) == twice
  {
    var once := Evaluated(batches, alerts, s, now, began);
    RepeatInsertsNothing(batches, once, s, now, began);
    RepeatInsertsNothing(batches, alerts, s, now, began);
    var twice := Evaluated(batches, once, s, now, began);
    forall k | k in twice ensures !BornOverdue(batches, once, began, k) {}
  }

  // ----- a reply always exists -----

  lemma {:induction false} ReplyExists(batches: Batches, s: Settings, now: Time) returns (rows: seq<Uuid>)
    ensures IsReply(batches, s, now, rows)
  {
    var ids := set id | id in batches && Selected(batches[id], s, now);
    rows := Arrange(batches, ids);
    forall i | 0 <= i < |rows| ensures rows[i] in batches && Selected(batches[rows[i]], s, now) {
      assert rows[i] in ids;
    }
  }

  lemma {:induction false} Arrange(batches: Batches, ids: set<Uuid>) returns (rows: seq<Uuid>)
    requires ids <= batches.Keys
    decreases ids
    ensures forall i, j :: 0 <= i < j < |rows| ==> rows[i] in batches && rows[j] in batches && Before(batches, rows[i], rows[j])
    ensures forall id :: id in rows <==> id in ids
  {
    if ids == {} { return []; }
    var last := Last(batches, ids);
    var front := Arrange(batches, ids - {last});
    rows := front + [last];
  }

  lemma {:induction false} Last(batches: Batches, ids: set<Uuid>) returns (last: Uuid)
    requires ids != {} && ids <= batches.Keys
    decreases ids
    ensures last in ids && forall id :: id in ids && id != last ==> Before(batches, id, last)
  {
    var first :| first in ids;
    last := first;
    var rest := ids - {first};
    assert ids == rest + {first};
    if rest != {} {
      var other := Last(batches, rest);
      if Before(batches, first, other) {
        last := other;
      } else {
        forall id | id in rest ensures Before(batches, id, first) {
          assert Before(batches, other, first);
        }
      }
    }
  }
}
