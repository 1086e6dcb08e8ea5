/** Racing approvals, rejections and user creations, one step at a time. */
module OnboardingMachine {
  import opened Prelude
  import opened Onboarding

  datatype Request =
    | Approve(app: Uuid)
    | Reject(app: Uuid)
    | CreateUser(tenant: Uuid)

  /** `Invited`, `Inserted` and `Updated` hold an invited user whose row is not committed; `Undoing` is the
      compensating delete, after the failed transaction has let go of its locks. */
  datatype Phase =
    | Start
    | Locked
    | Invited(user: Uuid)
    | Inserted(user: Uuid, tenant: Uuid)
    | Updated(user: Uuid, tenant: Uuid)
    | Rejecting
    | Undoing(user: Uuid)
    | Closed(reply: Reply)

  /** History: the Auth users left behind, the invitations sent for each application, and the applications
      decided, in order. */
  datatype State = State(tables: Tables, phases: seq<Phase>, orphans: set<Uuid>, invites: multiset<Uuid>, decided: seq<Uuid>)

  datatype Action =
    | Read(i: nat)
    | Invite(i: nat, user: Uuid)
    | LoseInvite(i: nat, user: Uuid)
    | RefuseInvite(i: nat)
    | Insert(i: nat, tenant: Uuid)
    | Update(i: nat)
    | Raise(i: nat)
    | Delete(i: nat)
    | FailDelete(i: nat)
    | Commit(i: nat)
    | FailCommit(i: nat)
    | Crash(i: nat)

  datatype Config = Config(requests: seq<Request>, tables: Tables)

  function Init(c: Config): State {
    State(c.tables, seq(|c.requests|, _ => Start), c.tables.auth - c.tables.users.Keys, multiset{}, [])
  }

  predicate InRange(c: Config, s: State, i: nat) { i < |s.phases| == |c.requests| }

  predicate HasUser(p: Phase) { p.Invited? || p.Inserted? || p.Updated? || p.Undoing? }

  predicate HoldsLock(r: Request, p: Phase) {
    !r.CreateUser? && (p.Locked? || p.Invited? || p.Inserted? || p.Updated? || p.Rejecting?)
  }

  /** The application's row is locked by another transaction. */
  predicate Waits(c: Config, s: State, i: nat)
    requires InRange(c, s, i)
  {
    !c.requests[i].CreateUser? &&
    exists j :: 0 <= j < |s.phases| && j != i && HoldsLock(c.requests[j], s.phases[j]) && c.requests[j].app == c.requests[i].app
  }

  predicate ReadyToCommit(r: Request, p: Phase) {
    match r
    case Approve(_) => p.Updated?
    case Reject(_) => p.Rejecting?
    case CreateUser(_) => p.Inserted?
  }

  predicate Enabled(c: Config, s: State, a: Action) {
    InRange(c, s, a.i) &&
    var r, p := c.requests[a.i], s.phases[a.i];
    match a
    case Read(i) => p.Start? && !Waits(c, s, i)
    case Invite(_, user) => p.Locked? && user !in s.tables.auth
    case LoseInvite(_, user) => p.Locked? && user !in s.tables.auth
    case RefuseInvite(_) => p.Locked?
    case Insert(_, tenant) => p.Invited? && (if r.Approve? then tenant !in s.tables.tenants else r.CreateUser? && tenant == r.tenant)
    case Update(_) => p.Inserted? && r.Approve?
    case Raise(_) => p.Invited? || (p.Inserted? && r.Approve?) || p.Rejecting?
    case Delete(_) => p.Undoing?
    case FailDelete(_) => p.Undoing?
    case Commit(_) => ReadyToCommit(r, p)
    case FailCommit(_) => ReadyToCommit(r, p)
    case Crash(_) => !p.Start? && !p.Closed?
  }

  /** What the first statement of a call finds. */
  function Opened(t: Tables, r: Request): Phase {
    match r
    case Approve(app) =>
      if app !in t.apps then Closed(NotFound)
      else (match t.apps[app]
            case Pending => Locked
            case Approved(_, _) => Closed(Answered(t.apps[app]))
            case Rejected => Closed(WrongState))
    case Reject(app) =>
      if app !in t.apps then Closed(NotFound) else if t.apps[app].Pending? then Rejecting else Closed(WrongState)
    case CreateUser(tenant) => if tenant !in t.tenants then Closed(NotFound) else Locked
  }

  function Put(s: State, i: nat, p: Phase): State
    requires i < |s.phases|
  {
    s.(phases := s.phases[i := p])
  }

  function Sent(s: State, r: Request, user: Uuid): State {
    s.(tables := s.tables.(auth := s.tables.auth + {user}),
       invites := s.invites + if r.Approve? then multiset{r.app} else multiset{})
  }

  function Lost(s: State, p: Phase): State {
    if HasUser(p) then s.(orphans := s.orphans + {p.user}) else s
  }

  function Committed(s: State, i: nat, r: Request, p: Phase): State
    requires i < |s.phases| && ReadyToCommit(r, p)
  {
    var t := s.tables;
    match r
    case Approve(app) =>
      var status := Approved(p.tenant, p.user);
      Put(s, i, Closed(Answered(status))).(
        tables := t.(apps := t.apps[app := status], tenants := t.tenants + {p.tenant}, users := t.users[p.user := p.tenant]),
        decided := s.decided + [app])
    case Reject(app) =>
      Put(s, i, Closed(Answered(Rejected))).(tables := t.(apps := t.apps[app := Rejected]), decided := s.decided + [app])
    case CreateUser(_) =>
      Put(s, i, Closed(Provisioned(p.user))).(tables := t.(users := t.users[p.user := p.tenant]))
  }

  function Next(c: Config, s: State, a: Action): State
    requires Enabled(c, s, a)
  {
    var r, p := c.requests[a.i], s.phases[a.i];
    match a
    case Read(i) => Put(s, i, Opened(s.tables, r))
    case Invite(i, user) => Put(Sent(s, r, user), i, Invited(user))
    case LoseInvite(i, user) => Lost(Put(Sent(s, r, user), i, Closed(Broken)), Invited(user))
    case RefuseInvite(i) => Put(s, i, Closed(Broken))
    case Insert(i, tenant) => Put(s, i, Inserted(p.user, tenant))
    case Update(i) => Put(s, i, Updated(p.user, p.tenant))
    case Raise(i) => Put(s, i, if HasUser(p) then Undoing(p.user) else Closed(Broken))
    case Delete(i) => Put(s, i, Closed(Broken)).(tables := s.tables.(auth := s.tables.auth - {p.user}))
    case FailDelete(i) => Lost(Put(s, i, Closed(Broken)), p)
    case Commit(i) => Committed(s, i, r, p)
    case FailCommit(i) => Lost(Put(s, i, Closed(Broken)), p)
    case Crash(i) => Lost(Put(s, i, Closed(Broken)), p)
  }

  // ----- runs -----

  predicate CanRun(c: Config, actions: seq<Action>)
    decreases |actions|, 0
  {
    actions == [] ||
    (CanRun(c, actions[..|actions| - 1]) && Enabled(c, Reached(c, actions[..|actions| - 1]), actions[|actions| - 1]))
  }

  function Reached(c: Config, actions: seq<Action>): State
    requires CanRun(c, actions)
    decreases |actions|, 1
  {
    if actions == [] then Init(c) else Next(c, Reached(c, actions[..|actions| - 1]), actions[|actions| - 1])
  }

  // ----- the invariant -----

  predicate IsApp(s: State, app: Uuid, status: Status) { app in s.tables.apps && s.tables.apps[app] == status }

  /** A lock holder found its application pending, and it still is; an answer is what the record says. */
  predicate CallInv(s: State, r: Request, p: Phase) {
    && (HoldsLock(r, p) ==> IsApp(s, r.app, Pending))
    && (p.Rejecting? ==> r.Reject?)
    && (p.Updated? ==> r.Approve?)
    && (p.Inserted? && r.CreateUser? ==> p.tenant == r.tenant)
    && (r.Reject? ==> !HasUser(p) && !p.Locked?)
    && (p.Closed? && p.reply.Answered? && !r.CreateUser? ==> IsApp(s, r.app, p.reply.status) && !p.reply.status.Pending?)
    && (p.Closed? && p.reply.Provisioned? ==> p.reply.user in s.tables.users)
  }

  predicate Exclusive(c: Config, s: State, i: nat, j: nat)
    requires InRange(c, s, i) && InRange(c, s, j)
  {
    HoldsLock(c.requests[i], s.phases[i]) && HoldsLock(c.requests[j], s.phases[j]) ==> c.requests[i].app != c.requests[j].app
  }

  /** Invited users are provisioned, in flight, or left behind: never two of these. */
  predicate InFlight(s: State, p: Phase) {
    HasUser(p) ==> p.user in s.tables.auth && p.user !in s.tables.users && p.user !in s.orphans
  }

  predicate Held(phases: seq<Phase>, user: Uuid) {
    exists i :: 0 <= i < |phases| && HasUser(phases[i]) && phases[i].user == user
  }

  ghost predicate Accounts(s: State) {
    && s.tables.users.Keys <= s.tables.auth && s.orphans <= s.tables.auth && s.tables.users.Keys !! s.orphans
    && (forall i :: 0 <= i < |s.phases| ==> InFlight(s, s.phases[i]))
    && (forall i, j :: 0 <= i < j < |s.phases| && HasUser(s.phases[i]) && HasUser(s.phases[j]) ==> s.phases[i].user != s.phases[j].user)
    && (forall u :: u in s.tables.auth ==> u in s.tables.users || u in s.orphans || Held(s.phases, u))
  }

  ghost predicate DecidedOnce(c: Config, s: State) {
    && (forall k, m :: 0 <= k < m < |s.decided| ==> s.decided[k] != s.decided[m])
    && (forall k :: 0 <= k < |s.decided| ==>
          s.decided[k] in s.tables.apps && !s.tables.apps[s.decided[k]].Pending? &&
          s.decided[k] in c.tables.apps && c.tables.apps[s.decided[k]].Pending?)
    && (forall app :: app in c.tables.apps <==> app in s.tables.apps)
    && (forall app :: app in s.tables.apps && app !in s.decided ==> s.tables.apps[app] == c.tables.apps[app])
  }

  ghost predicate Inv(c: Config, s: State) {
    && |s.phases| == |c.requests|
    && Sound(s.tables) && Accounts(s) && DecidedOnce(c, s)
    && (forall i :: 0 <= i < |c.requests| ==> CallInv(s, c.requests[i], s.phases[i]))
    && (forall i, j :: 0 <= i < j < |c.requests| ==> Exclusive(c, s, i, j))
  }

  /** Decisions are final, provisioned users stay, and no invitation is sent for a decided application. */
  ghost predicate Grows(s: State, s': State) {
    && (forall app :: app in s.tables.apps ==> app in s'.tables.apps)
    && (forall app :: app in s.tables.apps && !s.tables.apps[app].Pending? ==>
          IsApp(s', app, s.tables.apps[app]) && s'.invites[app] == s.invites[app])
    && (forall u :: u in s.tables.users ==> u in s'.tables.users && s'.tables.users[u] == s.tables.users[u])
    && s.tables.tenants <= s'.tables.tenants && s.orphans <= s'.orphans
  }
}
