/** Tenant applications, and the invitations that provision their users. */
module Onboarding {
  import opened Prelude

  datatype Status =
    | Pending
    | Approved(tenant: Uuid, user: Uuid)
    | Rejected

  /** `users` maps a provisioned user row to its tenant; `auth` are the users of the external Auth service. */
  datatype Tables = Tables(apps: map<Uuid, Status>, tenants: set<Uuid>, users: map<Uuid, Uuid>, auth: set<Uuid>)

  /** Which steps of one call fail. */
  datatype Faults = Faults(invite: bool, insert: bool, update: bool, delete: bool, commit: bool)

  datatype Reply =
    | Answered(status: Status)
    | Provisioned(user: Uuid)
    | NotFound
    | WrongState
    | Broken

  /** The invited user is left behind when the call failed and could not undo the invitation. */
  predicate Strands(f: Faults, updates: bool) {
    !f.invite && if f.insert || (updates && f.update) then f.delete else f.commit
  }

  predicate Succeeds(f: Faults, updates: bool) {
    !f.invite && !f.insert && !(updates && f.update) && !f.commit
  }

  function Stranded(t: Tables, user: Uuid): Tables { t.(auth := t.auth + {user}) }

  /** One `approve`, running alone. */
  function AfterApprove(t: Tables, app: Uuid, user: Uuid, tenant: Uuid, f: Faults): (Tables, Reply) {
    if app !in t.apps then (t, NotFound)
    else if t.apps[app].Approved? then (t, Answered(t.apps[app]))
    else if t.apps[app].Rejected? then (t, WrongState)
    else if Succeeds(f, true) then
      (Tables(t.apps[app := Approved(tenant, user)], t.tenants + {tenant}, t.users[user := tenant], t.auth + {user}),
       Answered(Approved(tenant, user)))
    else if Strands(f, true) then (Stranded(t, user), Broken)
    else (t, Broken)
  }

  /** One `reject`, running alone. */
  function AfterReject(t: Tables, app: Uuid, f: Faults): (Tables, Reply) {
    if app !in t.apps then (t, NotFound)
    else if !t.apps[app].Pending? then (t, WrongState)
    else if f.update || f.commit then (t, Broken)
    else (t.(apps := t.apps[app := Rejected]), Answered(Rejected))
  }

  /** One `create_user`, running alone. */
  function AfterCreateUser(t: Tables, tenant: Uuid, user: Uuid, f: Faults): (Tables, Reply) {
    if tenant !in t.tenants then (t, NotFound)
    else if Succeeds(f, false) then (t.(users := t.users[user := tenant], auth := t.auth + {user}), Provisioned(user))
    else if Strands(f, false) then (Stranded(t, user), Broken)
    else (t, Broken)
  }

  /** Which answer each call gives: an unknown subject is not found, a decided application cannot be decided
      otherwise, an approved one answers its own record and changes nothing, and only what succeeds throughout is
      answered as done. */
  lemma RepliesAre(t: Tables, id: Uuid, user: Uuid, tenant: Uuid, f: Faults)
    ensures var (t', r) := AfterApprove(t, id, user, tenant, f);
            && (r == NotFound <==> id !in t.apps)
            && (r == WrongState <==> id in t.apps && t.apps[id] == Rejected)
            && (id in t.apps && t.apps[id].Approved? ==> r == Answered(t.apps[id]))
            && (id in t.apps && t.apps[id].Pending? ==>
                  (r == Answered(Approved(tenant, user)) <==> !f.invite && !f.insert && !f.update && !f.commit) &&
                  (r != Answered(Approved(tenant, user)) ==> r == Broken && t' == t.(auth := t'.auth)))
            && (!(id in t.apps && t.apps[id].Pending?) ==> t' == t)
    ensures var (t', r) := AfterReject(t, id, f);
            && (r == NotFound <==> id !in t.apps)
            && (r == WrongState <==> id in t.apps && !t.apps[id].Pending?)
            && (r == Answered(Rejected) <==> id in t.apps && t.apps[id].Pending? && !f.update && !f.commit)
            && (r == Answered(Rejected) ==> t' == t.(apps := t.apps[id := Rejected]))
            && (r != Answered(Rejected) ==> t' == t)
    ensures var (t', r) := AfterCreateUser(t, id, user, f);
            && (r == NotFound <==> id !in t.tenants)
            && (r == Provisioned(user) <==> id in t.tenants && !f.invite && !f.insert && !f.commit)
            && (r == Provisioned(user) ==> user in t'.users && t'.users[user] == id && user in t'.auth)
            && (r != Provisioned(user) ==> t' == t.(auth := t'.auth))
  {}

  /** Every approved application names a provisioned user of an existing tenant, and every user has an Auth user. */
  predicate Sound(t: Tables) {
    && t.users.Keys <= t.auth
    && forall a :: a in t.apps && t.apps[a].Approved? ==>
         t.apps[a].tenant in t.tenants && t.apps[a].user in t.users && t.users[t.apps[a].user] == t.apps[a].tenant
  }

  // ----- in place -----

  class OnboardingServices {
    var apps: map<Uuid, Status>
    var tenants: set<Uuid>
    var users: map<Uuid, Uuid>
    var auth: set<Uuid>

    function State(): Tables
      reads this
    {
      Tables(apps, tenants, users, auth)
    }

    constructor (t: Tables)
      ensures State() == t
    {
      apps, tenants, users, auth := t.apps, t.tenants, t.users, t.auth;
    }

    /** The Auth service; its users are outside any transaction. */
    method Invite(user: Uuid, fails: bool) returns (ok: bool)
      modifies this`auth
      ensures ok == !fails && auth == if fails then old(auth) else old(auth) + {user}
    {
      ok := !fails;
      if ok { auth := auth + {user}; }
    }

    method Delete(user: Uuid, fails: bool)
      modifies this`auth
      ensures auth == if fails then old(auth) else old(auth) - {user}
    {
      if !fails { auth := auth - {user}; }
    }

    /** The end of a transaction that started from `before`: the Auth service keeps what it has. */
    method Rollback(before: Tables)
      modifies this
      ensures State() == before.(auth := old(auth))
    {
      apps, tenants, users := before.apps, before.tenants, before.users;
    }

    /** `TenantService.create`: invite, insert both rows, delete the invited user if an insert fails. */
    method CreateTenant(user: Uuid, tenant: Uuid, f: Faults) returns (ok: bool)
      requires user !in auth
      modifies this
      ensures ok == (!f.invite && !f.insert)
      ensures ok ==> State() == Tables(old(apps), old(tenants) + {tenant}, old(users)[user := tenant], old(auth) + {user})
      ensures !ok ==> auth == if !f.invite && f.delete then old(auth) + {user} else old(auth)
      ensures !ok ==> apps == old(apps)
    {
      ok := Invite(user, f.invite);
      if !ok { return; }
      tenants := tenants + {tenant};
      if f.insert {
        Delete(user, f.delete);
        return false;
      }
      users := users[user := tenant];
    }

    method Approve(app: Uuid, user: Uuid, tenant: Uuid, f: Faults) returns (reply: Reply)
      requires user !in auth
      modifies this
      ensures (State(), reply) == AfterApprove(old(State()), app, user, tenant, f)
    {
      var before := State();
      if app !in apps { return NotFound; }
      if apps[app].Approved? { return Answered(apps[app]); }
      if !apps[app].Pending? { return WrongState; }
      var created := CreateTenant(user, tenant, f);
      if created && f.update { Delete(user, f.delete); }
      if !created || f.update || f.commit {
        Rollback(before);
        return Broken;
      }
      apps := apps[app := Approved(tenant, user)];
      return Answered(apps[app]);
    }

    /** One conditional update; its row count says whether the application was pending. */
    method Reject(app: Uuid, f: Faults) returns (reply: Reply)
      modifies this
      ensures (State(), reply) == AfterReject(old(State()), app, f)
    {
      var pending := app in apps && apps[app].Pending?;
      if pending {
        if f.update || f.commit { return Broken; }
        apps := apps[app := Rejected];
        return Answered(Rejected);
      }
      if app !in apps { return NotFound; }
      return WrongState;
    }

    method CreateUser(tenant: Uuid, user: Uuid, f: Faults) returns (reply: Reply)
      requires user !in auth
      modifies this
      ensures (State(), reply) == AfterCreateUser(old(State()), tenant, user, f)
    {
      var before := State();
      if tenant !in tenants { return NotFound; }
      var invited := Invite(user, f.invite);
      if !invited { return Broken; }
      if f.insert {
        Delete(user, f.delete);
        return Broken;
      }
      users := users[user := tenant];
      if f.commit {
        Rollback(before);
        return Broken;
      }
      return Provisioned(user);
    }
  }
}
