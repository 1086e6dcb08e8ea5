/** What racing reviews and user creations guarantee over every run. */
module OnboardingTheorems {
  import opened Prelude
  import opened Onboarding
  import opened OnboardingMachine

  lemma StepGrows(c: Config, s: State, a: Action)
    requires Inv(c, s) && Enabled(c, s, a)
    ensures Grows(s, Next(c, s, a))
  {
    assert CallInv(s, c.requests[a.i], s.phases[a.i]);
    assert InFlight(s, s.phases[a.i]);
  }

  lemma UsersStayApart(c: Config, s: State, a: Action, j: nat)
    requires Inv(c, s) && Enabled(c, s, a) && j < |s.phases| && j != a.i
    ensures InFlight(Next(c, s, a), s.phases[j])
    ensures HasUser(s.phases[j]) && HasUser(Next(c, s, a).phases[a.i]) ==> Next(c, s, a).phases[a.i].user != s.phases[j].user
  {
    assert InFlight(s, s.phases[a.i]) && InFlight(s, s.phases[j]);
  }

  lemma ActorAccounted(c: Config, s: State, a: Action)
    requires Inv(c, s) && Enabled(c, s, a)
    ensures var s' := Next(c, s, a);
            && s'.tables.users.Keys <= s'.tables.auth && s'.orphans <= s'.tables.auth && s'.tables.users.Keys !! s'.orphans
            && InFlight(s', s'.phases[a.i])
  {
    assert InFlight(s, s.phases[a.i]) && CallInv(s, c.requests[a.i], s.phases[a.i]);
  }

  lemma NobodyUnaccounted(c: Config, s: State, a: Action, u: Uuid)
    requires Inv(c, s) && Enabled(c, s, a) && u in Next(c, s, a).tables.auth
    ensures var s' := Next(c, s, a); u in s'.tables.users || u in s'.orphans || Held(s'.phases, u)
  {
    var s', p := Next(c, s, a), s.phases[a.i];
    if u in s.tables.auth && Held(s.phases, u) {
      var k :| 0 <= k < |s.phases| && HasUser(s.phases[k]) && s.phases[k].user == u;
      if k != a.i { assert s'.phases[k] == s.phases[k]; }
    }
    assert HasUser(s'.phases[a.i]) ==> Held(s'.phases, s'.phases[a.i].user);
  }

  lemma AccountsKept(c: Config, s: State, a: Action)
    requires Inv(c, s) && Enabled(c, s, a)
    ensures Accounts(Next(c, s, a))
  {
    var s' := Next(c, s, a);
    ActorAccounted(c, s, a);
    forall j | 0 <= j < |s.phases| && j != a.i
      ensures s'.phases[j] == s.phases[j] && InFlight(s', s'.phases[j])
      ensures HasUser(s.phases[j]) && HasUser(s'.phases[a.i]) ==> s'.phases[a.i].user != s.phases[j].user
    {
      UsersStayApart(c, s, a, j);
    }
    forall u | u in s'.tables.auth ensures u in s'.tables.users || u in s'.orphans || Held(s'.phases, u) {
      NobodyUnaccounted(c, s, a, u);
    }
  }

  lemma OthersKept(c: Config, s: State, a: Action, j: nat)
    requires Inv(c, s) && Enabled(c, s, a) && j < |s.phases| && j != a.i
    ensures CallInv(Next(c, s, a), c.requests[j], s.phases[j])
  {
    StepGrows(c, s, a);
    assert CallInv(s, c.requests[j], s.phases[j]) && CallInv(s, c.requests[a.i], s.phases[a.i]);
    assert if j < a.i then Exclusive(c, s, j, a.i) else Exclusive(c, s, a.i, j);
  }

  lemma ActorKept(c: Config, s: State, a: Action)
    requires Enabled(c, s, a) && CallInv(s, c.requests[a.i], s.phases[a.i])
    ensures CallInv(Next(c, s, a), c.requests[a.i], Next(c, s, a).phases[a.i])
  {}

  lemma CallsKept(c: Config, s: State, a: Action, j: nat)
    requires Inv(c, s) && Enabled(c, s, a) && j < |s.phases|
    ensures CallInv(Next(c, s, a), c.requests[j], Next(c, s, a).phases[j])
  {
    if j == a.i { ActorKept(c, s, a); } else { OthersKept(c, s, a, j); }
  }

  lemma ExclusionKept(c: Config, s: State, a: Action, i: nat, j: nat)
    requires Inv(c, s) && Enabled(c, s, a) && i < j < |s.phases|
    ensures Exclusive(c, Next(c, s, a), i, j)
  {
    assert Exclusive(c, s, i, j);
  }

  lemma DecisionsKept(c: Config, s: State, a: Action)
    requires Inv(c, s) && Enabled(c, s, a)
    ensures DecidedOnce(c, Next(c, s, a)) && Sound(Next(c, s, a).tables)
  {
    assert CallInv(s, c.requests[a.i], s.phases[a.i]);
    assert InFlight(s, s.phases[a.i]);
  }

  lemma StepKeepsInv(c: Config, s: State, a: Action)
    requires Inv(c, s) && Enabled(c, s, a)
    ensures Inv(c, Next(c, s, a))
  {
    AccountsKept(c, s, a);
    DecisionsKept(c, s, a);
    forall j | 0 <= j < |s.phases| ensures CallInv(Next(c, s, a), c.requests[j], Next(c, s, a).phases[j]) {
      CallsKept(c, s, a, j);
    }
    forall i, j | 0 <= i < j < |s.phases| ensures Exclusive(c, Next(c, s, a), i, j) {
      ExclusionKept(c, s, a, i, j);
    }
  }

  lemma {:induction false} RunKeepsInv(c: Config, actions: seq<Action>)
    requires Sound(c.tables) && CanRun(c, actions)
    ensures Inv(c, Reached(c, actions))
  {
    if actions != [] {
      RunKeepsInv(c, actions[..|actions| - 1]);
      StepKeepsInv(c, Reached(c, actions[..|actions| - 1]), actions[|actions| - 1]);
    }
  }

  lemma GrowsOn(s: State, s': State, s'': State)
    requires Grows(s, s') && Grows(s', s'')
    ensures Grows(s, s'')
  {}

  lemma {:induction false} RunGrows(c: Config, actions: seq<Action>, n: nat)
    requires Sound(c.tables) && CanRun(c, actions) && n <= |actions|
    ensures CanRun(c, actions[..n]) && Grows(Reached(c, actions[..n]), Reached(c, actions))
  {
    if n == |actions| {
      assert actions[..n] == actions;
    } else {
      var front, last := actions[..|actions| - 1], actions[|actions| - 1];
      RunGrows(c, front, n);
      assert front[..n] == actions[..n];
      RunKeepsInv(c, front);
      StepGrows(c, Reached(c, front), last);
      GrowsOn(Reached(c, actions[..n]), Reached(c, front), Reached(c, actions));
    }
  }

  /** However approvals and rejections race, an application leaves pending at most once, and only from pending:
      the decisions made are exactly the applications that are no longer pending but were, each made once. */
  lemma LeavesPendingOnce(c: Config, actions: seq<Action>)
    requires Sound(c.tables) && CanRun(c, actions)
    ensures var s := Reached(c, actions);
            && (forall k, m :: 0 <= k < m < |s.decided| ==> s.decided[k] != s.decided[m])
            && s.tables.apps.Keys == c.tables.apps.Keys
            && (forall app :: app in c.tables.apps ==>
                  (app in s.decided <==> c.tables.apps[app].Pending? && !s.tables.apps[app].Pending?) &&
                  (app !in s.decided ==> s.tables.apps[app] == c.tables.apps[app]))
  {
    RunKeepsInv(c, actions);
  }

  /** An invitation for application `app`, whatever becomes of it. */
  predicate Invites(c: Config, a: Action, app: Uuid) {
    (a.Invite? || a.LoseInvite?) && a.i < |c.requests| && c.requests[a.i] == Approve(app)
  }

  predicate IsDecided(s: State, app: Uuid) { app in s.tables.apps && !s.tables.apps[app].Pending? }

  lemma DecidedIsNotInvited(c: Config, s: State, a: Action, app: Uuid)
    requires Enabled(c, s, a) && CallInv(s, c.requests[a.i], s.phases[a.i]) && IsDecided(s, app)
    ensures !Invites(c, a, app)
  {}

  lemma NextIsNotInvited(c: Config, front: seq<Action>, a: Action, n: nat, app: Uuid)
    requires Sound(c.tables) && CanRun(c, front) && Enabled(c, Reached(c, front), a) && n <= |front|
    requires CanRun(c, front[..n]) && IsDecided(Reached(c, front[..n]), app)
    ensures !Invites(c, a, app)
  {
    RunGrows(c, front, n);
    RunKeepsInv(c, front);
    DecidedIsNotInvited(c, Reached(c, front), a, app);
  }

  lemma EnabledAt(c: Config, actions: seq<Action>, m: nat)
    requires Sound(c.tables) && CanRun(c, actions) && m < |actions|
    ensures CanRun(c, actions[..m]) && Enabled(c, Reached(c, actions[..m]), actions[m])
  {
    RunGrows(c, actions, m + 1);
    assert actions[..m + 1][..m] == actions[..m];
  }

  lemma NotInvitedAt(c: Config, actions: seq<Action>, n: nat, m: nat, app: Uuid)
    requires Sound(c.tables) && CanRun(c, actions) && n <= m < |actions|
    requires CanRun(c, actions[..n]) && IsDecided(Reached(c, actions[..n]), app)
    ensures !Invites(c, actions[m], app)
  {
    EnabledAt(c, actions, m);
    assert actions[..m][..n] == actions[..n];
    NextIsNotInvited(c, actions[..m], actions[m], n, app);
  }

  /** From the moment an application is decided its record is final and no invitation is sent for it: approving
      it again invites nobody. */
  lemma DecisionIsFinal(c: Config, actions: seq<Action>, n: nat, app: Uuid)
    requires Sound(c.tables) && CanRun(c, actions) && n <= |actions|
    requires CanRun(c, actions[..n]) && IsDecided(Reached(c, actions[..n]), app)
    ensures IsApp(Reached(c, actions), app, Reached(c, actions[..n]).tables.apps[app])
    ensures forall m :: n <= m < |actions| ==> !Invites(c, actions[m], app)
  {
    RunGrows(c, actions, n);
    forall m | n <= m < |actions| ensures !Invites(c, actions[m], app) {
      NotInvitedAt(c, actions, n, m, app);
    }
  }

  function InvitesSent(c: Config, actions: seq<Action>, app: Uuid): nat {
    if actions == [] then 0
    else InvitesSent(c, actions[..|actions| - 1], app) + if Invites(c, actions[|actions| - 1], app) then 1 else 0
  }

  lemma StepCounts(c: Config, s: State, a: Action, app: Uuid)
    requires Enabled(c, s, a)
    ensures Next(c, s, a).invites[app] == s.invites[app] + if Invites(c, a, app) then 1 else 0
  {}

  /** The count of invitations is the number of invitation steps. */
  lemma {:induction false} InvitesAreCounted(c: Config, actions: seq<Action>, app: Uuid)
    requires CanRun(c, actions)
    ensures Reached(c, actions).invites[app] == InvitesSent(c, actions, app)
  {
    if actions != [] {
      InvitesAreCounted(c, actions[..|actions| - 1], app);
      StepCounts(c, Reached(c, actions[..|actions| - 1]), actions[|actions| - 1], app);
    }
  }

  /** All reviews of one application that are answered give the same answer, and an approval's answer names a
      provisioned user of an existing tenant. */
  lemma AnswersAgree(c: Config, actions: seq<Action>, i: nat, j: nat)
    requires Sound(c.tables) && CanRun(c, actions) && i < |c.requests| && j < |c.requests|
    requires !c.requests[i].CreateUser? && !c.requests[j].CreateUser? && c.requests[i].app == c.requests[j].app
    requires |Reached(c, actions).phases| == |c.requests|
    requires var p, q := Reached(c, actions).phases[i], Reached(c, actions).phases[j];
             p.Closed? && p.reply.Answered? && q.Closed? && q.reply.Answered?
    ensures Reached(c, actions).phases[i] == Reached(c, actions).phases[j]
    ensures var s := Reached(c, actions); var status := s.phases[i].reply.status;
            status.Approved? ==> status.tenant in s.tables.tenants && status.user in s.tables.users && status.user in s.tables.auth
  {
    RunKeepsInv(c, actions);
    var s := Reached(c, actions);
    assert CallInv(s, c.requests[i], s.phases[i]) && CallInv(s, c.requests[j], s.phases[j]);
  }

  // ----- Auth users and user rows -----

  predicate Quiescent(s: State) {
    forall i :: 0 <= i < |s.phases| ==> s.phases[i].Start? || s.phases[i].Closed?
  }

  /** At every quiescent point the Auth users are the provisioned ones and those left behind, and nothing is both. */
  lemma AuthUsersAccountedFor(c: Config, actions: seq<Action>)
    requires Sound(c.tables) && CanRun(c, actions) && Quiescent(Reached(c, actions))
    ensures var s := Reached(c, actions);
            s.tables.auth == s.tables.users.Keys + s.orphans && s.tables.users.Keys !! s.orphans
    ensures var s := Reached(c, actions); s.tables.auth == s.tables.users.Keys <==> s.orphans == {}
  {
    RunKeepsInv(c, actions);
  }

  /** The action leaves an invited user behind. */
  predicate Strandable(c: Config, s: State, a: Action) {
    a.LoseInvite? || a.FailDelete? || ((a.FailCommit? || a.Crash?) && InRange(c, s, a.i) && HasUser(s.phases[a.i]))
  }

  ghost predicate NeverStrands(c: Config, actions: seq<Action>)
    requires CanRun(c, actions)
    decreases |actions|
  {
    actions == [] ||
    (NeverStrands(c, actions[..|actions| - 1]) &&
     !Strandable(c, Reached(c, actions[..|actions| - 1]), actions[|actions| - 1]))
  }

  /** Users are left behind exactly when an invitation's reply is lost, a compensating delete or a commit
      fails, or a call dies holding an invitation. */
  lemma {:induction false} OrphansIffStranded(c: Config, actions: seq<Action>)
    requires Sound(c.tables) && CanRun(c, actions) && c.tables.auth == c.tables.users.Keys
    ensures Reached(c, actions).orphans == {} <==> NeverStrands(c, actions)
  {
    if actions != [] {
      var front, last := actions[..|actions| - 1], actions[|actions| - 1];
      OrphansIffStranded(c, front);
      RunKeepsInv(c, front);
      var s := Reached(c, front);
      if Strandable(c, s, last) {
        var user := if last.LoseInvite? then last.user else s.phases[last.i].user;
        assert user in Next(c, s, last).orphans;
      } else {
        assert Next(c, s, last).orphans == s.orphans;
      }
    }
  }

  /** Invited Auth users are exactly the provisioned user rows at a quiescent point if and only if no step of
      the run left a user behind. */
  lemma AuthMatchesUsers(c: Config, actions: seq<Action>)
    requires Sound(c.tables) && c.tables.auth == c.tables.users.Keys
    requires CanRun(c, actions) && Quiescent(Reached(c, actions))
    ensures Reached(c, actions).tables.auth == Reached(c, actions).tables.users.Keys <==> NeverStrands(c, actions)
  {
    AuthUsersAccountedFor(c, actions);
    OrphansIffStranded(c, actions);
  }

  // ----- one call alone -----

  lemma Extend(c: Config, front: seq<Action>, a: Action) returns (actions: seq<Action>)
    requires CanRun(c, front) && Enabled(c, Reached(c, front), a)
    ensures CanRun(c, actions) && Reached(c, actions) == Next(c, Reached(c, front), a)
  {
    actions := front + [a];
    assert actions[..|actions| - 1] == front;
  }

  lemma Undoes(c: Config, front: seq<Action>, fails: bool) returns (actions: seq<Action>)
    requires CanRun(c, front) && Enabled(c, Reached(c, front), Raise(0)) && HasUser(Reached(c, front).phases[0])
    ensures CanRun(c, actions)
    ensures Reached(c, actions).phases == Reached(c, front).phases[0 := Closed(Broken)]
    ensures var t := Reached(c, front).tables;
            Reached(c, actions).tables == if fails then t else t.(auth := t.auth - {Reached(c, front).phases[0].user})
  {
    var raised := Extend(c, front, Raise(0));
    actions := Extend(c, raised, if fails then FailDelete(0) else Delete(0));
  }

  lemma LoneInvites(c: Config, app: Uuid, user: Uuid) returns (actions: seq<Action>)
    requires c.requests == [Approve(app)] && app in c.tables.apps && c.tables.apps[app].Pending? && user !in c.tables.auth
    ensures CanRun(c, actions) && Reached(c, actions).phases == [Invited(user)]
    ensures Reached(c, actions).tables == Stranded(c.tables, user)
  {
    actions := Extend(c, [], Read(0));
    actions := Extend(c, actions, Invite(0, user));
  }

  lemma LoneInserts(c: Config, app: Uuid, user: Uuid, tenant: Uuid) returns (actions: seq<Action>)
    requires c.requests == [Approve(app)] && app in c.tables.apps && c.tables.apps[app].Pending? && user !in c.tables.auth
    requires tenant !in c.tables.tenants
    ensures CanRun(c, actions) && Reached(c, actions).phases == [Inserted(user, tenant)]
    ensures Reached(c, actions).tables == Stranded(c.tables, user)
  {
    actions := LoneInvites(c, app, user);
    actions := Extend(c, actions, Insert(0, tenant));
  }

  lemma LoneCommits(c: Config, app: Uuid, user: Uuid, tenant: Uuid, fails: bool) returns (actions: seq<Action>)
    requires c.requests == [Approve(app)] && app in c.tables.apps && c.tables.apps[app].Pending? && user !in c.tables.auth
    requires tenant !in c.tables.tenants
    ensures CanRun(c, actions)
    ensures fails ==> Reached(c, actions).tables == Stranded(c.tables, user) && Reached(c, actions).phases == [Closed(Broken)]
    ensures !fails ==>
              && Reached(c, actions).phases == [Closed(Answered(Approved(tenant, user)))]
              && Reached(c, actions).tables ==
                 Tables(c.tables.apps[app := Approved(tenant, user)], c.tables.tenants + {tenant},
                        c.tables.users[user := tenant], c.tables.auth + {user})
  {
    actions := LoneInserts(c, app, user, tenant);
    actions := Extend(c, actions, Update(0));
    actions := Extend(c, actions, if fails then FailCommit(0) else Commit(0));
  }

  lemma LonePending(t: Tables, app: Uuid, user: Uuid, tenant: Uuid, f: Faults) returns (actions: seq<Action>)
    requires user !in t.auth && tenant !in t.tenants && app in t.apps && t.apps[app].Pending?
    ensures var c := Config([Approve(app)], t);
            && CanRun(c, actions)
            && Reached(c, actions).tables == AfterApprove(t, app, user, tenant, f).0
            && Reached(c, actions).phases == [Closed(AfterApprove(t, app, user, tenant, f).1)]
  {
    var c := Config([Approve(app)], t);
    assert t.auth + {user} - {user} == t.auth;
    if f.invite {
      actions := Extend(c, [], Read(0));
      actions := Extend(c, actions, RefuseInvite(0));
    } else if f.insert {
      var front := LoneInvites(c, app, user);
      actions := Undoes(c, front, f.delete);
    } else if f.update {
      var front := LoneInserts(c, app, user, tenant);
      actions := Undoes(c, front, f.delete);
    } else {
      actions := LoneCommits(c, app, user, tenant, f.commit);
    }
  }

  /** An approval that nothing interleaves with can end, fault by fault, exactly as the procedure does. */
  lemma AloneIsApprove(t: Tables, app: Uuid, user: Uuid, tenant: Uuid, f: Faults) returns (actions: seq<Action>)
    requires user !in t.auth && tenant !in t.tenants
    ensures var c := Config([Approve(app)], t);
            && CanRun(c, actions)
            && Reached(c, actions).tables == AfterApprove(t, app, user, tenant, f).0
            && Reached(c, actions).phases == [Closed(AfterApprove(t, app, user, tenant, f).1)]
  {
    if app in t.apps && t.apps[app].Pending? {
      actions := LonePending(t, app, user, tenant, f);
    } else {
      actions := Extend(Config([Approve(app)], t), [], Read(0));
    }
  }

  lemma AloneIsReject(t: Tables, app: Uuid, f: Faults) returns (actions: seq<Action>)
    ensures var c := Config([Reject(app)], t);
            && CanRun(c, actions)
            && Reached(c, actions).tables == AfterReject(t, app, f).0
            && Reached(c, actions).phases == [Closed(AfterReject(t, app, f).1)]
  {
    var c := Config([Reject(app)], t);
    actions := Extend(c, [], Read(0));
    if app in t.apps && t.apps[app].Pending? {
      actions := Extend(c, actions, if f.update || f.commit then FailCommit(0) else Commit(0));
    }
  }

  lemma LoneCreates(c: Config, tenant: Uuid, user: Uuid, fails: bool) returns (actions: seq<Action>)
    requires c.requests == [CreateUser(tenant)] && tenant in c.tables.tenants && user !in c.tables.auth
    ensures CanRun(c, actions)
    ensures Reached(c, actions).phases == [Closed(if fails then Broken else Provisioned(user))]
    ensures Reached(c, actions).tables ==
            if fails then Stranded(c.tables, user)
            else c.tables.(users := c.tables.users[user := tenant], auth := c.tables.auth + {user})
  {
    actions := LoneInvitesUser(c, tenant, user);
    actions := Extend(c, actions, Insert(0, tenant));
    actions := Extend(c, actions, if fails then FailCommit(0) else Commit(0));
  }

  lemma LoneInvitesUser(c: Config, tenant: Uuid, user: Uuid) returns (actions: seq<Action>)
    requires c.requests == [CreateUser(tenant)] && tenant in c.tables.tenants && user !in c.tables.auth
    ensures CanRun(c, actions) && Reached(c, actions).phases == [Invited(user)]
    ensures Reached(c, actions).tables == Stranded(c.tables, user)
  {
    actions := Extend(c, [], Read(0));
    actions := Extend(c, actions, Invite(0, user));
  }

  lemma AloneIsCreateUser(t: Tables, tenant: Uuid, user: Uuid, f: Faults) returns (actions: seq<Action>)
    requires user !in t.auth
    ensures var c := Config([CreateUser(tenant)], t);
            && CanRun(c, actions)
            && Reached(c, actions).tables == AfterCreateUser(t, tenant, user, f).0
            && Reached(c, actions).phases == [Closed(AfterCreateUser(t, tenant, user, f).1)]
  {
    var c := Config([CreateUser(tenant)], t);
    assert t.auth + {user} - {user} == t.auth;
    if tenant in t.tenants && f.invite {
      actions := Extend(c, [], Read(0));
      actions := Extend(c, actions, RefuseInvite(0));
    } else if tenant in t.tenants && f.insert {
      var front := LoneInvitesUser(c, tenant, user);
      actions := Undoes(c, front, f.delete);
    } else if tenant in t.tenants {
      actions := LoneCreates(c, tenant, user, f.commit);
    } else {
      actions := Extend(c, [], Read(0));
    }
  }
}
