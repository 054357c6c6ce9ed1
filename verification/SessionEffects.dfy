/** What logins, refreshes, logouts, password resets, suspensions and deletions do in every reachable state, in terms of
    the rows alone: when they are accepted, what they change, and that nothing else changes it. */
module SessionEffects {
  import opened Options
  import opened Sessions

  // ---------- tokens belong to users ----------

  predicate OwnersOk(a: Auth) {
    && (forall h :: h in a.refresh ==> a.refresh[h].user in a.users)
    && (forall r :: r in a.resets ==> a.resets[r].user in a.users)
  }

  lemma RotationKeepsOwners(a: Auth, h: Hash, next: Hash, f: FamilyId, expires: int, now: int)
    requires OwnersOk(a)
    ensures OwnersOk(Rotate(a, h, next, f, expires, now).0)
  {
  }

  lemma NextKeepsOwners(w: World, s: Step)
    requires OwnersOk(w.auth)
    ensures OwnersOk(NextAuth(w, s))
  {
    if s.Refresh? && Presentable(w.auth, s.hash, s.now) {
      RotationKeepsOwners(w.auth, s.hash, w.next, w.auth.refresh[s.hash].family, s.expires, s.now);
    }
  }

  lemma {:induction false} ReachableOwnersOk(steps: seq<Step>)
    ensures OwnersOk(Run(INITIAL, steps).auth)
  {
    if steps != [] {
      ReachableOwnersOk(steps[..|steps|-1]);
      NextKeepsOwners(Run(INITIAL, steps[..|steps|-1]), steps[|steps|-1]);
    }
  }

  // ---------- passwords ----------

  /** The token is there, is this user's and was not used. */
  predicate Usable(a: Auth, r: ResetId, u: UserId) {
    r in a.resets && a.resets[r].user == u && !a.resets[r].used
  }

  /** A reset takes effect exactly with a usable token: it uses the token up, stores the new password under a new
      session version and revokes the user's refresh tokens; nothing else changes. */
  lemma ResetOutcome(steps: seq<Step>, r: ResetId, u: UserId, password: nat)
    ensures var a := Run(INITIAL, steps).auth;
            var next := Next(Run(INITIAL, steps), ConfirmReset(r, u, password)).auth;
            var changes := Run(INITIAL, steps).changes;
            && (Consume(a, r, u, password).1 <==> Usable(a, r, u))
            && Next(Run(INITIAL, steps), ConfirmReset(r, u, password)).changes
               == changes + (if Usable(a, r, u) then [r] else [])
            && if !Usable(a, r, u) then next == a
               else
                 && u in a.users
                 && next.users == a.users[u := User(a.users[u].active, a.users[u].version + 1, password, false)]
                 && next.resets == a.resets[r := a.resets[r].(used := true)]
                 && AllRevoked(a.refresh, next.refresh, u)
  {
    ReachableOwnersOk(steps);
  }

  /** The user's tokens are revoked, the others are as they were. */
  predicate AllRevoked(refresh: map<Hash, Token>, after: map<Hash, Token>, u: UserId) {
    && after.Keys == refresh.Keys
    && forall h :: h in refresh ==>
         after[h] == if refresh[h].user == u then refresh[h].(revoked := true) else refresh[h]
  }

  /** A reset of the user that takes effect, or the deletion of the account. */
  predicate Replaces(a: Auth, s: Step, u: UserId) {
    || (s.ConfirmReset? && s.user == u && Usable(a, s.reset, u))
    || (s.DeleteAccount? && s.user == u)
  }

  lemma PasswordKept(w: World, s: Step, u: UserId)
    requires u in w.auth.users && !Replaces(w.auth, s, u)
    requires s.StoreRehash? && s.login in w.verified && s.login.user == u ==>
               s.login.password == w.auth.users[u].password
    ensures u in NextAuth(w, s).users && NextAuth(w, s).users[u].password == w.auth.users[u].password
  {
  }

  /** What is stored as anybody's password changes only by a registration, which stores the one it brings for a user who
      was not there, by a reset that takes effect, by a deletion, and by a login that stores again what it verified. */
  lemma PasswordChanges(w: World, s: Step, u: UserId)
    ensures u in w.auth.users && !Replaces(w.auth, s, u) ==>
              u in Next(w, s).auth.users
              && Next(w, s).auth.users[u].password
                 == if s.StoreRehash? && s.login in w.verified && s.login.user == u then s.login.password
                    else w.auth.users[u].password
    ensures u !in w.auth.users ==>
              Get(Next(w, s).auth.users, u)
              == if s.Register? && s.user == u then Some(User(true, 0, s.password, false)) else None
  {
    if u in w.auth.users && !Replaces(w.auth, s, u) && !s.StoreRehash? {
      PasswordKept(w, s, u);
    }
  }

  /** No step of the continuation resets u's password or deletes u. */
  ghost predicate LeavesPassword(w: World, more: seq<Step>, u: UserId) {
    forall i :: 0 <= i < |more| ==> !Replaces(Run(w, more[..i]).auth, more[i], u)
  }

  /** The user's password is this one, and no login is about to store another. */
  predicate Settled(w: World, u: UserId, password: nat) {
    && u in w.auth.users && w.auth.users[u].password == password
    && forall l :: l in w.verified && l.user == u ==> l.password == password
  }

  lemma NextKeepsSettled(w: World, s: Step, u: UserId, password: nat)
    requires Settled(w, u, password) && !Replaces(w.auth, s, u)
    ensures Settled(Next(w, s), u, password)
  {
    PasswordKept(w, s, u);
  }

  lemma {:induction false} RunKeepsSettled(w: World, more: seq<Step>, u: UserId, password: nat)
    requires Settled(w, u, password) && LeavesPassword(w, more, u)
    ensures Settled(Run(w, more), u, password)
  {
    if more != [] {
      var front := more[..|more|-1];
      forall i | 0 <= i < |front| ensures !Replaces(Run(w, front[..i]).auth, front[i], u) {
        assert front[..i] == more[..i];
      }
      RunKeepsSettled(w, front, u, password);
      NextKeepsSettled(Run(w, front), more[|more|-1], u, password);
    }
  }

  /** A login of u has verified another password against an outdated hash and is about to store it again. */
  predicate StoresOther(w: World, u: UserId, password: nat) {
    exists l :: l in w.verified && l.user == u && l.password != password
  }

  predicate HasPassword(a: Auth, u: UserId, password: nat) { u in a.users && a.users[u].password == password }

  /** After a reset that took effect the user's password is the new one through every continuation without another such
      reset and without the deletion of the account, if and only if no login was about to store another one. */
  lemma NewPasswordHoldsIff(steps: seq<Step>, r: ResetId, u: UserId, password: nat)
    requires Usable(Run(INITIAL, steps).auth, r, u)
    ensures var w := Next(Run(INITIAL, steps), ConfirmReset(r, u, password));
            (forall more {:trigger LeavesPassword(w, more, u)} ::
               LeavesPassword(w, more, u) ==> HasPassword(Run(w, more).auth, u, password))
            <==> !StoresOther(Run(INITIAL, steps), u, password)
  {
    var w := Next(Run(INITIAL, steps), ConfirmReset(r, u, password));
    ResetOutcome(steps, r, u, password);
    if StoresOther(Run(INITIAL, steps), u, password) {
      var l :| l in w.verified && l.user == u && l.password != password;
      RunOne(w, StoreRehash(l));
      assert [StoreRehash(l)][..0] == [];
      assert LeavesPassword(w, [StoreRehash(l)], u);
    } else {
      forall more | LeavesPassword(w, more, u) ensures HasPassword(Run(w, more).auth, u, password) {
        RunKeepsSettled(w, more, u, password);
      }
    }
  }

  /** A run in which it is not: user 1 registers with password 5; the cost of hashes is raised; a login verifies the
      password; the user resets it to 6; the login stores 5 again. */
  function LateRehash(): seq<Step> {
    [Register(1, 5), RaiseCost, LoginRead(1), RequestReset(1, 100), ConfirmReset(3, 1, 6), StoreRehash(Verified(1, 5))]
  }

  lemma RunNext(steps: seq<Step>, i: nat)
    requires i < |steps|
    ensures Run(INITIAL, steps[..i + 1]) == Next(Run(INITIAL, steps[..i]), steps[i])
  {
    assert steps[..i + 1][..i] == steps[..i];
  }

  lemma LateRead()
    ensures var w := Run(INITIAL, LateRehash()[..3]);
            && w.auth == Auth(map[1 := User(true, 0, 5, true)], map[], map[])
            && w.verified == {Verified(1, 5)} && w.next == 3
  {
    var run := LateRehash();
    assert run[..0] == [];
    RunNext(run, 0);
    RunNext(run, 1);
    assert Run(INITIAL, run[..2]).auth.users == map[1 := User(true, 0, 5, true)];
    RunNext(run, 2);
  }

  lemma OldPasswordReturns()
    ensures var w := Run(INITIAL, LateRehash()[..4]);
            && Usable(w.auth, 3, 1) && HasPassword(w.auth, 1, 5)
            && HasPassword(Run(INITIAL, LateRehash()[..5]).auth, 1, 6)
            && HasPassword(Run(INITIAL, LateRehash()).auth, 1, 5)
  {
    var run := LateRehash();
    LateRead();
    RunNext(run, 3);
    RunNext(run, 4);
    RunNext(run, 5);
    assert run[..6] == run;
  }

  /** A reset token that is asked for is new, the user's, and usable. */
  lemma ResetTokenIsUsable(steps: seq<Step>, u: UserId, expires: int)
    requires u in Run(INITIAL, steps).auth.users
    ensures var w := Run(INITIAL, steps);
            var next := Next(w, RequestReset(u, expires)).auth;
            && w.next !in w.auth.resets
            && next == w.auth.(resets := w.auth.resets[w.next := ResetToken(u, expires, false)])
            && Usable(next, w.next, u)
  {
    ReachableOk(steps);
  }

  // ---------- refreshes ----------

  lemma LiveRefresh(w: World, h: Hash, expires: int, now: int)
    requires h in w.auth.refresh && w.auth.refresh[h].expires > now && !w.auth.refresh[h].revoked
    requires w.auth.refresh[h].user in w.auth.users && w.next !in w.auth.refresh
    ensures Refreshed(w, Next(w, Refresh(h, expires, now)), h, expires)
  {
  }

  /** The token is replaced by one new live token of its family and user, and the session gets an access token if the
      user is active. */
  predicate Refreshed(w: World, next: World, h: Hash, expires: int)
    requires h in w.auth.refresh && w.auth.refresh[h].user in w.auth.users
  {
    var refresh := w.auth.refresh;
    var t := refresh[h];
    && next.auth.users == w.auth.users && next.auth.resets == w.auth.resets
    && next.auth.refresh == refresh[h := t.(revoked := true, replacedBy := Some(w.next))]
                                   [w.next := Token(t.user, t.family, expires, false, None)]
    && next.minted == if w.auth.users[t.user].active then w.minted + {Access(t.user, w.auth.users[t.user].version)}
                      else w.minted
  }

  lemma DeadRefresh(w: World, h: Hash, expires: int, now: int)
    requires h !in w.auth.refresh || w.auth.refresh[h].expires <= now || w.auth.refresh[h].revoked
    ensures var next := Next(w, Refresh(h, expires, now));
            && next.minted == w.minted && next.auth == w.auth.(refresh := next.auth.refresh)
            && if h in w.auth.refresh && w.auth.refresh[h].expires > now
               then FamilyRevoked(w.auth.refresh, next.auth.refresh, w.auth.refresh[h].family)
               else next.auth == w.auth
  {
  }

  /** Every refresh: a live token that has not expired is replaced; a revoked one that has not expired revokes its whole
      family; any other changes nothing. */
  lemma RefreshOutcome(steps: seq<Step>, h: Hash, expires: int, now: int)
    ensures var w := Run(INITIAL, steps);
            var (refresh, next) := (w.auth.refresh, Next(w, Refresh(h, expires, now)));
            && w.next !in refresh
            && if h !in refresh || refresh[h].expires <= now then next.auth == w.auth && next.minted == w.minted
               else if refresh[h].revoked then
                 && next.auth == w.auth.(refresh := next.auth.refresh) && next.minted == w.minted
                 && FamilyRevoked(refresh, next.auth.refresh, refresh[h].family)
               else refresh[h].user in w.auth.users && Refreshed(w, next, h, expires)
  {
    var w := Run(INITIAL, steps);
    ReachableOk(steps);
    ReachableOwnersOk(steps);
    if h !in w.auth.refresh || w.auth.refresh[h].expires <= now || w.auth.refresh[h].revoked {
      DeadRefresh(w, h, expires, now);
    } else {
      LiveRefresh(w, h, expires, now);
    }
  }

  predicate FamilyRevoked(refresh: map<Hash, Token>, after: map<Hash, Token>, f: FamilyId) {
    && after.Keys == refresh.Keys
    && forall h :: h in refresh ==>
         after[h] == if refresh[h].family == f then refresh[h].(revoked := true) else refresh[h]
  }

  /** The transaction looks at the row once more: a token that has expired or lost its user by then, or a new hash that
      is taken, gives no session and changes nothing, and a revoked one revokes its family even after it expired. */
  lemma RotationOutcome(a: Auth, h: Hash, next: Hash, f: FamilyId, expires: int, now: int)
    ensures var (b, reply) := Rotate(a, h, next, f, expires, now);
            if h !in a.refresh then b == a && reply == Invalid
            else if a.refresh[h].revoked then
              reply == Reuse && b == a.(refresh := b.refresh)
              && FamilyRevoked(a.refresh, b.refresh, a.refresh[h].family)
            else if a.refresh[h].expires > now && a.refresh[h].user in a.users && next !in a.refresh then
              && reply == Rotated(a.refresh[h].user, a.users[a.refresh[h].user].active,
                                  a.users[a.refresh[h].user].version)
              && b == a.(refresh := a.refresh[h := a.refresh[h].(revoked := true, replacedBy := Some(next))]
                                             [next := Token(a.refresh[h].user, f, expires, false, None)])
            else
              && b == a
              && reply == if a.refresh[h].expires > now && a.refresh[h].user in a.users then Collision else Invalid
  {
  }

  // ---------- logins, logouts, status ----------

  lemma ReadThenIssued(w: World, u: UserId, expires: int)
    requires u in w.auth.users && w.auth.users[u].active
    ensures var t := Access(u, w.auth.users[u].version);
            var end := Next(Next(w, LoginRead(u)), Issue(t, expires));
            && end.auth == w.auth.(refresh := w.auth.refresh[w.next + 1 := Token(u, w.next + 1, expires, false, None)])
            && t in end.minted && end.next == w.next + 2
  {
  }

  lemma IssuedIsAccepted(w: World, end: World, u: UserId, expires: int, now: int)
    requires FamiliesOk(w) && u in w.auth.users && w.auth.users[u].active && now < expires
    requires end.auth == w.auth.(refresh := w.auth.refresh[w.next + 1 := Token(u, w.next + 1, expires, false, None)])
    requires end.next == w.next + 2
    ensures AccessAccepted(end.auth, Access(u, w.auth.users[u].version))
    ensures w.next + 1 !in w.auth.refresh && RefreshAccepted(end.auth, w.next + 1, end.next, now)
  {
  }

  /** A login of an active user works: its access token is accepted, and it gets a refresh token of its own family that
      can be refreshed until it expires. */
  lemma LoginWorks(steps: seq<Step>, u: UserId, expires: int, now: int)
    requires var a := Run(INITIAL, steps).auth; u in a.users && a.users[u].active && now < expires
    ensures var w := Run(INITIAL, steps);
            var t := Access(u, w.auth.users[u].version);
            var end := Next(Next(w, LoginRead(u)), Issue(t, expires));
            && t in end.minted && AccessAccepted(end.auth, t)
            && end.auth == w.auth.(refresh := w.auth.refresh[w.next + 1 := Token(u, w.next + 1, expires, false, None)])
            && w.next + 1 !in w.auth.refresh && RefreshAccepted(end.auth, w.next + 1, end.next, now)
  {
    var w := Run(INITIAL, steps);
    var end := Next(Next(w, LoginRead(u)), Issue(Access(u, w.auth.users[u].version), expires));
    assert FamiliesOk(w) by { ReachableOk(steps); }
    ReadThenIssued(w, u, expires);
    IssuedIsAccepted(w, end, u, expires, now);
  }

  /** What sessions are made of: a login reads its user exactly when the user is there and active, and remembers the
      password it verified exactly when the hash is outdated as well; a registration counts as a login of a new user;
      and no session comes of anything that was not read. */
  lemma SessionsNeedLogins(w: World, u: UserId, password: nat, t: Access, expires: int)
    ensures var next := Next(w, LoginRead(u));
            var there := u in w.auth.users && w.auth.users[u].active;
            && next.auth == w.auth
            && next.pending == (if there then w.pending + {Access(u, w.auth.users[u].version)} else w.pending)
            && next.verified == if there && w.auth.users[u].outdated
                                then w.verified + {Verified(u, w.auth.users[u].password)} else w.verified
    ensures var next := Next(w, Register(u, password));
            if u in w.auth.users then next.auth == w.auth && next.pending == w.pending
            else next.auth == w.auth.(users := w.auth.users[u := User(true, 0, password, false)])
                 && next.pending == w.pending + {Access(u, 0)}
    ensures t !in w.pending ==>
              Next(w, Issue(t, expires)).minted == w.minted && Next(w, Issue(t, expires)).auth == w.auth
  {
  }

  /** A login that remembers a password stores it again under a new hash, whatever the row says by then; raising the
      cost of hashes makes all stored ones outdated. Neither touches anything else. */
  lemma RehashOutcome(w: World, l: Verified)
    ensures Next(w, StoreRehash(l)).auth
            == if l in w.verified && l.user in w.auth.users
               then w.auth.(users := w.auth.users[l.user :=
                                                  w.auth.users[l.user].(password := l.password, outdated := false)])
               else w.auth
    ensures var next := Next(w, RaiseCost).auth;
            && next == w.auth.(users := next.users) && next.users.Keys == w.auth.users.Keys
            && forall u :: u in w.auth.users ==> next.users[u] == w.auth.users[u].(outdated := true)
  {
  }

  /** The two statements of a logout, and the revocation of one family. */
  lemma LogoutOutcome(w: World, u: UserId, f: FamilyId)
    ensures var next := Next(w, LogoutRevoke(u)).auth;
            next == w.auth.(refresh := next.refresh) && AllRevoked(w.auth.refresh, next.refresh, u)
    ensures var next := Next(w, LogoutBump(u)).auth;
            if u in w.auth.users
            then next == w.auth.(users := w.auth.users[u := w.auth.users[u].(version := w.auth.users[u].version + 1)])
            else next == w.auth
    ensures var next := Next(w, RevokeOne(f)).auth;
            next == w.auth.(refresh := next.refresh) && FamilyRevoked(w.auth.refresh, next.refresh, f)
  {
  }

  /** A change of status sets what was asked for, under a new session version, and nothing else. */
  lemma StatusOutcome(w: World, u: UserId, active: bool)
    requires u in w.auth.users
    ensures Next(w, ChangeStatus(u, active)).auth
            == w.auth.(users := w.auth.users[u := w.auth.users[u].(active := active,
                                                                   version := w.auth.users[u].version + 1)])
  {
  }

  predicate Reinstates(s: Step, u: UserId) { s.ChangeStatus? && s.user == u && s.active }

  predicate ShutOut(a: Auth, u: UserId) { u in a.users && !a.users[u].active }

  lemma NextKeepsShutOut(w: World, s: Step, u: UserId)
    requires ShutOut(w.auth, u) && !Reinstates(s, u)
    ensures ShutOut(NextAuth(w, s), u)
    ensures forall t :: t in Next(w, s).minted && t !in w.minted ==> t.user != u || t in w.pending
  {
  }

  lemma {:induction false} StaysShutOut(w: World, more: seq<Step>, u: UserId)
    requires ShutOut(w.auth, u) && forall i :: 0 <= i < |more| ==> !Reinstates(more[i], u)
    ensures ShutOut(Run(w, more).auth, u)
  {
    if more != [] {
      StaysShutOut(w, more[..|more|-1], u);
      NextKeepsShutOut(Run(w, more[..|more|-1]), more[|more|-1], u);
    }
  }

  /** A suspended or deleted user is shut out until somebody sets the status back: no access token of the user is
      accepted, minted before or after. */
  lemma SuspendedIsShutOut(w: World, s: Step, more: seq<Step>, t: Access)
    requires (s.ChangeStatus? && !s.active) || s.DeleteAccount?
    requires s.user in w.auth.users && t.user == s.user
    requires forall i :: 0 <= i < |more| ==> !Reinstates(more[i], s.user)
    ensures !AccessAccepted(Run(Next(w, s), more).auth, t)
  {
    StaysShutOut(Next(w, s), more, s.user);
  }

  /** A deleted account keeps an inactive row under a new version, without password; its tokens of both kinds are gone,
      and everybody else's are as they were. */
  lemma DeletionOutcome(w: World, u: UserId)
    requires u in w.auth.users
    ensures var (a, next) := (w.auth, Next(w, DeleteAccount(u)).auth);
            && next.users == a.users[u := User(false, a.users[u].version + 1, 0, false)]
            && (forall h: Hash ::
                 Get(next.refresh, h) == if h in a.refresh && a.refresh[h].user == u then None else Get(a.refresh, h))
            && (forall r: ResetId ::
                 Get(next.resets, r) == if r in a.resets && a.resets[r].user == u then None else Get(a.resets, r))
  {
  }
}
