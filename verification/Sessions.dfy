/** Refresh-token families and session versions (backend/src/repository/auth.js, backend/src/services/session.js) under
    every interleaving of logins, refreshes, replays, logouts, password resets, suspensions and account deletions. Token
    hashes and ids, which the source draws at random, come from a counter. */
module Sessions {
  import opened Options

  type UserId = nat
  type Hash = nat
  type FamilyId = nat
  type ResetId = nat

  /** outdated: the stored hash is not of the scheme and cost that new hashes get. */
  datatype User = User(active: bool, version: nat, password: nat, outdated: bool)
  datatype Token = Token(user: UserId, family: FamilyId, expires: int, revoked: bool, replacedBy: Option<Hash>)
  datatype ResetToken = ResetToken(user: UserId, expires: int, used: bool)

  datatype Auth = Auth(users: map<UserId, User>, refresh: map<Hash, Token>, resets: map<ResetId, ResetToken>)

  /** What an access token says: whose it is and which session version it carries. */
  datatype Access = Access(user: UserId, version: nat)

  datatype Rotation = Invalid | Reuse | Rotated(user: UserId, active: bool, version: nat) | Collision

  // ---------- the transactions ----------

  function RevokeFamily(a: Auth, f: FamilyId): Auth {
    a.(refresh := map h | h in a.refresh :: if a.refresh[h].family == f then a.refresh[h].(revoked := true)
                                            else a.refresh[h])
  }

  function RevokeUser(a: Auth, u: UserId): Auth {
    a.(refresh := map h | h in a.refresh :: if a.refresh[h].user == u then a.refresh[h].(revoked := true)
                                            else a.refresh[h])
  }

  function InsertToken(a: Auth, h: Hash, u: UserId, f: FamilyId, expires: int): Auth {
    a.(refresh := a.refresh[h := Token(u, f, expires, false, None)])
  }

  function RotateReply(a: Auth, h: Hash, next: Hash, now: int): Rotation {
    if h !in a.refresh then Invalid
    else if a.refresh[h].revoked then Reuse
    else if a.refresh[h].expires <= now || a.refresh[h].user !in a.users then Invalid
    else if next in a.refresh then Collision
    else var user := a.users[a.refresh[h].user]; Rotated(a.refresh[h].user, user.active, user.version)
  }

  /** rotateRefreshToken: a live token is replaced; a revoked one takes its whole family with it. */
  function Rotate(a: Auth, h: Hash, next: Hash, family: FamilyId, expires: int, now: int): (Auth, Rotation) {
    var reply := RotateReply(a, h, next, now);
    if reply.Rotated? then (Replace(a, h, next, family, expires), reply)
    else if reply == Reuse && h in a.refresh then (RevokeFamily(a, a.refresh[h].family), reply)
    else (a, reply)
  }

  function Replace(a: Auth, h: Hash, next: Hash, family: FamilyId, expires: int): Auth {
    if h !in a.refresh then a
    else
      InsertToken(a.(refresh := a.refresh[h := a.refresh[h].(revoked := true, replacedBy := Some(next))]), next,
                  a.refresh[h].user, family, expires)
  }

  function SetUser(a: Auth, u: UserId, user: User): Auth { a.(users := a.users[u := user]) }

  function Bump(a: Auth, u: UserId): Auth {
    if u in a.users then SetUser(a, u, a.users[u].(version := a.users[u].version + 1)) else a
  }

  function SetStatus(a: Auth, u: UserId, active: bool): Auth {
    if u in a.users then SetUser(a, u, a.users[u].(active := active, version := a.users[u].version + 1)) else a
  }

  function Reset(user: User, password: nat): User {
    user.(password := password, outdated := false, version := user.version + 1)
  }

  /** consumeResetTokenAndChangePassword. */
  function Consume(a: Auth, r: ResetId, u: UserId, password: nat): (Auth, bool) {
    if r !in a.resets || a.resets[r].user != u || a.resets[r].used then (a, false)
    else
      var b := a.(resets := a.resets[r := a.resets[r].(used := true)]);
      if u !in b.users then (RevokeUser(b, u), true)
      else (RevokeUser(SetUser(b, u, Reset(b.users[u], password)), u), true)
  }

  /** updatePasswordHash: the password a login has verified, hashed anew. */
  function Rehash(a: Auth, u: UserId, password: nat): Auth {
    if u in a.users then SetUser(a, u, a.users[u].(password := password, outdated := false)) else a
  }

  /** deleteUserPrivacyBundle: tokens go, the user row stays, inactive. */
  function DeleteUser(a: Auth, u: UserId): Auth {
    if u !in a.users then a
    else
      SetUser(a, u, User(false, a.users[u].version + 1, 0, false)).(
        refresh := map h | h in a.refresh && a.refresh[h].user != u :: a.refresh[h],
        resets := map r | r in a.resets && a.resets[r].user != u :: a.resets[r])
  }

  // ---------- what is accepted ----------

  /** authUser: the user is active and the version is the current one. */
  predicate AccessAccepted(a: Auth, t: Access) {
    t.user in a.users && a.users[t.user].active && t.version == a.users[t.user].version
  }

  /** A refresh that is answered with a new session. */
  predicate RefreshAccepted(a: Auth, h: Hash, next: Hash, now: int) {
    RotateReply(a, h, next, now).Rotated?
  }

  // ---------- the transition system ----------

  /** A password that a login has verified against an outdated hash, and will store again. */
  datatype Verified = Verified(user: UserId, password: nat)

  /** pending are the user rows that logins and registrations have read and not yet turned into a session, verified the
      passwords that logins will hash anew; minted are the access tokens; chains and changes record, for each family its
      tokens in order of creation, and the reset tokens that changed a password. */
  datatype World = World(auth: Auth, pending: set<Access>, verified: set<Verified>, minted: set<Access>,
                         chains: map<FamilyId, seq<Hash>>, changes: seq<ResetId>, next: nat)

  const INITIAL: World := World(Auth(map[], map[], map[]), {}, {}, {}, map[], [], 0)

  datatype Step =
    | Register(user: UserId, password: nat)
    | LoginRead(user: UserId)
    | StoreRehash(login: Verified)
    | RaiseCost
    | Issue(read: Access, expires: int)
    | Refresh(hash: Hash, expires: int, now: int)
    | RevokeOne(family: FamilyId)
    | LogoutRevoke(user: UserId)
    | LogoutBump(user: UserId)
    | RequestReset(user: UserId, expires: int)
    | ConfirmReset(reset: ResetId, user: UserId, password: nat)
    | ChangeStatus(user: UserId, active: bool)
    | DeleteAccount(user: UserId)

  /** The refresh route looks the token up first and turns unknown and expired ones away. */
  predicate Presentable(a: Auth, h: Hash, now: int) { h in a.refresh && a.refresh[h].expires > now }

  function NextAuth(w: World, s: Step): Auth {
    match s
    case Register(u, password) =>
      if u in w.auth.users then w.auth else SetUser(w.auth, u, User(true, 0, password, false))
    case LoginRead(_) => w.auth
    case StoreRehash(l) => if l in w.verified then Rehash(w.auth, l.user, l.password) else w.auth
    case RaiseCost => w.auth.(users := map u | u in w.auth.users :: w.auth.users[u].(outdated := true))
    case Issue(t, expires) => if CanIssue(w, t) then InsertToken(w.auth, w.next, t.user, w.next, expires) else w.auth
    case Refresh(h, expires, now) =>
      if Presentable(w.auth, h, now) then Rotate(w.auth, h, w.next, w.auth.refresh[h].family, expires, now).0
      else w.auth
    case RevokeOne(f) => RevokeFamily(w.auth, f)
    case LogoutRevoke(u) => RevokeUser(w.auth, u)
    case LogoutBump(u) => Bump(w.auth, u)
    case RequestReset(u, expires) =>
      if u in w.auth.users then w.auth.(resets := w.auth.resets[w.next := ResetToken(u, expires, false)]) else w.auth
    case ConfirmReset(r, u, password) => Consume(w.auth, r, u, password).0
    case ChangeStatus(u, active) => SetStatus(w.auth, u, active)
    case DeleteAccount(u) => DeleteUser(w.auth, u)
  }

  predicate CanIssue(w: World, t: Access) { t in w.pending && t.user in w.auth.users }

  /** The refresh succeeds and the new token joins the family. */
  predicate Rotates(w: World, s: Step) {
    s.Refresh? && Presentable(w.auth, s.hash, s.now) && RotateReply(w.auth, s.hash, w.next, s.now).Rotated?
  }

  function NextPending(w: World, s: Step): set<Access> {
    match s
    case Register(u, _) => if u in w.auth.users then w.pending else w.pending + {Access(u, 0)}
    case LoginRead(u) =>
      if u in w.auth.users && w.auth.users[u].active then w.pending + {Access(u, w.auth.users[u].version)}
      else w.pending
    case _ => w.pending
  }

  function NextVerified(w: World, s: Step): set<Verified> {
    match s
    case LoginRead(u) =>
      if u in w.auth.users && w.auth.users[u].active && w.auth.users[u].outdated
        then w.verified + {Verified(u, w.auth.users[u].password)}
      else w.verified
    case _ => w.verified
  }

  function NextMinted(w: World, s: Step): set<Access> {
    match s
    case Issue(t, _) => if CanIssue(w, t) then w.minted + {t} else w.minted
    case Refresh(h, _, now) =>
      if Rotates(w, s) then
        var reply := RotateReply(w.auth, h, w.next, now);
        if reply.active then w.minted + {Access(reply.user, reply.version)} else w.minted
      else w.minted
    case _ => w.minted
  }

  function NextChains(w: World, s: Step): map<FamilyId, seq<Hash>> {
    match s
    case Issue(t, _) => if CanIssue(w, t) then w.chains[w.next := [w.next]] else w.chains
    case Refresh(h, _, _) =>
      if Rotates(w, s) && w.auth.refresh[h].family in w.chains then
        w.chains[w.auth.refresh[h].family := w.chains[w.auth.refresh[h].family] + [w.next]]
      else w.chains
    case _ => w.chains
  }

  function NextChanges(w: World, s: Step): seq<ResetId> {
    match s
    case ConfirmReset(r, u, password) => if Consume(w.auth, r, u, password).1 then w.changes + [r] else w.changes
    case _ => w.changes
  }

  function Next(w: World, s: Step): World {
    World(NextAuth(w, s), NextPending(w, s), NextVerified(w, s), NextMinted(w, s), NextChains(w, s), NextChanges(w, s),
          w.next + 1)
  }

  function Run(w: World, steps: seq<Step>): World {
    if steps == [] then w else Next(Run(w, steps[..|steps|-1]), steps[|steps|-1])
  }

  // ---------- the invariant ----------

  /** c lists the tokens of family f in order: each but the last is revoked and replaced by its successor, and the
      family has no other. */
  predicate Chain(refresh: map<Hash, Token>, f: FamilyId, c: seq<Hash>) {
    && c != [] && (forall i :: 0 <= i < |c| ==> c[i] in refresh)
    && (forall i :: 0 <= i < |c| ==> refresh[c[i]].family == f && refresh[c[i]].user == refresh[c[0]].user)
    && (forall i, j :: 0 <= i < j < |c| ==> c[i] != c[j])
    && (forall i :: 0 <= i < |c| - 1 ==> refresh[c[i]].revoked && refresh[c[i]].replacedBy == Some(c[i + 1]))
    && refresh[c[|c| - 1]].replacedBy == None
    && (forall h :: h in refresh && refresh[h].family == f ==> h in c)
  }

  predicate Vacant(refresh: map<Hash, Token>, f: FamilyId) { forall h :: h in refresh ==> refresh[h].family != f }

  predicate FamilyOk(refresh: map<Hash, Token>, f: FamilyId, c: seq<Hash>) {
    Vacant(refresh, f) || Chain(refresh, f, c)
  }

  predicate FamiliesOk(w: World) {
    && (forall h :: h in w.auth.refresh ==> h < w.next && w.auth.refresh[h].family in w.chains)
    && (forall f {:trigger w.chains[f]} :: f in w.chains ==> f < w.next && FamilyOk(w.auth.refresh, f, w.chains[f]))
  }

  /** No access token, minted or about to be, is ahead of its user. */
  predicate VersionsOk(w: World) {
    forall t :: t in w.minted + w.pending ==> t.user in w.auth.users && t.version <= w.auth.users[t.user].version
  }

  predicate ResetsOk(w: World) {
    && (forall r :: r in w.auth.resets ==> r < w.next)
    && (forall i :: 0 <= i < |w.changes| ==>
         w.changes[i] < w.next && (w.changes[i] in w.auth.resets ==> w.auth.resets[w.changes[i]].used))
    && (forall i, j :: 0 <= i < j < |w.changes| ==> w.changes[i] != w.changes[j])
  }

  predicate WorldOk(w: World) { FamiliesOk(w) && VersionsOk(w) && ResetsOk(w) }

  // ---------- families ----------

  /** Tokens are only revoked: rows, families, users and links stay. */
  predicate OnlyRevoked(refresh: map<Hash, Token>, after: map<Hash, Token>) {
    && after.Keys == refresh.Keys
    && forall h :: h in refresh ==>
         after[h] == refresh[h].(revoked := after[h].revoked) && (refresh[h].revoked ==> after[h].revoked)
  }

  lemma RevokingKeepsFamily(refresh: map<Hash, Token>, after: map<Hash, Token>, f: FamilyId, c: seq<Hash>)
    requires FamilyOk(refresh, f, c) && OnlyRevoked(refresh, after)
    ensures FamilyOk(after, f, c)
  {
    if Vacant(refresh, f) {
      assert Vacant(after, f);
    } else {
      assert Chain(after, f, c);
    }
  }

  /** A live token is the end of its chain. */
  lemma LiveIsLast(refresh: map<Hash, Token>, f: FamilyId, c: seq<Hash>, h: Hash)
    requires Chain(refresh, f, c) && h in refresh && refresh[h].family == f && !refresh[h].revoked
    ensures h == c[|c| - 1] && refresh[h].replacedBy == None
  {
    var i :| 0 <= i < |c| && c[i] == h;
  }

  lemma ReplacingExtendsChain(a: Auth, h: Hash, next: Hash, c: seq<Hash>, expires: int)
    requires h in a.refresh && !a.refresh[h].revoked && next !in a.refresh && Chain(a.refresh, a.refresh[h].family, c)
    ensures Chain(Replace(a, h, next, a.refresh[h].family, expires).refresh, a.refresh[h].family, c + [next])
  {
    LiveIsLast(a.refresh, a.refresh[h].family, c, h);
    var after := Replace(a, h, next, a.refresh[h].family, expires).refresh;
    var d := c + [next];
    forall i | 0 <= i < |d| - 1 ensures after[d[i]].revoked && after[d[i]].replacedBy == Some(d[i + 1]) {
      if i < |c| - 1 {
        assert d[i] == c[i] && d[i + 1] == c[i + 1] && c[i] != c[|c| - 1];
      }
    }
  }

  lemma ReplacingKeepsOthers(a: Auth, h: Hash, next: Hash, f: FamilyId, c: seq<Hash>, expires: int)
    requires h in a.refresh && next !in a.refresh && f != a.refresh[h].family && FamilyOk(a.refresh, f, c)
    ensures FamilyOk(Replace(a, h, next, a.refresh[h].family, expires).refresh, f, c)
  {
    var after := Replace(a, h, next, a.refresh[h].family, expires).refresh;
    if Vacant(a.refresh, f) {
      assert Vacant(after, f);
    } else {
      assert Chain(after, f, c);
    }
  }

  lemma InsertingKeepsOthers(a: Auth, h: Hash, u: UserId, g: FamilyId, f: FamilyId, c: seq<Hash>, expires: int)
    requires h !in a.refresh && f != g && FamilyOk(a.refresh, f, c)
    ensures FamilyOk(InsertToken(a, h, u, g, expires).refresh, f, c)
  {
    var after := InsertToken(a, h, u, g, expires).refresh;
    if Vacant(a.refresh, f) {
      assert Vacant(after, f);
    } else {
      assert Chain(after, f, c);
    }
  }

  lemma DeletingKeepsFamily(a: Auth, u: UserId, f: FamilyId, c: seq<Hash>)
    requires FamilyOk(a.refresh, f, c)
    ensures FamilyOk(DeleteUser(a, u).refresh, f, c)
  {
    var after := DeleteUser(a, u).refresh;
    if Chain(a.refresh, f, c) && a.refresh[c[0]].user != u {
      assert Chain(after, f, c);
    } else if u in a.users {
      assert Vacant(after, f);
    }
  }

  lemma RevokeStepKeepsFamilies(w: World, s: Step)
    requires FamiliesOk(w) && OnlyRevoked(w.auth.refresh, NextAuth(w, s).refresh) && NextChains(w, s) == w.chains
    ensures FamiliesOk(Next(w, s))
  {
    forall f | f in w.chains ensures FamilyOk(NextAuth(w, s).refresh, f, w.chains[f]) {
      RevokingKeepsFamily(w.auth.refresh, NextAuth(w, s).refresh, f, w.chains[f]);
    }
  }

  lemma IssueKeepsFamilies(w: World, s: Step)
    requires FamiliesOk(w) && s.Issue? && CanIssue(w, s.read)
    ensures FamiliesOk(Next(w, s))
  {
    var next := Next(w, s);
    forall f | f in next.chains ensures FamilyOk(next.auth.refresh, f, next.chains[f]) {
      if f == w.next {
        assert Chain(next.auth.refresh, f, [w.next]);
      } else {
        InsertingKeepsOthers(w.auth, w.next, s.read.user, w.next, f, w.chains[f], s.expires);
      }
    }
  }

  lemma RotationKeepsFamilies(w: World, s: Step)
    requires FamiliesOk(w) && Rotates(w, s)
    ensures FamiliesOk(Next(w, s))
  {
    var next := Next(w, s);
    var g := w.auth.refresh[s.hash].family;
    assert FamilyOk(w.auth.refresh, g, w.chains[g]);
    forall f | f in next.chains ensures FamilyOk(next.auth.refresh, f, next.chains[f]) {
      if f == g {
        ReplacingExtendsChain(w.auth, s.hash, w.next, w.chains[g], s.expires);
      } else {
        ReplacingKeepsOthers(w.auth, s.hash, w.next, f, w.chains[f], s.expires);
      }
    }
  }

  lemma DeletionKeepsFamilies(w: World, s: Step)
    requires FamiliesOk(w) && s.DeleteAccount?
    ensures FamiliesOk(Next(w, s))
  {
    forall f | f in w.chains ensures FamilyOk(NextAuth(w, s).refresh, f, w.chains[f]) {
      DeletingKeepsFamily(w.auth, s.user, f, w.chains[f]);
    }
  }

  lemma OthersOnlyRevoke(w: World, s: Step)
    requires !(s.Issue? && CanIssue(w, s.read)) && !Rotates(w, s) && !s.DeleteAccount?
    ensures OnlyRevoked(w.auth.refresh, NextAuth(w, s).refresh) && NextChains(w, s) == w.chains
  {
  }

  lemma NextKeepsFamilies(w: World, s: Step)
    requires FamiliesOk(w)
    ensures FamiliesOk(Next(w, s))
  {
    if s.Issue? && CanIssue(w, s.read) {
      IssueKeepsFamilies(w, s);
    } else if Rotates(w, s) {
      RotationKeepsFamilies(w, s);
    } else if s.DeleteAccount? {
      DeletionKeepsFamilies(w, s);
    } else {
      OthersOnlyRevoke(w, s);
      RevokeStepKeepsFamilies(w, s);
    }
  }

  // ---------- versions and resets ----------

  /** Users are never removed and session versions never go down. */
  predicate UsersGrow(a: Auth, b: Auth) {
    forall u :: u in a.users ==> u in b.users && a.users[u].version <= b.users[u].version
  }

  lemma NextUsersGrow(w: World, s: Step)
    ensures UsersGrow(w.auth, NextAuth(w, s))
  {
  }

  lemma NextKeepsVersions(w: World, s: Step)
    requires VersionsOk(w)
    ensures VersionsOk(Next(w, s))
  {
    NextUsersGrow(w, s);
  }

  lemma NextKeepsResets(w: World, s: Step)
    requires ResetsOk(w)
    ensures ResetsOk(Next(w, s))
  {
  }

  lemma {:induction false} ReachableOk(steps: seq<Step>)
    ensures WorldOk(Run(INITIAL, steps))
  {
    if steps != [] {
      var w := Run(INITIAL, steps[..|steps|-1]);
      var s := steps[|steps|-1];
      ReachableOk(steps[..|steps|-1]);
      NextKeepsFamilies(w, s);
      NextKeepsVersions(w, s);
      NextKeepsResets(w, s);
    }
  }

  lemma {:induction false} RunConcat(w: World, a: seq<Step>, b: seq<Step>)
    ensures Run(w, a + b) == Run(Run(w, a), b)
  {
    if b == [] {
      assert a + b == a;
    } else {
      RunConcat(w, a, b[..|b|-1]);
      assert (a + b)[..|a + b|-1] == a + b[..|b|-1];
    }
  }

  // ---------- families are linear, and dead ones stay dead ----------

  /** In every reachable state each family with tokens is a chain of replacements, with all tokens but the last
      revoked. */
  lemma FamiliesAreLinear(steps: seq<Step>, h: Hash)
    requires h in Run(INITIAL, steps).auth.refresh
    ensures var w := Run(INITIAL, steps);
            var f := w.auth.refresh[h].family;
            f in w.chains && h in w.chains[f] && Chain(w.auth.refresh, f, w.chains[f])
  {
    var w := Run(INITIAL, steps);
    ReachableOk(steps);
    var f := w.auth.refresh[h].family;
    assert FamilyOk(w.auth.refresh, f, w.chains[f]);
  }

  /** So a family has at most one live token, and it is the end of the replaced_by chain. */
  lemma AtMostOneLive(steps: seq<Step>, h: Hash, k: Hash)
    requires var refresh := Run(INITIAL, steps).auth.refresh;
             h in refresh && k in refresh && refresh[h].family == refresh[k].family && !refresh[h].revoked
             && !refresh[k].revoked
    ensures h == k && Run(INITIAL, steps).auth.refresh[h].replacedBy == None
  {
    var w := Run(INITIAL, steps);
    var f := w.auth.refresh[h].family;
    FamiliesAreLinear(steps, h);
    LiveIsLast(w.auth.refresh, f, w.chains[f], h);
    LiveIsLast(w.auth.refresh, f, w.chains[f], k);
  }

  predicate Dead(a: Auth, f: FamilyId) {
    forall h :: h in a.refresh && a.refresh[h].family == f ==> a.refresh[h].revoked
  }

  lemma NextKeepsDead(w: World, s: Step, f: FamilyId)
    requires f < w.next && Dead(w.auth, f)
    ensures Dead(NextAuth(w, s), f)
  {
  }

  /** A family without a live token never has one again, in any continuation. */
  lemma {:induction false} DeadForEver(w: World, steps: seq<Step>, f: FamilyId)
    requires f < w.next && Dead(w.auth, f)
    ensures Dead(Run(w, steps).auth, f) && f < Run(w, steps).next
  {
    if steps != [] {
      DeadForEver(w, steps[..|steps|-1], f);
      NextKeepsDead(Run(w, steps[..|steps|-1]), steps[|steps|-1], f);
    }
  }

  /** A replayed token takes its family with it for ever: the replay answers Reuse, and in no continuation is any token
      of the family accepted again. */
  lemma ReplayKillsFamily(steps: seq<Step>, h: Hash, expires: int, now: int, more: seq<Step>, k: Hash, next: Hash,
      later: int)
    requires var w := Run(INITIAL, steps);
             h in w.auth.refresh && w.auth.refresh[h].revoked && w.auth.refresh[h].expires > now
    ensures var w := Run(INITIAL, steps);
            var end := Run(Next(w, Refresh(h, expires, now)), more).auth;
            && RotateReply(w.auth, h, w.next, now) == Reuse
            && (k in end.refresh && end.refresh[k].family == w.auth.refresh[h].family ==>
                 !RefreshAccepted(end, k, next, later))
  {
    var w := Run(INITIAL, steps);
    var f := w.auth.refresh[h].family;
    ReachableOk(steps);
    assert FamilyOk(w.auth.refresh, f, w.chains[f]);
    var after := Next(w, Refresh(h, expires, now));
    assert Dead(after.auth, f);
    DeadForEver(after, more, f);
  }

  // ---------- logout and password reset ----------

  /** The token is revoked, or its row is gone. */
  predicate Spent(a: Auth, h: Hash) { h in a.refresh ==> a.refresh[h].revoked }

  lemma NextKeepsSpent(w: World, s: Step, h: Hash)
    requires Spent(w.auth, h) && h < w.next
    ensures Spent(NextAuth(w, s), h)
  {
  }

  /** A spent token is never accepted again. */
  lemma {:induction false} SpentForEver(w: World, steps: seq<Step>, h: Hash, next: Hash, now: int)
    requires Spent(w.auth, h) && h < w.next
    ensures Spent(Run(w, steps).auth, h) && h < Run(w, steps).next && !RefreshAccepted(Run(w, steps).auth, h, next, now)
  {
    if steps != [] {
      SpentForEver(w, steps[..|steps|-1], h, next, now);
      NextKeepsSpent(Run(w, steps[..|steps|-1]), steps[|steps|-1], h);
    }
  }

  lemma {:induction false} VersionsGrow(w: World, steps: seq<Step>)
    ensures UsersGrow(w.auth, Run(w, steps).auth)
  {
    if steps != [] {
      VersionsGrow(w, steps[..|steps|-1]);
      NextUsersGrow(Run(w, steps[..|steps|-1]), steps[|steps|-1]);
    }
  }

  /** A token whose version the user has left behind is never accepted again. */
  lemma OldVersionIsRefused(w: World, steps: seq<Step>, t: Access)
    requires t.user in w.auth.users && t.version < w.auth.users[t.user].version
    ensures !AccessAccepted(Run(w, steps).auth, t)
  {
    VersionsGrow(w, steps);
  }

  /** Nothing issued to u up to the world start is accepted in end. */
  ghost predicate SessionsOver(start: World, end: Auth, u: UserId) {
    && (forall t :: t in start.minted + start.pending && t.user == u ==> !AccessAccepted(end, t))
    && (forall h, next, now :: h in start.auth.refresh && start.auth.refresh[h].user == u ==>
         !RefreshAccepted(end, h, next, now))
  }

  /** Once u's tokens are revoked and u's version is raised, in either order and whatever happens in between, everything
      older is over. */
  lemma RevokedAndRaised(start: World, revoked: World, raised: World, more: seq<Step>, rest: seq<Step>, u: UserId)
    requires WorldOk(start) && start.next <= revoked.next
    requires forall h :: h in start.auth.refresh && start.auth.refresh[h].user == u ==> Spent(revoked.auth, h)
    requires u in start.auth.users ==>
               u in raised.auth.users && start.auth.users[u].version < raised.auth.users[u].version
    requires Run(revoked, more) == Run(raised, rest)
    ensures SessionsOver(start, Run(raised, rest).auth, u)
  {
    var end := Run(raised, rest).auth;
    forall t | t in start.minted + start.pending && t.user == u ensures !AccessAccepted(end, t) {
      OldVersionIsRefused(raised, rest, t);
    }
    forall h, next, now | h in start.auth.refresh && start.auth.refresh[h].user == u
      ensures !RefreshAccepted(end, h, next, now) {
      SpentForEver(revoked, more, h, next, now);
    }
  }

  lemma RunOne(w: World, s: Step)
    ensures Run(w, [s]) == Next(w, s)
  {
    assert [s][..0] == [];
    assert Run(w, []) == w;
  }

  lemma Regroup(a: seq<Step>, b: seq<Step>, c: seq<Step>, d: seq<Step>)
    ensures a + b + c + d == a + (b + (c + d))
  {
  }

  /** Logout is two statements, revocation and version bump, with anything in between and anything afterwards: no access
      token minted, and no refresh token inserted, before it began is accepted once it is done. A login that had read
      its user before is covered too as far as its access token goes. */
  lemma LogoutEndsSessions(before: seq<Step>, between: seq<Step>, after: seq<Step>, u: UserId)
    ensures var start := Run(INITIAL, before);
            SessionsOver(start, Run(start, [LogoutRevoke(u)] + between + [LogoutBump(u)] + after).auth, u)
  {
    var start := Run(INITIAL, before);
    ReachableOk(before);
    var first, second := [LogoutRevoke(u)], [LogoutBump(u)];
    var revoked := Run(start, first);
    RunOne(start, LogoutRevoke(u));
    var middle := Run(revoked, between);
    var raised := Next(middle, LogoutBump(u));
    RunOne(middle, LogoutBump(u));
    RunConcat(revoked, between, second + after);
    RunConcat(middle, second, after);
    RunConcat(start, first, between + (second + after));
    Regroup(first, between, second, after);
    VersionsGrow(revoked, between);
    RevokedAndRaised(start, revoked, raised, between + (second + after), after, u);
  }

  /** A password reset that takes effect does both at once. */
  lemma ResetEndsSessions(before: seq<Step>, r: ResetId, u: UserId, password: nat, after: seq<Step>)
    requires Consume(Run(INITIAL, before).auth, r, u, password).1
    ensures var start := Run(INITIAL, before);
            SessionsOver(start, Run(Next(start, ConfirmReset(r, u, password)), after).auth, u)
  {
    var start := Run(INITIAL, before);
    ReachableOk(before);
    var done := Next(start, ConfirmReset(r, u, password));
    RevokedAndRaised(start, done, done, after, after, u);
  }

  /** A change of status, to suspended or back, and the deletion of the account end every access token minted before. */
  lemma StatusChangeEndsAccess(before: seq<Step>, s: Step, after: seq<Step>, t: Access)
    requires (s.ChangeStatus? || s.DeleteAccount?) && t in Run(INITIAL, before).minted && t.user == s.user
    ensures !AccessAccepted(Run(Next(Run(INITIAL, before), s), after).auth, t)
  {
    ReachableOk(before);
    OldVersionIsRefused(Next(Run(INITIAL, before), s), after, t);
  }

  /** A reset token changes a password at most once: no token occurs twice in the list of changes, and a token that
      occurs is refused. */
  lemma ResetOnce(steps: seq<Step>, r: ResetId, u: UserId, password: nat, i: nat, j: nat)
    requires i < j < |Run(INITIAL, steps).changes|
    ensures var w := Run(INITIAL, steps);
            w.changes[i] != w.changes[j] && (r in w.changes ==> !Consume(w.auth, r, u, password).1)
  {
    ReachableOk(steps);
  }
}
