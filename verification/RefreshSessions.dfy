/** Refresh-session families: rotation, reuse detection, logout and access-token validation. */
module RefreshSessions {
  import opened Prelude

  datatype Role = CUSTOMER | STAFF | ADMIN

  datatype User = User(id: Uuid, role: Role, active: bool)

  datatype Session = Session(
    id: Uuid, userId: Uuid, familyId: Uuid, tokenHash: string, expiresAt: int,
    revokedAt: Option<int>, rotatedTo: Option<Uuid>)

  /** The `refresh_sessions` table in insertion order, beside the users it refers to. */
  datatype Store = Store(users: map<Uuid, User>, sessions: seq<Session>)

  /** A freshly drawn credential: new session id, new token, and a new family unless it continues one. */
  datatype Credential = Credential(id: Uuid, familyId: Uuid, tokenHash: string, expiresAt: int)

  /** What an access token claims; its signature is taken as checked. */
  datatype AccessToken = AccessToken(userId: Uuid, role: Role, sessionId: Uuid, expiresAt: int)

  datatype Step =
    | SetUser(user: User)
    | Login(userId: Uuid, credential: Credential)
    | Refresh(sessionId: Uuid, tokenHash: string, now: int, next: Credential)
    | Logout(sessionId: Uuid, tokenHash: string, now: int)

  // ---------------------------------------------------------------- statements

  function InFamily(familyId: Uuid): Session -> bool { (s: Session) => s.familyId == familyId }

  function WithId(id: Uuid): Session -> bool { (s: Session) => s.id == id }

  /** UPDATE ... SET revoked_at = now WHERE family_id = family AND revoked_at IS NULL */
  function KillRow(familyId: Uuid, now: int): Session -> Session {
    (s: Session) => if s.familyId == familyId && s.revokedAt == None then s.(revokedAt := Some(now)) else s
  }

  function RotateRow(id: Uuid, now: int, next: Uuid): Session -> Session {
    (s: Session) => if s.id == id then s.(revokedAt := Some(now), rotatedTo := Some(next)) else s
  }

  predicate Revocable(s: Session, id: Uuid, tokenHash: string, now: int) {
    s.id == id && s.tokenHash == tokenHash && s.revokedAt == None && s.expiresAt > now
  }

  function RevokeRow(id: Uuid, tokenHash: string, now: int): Session -> Session {
    (s: Session) => if Revocable(s, id, tokenHash, now) then s.(revokedAt := Some(now)) else s
  }

  /** The primary key and the unique token index refuse the row. */
  predicate Conflicts(sessions: seq<Session>, c: Credential) {
    exists s :: s in sessions && (s.id == c.id || s.tokenHash == c.tokenHash)
  }

  function NewSession(userId: Uuid, familyId: Uuid, c: Credential): Session {
    Session(c.id, userId, familyId, c.tokenHash, c.expiresAt, None, None)
  }

  function Find(sessions: seq<Session>, id: Uuid): Option<Session> {
    var rows := Filter(sessions, WithId(id));
    if rows == [] then None else Some(rows[0])
  }

  predicate UserActive(users: map<Uuid, User>, id: Uuid) { id in users && users[id].active }

  /** `rotateRefreshSession`: the table after, and the user a new session was opened for. */
  function Rotate(s: Store, id: Uuid, tokenHash: string, now: int, next: Credential): (seq<Session>, Option<Uuid>) {
    match Find(s.sessions, id)
    case None => (s.sessions, None)
    case Some(current) =>
      if current.revokedAt.Some? then
        if current.rotatedTo.Some? then (Map(s.sessions, KillRow(current.familyId, now)), None)   // reuse
        else (s.sessions, None)
      else if current.tokenHash != tokenHash || current.expiresAt <= now || !UserActive(s.users, current.userId)
              || Conflicts(s.sessions, next)
      then (s.sessions, None)
      else
        (Map(s.sessions, RotateRow(id, now, next.id)) + [NewSession(current.userId, current.familyId, next)],
         Some(current.userId))
  }

  predicate FreshFamily(sessions: seq<Session>, familyId: Uuid) {
    forall s :: s in sessions ==> s.familyId != familyId
  }

  function Next(s: Store, step: Step): Store {
    match step
    case SetUser(user) => s.(users := s.users[user.id := user])
    case Login(userId, c) =>
      if UserActive(s.users, userId) && FreshFamily(s.sessions, c.familyId) && !Conflicts(s.sessions, c)
      then s.(sessions := s.sessions + [NewSession(userId, c.familyId, c)])
      else s
    case Refresh(id, tokenHash, now, next) => s.(sessions := Rotate(s, id, tokenHash, now, next).0)
    case Logout(id, tokenHash, now) => s.(sessions := Map(s.sessions, RevokeRow(id, tokenHash, now)))
  }

  function Run(s: Store, steps: seq<Step>): Store {
    if steps == [] then s else Next(Run(s, steps[..|steps| - 1]), steps[|steps| - 1])
  }

  const NO_ONE := Store(map[], [])

  /** `isRefreshSessionActive` */
  predicate SessionActive(s: Store, id: Uuid, userId: Uuid, now: int) {
    exists x :: x in s.sessions && x.id == id && x.userId == userId && x.revokedAt == None && x.expiresAt > now
  }

  /** `validateAccessToken` */
  predicate Accepted(s: Store, token: AccessToken, now: int) {
    && token.expiresAt > now
    && UserActive(s.users, token.userId) && s.users[token.userId].role == token.role
    && SessionActive(s, token.sessionId, token.userId, now)
  }

  // ---------------------------------------------------------------- invariant

  /** Each session but the last was rotated into the next one; all belong to one user. */
  predicate IsChain(family: seq<Session>) {
    && (forall i :: 0 <= i < |family| - 1 ==>
      family[i].rotatedTo == Some(family[i + 1].id) && family[i].revokedAt.Some?)
    && (family != [] ==> family[|family| - 1].rotatedTo == None)
    && forall i, j :: 0 <= i < |family| && 0 <= j < |family| ==> family[i].userId == family[j].userId
  }

  function Family(s: Store, familyId: Uuid): seq<Session> { Filter(s.sessions, InFamily(familyId)) }

  function SessionId(s: Session): Uuid { s.id }

  ghost predicate Inv(s: Store) {
    && Distinct(Map(s.sessions, SessionId))
    && forall f {:trigger Family(s, f)} :: IsChain(Family(s, f))
  }

  lemma {:induction false} FilterOfMap(rows: seq<Session>, f: Session -> Session, familyId: Uuid)
    requires forall x :: f(x).familyId == x.familyId
    ensures Filter(Map(rows, f), InFamily(familyId)) == Map(Filter(rows, InFamily(familyId)), f)
  {
    if rows != [] {
      var init, last := rows[..|rows| - 1], rows[|rows| - 1];
      assert rows == init + [last];
      FilterOfMap(init, f, familyId);
      assert Map(rows, f) == Map(init, f) + [f(last)];
      FilterAppend(Map(init, f), f(last), InFamily(familyId));
    }
  }

  lemma FoundById(sessions: seq<Session>, x: Session)
    requires Distinct(Map(sessions, SessionId)) && x in sessions
    ensures Find(sessions, x.id) == Some(x)
  {
    FilterMember(sessions, x, WithId(x.id));
    var first := Filter(sessions, WithId(x.id))[0];
    FilterMember(sessions, first, WithId(x.id));
    var i :| 0 <= i < |sessions| && sessions[i] == x;
    var j :| 0 <= j < |sessions| && sessions[j] == first;
    assert Map(sessions, SessionId)[i] == Map(sessions, SessionId)[j];
  }

  lemma Finds(sessions: seq<Session>, id: Uuid)
    ensures match Find(sessions, id)
      case Some(x) => x in sessions && x.id == id
      case None => forall x :: x in sessions ==> x.id != id
  {
    var rows := Filter(sessions, WithId(id));
    if rows != [] { FilterMember(sessions, rows[0], WithId(id)); }
    forall x | x in sessions && x.id == id ensures x in rows { FilterMember(sessions, x, WithId(id)); }
  }

  /** An unrevoked session is the last of its family. */
  lemma UnrevokedIsLast(family: seq<Session>, x: Session)
    requires IsChain(family) && x in family && x.revokedAt == None
    ensures x == family[|family| - 1]
  {
  }

  /** A statement that only revokes keeps every chain. */
  lemma RevokingKeeps(s: Store, f: Session -> Session)
    requires Inv(s)
    requires forall x ::
      && f(x).(revokedAt := None) == x.(revokedAt := None)
      && (x.revokedAt.Some? ==> f(x).revokedAt.Some?)
    ensures Inv(s.(sessions := Map(s.sessions, f)))
  {
    var s2 := s.(sessions := Map(s.sessions, f));
    assert forall x: Session :: x.(revokedAt := None).familyId == x.familyId && x.(revokedAt := None).id == x.id
                            && x.(revokedAt := None).rotatedTo == x.rotatedTo
                            && x.(revokedAt := None).userId == x.userId;
    assert Map(s2.sessions, SessionId) == Map(s.sessions, SessionId);
    forall family ensures IsChain(Family(s2, family)) {
      FilterOfMap(s.sessions, f, family);
      assert IsChain(Family(s, family));
    }
  }

  lemma RotateKeeps(s: Store, current: Session, now: int, next: Credential)
    requires Inv(s) && current in s.sessions && current.revokedAt == None && !Conflicts(s.sessions, next)
    ensures Inv(s.(sessions := Map(s.sessions, RotateRow(current.id, now, next.id)) +
                               [NewSession(current.userId, current.familyId, next)]))
  {
    var f := RotateRow(current.id, now, next.id);
    var added := NewSession(current.userId, current.familyId, next);
    var s2 := s.(sessions := Map(s.sessions, f) + [added]);
    assert Map(s2.sessions, SessionId) == Map(s.sessions, SessionId) + [next.id];
    forall family ensures IsChain(Family(s2, family)) {
      FilterOfMap(s.sessions, f, family);
      FilterAppend(Map(s.sessions, f), added, InFamily(family));
      assert IsChain(Family(s, family));
      ChainGrows(s, family, current, now, next);
    }
  }

  lemma ChainGrows(s: Store, family: Uuid, current: Session, now: int, next: Credential)
    requires Inv(s) && current in s.sessions && current.revokedAt == None
    ensures IsChain(Map(Family(s, family), RotateRow(current.id, now, next.id)) +
      if current.familyId == family then [NewSession(current.userId, current.familyId, next)] else [])
  {
    var chain, f := Family(s, family), RotateRow(current.id, now, next.id);
    assert IsChain(chain);
    forall i | 0 <= i < |chain| ensures chain[i].id == current.id ==> chain[i] == current {
      FilterMember(s.sessions, chain[i], InFamily(family));
      FoundById(s.sessions, chain[i]);
      FoundById(s.sessions, current);
    }
    FilterMember(s.sessions, current, InFamily(family));
    if current.familyId == family {
      UnrevokedIsLast(chain, current);
      assert forall i :: 0 <= i < |chain| - 1 ==> chain[i] != current;
    } else {
      assert Map(chain, f) == chain;
      AppendNothing(chain);
    }
  }

  lemma LoginKeeps(s: Store, userId: Uuid, c: Credential)
    requires Inv(s) && FreshFamily(s.sessions, c.familyId) && !Conflicts(s.sessions, c)
    ensures Inv(s.(sessions := s.sessions + [NewSession(userId, c.familyId, c)]))
  {
    var added := NewSession(userId, c.familyId, c);
    var s2 := s.(sessions := s.sessions + [added]);
    assert Map(s2.sessions, SessionId) == Map(s.sessions, SessionId) + [c.id];
    forall family ensures IsChain(Family(s2, family)) {
      FilterAppend(s.sessions, added, InFamily(family));
      assert IsChain(Family(s, family));
      if family == c.familyId {
        FilterNone(s.sessions, InFamily(family));
      } else {
        AppendNothing(Family(s, family));
      }
    }
  }

  lemma NextKeeps(s: Store, step: Step)
    requires Inv(s)
    ensures Inv(Next(s, step))
  {
    match step
    case SetUser(user) =>
      forall family ensures IsChain(Family(Next(s, step), family)) { assert IsChain(Family(s, family)); }
    case Login(userId, c) =>
      if Next(s, step) != s { LoginKeeps(s, userId, c); }
    case Refresh(id, tokenHash, now, next) =>
      Finds(s.sessions, id);
      hide Inv, Find;
      match Find(s.sessions, id) {
        case None =>
        case Some(current) =>
          if current.revokedAt.Some? {
            if current.rotatedTo.Some? { RevokingKeeps(s, KillRow(current.familyId, now)); }
          } else if Next(s, step) != s {
            RotateKeeps(s, current, now, next);
          }
      }
    case Logout(id, tokenHash, now) => RevokingKeeps(s, RevokeRow(id, tokenHash, now));
  }

  lemma {:induction false} RunKeeps(steps: seq<Step>)
    ensures Inv(Run(NO_ONE, steps))
  {
    if steps == [] {
      forall family ensures IsChain(Family(NO_ONE, family)) {}
    } else {
      RunKeeps(steps[..|steps| - 1]);
      NextKeeps(Run(NO_ONE, steps[..|steps| - 1]), steps[|steps| - 1]);
    }
    hide Next, Inv;
  }

  // ---------------------------------------------------------------- theorems

  /** Every family is one acyclic rotation chain of one user, and only its last session may be unrevoked. */
  lemma FamiliesAreChains(steps: seq<Step>, familyId: Uuid)
    ensures
      var chain := Family(Run(NO_ONE, steps), familyId);
      && (forall i :: 0 <= i < |chain| - 1 ==> chain[i].rotatedTo == Some(chain[i + 1].id))
      && (forall i :: 0 <= i < |chain| && chain[i].revokedAt == None ==> i == |chain| - 1)
      && (chain != [] ==> chain[|chain| - 1].rotatedTo == None)
      && (forall i, j :: 0 <= i < j < |chain| ==> chain[i].id != chain[j].id && chain[i].userId == chain[j].userId)
  {
    RunKeeps(steps);
    var s := Run(NO_ONE, steps);
    hide Run;
    var chain := Family(s, familyId);
    assert IsChain(chain);
    DistinctInFamily(s.sessions, familyId);
  }

  lemma {:induction false} DistinctInFamily(sessions: seq<Session>, familyId: Uuid)
    requires Distinct(Map(sessions, SessionId))
    ensures Distinct(Map(Filter(sessions, InFamily(familyId)), SessionId))
  {
    if sessions != [] {
      var init, last := sessions[..|sessions| - 1], sessions[|sessions| - 1];
      assert Map(sessions, SessionId) == Map(init, SessionId) + [last.id];
      DistinctInFamily(init, familyId);
      var rows := Filter(init, InFamily(familyId));
      forall i | 0 <= i < |rows| ensures rows[i].id != last.id {
        FilterMember(init, rows[i], InFamily(familyId));
        var j :| 0 <= j < |init| && init[j] == rows[i];
        assert Map(sessions, SessionId)[j] != Map(sessions, SessionId)[|init|];
      }
    }
  }

  /** No session of the family can be used any more. */
  predicate Dead(s: Store, familyId: Uuid) {
    && (exists x :: x in s.sessions && x.familyId == familyId)
    && forall x :: x in s.sessions && x.familyId == familyId ==> x.revokedAt.Some?
  }

  /** Presenting a session that was already rotated is refused and kills its whole family. */
  lemma ReuseKillsTheFamily(steps: seq<Step>, x: Session, tokenHash: string, now: int, next: Credential)
    requires x in Run(NO_ONE, steps).sessions && x.revokedAt.Some? && x.rotatedTo.Some?
    ensures
      var s := Run(NO_ONE, steps);
      Rotate(s, x.id, tokenHash, now, next).1 == None && Dead(Next(s, Refresh(x.id, tokenHash, now, next)), x.familyId)
  {
    RunKeeps(steps);
    var s := Run(NO_ONE, steps);
    FoundById(s.sessions, x);
    hide Run, Find, Inv;
    var s2 := Next(s, Refresh(x.id, tokenHash, now, next));
    var i :| 0 <= i < |s.sessions| && s.sessions[i] == x;
    assert s2.sessions[i].familyId == x.familyId && s2.sessions[i] in s2.sessions;
  }

  lemma DeadStays(s: Store, step: Step, familyId: Uuid)
    requires Inv(s) && Dead(s, familyId)
    ensures Dead(Next(s, step), familyId)
  {
    var s2 := Next(s, step);
    if step.Refresh? {
      Finds(s.sessions, step.sessionId);
    }
    RowsRemain(s, step, familyId);
    hide Find, Inv;
  }

  lemma RowsRemain(s: Store, step: Step, familyId: Uuid)
    requires exists x :: x in s.sessions && x.familyId == familyId
    ensures exists x :: x in Next(s, step).sessions && x.familyId == familyId
  {
    hide Find, Conflicts;
    var s2 := Next(s, step);
    var x :| x in s.sessions && x.familyId == familyId;
    var i :| 0 <= i < |s.sessions| && s.sessions[i] == x;
    assert i < |s2.sessions| && s2.sessions[i].familyId == familyId && s2.sessions[i] in s2.sessions;
  }

  lemma {:induction false} DeadForever(s: Store, steps: seq<Step>, familyId: Uuid)
    requires Inv(s) && Dead(s, familyId)
    ensures Inv(Run(s, steps)) && Dead(Run(s, steps), familyId)
  {
    if steps != [] {
      DeadForever(s, steps[..|steps| - 1], familyId);
      NextKeeps(Run(s, steps[..|steps| - 1]), steps[|steps| - 1]);
      DeadStays(Run(s, steps[..|steps| - 1]), steps[|steps| - 1], familyId);
    }
    hide Next, Inv, Dead;
  }

  /**
   A dead family never revives: whatever runs later, none of its sessions can be refreshed and
   every access token bound to one of them is rejected.
   */
  lemma DeadFamiliesNeverRevive(before: seq<Step>, after: seq<Step>, x: Session, token: AccessToken, now: int,
                                tokenHash: string, next: Credential)
    requires Dead(Run(NO_ONE, before), x.familyId) && x in Run(Run(NO_ONE, before), after).sessions
    requires token.sessionId == x.id
    ensures
      var s := Run(Run(NO_ONE, before), after);
      && !Accepted(s, token, now)
      && Rotate(s, x.id, tokenHash, now, next).1 == None
  {
    RunKeeps(before);
    DeadForever(Run(NO_ONE, before), after, x.familyId);
    var s := Run(Run(NO_ONE, before), after);
    FoundById(s.sessions, x);
    if SessionActive(s, token.sessionId, token.userId, now) {
      var y :| y in s.sessions && y.id == token.sessionId && y.revokedAt == None;
      FoundById(s.sessions, y);
    }
    hide Run, Find, Inv;
  }

  /** After a successful rotation only the new session's tokens are accepted, for the same user. */
  lemma RotationReplacesTheSession(steps: seq<Step>, x: Session, tokenHash: string, now: int, next: Credential,
                                   token: AccessToken, later: int)
    requires x in Run(NO_ONE, steps).sessions && Rotate(Run(NO_ONE, steps), x.id, tokenHash, now, next).1.Some?
    requires exists y :: y in Next(Run(NO_ONE, steps), Refresh(x.id, tokenHash, now, next)).sessions
                         && y.id == token.sessionId && y.familyId == x.familyId
    ensures
      var s := Run(NO_ONE, steps);
      && Rotate(s, x.id, tokenHash, now, next).1 == Some(x.userId)
      && x.revokedAt == None && x.tokenHash == tokenHash && x.expiresAt > now
      && (Accepted(Next(s, Refresh(x.id, tokenHash, now, next)), token, later) ==>
            token.sessionId == next.id && token.userId == x.userId)
  {
    RunKeeps(steps);
    var s := Run(NO_ONE, steps);
    FoundById(s.sessions, x);
    NextKeeps(s, Refresh(x.id, tokenHash, now, next));
    var s2 := Next(s, Refresh(x.id, tokenHash, now, next));
    var added := NewSession(x.userId, x.familyId, next);
    hide Run, Find;
    assert s2.sessions == Map(s.sessions, RotateRow(x.id, now, next.id)) + [added];
    FilterAppend(Map(s.sessions, RotateRow(x.id, now, next.id)), added, InFamily(x.familyId));
    if SessionActive(s2, token.sessionId, token.userId, later) {
      var z :| z in s2.sessions && z.id == token.sessionId && z.userId == token.userId && z.revokedAt == None;
      var y :| y in s2.sessions && y.id == token.sessionId && y.familyId == x.familyId;
      FoundById(s2.sessions, y);
      FoundById(s2.sessions, z);
      FilterMember(s2.sessions, z, InFamily(x.familyId));
      assert IsChain(Family(s2, x.familyId));
      UnrevokedIsLast(Family(s2, x.familyId), z);
    }
  }

  // ---------------------------------------------------------------- exactly when a token works

  /** In every run: the one session with this id, if there is one. */
  lemma SessionsHaveOneRow(steps: seq<Step>, x: Session, y: Session)
    requires x in Run(NO_ONE, steps).sessions && y in Run(NO_ONE, steps).sessions && x.id == y.id
    ensures x == y
  {
    RunKeeps(steps);
    FoundById(Run(NO_ONE, steps).sessions, x);
    FoundById(Run(NO_ONE, steps).sessions, y);
  }

  /**
   An access token is accepted if and only if it has not expired, its user is active in the role it
   claims, and the session it names is that user's, unrevoked and unexpired.
   */
  lemma AcceptedIff(steps: seq<Step>, token: AccessToken, now: int, x: Session)
    requires x in Run(NO_ONE, steps).sessions && x.id == token.sessionId
    ensures
      var users := Run(NO_ONE, steps).users;
      Accepted(Run(NO_ONE, steps), token, now) <==>
        && now < token.expiresAt
        && token.userId in users && users[token.userId].active && users[token.userId].role == token.role
        && x.userId == token.userId && x.revokedAt == None && now < x.expiresAt
  {
    var s := Run(NO_ONE, steps);
    forall y | y in s.sessions && y.id == token.sessionId ensures y == x { SessionsHaveOneRow(steps, x, y); }
    hide Run;
  }

  /** A token of a session that does not exist is never accepted. */
  lemma NoSessionNoAccess(s: Store, token: AccessToken, now: int)
    requires forall x :: x in s.sessions ==> x.id != token.sessionId
    ensures !Accepted(s, token, now)
  {
  }

  /**
   A refresh opens a new session if and only if the one it names is unrevoked and unexpired, the
   token is that session's, its user is active, and the drawn id and token are new. The new session
   continues its family; the old one is revoked now in favour of it; no other row changes.
   */
  lemma RefreshSucceedsIff(steps: seq<Step>, x: Session, tokenHash: string, now: int, next: Credential)
    requires x in Run(NO_ONE, steps).sessions
    ensures
      var s := Run(NO_ONE, steps);
      var (after, user) := Rotate(s, x.id, tokenHash, now, next);
      && (user.Some? <==>
            && x.revokedAt == None && now < x.expiresAt && x.tokenHash == tokenHash
            && x.userId in s.users && s.users[x.userId].active
            && forall y :: y in s.sessions ==> y.id != next.id && y.tokenHash != next.tokenHash)
      && (user.Some? ==>
            && user == Some(x.userId) && |after| == |s.sessions| + 1
            && after[|s.sessions|] ==
                 Session(next.id, x.userId, x.familyId, next.tokenHash, next.expiresAt, None, None)
            && forall i :: 0 <= i < |s.sessions| ==>
                 after[i] == if s.sessions[i].id == x.id
                             then s.sessions[i].(revokedAt := Some(now), rotatedTo := Some(next.id))
                             else s.sessions[i])
      && (user == None && !(x.revokedAt.Some? && x.rotatedTo.Some?) ==> after == s.sessions)
  {
    RunKeeps(steps);
    FoundById(Run(NO_ONE, steps).sessions, x);
    hide Run, Find, Inv;
  }

  /** A reused session revokes exactly the rows of its family that were not revoked yet. */
  lemma ReuseRevokes(steps: seq<Step>, x: Session, tokenHash: string, now: int, next: Credential)
    requires x in Run(NO_ONE, steps).sessions && x.revokedAt.Some? && x.rotatedTo.Some?
    ensures
      var s := Run(NO_ONE, steps);
      var after := Rotate(s, x.id, tokenHash, now, next).0;
      |after| == |s.sessions| && forall i :: 0 <= i < |after| ==>
        after[i] == if s.sessions[i].familyId == x.familyId && s.sessions[i].revokedAt == None
                    then s.sessions[i].(revokedAt := Some(now)) else s.sessions[i]
  {
    RunKeeps(steps);
    FoundById(Run(NO_ONE, steps).sessions, x);
    hide Run, Find, Inv;
  }

  /** A login opens a session if and only if the user is active and family, id and token are new. */
  lemma LoginOpensIff(s: Store, userId: Uuid, c: Credential)
    ensures
      var after := Next(s, Login(userId, c));
      && (after != s <==>
            && userId in s.users && s.users[userId].active
            && forall x :: x in s.sessions ==> x.familyId != c.familyId && x.id != c.id && x.tokenHash != c.tokenHash)
      && (after != s ==>
            && after.users == s.users
            && after.sessions ==
                 s.sessions + [Session(c.id, userId, c.familyId, c.tokenHash, c.expiresAt, None, None)])
  {
    assert |(s.sessions + [NewSession(userId, c.familyId, c)])| != |s.sessions|;
  }

  /** A logout revokes the named session, if the token is its own and it still could be used; nothing else changes. */
  lemma LogoutRevokesIff(s: Store, id: Uuid, tokenHash: string, now: int, i: nat)
    requires i < |s.sessions|
    ensures
      var x, after := s.sessions[i], Next(s, Logout(id, tokenHash, now)).sessions;
      && |after| == |s.sessions|
      && after[i] == if x.id == id && x.tokenHash == tokenHash && x.revokedAt == None && now < x.expiresAt
                     then x.(revokedAt := Some(now)) else x
  {
  }

  /**
   A new session works from the start and until one of three ends: its own expiry, its token's, or
   the step that revokes it.
   */
  lemma LoginIsAccepted(steps: seq<Step>, userId: Uuid, c: Credential, tokenExpiresAt: int, now: int)
    requires Next(Run(NO_ONE, steps), Login(userId, c)) != Run(NO_ONE, steps)
    ensures
      var s := Run(NO_ONE, steps);
      userId in s.users &&
      (Accepted(Next(s, Login(userId, c)), AccessToken(userId, s.users[userId].role, c.id, tokenExpiresAt), now) <==>
         now < tokenExpiresAt && now < c.expiresAt)
  {
    var s := Run(NO_ONE, steps);
    var after := Next(s, Login(userId, c));
    assert after.sessions[|s.sessions|] in after.sessions;
    hide Run, FreshFamily;
  }

  // ---------------------------------------------------------------- the repository

  /** The statements as the repository runs them, row by row over a table updated in place. */
  class Repository {
    var users: map<Uuid, User>
    var sessions: seq<Session>

    constructor ()
      ensures State() == NO_ONE
    {
      users, sessions := map[], [];
    }

    function State(): Store
      reads this
    {
      Store(users, sessions)
    }

    method CreateRefreshSession(userId: Uuid, c: Credential) returns (created: bool)
      modifies this
      ensures created <==> !Conflicts(old(sessions), c)
      ensures State() == old(State()).(sessions :=
        if created then old(sessions) + [NewSession(userId, c.familyId, c)] else old(sessions))
    {
      created := !Conflicts(sessions, c);
      if created { sessions := sessions + [Session(c.id, userId, c.familyId, c.tokenHash, c.expiresAt, None, None)]; }
    }

    /** Revokes the unrevoked sessions of a family. */
    method KillFamily(familyId: Uuid, now: int)
      modifies this
      ensures State() == old(State()).(sessions := Map(old(sessions), KillRow(familyId, now)))
    {
      for i := 0 to |sessions|
        invariant |sessions| == |old(sessions)| && users == old(users)
        invariant forall k :: 0 <= k < i ==> sessions[k] == KillRow(familyId, now)(old(sessions)[k])
        invariant forall k :: i <= k < |sessions| ==> sessions[k] == old(sessions)[k]
      {
        if sessions[i].familyId == familyId && sessions[i].revokedAt == None {
          sessions := sessions[i := sessions[i].(revokedAt := Some(now))];
        }
      }
    }

    /** Revokes a session among the first `n` rows in favour of the next one. */
    method MarkRotated(n: nat, id: Uuid, now: int, next: Uuid)
      requires n <= |sessions|
      modifies this
      ensures users == old(users) && sessions == Map(old(sessions)[..n], RotateRow(id, now, next)) + old(sessions)[n..]
    {
      for i := 0 to n
        invariant |sessions| == |old(sessions)| && users == old(users)
        invariant forall k :: 0 <= k < i ==> sessions[k] == RotateRow(id, now, next)(old(sessions)[k])
        invariant forall k :: i <= k < |sessions| ==> sessions[k] == old(sessions)[k]
      {
        if sessions[i].id == id {
          sessions := sessions[i := sessions[i].(revokedAt := Some(now), rotatedTo := Some(next))];
        }
      }
    }

    /** Rotates the session into a new one, or kills its family when it had been rotated before. */
    method RotateRefreshSession(id: Uuid, tokenHash: string, now: int, next: Credential) returns (user: Option<Uuid>)
      modifies this
      ensures sessions == Rotate(old(State()), id, tokenHash, now, next).0 && users == old(users)
      ensures user == Rotate(old(State()), id, tokenHash, now, next).1
    {
      var found := Find(sessions, id);
      if found.None? { return None; }
      var current := found.value;
      if current.revokedAt.Some? {
        if current.rotatedTo.Some? { KillFamily(current.familyId, now); }
        return None;
      }
      if current.tokenHash != tokenHash || current.expiresAt <= now || !UserActive(users, current.userId) {
        return None;
      }
      var begin := sessions;
      var created := CreateRefreshSession(current.userId, next.(familyId := current.familyId));
      if !created { return None; }
      MarkRotated(|begin|, id, now, next.id);
      assert sessions == Map(begin, RotateRow(id, now, next.id)) + [NewSession(current.userId, current.familyId, next)];
      return Some(current.userId);
    }

    method RevokeRefreshSession(id: Uuid, tokenHash: string, now: int) returns (revoked: bool)
      modifies this
      ensures State() == old(State()).(sessions := Map(old(sessions), RevokeRow(id, tokenHash, now)))
      ensures revoked <==> exists s :: s in old(sessions) && Revocable(s, id, tokenHash, now)
    {
      revoked := exists s :: s in sessions && Revocable(s, id, tokenHash, now);
      for i := 0 to |sessions|
        invariant |sessions| == |old(sessions)| && users == old(users)
        invariant forall k :: 0 <= k < i ==> sessions[k] == RevokeRow(id, tokenHash, now)(old(sessions)[k])
        invariant forall k :: i <= k < |sessions| ==> sessions[k] == old(sessions)[k]
      {
        if Revocable(sessions[i], id, tokenHash, now) {
          sessions := sessions[i := sessions[i].(revokedAt := Some(now))];
        }
      }
    }
  }
}
