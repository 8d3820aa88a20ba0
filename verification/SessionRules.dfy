// What presenting a refresh token does, with the arithmetic and the fields written out, and how long a
// family can be refreshed.
module SessionRules {
  import opened Prelude
  import opened Sessions

  // The token of a stored session.
  predicate Held(s: State, token: Hash) {
    token in s.index && s.index[token] in s.sessions
  }

  function Row(s: State, token: Hash): Session
    requires Held(s, token)
  {
    s.sessions[s.index[token]]
  }

  // Every session of the family is revoked, those that already were keeping their time, and nothing
  // else in the table differs.
  predicate FamilyRevoked(t: Table, t': Table, family: Id, now: int) {
    && t'.Keys == t.Keys
    && (forall id :: id in t && t[id].family == family ==>
          t'[id] == if t[id].revokedAt.None? then t[id].(revokedAt := Some(now)) else t[id])
    && (forall id :: id in t && t[id].family != family ==> t'[id] == t[id])
  }

  // ---- The four ways a token can come back ----

  lemma UnknownOrRevoked(p: Policy, s: State, token: Hash, newId: Id, newHash: Hash, now: int)
    ensures var (s', reply) := Refreshed(p, s, token, newId, newHash, now);
            && (reply == Unknown <==> !Held(s, token))
            && (!Held(s, token) ==> s' == s)
            && (Held(s, token) && Row(s, token).revokedAt.Some? ==> s' == s && reply == Reused)
  {
  }

  // A rotated token whose own row is not revoked: more than the grace period after the rotation it is
  // reuse, and the family dies; until then nothing changes, and it is worth an access token of the
  // successor exactly when the user is active and the membership holds.
  lemma RotatedToken(p: Policy, events: seq<Event>, token: Hash, newId: Id, newHash: Hash, now: int)
    requires var s := Run(p, events);
             Held(s, token) && Row(s, token).rotatedAt.Some? && Row(s, token).revokedAt.None?
    ensures var s := Run(p, events);
            var row, (s', reply) := Row(s, token), Refreshed(p, s, token, newId, newHash, now);
            && row.replacedBy.Some?
            && (reply == Reused <==> now - row.rotatedAt.value > p.grace)
            && (now - row.rotatedAt.value > p.grace ==>
                  FamilyRevoked(s.sessions, s'.sessions, row.family, now) && s' == s.(sessions := s'.sessions))
            && (now - row.rotatedAt.value <= p.grace ==>
                  && s' == s
                  && reply == if row.user in s.directory.users && s.directory.users[row.user].active
                                 && (row.user, row.organization) in s.directory.members
                              then Reissued(row.replacedBy.value) else Refused)
  {
    var id := Run(p, events).index[token];
    FamilyFacts(p, events, id, id);
  }

  // A live token: expired, refused, refused with its family revoked, or rotated.
  lemma LiveToken(p: Policy, s: State, token: Hash, newId: Id, newHash: Hash, now: int)
    requires Held(s, token) && Row(s, token).rotatedAt.None? && Row(s, token).revokedAt.None?
    requires newId !in s.sessions
    ensures var row, d, (s', reply) := Row(s, token), s.directory, Refreshed(p, s, token, newId, newHash, now);
            var known := row.user in d.users && d.users[row.user].active
                         && (d.users[row.user].lockedUntil.Some? ==> d.users[row.user].lockedUntil.value <= now);
            var member := (row.user, row.organization) in d.members;
            && (reply == Expired <==> row.expiresAt <= now)
            && (reply == Refused <==> row.expiresAt > now && !(known && member))
            && (reply.Rotated? <==> row.expiresAt > now && known && member)
            && (row.expiresAt <= now || !known ==> s' == s)
            && (row.expiresAt > now && known && !member ==>
                  FamilyRevoked(s.sessions, s'.sessions, row.family, now) && s' == s.(sessions := s'.sessions))
            && (reply.Rotated? ==>
                  && reply == Rotated(newId, newHash)
                  && s'.sessions.Keys == s.sessions.Keys + {newId}
                  && s'.sessions[newId] == Session(row.user, row.organization, row.family, newHash, row.expiresAt, now,
                                                   None, None, None)
                  && s'.sessions[s.index[token]] == row.(rotatedAt := Some(now), replacedBy := Some(newId))
                  && (forall id :: id in s.sessions && id != s.index[token] ==> s'.sessions[id] == s.sessions[id])
                  && s'.index == s.index[newHash := newId] && s'.directory == d)
  {
  }

  // ---- A family outlives its sign-in by the time to live, however often it is refreshed ----

  // Every session that began a family expires the time to live after it was created.
  predicate Timed(p: Policy, s: State) {
    forall id :: id in s.sessions && s.sessions[id].family == id ==>
      s.sessions[id].expiresAt == s.sessions[id].createdAt + p.ttl
  }

  lemma MoveKeepsTimed(p: Policy, s: State, m: Move)
    requires Indexed(s) && Timed(p, s) && Allowed(s, m)
    requires m.Begin? ==> m.session.expiresAt == m.session.createdAt + p.ttl
    ensures Timed(p, Moved(s, m))
  {
    match m
    case Rotate(id, newId, hash, now) =>
      assert s.sessions[id].family in s.used;
    case _ =>
  }

  lemma BeginsTimed(p: Policy, s: State, e: Event)
    ensures !First(p, s, e).Begin?
    ensures var m := Second(p, s, e);
            m.Begin? ==> m.session.expiresAt == m.session.createdAt + p.ttl
  {
  }

  lemma TwoMovesKeepTimed(p: Policy, s: State, first: Move, second: Move)
    requires Sound(s) && Timed(p, s) && Allowed(s, first) && Allowed(Moved(s, first), second) && !first.Begin?
    requires second.Begin? ==> second.session.expiresAt == second.session.createdAt + p.ttl
    ensures Timed(p, Moved(Moved(s, first), second))
  {
    MoveKeepsSound(s, first);
    MoveKeepsTimed(p, s, first);
    MoveKeepsTimed(p, Moved(s, first), second);
  }

  lemma NextKeepsTimed(p: Policy, s: State, e: Event)
    requires Sound(s) && Timed(p, s)
    ensures Timed(p, Next(p, s, e).0)
  {
    NextIsTwoMoves(p, s, e);
    BeginsTimed(p, s, e);
    TwoMovesKeepTimed(p, s, First(p, s, e), Second(p, s, e));
  }

  lemma {:induction false} RunIsTimed(p: Policy, events: seq<Event>)
    ensures Timed(p, Run(p, events))
    decreases |events|
  {
    if |events| > 0 {
      RunIsTimed(p, events[..|events| - 1]);
      FamiliesAreChains(p, events[..|events| - 1]);
      NextKeepsTimed(p, Run(p, events[..|events| - 1]), events[|events| - 1]);
    }
  }

  // In every reachable state the sign-in of each family is still there, and every session of the family
  // expires the time to live after it.
  lemma FamilyExpiresWithItsSignIn(p: Policy, events: seq<Event>, id: Id)
    requires id in Run(p, events).sessions
    ensures var t := Run(p, events).sessions;
            var family := t[id].family;
            family in t && t[family].family == family && t[id].expiresAt == t[family].createdAt + p.ttl
  {
    var t := Run(p, events).sessions;
    FamiliesAreChains(p, events);
    RunIsTimed(p, events);
    var chain :| IsChain(t, t[id].family, chain);
    assert chain[0] in chain && id in chain;
  }

  // So no refresh token is handed out for a family once the time to live has passed since its sign-in.
  lemma NoRotationAfterTheTimeToLive(p: Policy, events: seq<Event>, e: Event)
    requires e.Refresh? && Next(p, Run(p, events), e).1.Rotated?
    ensures var s := Run(p, events);
            Held(s, e.token) && Row(s, e.token).family in s.sessions
            && e.now < s.sessions[Row(s, e.token).family].createdAt + p.ttl
  {
    FamilyExpiresWithItsSignIn(p, events, Run(p, events).index[e.token]);
  }

  // ---- The cap, counted in the table ----

  // The sessions of a user that could still be refreshed.
  function Live(t: Table, user: Id, now: int): set<Id> {
    set id | id in t && t[id].user == user && t[id].revokedAt.None? && t[id].rotatedAt.None? && t[id].expiresAt > now
  }

  lemma LiveIsActive(t: Table, user: Id, now: int)
    ensures Live(t, user, now) == ActiveOf(t, user, now)
  {
  }

  // In every run whose clock never goes back a user holds at most the cap, or one session if the cap is zero.
  lemma LiveStaysUnderCap(p: Policy, events: seq<Event>, user: Id, now: int)
    requires Timely(events, now)
    ensures |Live(Run(p, events).sessions, user, now)| <= Max(1, p.cap)
  {
    EveryRunStaysUnderCap(p, events, user, now);
    LiveIsActive(Run(p, events).sessions, user, now);
  }

  lemma LiveWith(t: Table, id: Id, session: Session, now: int)
    requires id !in t && session.revokedAt.None? && session.rotatedAt.None? && session.expiresAt > now
    ensures Live(t[id := session], session.user, now) == Live(t, session.user, now) + {id}
  {
  }

  // And a sign-in evicts no more than the cap asks for: the sessions that stay are as many as there were,
  // or one less than the cap.
  lemma SignInEvictsNoMore(p: Policy, s: State, user: Id, organization: Id, id: Id, hash: Hash, now: int, listed: seq<Id>)
    requires Lists(s.sessions, user, now, listed) && id !in s.sessions && p.ttl > 0
    ensures var before := Live(s.sessions, user, now);
            var after := Live(SignedIn(p, s, user, organization, id, hash, now, listed).sessions, user, now);
            && id in after && after - {id} <= before
            && |after - {id}| == Min(|before|, Max(p.cap, 1) - 1)
  {
    var t := s.sessions;
    var gone := EvictedAtSignIn(p, t, user, now, listed);
    var kept := RevokeThose(t, Ids(gone), now);
    ActiveAfterRevoke(t, Ids(gone), user, now);
    LiveIsActive(t, user, now);
    LiveIsActive(kept, user, now);
    LiveWith(kept, id, Started(p, user, organization, id, hash, now), now);
  }

  lemma EvictedAtSignIn(p: Policy, t: Table, user: Id, now: int, listed: seq<Id>) returns (gone: seq<Id>)
    requires Lists(t, user, now, listed)
    ensures (forall x :: x in listed ==> x in t) && gone == Overflow(t, p.cap, listed)
    ensures |ActiveOf(t, user, now) - Ids(gone)| == Min(|ActiveOf(t, user, now)|, Max(p.cap, 1) - 1)
  {
    ListedAreThere(t, user, now, listed);
    gone := Overflow(t, p.cap, listed);
    OverflowIsDistinct(t, p.cap, listed);
    DistinctCount(listed);
    DistinctCount(gone);
    SubsetCount(Ids(listed), Ids(gone));
  }
}
