// Refresh-token sessions: RefreshSession, SessionIssuer, RevokeSession, ChangePassword and
// ResolveUserPrincipal of apps/api/src/aegis_api/application/auth.py, each one transaction over the
// session table of domain/entities/access.py. Token hashes stand for the tokens.
module Sessions {
  import opened Prelude

  type Id = nat

  type Hash = nat

  datatype Session = Session(
    user: Id, organization: Id, family: Id, hash: Hash, expiresAt: int, createdAt: int,
    rotatedAt: Option<int>, revokedAt: Option<int>, replacedBy: Option<Id>) {

    predicate Active(now: int) {
      revokedAt.None? && rotatedAt.None? && expiresAt > now
    }

    predicate InGrace(now: int, grace: int) {
      rotatedAt.Some? && now - rotatedAt.value <= grace
    }
  }

  type Table = map<Id, Session>

  datatype Account = Account(active: bool, lockedUntil: Option<int>) {
    predicate Locked(now: int) {
      lockedUntil.Some? && lockedUntil.value > now
    }
  }

  // Users, active memberships (user, organization) and active organizations.
  datatype Directory = Directory(users: map<Id, Account>, members: set<(Id, Id)>, organizations: set<Id>)

  datatype Policy = Policy(cap: nat, ttl: int, grace: int)

  // index is the unique index on the token hash; used and minted are the ids and hashes ever generated.
  datatype State = State(sessions: Table, index: map<Hash, Id>, directory: Directory, used: set<Id>, minted: set<Hash>)

  const EMPTY := State(map[], map[], Directory(map[], {}, {}), {}, {})

  const ONE_DAY := 86_400

  datatype Reply =
    | Quiet
    | Unknown
    | Reused
    | Expired
    | Superseded
    | Refused
    | Reissued(session: Id)                // an access token only
    | Rotated(session: Id, hash: Hash)     // an access token and a refresh token

  // ---- Table operations ----

  function Revoked(s: Session, now: int): Session {
    if s.revokedAt.None? then s.(revokedAt := Some(now)) else s
  }

  function RevokeThose(t: Table, ids: set<Id>, now: int): Table {
    map id | id in t :: if id in ids then Revoked(t[id], now) else t[id]
  }

  function FamilyOf(t: Table, family: Id): set<Id> {
    set id | id in t && t[id].family == family
  }

  function OfUser(t: Table, user: Id): set<Id> {
    set id | id in t && t[id].user == user
  }

  function ActiveOf(t: Table, user: Id, now: int): set<Id> {
    set id | id in t && t[id].user == user && t[id].Active(now)
  }

  function Insert(s: State, id: Id, session: Session): State {
    s.(sessions := s.sessions[id := session], index := s.index[session.hash := id],
       used := s.used + {id}, minted := s.minted + {session.hash})
  }

  predicate Fresh(s: State, id: Id, hash: Hash) {
    id !in s.used && hash !in s.minted
  }

  // ---- Sign-in and the session cap ----

  function Ids(s: seq<Id>): set<Id> {
    set id | id in s
  }

  // The listing of the active sessions, in whatever order the database gave them.
  predicate Lists(t: Table, user: Id, now: int, listed: seq<Id>) {
    && Ids(listed) == ActiveOf(t, user, now)
    && forall i, j :: 0 <= i < j < |listed| ==> listed[i] != listed[j]
  }

  lemma ListedAreThere(t: Table, user: Id, now: int, listed: seq<Id>)
    requires Lists(t, user, now, listed)
    ensures forall x :: x in listed ==> x in t
  {
    assert forall x :: x in listed ==> x in Ids(listed);
  }

  function InsertByAge(t: Table, sorted: seq<Id>, id: Id): seq<Id>
    requires id in t && forall x :: x in sorted ==> x in t
  {
    if |sorted| == 0 then [id]
    else if t[sorted[|sorted| - 1]].createdAt <= t[id].createdAt then sorted + [id]
    else InsertByAge(t, sorted[..|sorted| - 1], id) + [sorted[|sorted| - 1]]
  }

  // Python's sorted by creation time: stable, oldest first.
  function ByAge(t: Table, listed: seq<Id>): (sorted: seq<Id>)
    requires forall x :: x in listed ==> x in t
    ensures multiset(sorted) == multiset(listed)
  {
    if |listed| == 0 then []
    else
      var n := |listed| - 1;
      assert listed == listed[..n] + [listed[n]];
      var before := ByAge(t, listed[..n]);
      SameMembers(before, listed[..n]);
      InsertKeepsMembers(t, before, listed[n]);
      InsertByAge(t, before, listed[n])
  }

  lemma SameMembers(a: seq<Id>, b: seq<Id>)
    requires multiset(a) == multiset(b)
    ensures forall x :: x in a <==> x in b
    ensures |a| == |b|
  {
    assert forall x :: x in a <==> x in multiset(a);
    assert forall x :: x in b <==> x in multiset(b);
    assert |multiset(a)| == |a| && |multiset(b)| == |b|;
  }

  lemma {:induction false} InsertKeepsMembers(t: Table, sorted: seq<Id>, id: Id)
    requires id in t && forall x :: x in sorted ==> x in t
    ensures multiset(InsertByAge(t, sorted, id)) == multiset(sorted) + multiset{id}
  {
    if |sorted| > 0 {
      var n := |sorted| - 1;
      assert sorted == sorted[..n] + [sorted[n]];
      InsertKeepsMembers(t, sorted[..n], id);
    }
  }

  // Oldest first.
  predicate Aged(t: Table, s: seq<Id>) {
    |s| > 0 ==>
      && Aged(t, s[..|s| - 1])
      && s[|s| - 1] in t
      && forall x :: x in s[..|s| - 1] ==> x in t && t[x].createdAt <= t[s[|s| - 1]].createdAt
  }

  lemma AgedThen(t: Table, s: seq<Id>, newest: Id)
    requires Aged(t, s) && newest in t
    requires forall x :: x in s ==> x in t && t[x].createdAt <= t[newest].createdAt
    ensures Aged(t, s + [newest])
  {
    assert (s + [newest])[..|s|] == s;
  }

  lemma InsertedMembers(t: Table, sorted: seq<Id>, id: Id, x: Id)
    requires id in t && (forall y :: y in sorted ==> y in t) && x in InsertByAge(t, sorted, id)
    ensures x == id || x in sorted
  {
    InsertKeepsMembers(t, sorted, id);
    assert x in multiset(InsertByAge(t, sorted, id));
  }

  lemma {:induction false} InsertKeepsAged(t: Table, sorted: seq<Id>, id: Id)
    requires id in t && (forall x :: x in sorted ==> x in t) && Aged(t, sorted)
    ensures Aged(t, InsertByAge(t, sorted, id))
  {
    if |sorted| == 0 || t[sorted[|sorted| - 1]].createdAt <= t[id].createdAt {
      assert |sorted| == 0 ==> sorted + [id] == [id];
      AgedThen(t, sorted, id);
    } else {
      var n := |sorted| - 1;
      var shorter := InsertByAge(t, sorted[..n], id);
      InsertKeepsAged(t, sorted[..n], id);
      forall x | x in shorter ensures x in t && t[x].createdAt <= t[sorted[n]].createdAt {
        InsertedMembers(t, sorted[..n], id, x);
      }
      AgedThen(t, shorter, sorted[n]);
    }
  }

  lemma {:induction false} ByAgeIsAged(t: Table, listed: seq<Id>)
    requires forall x :: x in listed ==> x in t
    ensures Aged(t, ByAge(t, listed))
  {
    if |listed| > 0 {
      var n := |listed| - 1;
      ByAgeIsAged(t, listed[..n]);
      SameMembers(ByAge(t, listed[..n]), listed[..n]);
      InsertKeepsAged(t, ByAge(t, listed[..n]), listed[n]);
    }
  }

  // Cut anywhere, the first part is no newer than the second.
  lemma {:induction false} CutByAge(t: Table, s: seq<Id>, k: nat, x: Id, y: Id)
    requires Aged(t, s) && k <= |s| && x in s[..k] && y in s[k..]
    ensures x in t && y in t && t[x].createdAt <= t[y].createdAt
    decreases |s|
  {
    var n := |s| - 1;
    if y == s[n] {
      assert x in s[..n];
    } else {
      assert y in s[k..][..n - k];
      assert s[k..][..n - k] == s[..n][k..] && s[..n][..k] == s[..k];
      CutByAge(t, s[..n], k, x, y);
    }
  }

  // The overflow of _enforce_session_cap: the oldest sessions, enough of them to leave room for one.
  function Overflow(t: Table, cap: nat, listed: seq<Id>): seq<Id>
    requires forall x :: x in listed ==> x in t
  {
    if |listed| < cap then []
    else
      SameMembers(ByAge(t, listed), listed);
      ByAge(t, listed)[..Min(|listed| - cap + 1, |listed|)]
  }

  function Started(p: Policy, user: Id, organization: Id, id: Id, hash: Hash, now: int): Session {
    Session(user, organization, id, hash, now + p.ttl, now, None, None, None)
  }

  function SignedIn(p: Policy, s: State, user: Id, organization: Id, id: Id, hash: Hash, now: int, listed: seq<Id>): State
    requires Lists(s.sessions, user, now, listed)
  {
    ListedAreThere(s.sessions, user, now, listed);
    var kept := RevokeThose(s.sessions, Ids(Overflow(s.sessions, p.cap, listed)), now);
    Insert(s.(sessions := kept), id, Started(p, user, organization, id, hash, now))
  }

  // ---- Refresh ----

  predicate Admitted(d: Directory, user: Id, organization: Id) {
    user in d.users && d.users[user].active && (user, organization) in d.members
  }

  function Successor(before: Session, hash: Hash, now: int): Session {
    Session(before.user, before.organization, before.family, hash, before.expiresAt, now, None, None, None)
  }

  function RotateInto(s: State, id: Id, newId: Id, hash: Hash, now: int): State
    requires id in s.sessions
  {
    var before := s.sessions[id];
    var spent := before.(rotatedAt := Some(now), replacedBy := Some(newId));
    Insert(s.(sessions := s.sessions[id := spent]), newId, Successor(before, hash, now))
  }

  function RevokeFamily(s: State, family: Id, now: int): State {
    s.(sessions := RevokeThose(s.sessions, FamilyOf(s.sessions, family), now))
  }

  function Refreshed(p: Policy, s: State, hash: Hash, newId: Id, newHash: Hash, now: int): (State, Reply) {
    if hash !in s.index || s.index[hash] !in s.sessions then (s, Unknown)
    else
      var id := s.index[hash];
      var session, d := s.sessions[id], s.directory;
      if session.revokedAt.Some? then (s, Reused)
      else if session.rotatedAt.Some? then
        if !session.InGrace(now, p.grace) then (RevokeFamily(s, session.family, now), Reused)
        else if session.replacedBy.None? then (s, Superseded)
        else if !Admitted(d, session.user, session.organization) then (s, Refused)
        else (s, Reissued(session.replacedBy.value))
      else if session.expiresAt <= now then (s, Expired)
      else if session.user !in d.users || !d.users[session.user].active || d.users[session.user].Locked(now) then
        (s, Refused)
      else if (session.user, session.organization) !in d.members then
        (RevokeFamily(s, session.family, now), Refused)
      else (RotateInto(s, id, newId, newHash, now), Rotated(newId, newHash))
  }

  // Whether an access token bound to a session resolves to a principal.
  predicate Resolves(s: State, user: Id, organization: Id, session: Id, now: int) {
    && user in s.directory.users && s.directory.users[user].active && !s.directory.users[user].Locked(now)
    && session in s.sessions && s.sessions[session].revokedAt.None?
    && organization in s.directory.organizations
    && (user, organization) in s.directory.members
  }

  // ---- Runs ----

  datatype Event =
    | SignIn(user: Id, organization: Id, id: Id, hash: Hash, now: int, listed: seq<Id>)
    | Refresh(token: Hash, newId: Id, newHash: Hash, now: int)
    | SignOut(session: Id, now: int)
    | SignOutEverywhere(user: Id, now: int)
    | ChangePassword(user: Id, except: Option<Id>, now: int)
    | RemoveMember(user: Id, organization: Id, now: int)
    | Purge(now: int)
    | Administer(directory: Directory)       // users, memberships and organizations change

  function RevokeUser(s: State, user: Id, except: Option<Id>, now: int): State {
    var ids := OfUser(s.sessions, user) - if except.Some? then {except.value} else {};
    s.(sessions := RevokeThose(s.sessions, ids, now))
  }

  function Purged(s: State, cutoff: int): State {
    var sessions := map id | id in s.sessions && s.sessions[id].expiresAt >= cutoff :: s.sessions[id];
    s.(sessions := sessions, index := map h | h in s.index && s.index[h] in sessions :: s.index[h])
  }

  function Next(p: Policy, s: State, e: Event): (State, Reply) {
    match e
    case SignIn(user, organization, id, hash, now, listed) =>
      if !Fresh(s, id, hash) || !Lists(s.sessions, user, now, listed) then (s, Quiet)
      else (SignedIn(p, s, user, organization, id, hash, now, listed), Rotated(id, hash))
    case Refresh(token, newId, newHash, now) =>
      if !Fresh(s, newId, newHash) then (s, Quiet) else Refreshed(p, s, token, newId, newHash, now)
    case SignOut(session, now) =>
      (if session in s.sessions then RevokeFamily(s, s.sessions[session].family, now) else s, Quiet)
    case SignOutEverywhere(user, now) => (RevokeUser(s, user, None, now), Quiet)
    case ChangePassword(user, except, now) => (RevokeUser(s, user, except, now), Quiet)
    case RemoveMember(user, organization, now) =>
      var d := s.directory;
      (RevokeUser(s.(directory := d.(members := d.members - {(user, organization)})), user, None, now), Quiet)
    case Purge(now) => (Purged(s, now - ONE_DAY), Quiet)
    case Administer(directory) => (s.(directory := directory), Quiet)
  }

  function Run(p: Policy, events: seq<Event>): State
    decreases |events|
  {
    if |events| == 0 then EMPTY else Next(p, Run(p, events[..|events| - 1]), events[|events| - 1]).0
  }

  // ---- Every family is a linear chain ----

  // Ids and hashes are unique and never come back.
  predicate Indexed(s: State) {
    && (forall h :: h in s.index ==> s.index[h] in s.sessions && s.sessions[s.index[h]].hash == h)
    && (forall id :: id in s.sessions ==>
          var row := s.sessions[id];
          row.hash in s.index && s.index[row.hash] == id && id in s.used && row.hash in s.minted && row.family in s.used)
  }

  // The family's sessions from the sign-in to the current one, each replaced by the next.
  ghost predicate IsChain(t: Table, family: Id, chain: seq<Id>) {
    && |chain| > 0 && chain[0] == family
    && (forall id :: id in chain <==> id in t && t[id].family == family)
    && (forall i, j :: 0 <= i < j < |chain| ==> chain[i] != chain[j])
    && (forall i :: 0 <= i < |chain| - 1 ==> t[chain[i]].replacedBy == Some(chain[i + 1]) && t[chain[i]].rotatedAt.Some?)
    && t[chain[|chain| - 1]].replacedBy.None? && t[chain[|chain| - 1]].rotatedAt.None?
    && (forall id :: id in chain ==> t[id].expiresAt == t[family].expiresAt && t[id].user == t[family].user
                                     && t[id].organization == t[family].organization)
  }

  ghost predicate Linear(t: Table, family: Id) {
    exists chain :: IsChain(t, family, chain)
  }

  ghost predicate Sound(s: State) {
    Indexed(s) && forall id :: id in s.sessions ==> Linear(s.sessions, s.sessions[id].family)
  }

  // Only revocation marks differ.
  predicate SameLinks(t: Table, t': Table) {
    && t.Keys == t'.Keys
    && forall id :: id in t ==> t'[id] == t[id].(revokedAt := t'[id].revokedAt)
  }

  lemma RevokeKeepsLinks(t: Table, ids: set<Id>, now: int)
    ensures SameLinks(t, RevokeThose(t, ids, now))
  {
  }

  lemma LinearBySameLinks(t: Table, t': Table, family: Id)
    requires Linear(t, family) && SameLinks(t, t')
    ensures Linear(t', family)
  {
    var chain :| IsChain(t, family, chain);
    assert IsChain(t', family, chain);
  }

  lemma SoundBySameLinks(s: State, t': Table)
    requires Sound(s) && SameLinks(s.sessions, t')
    ensures Sound(s.(sessions := t'))
  {
    forall id | id in t' ensures Linear(t', t'[id].family) {
      LinearBySameLinks(s.sessions, t', s.sessions[id].family);
    }
  }

  lemma InsertIndexes(s: State, id: Id, session: Session)
    requires Indexed(s) && Fresh(s, id, session.hash) && (session.family == id || session.family in s.used)
    ensures Indexed(Insert(s, id, session))
  {
  }

  // A chain does not see rows outside its family.
  lemma LinearElsewhere(t: Table, t': Table, family: Id)
    requires Linear(t, family)
    requires forall id :: (id in t && t[id].family == family) <==> (id in t' && t'[id].family == family)
    requires forall id :: id in t && t[id].family == family ==> t'[id] == t[id]
    ensures Linear(t', family)
  {
    var chain :| IsChain(t, family, chain);
    assert IsChain(t', family, chain);
  }

  lemma AloneIsLinear(t: Table, id: Id)
    requires id in t && t[id].family == id && t[id].rotatedAt.None? && t[id].replacedBy.None?
    requires forall x :: x in t && t[x].family == id ==> x == id
    ensures Linear(t, id)
  {
    assert IsChain(t, id, [id]);
  }

  // A new family is a chain of one.
  lemma StartKeepsSound(s: State, id: Id, session: Session)
    requires Sound(s) && Fresh(s, id, session.hash)
    requires session.family == id && session.rotatedAt.None? && session.replacedBy.None?
    ensures Sound(Insert(s, id, session))
  {
    InsertIndexes(s, id, session);
    var t' := s.sessions[id := session];
    forall x | x in t' ensures Linear(t', t'[x].family) {
      if x == id {
        AloneIsLinear(t', id);
      } else {
        LinearElsewhere(s.sessions, t', t'[x].family);
      }
    }
  }

  function RotatedTable(t: Table, id: Id, newId: Id, hash: Hash, now: int): Table
    requires id in t
  {
    t[id := t[id].(rotatedAt := Some(now), replacedBy := Some(newId))][newId := Successor(t[id], hash, now)]
  }

  // Rotation appends the successor to its family's chain.
  lemma RotateExtends(t: Table, id: Id, newId: Id, hash: Hash, now: int, chain: seq<Id>)
    requires id in t && newId !in t && IsChain(t, t[id].family, chain) && t[id].rotatedAt.None?
    ensures var t' := RotatedTable(t, id, newId, hash, now);
            IsChain(t', t[id].family, chain + [newId])
  {
    assert id == chain[|chain| - 1];
  }

  lemma RotateLinear(t: Table, id: Id, newId: Id, hash: Hash, now: int, family: Id)
    requires id in t && newId !in t && t[id].rotatedAt.None? && Linear(t, family)
    ensures var t' := RotatedTable(t, id, newId, hash, now);
            Linear(t', family)
  {
    var t' := RotatedTable(t, id, newId, hash, now);
    if family == t[id].family {
      var chain :| IsChain(t, family, chain);
      RotateExtends(t, id, newId, hash, now, chain);
    } else {
      LinearElsewhere(t, t', family);
    }
  }

  lemma RotateIndexes(s: State, id: Id, newId: Id, hash: Hash, now: int)
    requires Indexed(s) && Fresh(s, newId, hash) && id in s.sessions
    ensures Indexed(RotateInto(s, id, newId, hash, now))
  {
    var spent := s.(sessions := s.sessions[id := s.sessions[id].(rotatedAt := Some(now), replacedBy := Some(newId))]);
    assert Indexed(spent);
    InsertIndexes(spent, newId, Successor(s.sessions[id], hash, now));
  }

  lemma RotateKeepsSound(s: State, id: Id, newId: Id, hash: Hash, now: int)
    requires Sound(s) && Fresh(s, newId, hash) && id in s.sessions && s.sessions[id].rotatedAt.None?
    ensures Sound(RotateInto(s, id, newId, hash, now))
  {
    RotateIndexes(s, id, newId, hash, now);
    var t' := RotateInto(s, id, newId, hash, now).sessions;
    forall x | x in t' ensures Linear(t', t'[x].family) {
      RotateLinear(s.sessions, id, newId, hash, now, if x == newId then s.sessions[id].family else s.sessions[x].family);
    }
  }

  // A family expires together, so it is purged together.
  lemma PurgeKeepsSound(s: State, cutoff: int)
    requires Sound(s)
    ensures Sound(Purged(s, cutoff))
  {
    var t, t' := s.sessions, Purged(s, cutoff).sessions;
    forall x | x in t' ensures Linear(t', t'[x].family) {
      var chain :| IsChain(t, t[x].family, chain);
      assert IsChain(t', t[x].family, chain);
    }
  }

  lemma RevokeKeepsSound(s: State, ids: set<Id>, now: int)
    requires Sound(s)
    ensures Sound(s.(sessions := RevokeThose(s.sessions, ids, now)))
  {
    RevokeKeepsLinks(s.sessions, ids, now);
    SoundBySameLinks(s, RevokeThose(s.sessions, ids, now));
  }

  // ---- A transaction is at most two elementary moves ----

  datatype Move =
    | Revoke(ids: set<Id>, now: int)
    | Begin(id: Id, session: Session)
    | Rotate(id: Id, newId: Id, hash: Hash, now: int)
    | Drop(cutoff: int)
    | Appoint(directory: Directory)

  function Moved(s: State, m: Move): State
    requires Allowed(s, m)
  {
    match m
    case Revoke(ids, now) => s.(sessions := RevokeThose(s.sessions, ids, now))
    case Begin(id, session) => Insert(s, id, session)
    case Rotate(id, newId, hash, now) => RotateInto(s, id, newId, hash, now)
    case Drop(cutoff) => Purged(s, cutoff)
    case Appoint(directory) => s.(directory := directory)
  }

  predicate Allowed(s: State, m: Move) {
    match m
    case Begin(id, session) =>
      Fresh(s, id, session.hash) && session.family == id && session.rotatedAt.None? && session.replacedBy.None?
    case Rotate(id, newId, hash, now) => Fresh(s, newId, hash) && id in s.sessions && s.sessions[id].Active(now)
    case _ => true
  }

  // What each event does first and then.
  function First(p: Policy, s: State, e: Event): Move {
    match e
    case SignIn(user, organization, id, hash, now, listed) =>
      if !Fresh(s, id, hash) || !Lists(s.sessions, user, now, listed) then Appoint(s.directory)
      else
        ListedAreThere(s.sessions, user, now, listed);
        Revoke(Ids(Overflow(s.sessions, p.cap, listed)), now)
    case Refresh(token, newId, newHash, now) =>
      if !Fresh(s, newId, newHash) || token !in s.index || s.index[token] !in s.sessions then Appoint(s.directory)
      else
        var (_, reply) := Refreshed(p, s, token, newId, newHash, now);
        var session := s.sessions[s.index[token]];
        if reply.Rotated? then Rotate(s.index[token], newId, newHash, now)
        else if DropsFamily(p, s, session, now) then Revoke(FamilyOf(s.sessions, session.family), now)
        else Appoint(s.directory)
    case SignOut(session, now) =>
      if session in s.sessions then Revoke(FamilyOf(s.sessions, s.sessions[session].family), now) else Appoint(s.directory)
    case SignOutEverywhere(user, now) => Revoke(OfUser(s.sessions, user) - {}, now)
    case ChangePassword(user, except, now) =>
      Revoke(OfUser(s.sessions, user) - (if except.Some? then {except.value} else {}), now)
    case RemoveMember(user, organization, now) => Revoke(OfUser(s.sessions, user) - {}, now)
    case Purge(now) => Drop(now - ONE_DAY)
    case Administer(directory) => Appoint(directory)
  }

  function Second(p: Policy, s: State, e: Event): Move {
    match e
    case SignIn(user, organization, id, hash, now, listed) =>
      if !Fresh(s, id, hash) || !Lists(s.sessions, user, now, listed) then Appoint(s.directory)
      else Begin(id, Started(p, user, organization, id, hash, now))
    case RemoveMember(user, organization, now) => 
      Appoint(s.directory.(members := s.directory.members - {(user, organization)}))
    case Administer(directory) => Appoint(directory)
    case _ => Appoint(s.directory)
  }

  // A refresh revokes the whole family when a spent token comes back after the grace window, or when
  // the membership behind a good one is gone.
  predicate DropsFamily(p: Policy, s: State, session: Session, now: int) {
    && session.revokedAt.None?
    && if session.rotatedAt.Some? then now - session.rotatedAt.value > p.grace
       else
         && session.expiresAt > now
         && session.user in s.directory.users && s.directory.users[session.user].active
         && !s.directory.users[session.user].Locked(now)
         && (session.user, session.organization) !in s.directory.members
  }

  lemma NextIsTwoMoves(p: Policy, s: State, e: Event)
    ensures Allowed(s, First(p, s, e)) && Allowed(Moved(s, First(p, s, e)), Second(p, s, e))
    ensures Next(p, s, e).0 == Moved(Moved(s, First(p, s, e)), Second(p, s, e))
  {
  }

  lemma MoveKeepsSound(s: State, m: Move)
    requires Sound(s) && Allowed(s, m)
    ensures Sound(Moved(s, m))
  {
    match m
    case Revoke(ids, now) => RevokeKeepsSound(s, ids, now);
    case Begin(id, session) => StartKeepsSound(s, id, session);
    case Rotate(id, newId, hash, now) => RotateKeepsSound(s, id, newId, hash, now);
    case Drop(cutoff) => PurgeKeepsSound(s, cutoff);
    case Appoint(directory) =>
  }

  // In every reachable state each family is one chain of sessions, from its sign-in to its current one.
  lemma {:induction false} FamiliesAreChains(p: Policy, events: seq<Event>)
    ensures Sound(Run(p, events))
    decreases |events|
  {
    if |events| > 0 {
      var s, e := Run(p, events[..|events| - 1]), events[|events| - 1];
      FamiliesAreChains(p, events[..|events| - 1]);
      NextIsTwoMoves(p, s, e);
      MoveKeepsSound(s, First(p, s, e));
      MoveKeepsSound(Moved(s, First(p, s, e)), Second(p, s, e));
    }
  }

  // Within a family: one expiry, at most one session still to be rotated, no shared successor.
  lemma FamilyFacts(p: Policy, events: seq<Event>, a: Id, b: Id)
    requires a in Run(p, events).sessions && b in Run(p, events).sessions
    requires Run(p, events).sessions[a].family == Run(p, events).sessions[b].family
    ensures var x, y := Run(p, events).sessions[a], Run(p, events).sessions[b];
            && x.expiresAt == y.expiresAt && x.user == y.user && x.organization == y.organization
            && (x.rotatedAt.None? && y.rotatedAt.None? ==> a == b)
            && (x.replacedBy.Some? && x.replacedBy == y.replacedBy ==> a == b)
            && (x.rotatedAt.Some? <==> x.replacedBy.Some?)
  {
    FamiliesAreChains(p, events);
    ChainFacts(Run(p, events).sessions, a, b);
  }

  lemma ChainFacts(t: Table, a: Id, b: Id)
    requires a in t && b in t && t[a].family == t[b].family && Linear(t, t[a].family)
    ensures t[a].expiresAt == t[b].expiresAt && t[a].user == t[b].user && t[a].organization == t[b].organization
    ensures t[a].rotatedAt.None? && t[b].rotatedAt.None? ==> a == b
    ensures t[a].replacedBy.Some? && t[a].replacedBy == t[b].replacedBy ==> a == b
    ensures t[a].rotatedAt.Some? <==> t[a].replacedBy.Some?
  {
    var chain :| IsChain(t, t[a].family, chain);
    assert a in chain && b in chain;
    var i, j :| 0 <= i < |chain| && 0 <= j < |chain| && chain[i] == a && chain[j] == b;
    if i < |chain| - 1 {
      assert t[chain[i]].replacedBy == Some(chain[i + 1]) && t[chain[i]].rotatedAt.Some?;
      if j < |chain| - 1 && t[a].replacedBy == t[b].replacedBy {
        assert chain[i + 1] == chain[j + 1];
      }
    }
  }

  // ---- A token is exchanged once ----

  // The token exists or existed, and whatever row still holds it has been rotated.
  predicate Spent(s: State, token: Hash) {
    token in s.minted && (token in s.index ==> s.index[token] in s.sessions && s.sessions[s.index[token]].rotatedAt.Some?)
  }

  lemma MoveKeepsSpent(s: State, m: Move, token: Hash)
    requires Sound(s) && Allowed(s, m) && Spent(s, token)
    ensures Spent(Moved(s, m), token)
  {
  }

  lemma NextKeepsSpent(p: Policy, s: State, e: Event, token: Hash)
    requires Sound(s) && Spent(s, token)
    ensures Spent(Next(p, s, e).0, token)
  {
    NextIsTwoMoves(p, s, e);
    MoveKeepsSound(s, First(p, s, e));
    MoveKeepsSpent(s, First(p, s, e), token);
    MoveKeepsSpent(Moved(s, First(p, s, e)), Second(p, s, e), token);
  }

  lemma {:induction false} SpentForever(p: Policy, events: seq<Event>, more: seq<Event>, token: Hash)
    requires Spent(Run(p, events), token)
    ensures Spent(Run(p, events + more), token)
    decreases |more|
  {
    if |more| == 0 {
      assert events + more == events;
    } else {
      var n := |more| - 1;
      SpentForever(p, events, more[..n], token);
      assert (events + more)[..|events + more| - 1] == events + more[..n];
      FamiliesAreChains(p, events + more[..n]);
      NextKeepsSpent(p, Run(p, events + more[..n]), more[n], token);
    }
  }

  lemma RefreshSpends(p: Policy, s: State, token: Hash, newId: Id, newHash: Hash, now: int)
    requires Indexed(s) && Fresh(s, newId, newHash)
    ensures var (s', reply) := Refreshed(p, s, token, newId, newHash, now);
            && (reply.Rotated? ==> Spent(s', token))
            && (Spent(s, token) ==> !reply.Rotated?)
  {
  }

  lemma RotationSpends(p: Policy, s: State, e: Event)
    requires Sound(s) && e.Refresh?
    ensures Next(p, s, e).1.Rotated? ==> Spent(Next(p, s, e).0, e.token)
    ensures Spent(s, e.token) ==> !Next(p, s, e).1.Rotated?
  {
    if Fresh(s, e.newId, e.newHash) {
      RefreshSpends(p, s, e.token, e.newId, e.newHash, e.now);
    }
  }

  lemma RunOn(p: Policy, events: seq<Event>, e: Event)
    ensures Run(p, events + [e]) == Next(p, Run(p, events), e).0
  {
    assert (events + [e])[..|events|] == events;
  }

  // Once a token has been exchanged for a successor no later presentation of it, inside or outside
  // the grace window, ever yields a refresh token again.
  lemma NoTokenRotatesTwice(p: Policy, events: seq<Event>, more: seq<Event>, first: Event, again: Event)
    requires first.Refresh? && again.Refresh? && again.token == first.token
    requires Next(p, Run(p, events), first).1.Rotated?
    ensures !Next(p, Run(p, events + [first] + more), again).1.Rotated?
  {
    FamiliesAreChains(p, events);
    RotationSpends(p, Run(p, events), first);
    RunOn(p, events, first);
    SpentForever(p, events + [first], more, first.token);
    FamiliesAreChains(p, events + [first] + more);
    RotationSpends(p, Run(p, events + [first] + more), again);
  }

  // ---- Reuse is terminal ----

  // A family all of whose sessions are revoked, with the ids and hashes it ever had.
  predicate Dead(s: State, family: Id) {
    family in s.used && forall id :: id in s.sessions && s.sessions[id].family == family ==> s.sessions[id].revokedAt.Some?
  }

  datatype Family = Family(id: Id, sessions: set<Id>, tokens: set<Hash>)

  // The family as it stands.
  function FamilyNow(s: State, family: Id): Family {
    Family(family, FamilyOf(s.sessions, family), set id | id in FamilyOf(s.sessions, family) :: s.sessions[id].hash)
  }

  // Dead, and nothing of it can come back under another family's name.
  predicate Buried(s: State, f: Family) {
    && Dead(s, f.id)
    && FamilyOf(s.sessions, f.id) <= f.sessions <= s.used
    && f.tokens <= s.minted
    && (forall id :: id in f.sessions && id in s.sessions ==> s.sessions[id].family == f.id)
    && (forall h :: h in f.tokens && h in s.index ==> s.index[h] in f.sessions)
  }

  lemma DeadIsBuried(s: State, family: Id)
    requires Indexed(s) && Dead(s, family)
    ensures Buried(s, FamilyNow(s, family))
  {
  }

  // Rows that only lose members and revocations cannot resurrect a family.
  lemma BuriedByFewer(s: State, s': State, f: Family)
    requires Buried(s, f) && s'.used == s.used && s'.minted == s.minted
    requires forall id :: id in s'.sessions ==>
      id in s.sessions && s'.sessions[id].family == s.sessions[id].family
      && (s.sessions[id].revokedAt.Some? ==> s'.sessions[id].revokedAt.Some?)
    requires forall h :: h in s'.index ==> h in s.index && s'.index[h] == s.index[h]
    ensures Buried(s', f)
  {
  }

  lemma BuriedByInsert(s: State, id: Id, session: Session, f: Family)
    requires Buried(s, f) && Fresh(s, id, session.hash) && session.family != f.id
    ensures Buried(Insert(s, id, session), f)
  {
  }

  lemma BuriedByRotate(s: State, id: Id, newId: Id, hash: Hash, now: int, f: Family)
    requires Buried(s, f) && Fresh(s, newId, hash) && id in s.sessions && s.sessions[id].revokedAt.None?
    ensures Buried(RotateInto(s, id, newId, hash, now), f)
  {
    var spent := s.(sessions := s.sessions[id := s.sessions[id].(rotatedAt := Some(now), replacedBy := Some(newId))]);
    BuriedByFewer(s, spent, f);
    BuriedByInsert(spent, newId, Successor(s.sessions[id], hash, now), f);
  }

  lemma MoveKeepsBuried(s: State, m: Move, f: Family)
    requires Allowed(s, m) && Buried(s, f)
    ensures Buried(Moved(s, m), f)
  {
    match m
    case Begin(id, session) => BuriedByInsert(s, id, session, f);
    case Rotate(id, newId, hash, now) => BuriedByRotate(s, id, newId, hash, now, f);
    case _ => BuriedByFewer(s, Moved(s, m), f);
  }

  lemma NextKeepsBuried(p: Policy, s: State, e: Event, f: Family)
    requires Buried(s, f)
    ensures Buried(Next(p, s, e).0, f)
  {
    NextIsTwoMoves(p, s, e);
    MoveKeepsBuried(s, First(p, s, e), f);
    MoveKeepsBuried(Moved(s, First(p, s, e)), Second(p, s, e), f);
  }

  lemma {:induction false} BuriedForever(p: Policy, events: seq<Event>, more: seq<Event>, f: Family)
    requires Buried(Run(p, events), f)
    ensures Buried(Run(p, events + more), f)
    decreases |more|
  {
    if |more| == 0 {
      assert events + more == events;
    } else {
      var n := |more| - 1;
      BuriedForever(p, events, more[..n], f);
      RunOn(p, events + more[..n], more[n]);
      assert events + more[..n] + [more[n]] == events + more;
      NextKeepsBuried(p, Run(p, events + more[..n]), more[n], f);
    }
  }

  // What presenting a spent token does to its family.
  predicate Detected(p: Policy, s: State, e: Event) {
    && e.Refresh? && Fresh(s, e.newId, e.newHash) && e.token in s.index && s.index[e.token] in s.sessions
    && var row := s.sessions[s.index[e.token]];
       row.rotatedAt.Some? && e.now - row.rotatedAt.value > p.grace && row.revokedAt.None?
  }

  lemma RevokingKills(s: State, family: Id, now: int)
    requires family in s.used
    ensures Dead(RevokeFamily(s, family, now), family)
    ensures FamilyNow(RevokeFamily(s, family, now), family) == FamilyNow(s, family)
  {
    var s' := RevokeFamily(s, family, now);
    assert FamilyOf(s'.sessions, family) == FamilyOf(s.sessions, family);
    assert forall id :: id in s.sessions ==> s'.sessions[id].hash == s.sessions[id].hash;
  }

  lemma DetectionKills(p: Policy, s: State, e: Event)
    requires Indexed(s) && Detected(p, s, e)
    ensures var f := s.sessions[s.index[e.token]].family;
            var s' := Next(p, s, e).0;
            Dead(s', f) && FamilyNow(s', f) == FamilyNow(s, f)
  {
    RevokingKills(s, s.sessions[s.index[e.token]].family, e.now);
  }

  // From the moment a rotated token comes back outside the grace window, in every continuation: the
  // family gets no new session, none of its tokens is exchanged or reissued, and no access token bound
  // to any of its sessions resolves.
  lemma ReuseIsTerminal(p: Policy, events: seq<Event>, reuse: Event, more: seq<Event>, later: Event,
                        user: Id, organization: Id)
    requires Detected(p, Run(p, events), reuse)
    ensures var before, after := Run(p, events), Run(p, events + [reuse] + more);
            var f := FamilyNow(before, before.sessions[before.index[reuse.token]].family);
            && FamilyOf(after.sessions, f.id) <= f.sessions
            && (later.Refresh? && later.token in f.tokens ==>
                  var reply := Next(p, after, later).1;
                  reply == Reused || reply == Unknown || reply == Quiet)
            && forall id, now :: id in f.sessions ==> !Resolves(after, user, organization, id, now)
  {
    var before := Run(p, events);
    var family := before.sessions[before.index[reuse.token]].family;
    FamiliesAreChains(p, events);
    DetectionKills(p, before, reuse);
    RunOn(p, events, reuse);
    FamiliesAreChains(p, events + [reuse]);
    DeadIsBuried(Run(p, events + [reuse]), family);
    BuriedForever(p, events + [reuse], more, FamilyNow(before, family));
    BuriedReplies(p, Run(p, events + [reuse] + more), later, FamilyNow(before, family), user, organization);
  }

  lemma BuriedReplies(p: Policy, s: State, e: Event, f: Family, user: Id, organization: Id)
    requires Buried(s, f)
    ensures e.Refresh? && e.token in f.tokens ==>
              var reply := Next(p, s, e).1;
              reply == Reused || reply == Unknown || reply == Quiet
    ensures forall id, now :: id in f.sessions ==> !Resolves(s, user, organization, id, now)
  {
    if e.Refresh? && e.token in f.tokens && e.token in s.index && s.index[e.token] in s.sessions {
      assert s.sessions[s.index[e.token]].family == f.id;
    }
  }

  lemma RotatedAgain(p: Policy, s: State, e: Event)
    requires e.Refresh? && Fresh(s, e.newId, e.newHash) && e.token in s.index && s.index[e.token] in s.sessions
    requires s.sessions[s.index[e.token]].rotatedAt.Some?
    ensures var row := s.sessions[s.index[e.token]];
            Next(p, s, e).0
            == if row.revokedAt.None? && e.now - row.rotatedAt.value > p.grace
               then RevokeFamily(s, row.family, e.now) else s
  {
  }

  // Presenting a rotated token kills its family exactly when its own row is not revoked and the grace
  // window is over; the documented rule drops the first condition.
  lemma ReuseKillsExactlyWhen(p: Policy, s: State, e: Event)
    requires e.Refresh? && Fresh(s, e.newId, e.newHash) && e.token in s.index && s.index[e.token] in s.sessions
    requires s.sessions[s.index[e.token]].rotatedAt.Some? && s.sessions[s.index[e.token]].family in s.used
    ensures var row := s.sessions[s.index[e.token]];
            Dead(Next(p, s, e).0, row.family)
            <==> (row.revokedAt.None? && e.now - row.rotatedAt.value > p.grace) || Dead(s, row.family)
  {
    RotatedAgain(p, s, e);
    RevokingKills(s, s.sessions[s.index[e.token]].family, e.now);
  }

  // After a password change the predecessors of the surviving session are revoked, so replaying one of
  // them is answered as reuse and leaves the family alive.
  const TEN := Policy(10, 1000, 5)

  const ONE_MEMBER := Directory(map[1 := Account(true, None)], {(1, 7)}, {7})

  const ONE_SESSION := State(map[10 := Session(1, 7, 10, 20, 1000, 0, None, None, None)], map[20 := 10],
                             ONE_MEMBER, {10}, {20})

  const TWO_SESSIONS := State(map[10 := Session(1, 7, 10, 20, 1000, 0, Some(1), None, Some(11)),
                                  11 := Session(1, 7, 10, 21, 1000, 1, None, None, None)],
                              map[20 := 10, 21 := 11], ONE_MEMBER, {10, 11}, {20, 21})

  const PASSWORD_CHANGED := TWO_SESSIONS.(
    sessions := map[10 := Session(1, 7, 10, 20, 1000, 0, Some(1), Some(2), Some(11)),
                    11 := Session(1, 7, 10, 21, 1000, 1, None, None, None)])

  lemma SignInGivesOneSession()
    ensures Next(TEN, EMPTY.(directory := ONE_MEMBER), SignIn(1, 7, 10, 20, 0, [])).0 == ONE_SESSION
  {
    var s := EMPTY.(directory := ONE_MEMBER);
    assert Ids([]) == ActiveOf(s.sessions, 1, 0);
    assert RevokeThose(s.sessions, {}, 0) == s.sessions;
  }

  lemma RefreshGivesTwo()
    ensures Next(TEN, ONE_SESSION, Refresh(20, 11, 21, 1)).0 == TWO_SESSIONS
  {
    assert ONE_SESSION.sessions[10].expiresAt == 1000;
  }

  lemma PasswordChangeRevokesThePredecessor()
    ensures Next(TEN, TWO_SESSIONS, ChangePassword(1, Some(11), 2)).0 == PASSWORD_CHANGED
  {
    assert OfUser(TWO_SESSIONS.sessions, 1) - {11} == {10};
  }

  lemma RunTo(p: Policy, events: seq<Event>, e: Event, s: State, s': State)
    requires Run(p, events) == s && Next(p, s, e).0 == s'
    ensures Run(p, events + [e]) == s'
  {
    RunOn(p, events, e);
  }

  const PASSWORD_RUN := [Administer(ONE_MEMBER)] + [SignIn(1, 7, 10, 20, 0, [])] + [Refresh(20, 11, 21, 1)]
                      + [ChangePassword(1, Some(11), 2)]

  lemma RunToPasswordChange()
    ensures Run(TEN, PASSWORD_RUN) == PASSWORD_CHANGED
  {
    var events := [Administer(ONE_MEMBER)];
    RunTo(TEN, [], Administer(ONE_MEMBER), EMPTY, EMPTY.(directory := ONE_MEMBER));
    assert [] + events == events;
    SignInGivesOneSession();
    RunTo(TEN, events, SignIn(1, 7, 10, 20, 0, []), EMPTY.(directory := ONE_MEMBER), ONE_SESSION);
    RefreshGivesTwo();
    RunTo(TEN, events + [SignIn(1, 7, 10, 20, 0, [])], Refresh(20, 11, 21, 1), ONE_SESSION, TWO_SESSIONS);
    PasswordChangeRevokesThePredecessor();
    RunTo(TEN, events + [SignIn(1, 7, 10, 20, 0, [])] + [Refresh(20, 11, 21, 1)], ChangePassword(1, Some(11), 2),
          TWO_SESSIONS, PASSWORD_CHANGED);
  }

  lemma ReplayAfterPasswordChangeSpares()
    ensures Next(TEN, Run(TEN, PASSWORD_RUN), Refresh(20, 12, 22, 100)).1 == Reused
    ensures Resolves(Next(TEN, Run(TEN, PASSWORD_RUN), Refresh(20, 12, 22, 100)).0, 1, 7, 11, 100)
  {
    RunToPasswordChange();
    SparedSession();
  }

  lemma SparedSession()
    ensures Next(TEN, PASSWORD_CHANGED, Refresh(20, 12, 22, 100)) == (PASSWORD_CHANGED, Reused)
    ensures Resolves(PASSWORD_CHANGED, 1, 7, 11, 100)
  {
  }

  // ---- The session cap ----

  predicate UnderCap(p: Policy, s: State, user: Id, now: int) {
    |ActiveOf(s.sessions, user, now)| <= Max(1, p.cap)
  }

  lemma SubsetIsSmaller<T>(a: set<T>, b: set<T>)
    requires a <= b
    ensures |a| <= |b|
  {
    assert b == a + (b - a);
  }

  lemma {:induction false} DistinctCount(s: seq<Id>)
    requires forall i, j :: 0 <= i < j < |s| ==> s[i] != s[j]
    ensures |Ids(s)| == |s|
    decreases |s|
  {
    if |s| > 0 {
      var n := |s| - 1;
      DistinctCount(s[..n]);
      assert Ids(s) == Ids(s[..n]) + {s[n]};
    }
  }

  lemma FewerStaysUnder(p: Policy, s: State, s': State, user: Id, now: int, now': int)
    requires UnderCap(p, s, user, now) && now <= now'
    requires forall id :: id in s'.sessions && s'.sessions[id].Active(now') ==>
      id in s.sessions && s.sessions[id].Active(now') && s'.sessions[id].user == s.sessions[id].user
    ensures UnderCap(p, s', user, now')
  {
    SubsetIsSmaller(ActiveOf(s'.sessions, user, now'), ActiveOf(s.sessions, user, now));
  }

  lemma RotationStaysUnder(p: Policy, s: State, id: Id, newId: Id, hash: Hash, now: int, user: Id)
    requires UnderCap(p, s, user, now) && id in s.sessions && newId !in s.sessions && s.sessions[id].Active(now)
    ensures UnderCap(p, RotateInto(s, id, newId, hash, now), user, now)
  {
    var before, after := ActiveOf(s.sessions, user, now), ActiveOf(RotateInto(s, id, newId, hash, now).sessions, user, now);
    if s.sessions[id].user == user {
      assert id in before;
      SubsetIsSmaller(after, before - {id} + {newId});
    } else {
      SubsetIsSmaller(after, before);
    }
  }

  // The overflow leaves room for one more, unless the cap is zero.
  lemma OverflowMakesRoom(p: Policy, t: Table, user: Id, now: int, listed: seq<Id>)
    requires Lists(t, user, now, listed)
    ensures forall x :: x in listed ==> x in t
    ensures |ActiveOf(t, user, now) - Ids(Overflow(t, p.cap, listed))| <= Max(1, p.cap) - 1
  {
    ListedAreThere(t, user, now, listed);
    DistinctCount(listed);
    var gone := Overflow(t, p.cap, listed);
    OverflowIsDistinct(t, p.cap, listed);
    DistinctCount(gone);
    SubsetCount(Ids(listed), Ids(gone));
  }

  lemma SubsetCount<T>(a: set<T>, b: set<T>)
    requires b <= a
    ensures |a - b| == |a| - |b|
  {
  }

  lemma OverflowIsDistinct(t: Table, cap: nat, listed: seq<Id>)
    requires forall x :: x in listed ==> x in t
    requires forall i, j :: 0 <= i < j < |listed| ==> listed[i] != listed[j]
    ensures var gone := Overflow(t, cap, listed);
            && (forall i, j :: 0 <= i < j < |gone| ==> gone[i] != gone[j])
            && Ids(gone) <= Ids(listed)
            && |gone| == if |listed| < cap then 0 else Min(|listed| - cap + 1, |listed|)
  {
    var sorted := ByAge(t, listed);
    SameMembers(sorted, listed);
    SameIsDistinct(sorted, listed);
  }

  lemma SameIsDistinct(a: seq<Id>, b: seq<Id>)
    requires multiset(a) == multiset(b) && forall i, j :: 0 <= i < j < |b| ==> b[i] != b[j]
    ensures forall i, j :: 0 <= i < j < |a| ==> a[i] != a[j]
  {
    forall i, j | 0 <= i < j < |a| ensures a[i] != a[j] {
      if a[i] == a[j] {
        assert a == a[..i] + [a[i]] + a[i + 1..j] + [a[j]] + a[j + 1..];
        assert multiset(a)[a[i]] >= 2;
        OnceInDistinct(b, a[i]);
      }
    }
  }

  lemma {:induction false} OnceInDistinct(b: seq<Id>, x: Id)
    requires forall i, j :: 0 <= i < j < |b| ==> b[i] != b[j]
    ensures multiset(b)[x] <= 1
    decreases |b|
  {
    if |b| > 0 {
      var n := |b| - 1;
      assert b == b[..n] + [b[n]];
      OnceInDistinct(b[..n], x);
      if b[n] == x {
        assert x !in b[..n];
      }
    }
  }

  lemma ActiveAfterRevoke(t: Table, ids: set<Id>, user: Id, now: int)
    ensures ActiveOf(RevokeThose(t, ids, now), user, now) == ActiveOf(t, user, now) - ids
  {
  }

  lemma ActiveAfterInsert(t: Table, id: Id, session: Session, user: Id, now: int)
    requires id !in t
    ensures ActiveOf(t[id := session], user, now) <= ActiveOf(t, user, now) + if session.user == user then {id} else {}
  {
  }

  lemma SignInStaysUnder(p: Policy, s: State, e: Event, user: Id)
    requires e.SignIn? && e.id !in s.sessions && Lists(s.sessions, e.user, e.now, e.listed)
    requires UnderCap(p, s, user, e.now)
    ensures UnderCap(p, SignedIn(p, s, e.user, e.organization, e.id, e.hash, e.now, e.listed), user, e.now)
  {
    OverflowMakesRoom(p, s.sessions, e.user, e.now, e.listed);
    var gone := Ids(Overflow(s.sessions, p.cap, e.listed));
    var t := RevokeThose(s.sessions, gone, e.now);
    var session := Started(p, e.user, e.organization, e.id, e.hash, e.now);
    ActiveAfterRevoke(s.sessions, gone, user, e.now);
    ActiveAfterInsert(t, e.id, session, user, e.now);
    var after, before := ActiveOf(t[e.id := session], user, e.now), ActiveOf(s.sessions, user, e.now);
    if user == e.user {
      SubsetIsSmaller(after, before - gone + {e.id});
    } else {
      SubsetIsSmaller(after, before);
    }
  }

  // Clock readings never go back, and the last is no later than now.
  predicate Timely(events: seq<Event>, now: int)
    decreases |events|
  {
    |events| > 0 ==>
      var e, before := events[|events| - 1], events[..|events| - 1];
      if e.Administer? then Timely(before, now) else e.now <= now && Timely(before, e.now)
  }

  // A session that is active after a step other than a sign-in or a rotation was active before.
  lemma OtherStepsActivateNothing(p: Policy, s: State, e: Event, now: int, id: Id)
    requires !e.SignIn? && !Next(p, s, e).1.Rotated?
    requires id in Next(p, s, e).0.sessions && Next(p, s, e).0.sessions[id].Active(now)
    ensures id in s.sessions && s.sessions[id].Active(now) && Next(p, s, e).0.sessions[id].user == s.sessions[id].user
  {
  }

  lemma NextStaysUnder(p: Policy, s: State, e: Event, user: Id, now: int)
    requires Indexed(s) && !e.Administer? && e.now <= now && UnderCap(p, s, user, e.now)
    ensures UnderCap(p, Next(p, s, e).0, user, now)
  {
    var s' := Next(p, s, e).0;
    if e.SignIn? && Fresh(s, e.id, e.hash) && Lists(s.sessions, e.user, e.now, e.listed) {
      SignInStaysUnder(p, s, e, user);
      FewerStaysUnder(p, s', s', user, e.now, now);
    } else if Next(p, s, e).1.Rotated? {
      RotationStaysUnder(p, s, s.index[e.token], e.newId, e.newHash, e.now, user);
      FewerStaysUnder(p, s', s', user, e.now, now);
    } else if !e.SignIn? {
      forall id | id in s'.sessions && s'.sessions[id].Active(now)
        ensures id in s.sessions && s.sessions[id].Active(now) && s'.sessions[id].user == s.sessions[id].user
      {
        OtherStepsActivateNothing(p, s, e, now, id);
      }
      FewerStaysUnder(p, s, s', user, e.now, now);
    } else {
      FewerStaysUnder(p, s, s, user, e.now, now);
    }
  }

  // In every run whose clock never goes back, a user has at most that many active sessions.
  lemma {:induction false} EveryRunStaysUnderCap(p: Policy, events: seq<Event>, user: Id, now: int)
    requires Timely(events, now)
    ensures UnderCap(p, Run(p, events), user, now)
    decreases |events|
  {
    if |events| > 0 {
      var e, before := events[|events| - 1], events[..|events| - 1];
      EveryRunStaysUnderCap(p, before, user, if e.Administer? then now else e.now);
      FamiliesAreChains(p, before);
      if !e.Administer? {
        NextStaysUnder(p, Run(p, before), e, user, now);
      }
    }
  }

  // An eviction takes the oldest: no evicted session is newer than one that stays.
  lemma EvictionTakesTheOldest(t: Table, cap: nat, user: Id, now: int, listed: seq<Id>, gone: Id, kept: Id)
    requires Lists(t, user, now, listed)
    requires forall x :: x in listed ==> x in t
    requires gone in Overflow(t, cap, listed) && kept in ActiveOf(t, user, now) - Ids(Overflow(t, cap, listed))
    ensures gone in ActiveOf(t, user, now) && t[gone].createdAt <= t[kept].createdAt
  {
    var sorted, k := ByAge(t, listed), |Overflow(t, cap, listed)|;
    SameMembers(sorted, listed);
    ByAgeIsAged(t, listed);
    assert gone in Ids(listed) && kept in Ids(listed);
    assert sorted == sorted[..k] + sorted[k..];
    CutByAge(t, sorted, k, gone, kept);
  }

  // ---- The use cases over the table ----

  class Authentication {
    const policy: Policy
    var sessions: Table
    var index: map<Hash, Id>
    var directory: Directory
    ghost var used: set<Id>
    ghost var minted: set<Hash>

    ghost function Now(): State
      reads this
    {
      State(sessions, index, directory, used, minted)
    }

    constructor (policy: Policy)
      ensures this.policy == policy && Now() == EMPTY
    {
      this.policy := policy;
      sessions, index, directory := map[], map[], Directory(map[], {}, {});
      used, minted := {}, {};
    }

    method Add(id: Id, session: Session)
      modifies this
      ensures Now() == Insert(old(Now()), id, session)
    {
      sessions := sessions[id := session];
      index := index[session.hash := id];
      used, minted := used + {id}, minted + {session.hash};
    }

    // The bulk update of revoke_family, with the number of rows it changed.
    method RevokeFamilyRows(family: Id, now: int) returns (count: nat)
      modifies this`sessions
      ensures Now() == RevokeFamily(old(Now()), family, now)
      ensures count == |set id | id in old(sessions) && old(sessions)[id].family == family
                                 && old(sessions)[id].revokedAt.None?|
      ensures sessions.Keys == old(sessions).Keys
      ensures forall id :: id in sessions ==>
                sessions[id] == if old(sessions)[id].family == family && old(sessions)[id].revokedAt.None?
                                then old(sessions)[id].(revokedAt := Some(now)) else old(sessions)[id]
    {
      var ids := set id | id in sessions && sessions[id].family == family && sessions[id].revokedAt.None?;
      sessions := map id | id in sessions :: if id in ids then sessions[id].(revokedAt := Some(now)) else sessions[id];
      count := |ids|;
    }

    method RevokeUserRows(user: Id, except: Option<Id>, now: int)
      modifies this`sessions
      ensures Now() == RevokeUser(old(Now()), user, except, now)
      ensures sessions.Keys == old(sessions).Keys
      ensures forall id :: id in sessions ==>
                sessions[id] == if old(sessions)[id].user == user && except != Some(id) && old(sessions)[id].revokedAt.None?
                                then old(sessions)[id].(revokedAt := Some(now)) else old(sessions)[id]
    {
      var ids := set id | id in sessions && sessions[id].user == user && except != Some(id);
      sessions := map id | id in sessions :: if id in ids then Revoked(sessions[id], now) else sessions[id];
    }

    // _enforce_session_cap; the database lists the active sessions in any order.
    method EnforceSessionCap(user: Id, now: int, listed: seq<Id>)
      requires Lists(sessions, user, now, listed)
      modifies this`sessions
      ensures forall x :: x in listed ==> x in old(sessions)
      ensures sessions == RevokeThose(old(sessions), Ids(Overflow(old(sessions), policy.cap, listed)), now)
    {
      ListedAreThere(sessions, user, now, listed);
      if |listed| < policy.cap {
        return;
      }
      var sorted := ByAge(sessions, listed);
      SameMembers(sorted, listed);
      var overflow := sorted[..Min(|listed| - policy.cap + 1, |listed|)];
      for i := 0 to |overflow|
        invariant sessions == RevokeThose(old(sessions), Ids(overflow[..i]), now)
      {
        assert overflow[i] in sorted;
        assert Ids(overflow[..i + 1]) == Ids(overflow[..i]) + {overflow[i]};
        sessions := sessions[overflow[i] := Revoked(sessions[overflow[i]], now)];
      }
      assert overflow[..|overflow|] == overflow;
    }

    // SessionIssuer.issue: the generator supplies an id and a token never seen before.
    method Issue(user: Id, organization: Id, id: Id, hash: Hash, now: int, listed: seq<Id>)
      requires Fresh(Now(), id, hash) && Lists(sessions, user, now, listed)
      modifies this
      ensures Now() == SignedIn(policy, old(Now()), user, organization, id, hash, now, listed)
      ensures id in sessions && index == old(index)[hash := id] && sessions.Keys == old(sessions).Keys + {id}
      ensures sessions[id] == Session(user, organization, id, hash, now + policy.ttl, now, None, None, None)
    {
      EnforceSessionCap(user, now, listed);
      Add(id, Session(user, organization, id, hash, now + policy.ttl, now, None, None, None));
    }

    // RefreshSession.execute.
    method Refresh(token: Hash, newId: Id, newHash: Hash, now: int) returns (reply: Reply)
      requires Fresh(Now(), newId, newHash)
      modifies this
      ensures (Now(), reply) == Refreshed(policy, old(Now()), token, newId, newHash, now)
    {
      if token !in index || index[token] !in sessions {
        return Unknown;
      }
      var id := index[token];
      var session := sessions[id];
      if session.revokedAt.Some? {
        return Reused;
      }
      if session.rotatedAt.Some? {
        if now - session.rotatedAt.value <= policy.grace {
          reply := ReissueFromSuccessor(session);
          return;
        }
        var _ := RevokeFamilyRows(session.family, now);
        return Reused;
      }
      if session.expiresAt <= now {
        return Expired;
      }
      if session.user !in directory.users || !directory.users[session.user].active {
        return Refused;
      }
      if directory.users[session.user].Locked(now) {
        return Refused;
      }
      if (session.user, session.organization) !in directory.members {
        var _ := RevokeFamilyRows(session.family, now);
        return Refused;
      }
      sessions := sessions[id := session.(rotatedAt := Some(now), replacedBy := Some(newId))];
      Add(newId, Successor(session, newHash, now));
      reply := Rotated(newId, newHash);
    }

    // _reissue_from_successor: an access token bound to the successor, and no refresh token.
    method ReissueFromSuccessor(session: Session) returns (reply: Reply)
      ensures reply == if session.replacedBy.None? then Superseded
                       else if !Admitted(directory, session.user, session.organization) then Refused
                       else Reissued(session.replacedBy.value)
    {
      if session.replacedBy.None? {
        return Superseded;
      }
      if session.user !in directory.users || !directory.users[session.user].active {
        return Refused;
      }
      if (session.user, session.organization) !in directory.members {
        return Refused;
      }
      reply := Reissued(session.replacedBy.value);
    }

    // The checks of ResolveUserPrincipal.execute on a token bound to a session.
    method Resolve(user: Id, organization: Id, session: Id, now: int) returns (granted: bool)
      ensures granted == Resolves(Now(), user, organization, session, now)
      ensures granted <==>
                && user in directory.users && directory.users[user].active
                && (directory.users[user].lockedUntil.Some? ==> directory.users[user].lockedUntil.value <= now)
                && session in sessions && sessions[session].revokedAt.None?
                && organization in directory.organizations && (user, organization) in directory.members
    {
      if user !in directory.users || !directory.users[user].active {
        return false;
      }
      if directory.users[user].Locked(now) {
        return false;
      }
      if session !in sessions || sessions[session].revokedAt.Some? {
        return false;
      }
      if organization !in directory.organizations {
        return false;
      }
      granted := (user, organization) in directory.members;
    }

    // RevokeSession.execute: every session of the user, or the family of the current one.
    method SignOut(user: Id, session: Option<Id>, all: bool, now: int)
      modifies this`sessions
      ensures Now() == if all then RevokeUser(old(Now()), user, None, now)
                       else if session.Some? && session.value in old(sessions) then
                         RevokeFamily(old(Now()), old(sessions)[session.value].family, now)
                       else old(Now())
    {
      if all {
        RevokeUserRows(user, None, now);
      } else if session.Some? && session.value in sessions {
        var _ := RevokeFamilyRows(sessions[session.value].family, now);
      }
    }

    // purge_expired_sessions.
    method PurgeExpired(now: int)
      modifies this
      ensures Now() == Purged(old(Now()), now - ONE_DAY)
      ensures forall id :: id in sessions <==> id in old(sessions) && old(sessions)[id].expiresAt + 86_400 >= now
      ensures forall id :: id in sessions ==> sessions[id] == old(sessions)[id]
      ensures forall id :: id in old(sessions) && id !in sessions ==> !old(sessions)[id].Active(now)
    {
      var cutoff := now - ONE_DAY;
      sessions := map id | id in sessions && sessions[id].expiresAt >= cutoff :: sessions[id];
      index := map h | h in index && index[h] in sessions :: index[h];
    }
  }
}
