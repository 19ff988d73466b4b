/** Refresh-token families: the refresh_sessions table and the operations on it, each one transaction. */
module RefreshSessions {
  import opened Wrappers

  type Id = nat

  datatype Owner = Owner(user: string, workspace: string, client: string)

  datatype Session = Session(
    family: nat,
    owner: Owner,
    tokenHash: string,
    expiresAt: int,
    rotated: bool,
    revoked: bool,
    replacedBy: Option<Id>)

  type Table = map<Id, Session>

  const RETENTION_MILLIS: int := 7 * 86_400_000

  predicate Live(row: Session) {
    !row.rotated && !row.revoked
  }

  predicate HasToken(rows: Table, id: Id, hash: string) {
    id in rows && rows[id].tokenHash == hash
  }

  predicate InFamily(rows: Table, id: Id, family: nat) {
    id in rows && rows[id].family == family
  }

  ghost predicate Dead(rows: Table, family: nat) {
    forall id :: InFamily(rows, id, family) ==> !Live(rows[id])
  }

  // ----- The operations on the table -----

  /** No session has this family or this token yet. */
  predicate Unused(rows: Table, family: nat, hash: string) {
    forall x :: x in rows ==> rows[x].family != family && rows[x].tokenHash != hash
  }

  function Revoke(row: Session): Session {
    row.(revoked := true)
  }

  function RevokeAll(rows: Table, ids: set<Id>): Table {
    map id | id in rows :: if id in ids then Revoke(rows[id]) else rows[id]
  }

  function FamilyIds(rows: Table, family: nat): set<Id> {
    set id | id in rows && rows[id].family == family
  }

  function TokenIds(rows: Table, hash: string): set<Id> {
    set id | id in rows && rows[id].tokenHash == hash
  }

  function Successor(row: Session, hash: string, expiresAt: int): Session {
    Session(row.family, row.owner, hash, expiresAt, false, false, None)
  }

  /** Rotate the row: mark it rotated and insert its successor. */
  function Rotated(rows: Table, id: Id, nextId: Id, nextHash: string, expiresAt: int): Table
    requires id in rows
  {
    rows[nextId := Successor(rows[id], nextHash, expiresAt)]
        [id := rows[id].(rotated := true, replacedBy := Some(nextId))]
  }

  /** The row a presented token selects may be rotated. */
  predicate Rotatable(row: Session, now: int, subjectFound: bool) {
    Live(row) && row.expiresAt > now && subjectFound
  }

  /** What presenting the token of row `id` does to the table. */
  function Presented(rows: Table, id: Id, now: int, subjectFound: bool, nextId: Id, nextHash: string,
                     expiresAt: int): Table
    requires id in rows
  {
    if !Live(rows[id]) then RevokeAll(rows, FamilyIds(rows, rows[id].family))
    else if rows[id].expiresAt <= now then RevokeAll(rows, {id})
    else if !subjectFound then rows
    else Rotated(rows, id, nextId, nextHash, expiresAt)
  }

  /** Rows long expired are deleted, unless a remaining row still refers to one of them. */
  function Expired(rows: Table, now: int): set<Id> {
    set id | id in rows && rows[id].expiresAt < now - RETENTION_MILLIS
  }

  predicate Referenced(rows: Table, gone: set<Id>) {
    exists id :: id in rows && id !in gone && rows[id].replacedBy.Some? && rows[id].replacedBy.value in gone
  }

  function Purged(rows: Table, now: int): Table {
    if Referenced(rows, Expired(rows, now)) then rows else rows - Expired(rows, now)
  }

  /** What presenting the token of row `id` leaves behind. */
  predicate Outcome(before: Table, after: Table, session: Option<Id>, id: Id, now: int, subjectFound: bool, nextId: Id,
                    nextHash: string, expiresAt: int)
    requires id in before
  {
    var row := before[id];
    if row.rotated || row.revoked then
      // A replay: the whole family is revoked, and nobody else.
      && session.None? && after.Keys == before.Keys
      && forall x :: x in before ==>
           after[x] == if before[x].family == row.family then before[x].(revoked := true) else before[x]
    else if now >= row.expiresAt then
      session.None? && after == before[id := row.(revoked := true)]
    else if !subjectFound then
      session.None? && after == before
    else
      && session == Some(nextId) && after.Keys == before.Keys + {nextId}
      && after[nextId] == Session(row.family, row.owner, nextHash, expiresAt, false, false, None)
      && (nextId != id ==> after[id] == row.(rotated := true, replacedBy := Some(nextId)))
      && forall x :: x in before && x != id && x != nextId ==> after[x] == before[x]
  }

  class SessionTable {
    var rows: Table

    constructor ()
      ensures rows == map[]
    {
      rows := map[];
    }

    method CreateSession(owner: Owner, id: Id, family: nat, hash: string, expiresAt: int)
      requires id !in rows
      modifies this
      ensures rows == old(rows)[id := Session(family, owner, hash, expiresAt, false, false, None)]
      // In a new family it is the one live session, and the table stays one of unbranched chains.
      ensures old(TableOk(rows)) && Unused(old(rows), family, hash) ==>
                TableOk(rows) && Live(rows[id]) && forall x :: InFamily(rows, x, family) ==> x == id
    {
      ghost var before, row := rows, Session(family, owner, hash, expiresAt, false, false, None);
      rows := rows[id := Session(family, owner, hash, expiresAt, false, false, None)];
      if TableOk(before) && Unused(before, family, hash) {
        CreateKeepsTable(before, id, row);
      }
    }

    /** The row of a presented token. */
    method FindByToken(hash: string) returns (found: Option<Id>)
      ensures found.Some? ==> HasToken(rows, found.value, hash)
      ensures found.None? <==> TokenIds(rows, hash) == {}
    {
      var ids := TokenIds(rows, hash);
      if ids == {} {
        found := None;
      } else {
        var id :| id in ids;
        found := Some(id);
      }
    }

    /** Rotate a presented token; a token already spent or revoked takes its whole family down. */
    method RotateSession(hash: string, now: int, subjectFound: bool, nextId: Id, nextHash: string, expiresAt: int)
      returns (session: Option<Id>)
      requires nextId !in rows
      modifies this
      ensures TokenIds(old(rows), hash) == {} ==> rows == old(rows) && session == None
      ensures TokenIds(old(rows), hash) != {} ==>
                exists id :: HasToken(old(rows), id, hash)
                  && rows == Presented(old(rows), id, now, subjectFound, nextId, nextHash, expiresAt)
                  && session == if Rotatable(old(rows)[id], now, subjectFound) then Some(nextId) else None
      // The four outcomes of a token that is known, row by row.
      ensures (forall id :: id in old(rows) ==> old(rows)[id].tokenHash != hash)
              || exists id :: id in old(rows) && old(rows)[id].tokenHash == hash
                   && Outcome(old(rows), rows, session, id, now, subjectFound, nextId, nextHash, expiresAt)
    {
      var found := FindByToken(hash);
      if found.None? {
        return None;
      }
      var id := found.value;
      var current := rows[id];
      if current.rotated || current.revoked {
        rows := RevokeAll(rows, FamilyIds(rows, current.family));
        return None;
      }
      if current.expiresAt <= now {
        rows := RevokeAll(rows, {id});
        return None;
      }
      if !subjectFound {
        return None;
      }
      rows := rows[nextId := Successor(current, nextHash, expiresAt)];
      rows := rows[id := current.(rotated := true, replacedBy := Some(nextId))];
      session := Some(nextId);
    }

    method RevokeRefreshToken(hash: string)
      modifies this
      ensures rows == RevokeAll(old(rows), TokenIds(old(rows), hash))
      // The token's session is dead, every other session is untouched, and chains stay chains.
      ensures forall id :: HasToken(rows, id, hash) ==> !Live(rows[id])
      ensures forall id :: id in old(rows) && old(rows)[id].tokenHash == hash ==>
                id in rows && rows[id] == old(rows)[id].(revoked := true)
      ensures rows.Keys == old(rows).Keys
      ensures forall id :: id in rows && !HasToken(rows, id, hash) ==> rows[id] == old(rows)[id]
      ensures old(TableOk(rows)) ==> TableOk(rows)
    {
      ghost var before := rows;
      rows := RevokeAll(rows, TokenIds(rows, hash));
      if TableOk(before) {
        RevokeKeepsTable(before, TokenIds(before, hash));
      }
    }
  }

  /** A row is deleted exactly a week after its expiry, unless a row that stays refers to one that would go. */
  lemma {:induction false} PurgedExactly(rows: Table, now: int, id: Id)
    requires id in rows
    ensures var stale := set x | x in rows && rows[x].expiresAt + 604_800_000 < now;
            id !in Purged(rows, now) <==>
              id in stale && forall x :: x in rows && x !in stale && rows[x].replacedBy.Some? ==>
                               rows[x].replacedBy.value !in stale
    ensures id in Purged(rows, now) ==> Purged(rows, now)[id] == rows[id]
  {
    assert Expired(rows, now) == set x | x in rows && rows[x].expiresAt + 604_800_000 < now;
  }

  // ----- Chains -----

  /** c lists the family from its first session to its newest, each replaced by the next. */
  ghost predicate IsChain(rows: Table, family: nat, c: seq<Id>) {
    && c != []
    && (forall i :: 0 <= i < |c| ==> InFamily(rows, c[i], family))
    && (forall i, j :: 0 <= i < j < |c| ==> c[i] != c[j])
    && (forall id :: InFamily(rows, id, family) ==> id in c)
    && (forall i :: 0 <= i < |c| - 1 ==> rows[c[i]].rotated && rows[c[i]].replacedBy == Some(c[i + 1]))
    && !rows[c[|c| - 1]].rotated && rows[c[|c| - 1]].replacedBy.None?
  }

  ghost predicate FamilyOk(rows: Table, family: nat) {
    && (forall id :: InFamily(rows, id, family) ==> exists c :: IsChain(rows, family, c))
    && (forall a, b :: InFamily(rows, a, family) && InFamily(rows, b, family) ==> rows[a].owner == rows[b].owner)
  }

  ghost predicate TableOk(rows: Table) {
    && (forall family :: FamilyOk(rows, family))
    && (forall a, b :: a in rows && b in rows && rows[a].tokenHash == rows[b].tokenHash ==> a == b)
  }

  lemma {:induction false} ChainOf(rows: Table, id: Id) returns (c: seq<Id>)
    requires TableOk(rows) && id in rows
    ensures IsChain(rows, rows[id].family, c) && id in c
  {
    assert FamilyOk(rows, rows[id].family) && InFamily(rows, id, rows[id].family);
    c :| IsChain(rows, rows[id].family, c);
  }

  /** A family never has two live sessions. */
  lemma {:induction false} AtMostOneLive(rows: Table, a: Id, b: Id)
    requires TableOk(rows) && a in rows && b in rows && rows[a].family == rows[b].family
    requires Live(rows[a]) && Live(rows[b])
    ensures a == b
  {
    var c := ChainOf(rows, a);
    assert InFamily(rows, b, rows[a].family);
    var i :| 0 <= i < |c| && c[i] == a;
    var j :| 0 <= j < |c| && c[j] == b;
    assert i == |c| - 1 && j == |c| - 1;
  }

  lemma {:induction false} UntouchedFamily(rows: Table, rows': Table, family: nat)
    requires FamilyOk(rows, family)
    requires forall x :: InFamily(rows', x, family) <==> InFamily(rows, x, family)
    requires forall x :: InFamily(rows, x, family) ==> x in rows' && rows'[x] == rows[x]
    ensures FamilyOk(rows', family)
  {
    forall x | InFamily(rows', x, family) ensures exists c :: IsChain(rows', family, c) {
      assert InFamily(rows, x, family);
      var c :| IsChain(rows, family, c);
      assert IsChain(rows', family, c);
    }
  }

  lemma {:induction false} CreateKeepsTable(rows: Table, id: Id, row: Session)
    requires TableOk(rows) && id !in rows
    requires forall x :: x in rows ==> rows[x].family != row.family && rows[x].tokenHash != row.tokenHash
    requires !row.rotated && row.replacedBy.None?
    ensures TableOk(rows[id := row])
  {
    var rows' := rows[id := row];
    forall family ensures FamilyOk(rows', family) {
      assert FamilyOk(rows, family);
      if family == row.family {
        assert IsChain(rows', family, [id]);
      } else {
        UntouchedFamily(rows, rows', family);
      }
    }
  }

  lemma {:induction false} RevokeKeepsTable(rows: Table, ids: set<Id>)
    requires TableOk(rows)
    ensures TableOk(RevokeAll(rows, ids))
  {
    var rows' := RevokeAll(rows, ids);
    forall family ensures FamilyOk(rows', family) {
      assert FamilyOk(rows, family);
      forall x | InFamily(rows', x, family) ensures exists c :: IsChain(rows', family, c) {
        assert InFamily(rows, x, family);
        var c :| IsChain(rows, family, c);
        assert IsChain(rows', family, c);
      }
      forall a, b | InFamily(rows', a, family) && InFamily(rows', b, family)
        ensures rows'[a].owner == rows'[b].owner
      {
        assert InFamily(rows, a, family) && InFamily(rows, b, family);
      }
    }
  }

  lemma {:induction false} RotateExtendsChain(rows: Table, id: Id, nextId: Id, nextHash: string, expiresAt: int,
                                              c: seq<Id>)
    requires id in rows && nextId !in rows && !rows[id].rotated
    requires IsChain(rows, rows[id].family, c)
    ensures IsChain(Rotated(rows, id, nextId, nextHash, expiresAt), rows[id].family, c + [nextId])
  {
    var family := rows[id].family;
    var rows' := Rotated(rows, id, nextId, nextHash, expiresAt);
    var n := |c| - 1;
    assert c[n] == id by {
      assert InFamily(rows, id, family);
      var i :| 0 <= i < |c| && c[i] == id;
      assert i == n;
    }
    var c' := c + [nextId];
    forall x | InFamily(rows', x, family) ensures x in c' {
      if x != nextId {
        assert InFamily(rows, x, family);
      }
    }
    forall i | 0 <= i < |c'| - 1 ensures rows'[c'[i]].rotated && rows'[c'[i]].replacedBy == Some(c'[i + 1]) {
      if i < n {
        assert c'[i] == c[i] && c'[i + 1] == c[i + 1];
      }
    }
  }

  lemma {:induction false} RotateKeepsOwnFamily(rows: Table, id: Id, nextId: Id, nextHash: string, expiresAt: int)
    requires TableOk(rows) && id in rows && nextId !in rows && Live(rows[id])
    ensures FamilyOk(Rotated(rows, id, nextId, nextHash, expiresAt), rows[id].family)
  {
    var rows' := Rotated(rows, id, nextId, nextHash, expiresAt);
    var family := rows[id].family;
    assert FamilyOk(rows, family) && InFamily(rows, id, family);
    var c := ChainOf(rows, id);
    RotateExtendsChain(rows, id, nextId, nextHash, expiresAt, c);
    hide IsChain;
    forall a | InFamily(rows', a, family) ensures rows'[a].owner == rows[id].owner {
      assert a != nextId ==> InFamily(rows, a, family);
    }
  }

  lemma {:induction false} RotateKeepsTable(rows: Table, id: Id, nextId: Id, nextHash: string, expiresAt: int)
    requires TableOk(rows) && id in rows && nextId !in rows && Live(rows[id])
    requires forall x :: x in rows ==> rows[x].tokenHash != nextHash
    ensures TableOk(Rotated(rows, id, nextId, nextHash, expiresAt))
  {
    var rows' := Rotated(rows, id, nextId, nextHash, expiresAt);
    forall family ensures FamilyOk(rows', family) {
      assert FamilyOk(rows, family);
      if family == rows[id].family {
        RotateKeepsOwnFamily(rows, id, nextId, nextHash, expiresAt);
      } else {
        UntouchedFamily(rows, rows', family);
      }
    }
  }

  /** Deleting rows nobody left refers to cuts a prefix off each chain. */
  lemma {:induction false} PurgeCutsChain(rows: Table, gone: set<Id>, family: nat, c: seq<Id>, k: nat)
    requires IsChain(rows, family, c) && !Referenced(rows, gone)
    requires k < |c| && c[k] !in gone && (k == 0 || c[k - 1] in gone)
    ensures IsChain(rows - gone, family, c[k..])
  {
    var rows' := rows - gone;
    KeptSuffix(rows, gone, family, c, k);
    var c' := c[k..];
    forall i | 0 <= i < |c'| ensures InFamily(rows', c'[i], family) {
      assert c'[i] == c[k + i];
    }
    forall x | InFamily(rows', x, family) ensures x in c' {
      assert InFamily(rows, x, family);
      var i :| 0 <= i < |c| && c[i] == x;
      GonePrefix(rows, gone, family, c, k, i);
      assert c'[i - k] == x;
    }
  }

  lemma {:induction false} KeptSuffix(rows: Table, gone: set<Id>, family: nat, c: seq<Id>, k: nat)
    requires IsChain(rows, family, c) && !Referenced(rows, gone) && k < |c| && c[k] !in gone
    ensures forall i :: k <= i < |c| ==> c[i] !in gone
    decreases |c| - k
  {
    if k < |c| - 1 {
      assert rows[c[k]].replacedBy == Some(c[k + 1]);
      assert InFamily(rows, c[k], family);
      KeptSuffix(rows, gone, family, c, k + 1);
    }
  }

  lemma {:induction false} GonePrefix(rows: Table, gone: set<Id>, family: nat, c: seq<Id>, k: nat, i: nat)
    requires IsChain(rows, family, c) && !Referenced(rows, gone)
    requires k < |c| && (k == 0 || c[k - 1] in gone) && i < |c| && c[i] !in gone
    ensures i >= k
  {
    if i < k {
      KeptSuffix(rows, gone, family, c, i);
    }
  }

  lemma {:induction false} FirstKept(c: seq<Id>, gone: set<Id>, at: nat) returns (k: nat)
    requires at < |c| && c[at] !in gone
    ensures k <= at && c[k] !in gone && (k == 0 || c[k - 1] in gone)
  {
    k := at;
    while k > 0 && c[k - 1] !in gone
      invariant k <= at && c[k] !in gone
    {
      k := k - 1;
    }
  }

  lemma {:induction false} PurgeKeepsTable(rows: Table, now: int)
    requires TableOk(rows)
    ensures TableOk(Purged(rows, now))
  {
    var gone := Expired(rows, now);
    if !Referenced(rows, gone) {
      var rows' := rows - gone;
      forall family ensures FamilyOk(rows', family) {
        assert FamilyOk(rows, family);
        forall x | InFamily(rows', x, family) ensures exists c :: IsChain(rows', family, c) {
          assert InFamily(rows, x, family);
          var c :| IsChain(rows, family, c);
          var at :| 0 <= at < |c| && c[at] == x;
          var k := FirstKept(c, gone, at);
          PurgeCutsChain(rows, gone, family, c, k);
        }
        forall a, b | InFamily(rows', a, family) && InFamily(rows', b, family)
          ensures rows'[a].owner == rows'[b].owner
        {
          assert InFamily(rows, a, family) && InFamily(rows, b, family);
        }
      }
    }
  }

  // ----- Runs -----

  datatype Step =
    | Create(id: Id, row: Session)
    | Present(hash: string, now: int, subjectFound: bool, nextId: Id, nextHash: string, expiresAt: int)
    | RevokeToken(hash: string)
    | RevokeSet(ids: set<Id>)      // password change, member removal, session management
    | Purge(now: int)

  /** The table, with every identifier, family and token hash ever used: new ones are random and never repeat. */
  datatype State = State(rows: Table, ids: set<Id>, families: set<nat>, hashes: set<string>)

  predicate Enabled(s: State, step: Step) {
    match step
    case Create(id, row) =>
      id !in s.ids && row.family !in s.families && row.tokenHash !in s.hashes && Live(row) && row.replacedBy.None?
    case Present(_, _, _, nextId, nextHash, _) => nextId !in s.ids && nextHash !in s.hashes
    case _ => true
  }

  ghost function Apply(s: State, step: Step): State {
    match step
    case Create(id, row) =>
      State(s.rows[id := row], s.ids + {id}, s.families + {row.family}, s.hashes + {row.tokenHash})
    case Present(hash, now, subjectFound, nextId, nextHash, expiresAt) =>
      var found := TokenIds(s.rows, hash);
      var rows := if found == {} then s.rows
                  else Presented(s.rows, PickOne(found), now, subjectFound, nextId, nextHash, expiresAt);
      s.(rows := rows, ids := s.ids + {nextId}, hashes := s.hashes + {nextHash})
    case RevokeToken(hash) => s.(rows := RevokeAll(s.rows, TokenIds(s.rows, hash)))
    case RevokeSet(ids) => s.(rows := RevokeAll(s.rows, ids))
    case Purge(now) => s.(rows := Purged(s.rows, now))
  }

  /** The only element; token hashes are unique. */
  ghost function PickOne(ids: set<Id>): Id
    requires ids != {}
  {
    var id :| id in ids;
    id
  }

  ghost predicate Inv(s: State) {
    && TableOk(s.rows)
    && s.rows.Keys <= s.ids
    && (forall id :: id in s.rows ==> s.rows[id].family in s.families && s.rows[id].tokenHash in s.hashes)
  }

  lemma {:induction false} StepKeepsInv(s: State, step: Step)
    requires Inv(s) && Enabled(s, step)
    ensures Inv(Apply(s, step))
  {
    match step
    case Create(id, row) => CreateKeepsTable(s.rows, id, row);
    case Present(hash, now, subjectFound, nextId, nextHash, expiresAt) =>
      var found := TokenIds(s.rows, hash);
      if found != {} {
        PresentKeepsTable(s.rows, PickOne(found), now, subjectFound, nextId, nextHash, expiresAt);
      }
    case RevokeToken(hash) => RevokeKeepsTable(s.rows, TokenIds(s.rows, hash));
    case RevokeSet(ids) => RevokeKeepsTable(s.rows, ids);
    case Purge(now) => PurgeKeepsTable(s.rows, now);
  }

  lemma {:induction false} PresentKeepsTable(rows: Table, id: Id, now: int, subjectFound: bool,
                                             nextId: Id, nextHash: string, expiresAt: int)
    requires TableOk(rows) && id in rows && nextId !in rows
    requires forall x :: x in rows ==> rows[x].tokenHash != nextHash
    ensures TableOk(Presented(rows, id, now, subjectFound, nextId, nextHash, expiresAt))
  {
    hide TableOk;
    if !Live(rows[id]) {
      RevokeKeepsTable(rows, FamilyIds(rows, rows[id].family));
    } else if rows[id].expiresAt <= now {
      RevokeKeepsTable(rows, {id});
    } else if subjectFound {
      RotateKeepsTable(rows, id, nextId, nextHash, expiresAt);
    }
  }

  /** Presenting a spent or revoked token leaves no live session in its family. */
  lemma {:induction false} ReplayKillsFamily(rows: Table, id: Id, now: int, subjectFound: bool,
                                             nextId: Id, nextHash: string, expiresAt: int)
    requires id in rows && !Live(rows[id])
    ensures Dead(Presented(rows, id, now, subjectFound, nextId, nextHash, expiresAt), rows[id].family)
  {
  }

  /** A rotation leaves its successor as the only live session of the family, under the same owner. */
  lemma {:induction false} RotationHandsOver(rows: Table, id: Id, now: int, nextId: Id, nextHash: string,
                                             expiresAt: int, x: Id)
    requires TableOk(rows) && id in rows && nextId !in rows && Rotatable(rows[id], now, true)
    ensures var rows' := Presented(rows, id, now, true, nextId, nextHash, expiresAt);
            InFamily(rows', x, rows[id].family) ==>
              (Live(rows'[x]) <==> x == nextId) && rows'[x].owner == rows[id].owner
  {
    var family := rows[id].family;
    assert FamilyOk(rows, family) && InFamily(rows, id, family);
    if InFamily(rows, x, family) && Live(rows[x]) {
      AtMostOneLive(rows, id, x);
    }
  }

  /** A dead family of a used identifier stays dead through every step. */
  lemma {:induction false} DeadStaysDead(s: State, step: Step, family: nat)
    requires Inv(s) && Enabled(s, step) && family in s.families && Dead(s.rows, family)
    ensures Dead(Apply(s, step).rows, family) && family in Apply(s, step).families
  {
    var rows' := Apply(s, step).rows;
    forall id | InFamily(rows', id, family)
      ensures !Live(rows'[id])
    {
      if InFamily(s.rows, id, family) {
        assert !Live(s.rows[id]);
      }
      match step
      case Present(hash, now, subjectFound, nextId, nextHash, expiresAt) =>
        var found := TokenIds(s.rows, hash);
        if found != {} {
          var picked := PickOne(found);
          assert InFamily(s.rows, picked, s.rows[picked].family);
        }
      case _ =>
    }
  }

  /** Before the first session. */
  const NO_SESSIONS: State := State(map[], {}, {}, {})

  lemma {:induction false} NoSessionsInv()
    ensures Inv(NO_SESSIONS)
  {
  }

  ghost predicate Run(states: seq<State>, steps: seq<Step>) {
    && |states| == |steps| + 1
    && states[0] == NO_SESSIONS
    && forall i :: 0 <= i < |steps| ==> Enabled(states[i], steps[i]) && states[i + 1] == Apply(states[i], steps[i])
  }

  lemma {:induction false} RunInv(states: seq<State>, steps: seq<Step>, i: nat)
    requires Run(states, steps) && i < |states|
    ensures Inv(states[i])
  {
    if i == 0 {
      NoSessionsInv();
    } else {
      RunInv(states, steps, i - 1);
      assert Enabled(states[i - 1], steps[i - 1]);
      StepKeepsInv(states[i - 1], steps[i - 1]);
    }
  }

  /** Once a replay has killed a family, no later step of any run gives it a live session again. */
  lemma {:induction false} FamilyNeverRevives(states: seq<State>, steps: seq<Step>, i: nat, j: nat, family: nat)
    requires Run(states, steps) && i <= j < |states|
    requires family in states[i].families && Dead(states[i].rows, family)
    ensures family in states[j].families && Dead(states[j].rows, family)
    decreases j - i
  {
    if i < j {
      RunInv(states, steps, i);
      assert Enabled(states[i], steps[i]);
      DeadStaysDead(states[i], steps[i], family);
      FamilyNeverRevives(states, steps, i + 1, j, family);
    }
  }

  /** Logging out with a token ends its family exactly when that token is the newest of the family,
      or the family was dead already: an older, spent token leaves its successor live. */
  lemma {:induction false} LogoutEndsFamilyExactly(rows: Table, id: Id)
    requires TableOk(rows) && id in rows
    ensures Dead(RevokeAll(rows, TokenIds(rows, rows[id].tokenHash)), rows[id].family)
      <==> !rows[id].rotated || Dead(rows, rows[id].family)
  {
    var family := rows[id].family;
    var rows' := RevokeAll(rows, TokenIds(rows, rows[id].tokenHash));
    if !rows[id].rotated {
      forall x | InFamily(rows', x, family) ensures !Live(rows'[x]) {
        assert InFamily(rows, x, family);
        if Live(rows[x]) && x != id {
          NewestIsLast(rows, id, x);
        }
      }
    } else if !Dead(rows, family) {
      var x :| InFamily(rows, x, family) && Live(rows[x]);
      assert InFamily(rows', x, family) && Live(rows'[x]);
    }
  }

  lemma {:induction false} NewestIsLast(rows: Table, a: Id, b: Id)
    requires TableOk(rows) && a in rows && InFamily(rows, b, rows[a].family)
    requires !rows[a].rotated && !rows[b].rotated
    ensures a == b
  {
    var c := ChainOf(rows, a);
    var i :| 0 <= i < |c| && c[i] == a;
    var j :| 0 <= j < |c| && c[j] == b;
    assert i == |c| - 1 && j == |c| - 1;
  }
}
