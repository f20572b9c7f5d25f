/**
 Selection of enabled apps. From a list of user or team credentials it builds
 the query filter (optionally restricted to apps those credentials use), and it
 joins the enabled-app rows the query returns with the app metadata by slug.
 The database result and the app-metadata list are taken as inputs.
 */
module EnabledApps {
  import opened Wrappers

  /** A credential; either owner id may be absent. */
  datatype Credential = Credential(userId: Option<int>, teamId: Option<int>)

  /** Which owner id of a credential is meant. */
  datatype IdKind = UserId | TeamId

  /** One clause of the `credentials.some.OR` list. */
  datatype CredentialClause = UserIdIn(ids: seq<int>) | TeamIdIn(ids: seq<int>)

  /**
   The `where` object of the app query: `enabled: true`, plus the credentials
   filter `credentials.some.OR` when it is present.
   */
  datatype AppWhere = AppWhere(enabled: bool, credentialsSomeOr: Option<seq<CredentialClause>>)

  /** A row of the query result. */
  datatype AppRow = AppRow(slug: string, enabled: bool)

  /** An app-metadata entry; `rest` stands for all its other properties. */
  datatype AppMetadata = AppMetadata(slug: string, rest: map<string, string>)

  /** A result entry: the metadata spread, with `enabled` taken from the row. */
  datatype EnabledApp = EnabledApp(metadata: AppMetadata, enabled: bool)

  function IdOf(c: Credential, kind: IdKind): Option<int>
  {
    match kind
    case UserId => c.userId
    case TeamId => c.teamId
  }

  /** JavaScript truthiness of an optional number: present and not 0. */
  predicate IsTruthy(id: Option<int>)
  {
    id.Some? && id.value != 0
  }

  /** JavaScript truthiness of the optional `filterOnCredentials` flag. */
  predicate FilterOn(filterOnCredentials: Option<bool>)
  {
    filterOnCredentials == Some(true)
  }

  // ---------------------------------------------------------------------------
  // Partition of the credentials
  // ---------------------------------------------------------------------------

  /** The truthy ids of one kind, in credential order. */
  function CollectIds(credentials: seq<Credential>, kind: IdKind): (ids: seq<int>)
    ensures |ids| <= |credentials|
    ensures forall x :: x in ids ==> x != 0
  {
    if credentials == [] then []
    else
      var last := IdOf(credentials[|credentials| - 1], kind);
      CollectIds(credentials[..|credentials| - 1], kind) + (if IsTruthy(last) then [last.value] else [])
  }

  /** Collecting distributes over concatenation: the ids keep the credentials' order. */
  lemma {:induction false} CollectIdsAppend(a: seq<Credential>, b: seq<Credential>, kind: IdKind)
    ensures CollectIds(a + b, kind) == CollectIds(a, kind) + CollectIds(b, kind)
  {
    if b != [] {
      var b' := b[..|b| - 1];
      assert (a + b)[..|a + b| - 1] == a + b';
      CollectIdsAppend(a, b', kind);
    } else {
      assert a + b == a;
    }
  }

  /** An id is collected exactly when it is non-zero and some credential carries it. */
  lemma {:induction false} CollectIdsMembers(credentials: seq<Credential>, kind: IdKind, x: int)
    ensures x in CollectIds(credentials, kind) <==>
      x != 0 && exists i :: 0 <= i < |credentials| && IdOf(credentials[i], kind) == Some(x)
  {
    if credentials != [] {
      var init := credentials[..|credentials| - 1];
      CollectIdsMembers(init, kind, x);
      if exists i :: 0 <= i < |credentials| && IdOf(credentials[i], kind) == Some(x) {
        var i :| 0 <= i < |credentials| && IdOf(credentials[i], kind) == Some(x);
        if i < |init| {
          assert IdOf(init[i], kind) == Some(x);
        }
      }
      if exists i :: 0 <= i < |init| && IdOf(init[i], kind) == Some(x) {
        var i :| 0 <= i < |init| && IdOf(init[i], kind) == Some(x);
        assert credentials[i] == init[i];
      }
    }
  }

  /** The loop over the credentials, pushing each truthy user id and team id. */
  method PartitionCredentials(credentials: seq<Credential>) returns (userIds: seq<int>, teamIds: seq<int>)
    ensures userIds == CollectIds(credentials, UserId)
    ensures teamIds == CollectIds(credentials, TeamId)
  {
    userIds, teamIds := [], [];
    for i := 0 to |credentials|
      invariant userIds == CollectIds(credentials[..i], UserId)
      invariant teamIds == CollectIds(credentials[..i], TeamId)
    {
      var credential := credentials[i];
      assert credentials[..i + 1][..i] == credentials[..i];
      if IsTruthy(credential.userId) {
        userIds := userIds + [credential.userId.value];
      }
      if IsTruthy(credential.teamId) {
        teamIds := teamIds + [credential.teamId.value];
      }
    }
    assert credentials[..|credentials|] == credentials;
  }

  // ---------------------------------------------------------------------------
  // The OR filter
  // ---------------------------------------------------------------------------

  /**
   The `credentials.some.OR` list: empty unless filtering is on; then a user-id
   clause when there are user ids, always first, and a team-id clause when
   there are team ids, always last.
   */
  function OrClauses(credentials: seq<Credential>, filterOnCredentials: Option<bool>): (r: seq<CredentialClause>)
    ensures |r| <= 2
    ensures !FilterOn(filterOnCredentials) ==> r == []
    ensures FilterOn(filterOnCredentials) && CollectIds(credentials, UserId) != [] ==>
      |r| > 0 && r[0] == UserIdIn(CollectIds(credentials, UserId))
    ensures FilterOn(filterOnCredentials) && CollectIds(credentials, TeamId) != [] ==>
      |r| > 0 && r[|r| - 1] == TeamIdIn(CollectIds(credentials, TeamId))
    ensures forall i :: 0 <= i < |r| && r[i].UserIdIn? ==>
      i == 0 && r[i].ids == CollectIds(credentials, UserId) && r[i].ids != []
    ensures forall i :: 0 <= i < |r| && r[i].TeamIdIn? ==>
      i == |r| - 1 && r[i].ids == CollectIds(credentials, TeamId) && r[i].ids != []
  {
    if !FilterOn(filterOnCredentials) then []
    else
      var userIds, teamIds := CollectIds(credentials, UserId), CollectIds(credentials, TeamId);
      (if userIds != [] then [UserIdIn(userIds)] else []) + (if teamIds != [] then [TeamIdIn(teamIds)] else [])
  }

  /** Builds the OR list in place, as `getEnabledApps` does with `push`, from the partition loop. */
  method BuildOrFilter(credentials: seq<Credential>, filterOnCredentials: Option<bool>) returns (or: seq<CredentialClause>)
    ensures or == OrClauses(credentials, filterOnCredentials)
  {
    or := [];
    if FilterOn(filterOnCredentials) {
      var userIds, teamIds := PartitionCredentials(credentials);
      if |userIds| > 0 {
        or := or + [UserIdIn(userIds)];
      }
      if |teamIds| > 0 {
        or := or + [TeamIdIn(teamIds)];
      }
    }
  }

  /** The query's `where`: the credentials filter is merged in only when the OR list is non-empty. */
  function WhereClause(or: seq<CredentialClause>): (w: AppWhere)
    ensures w.enabled
    ensures w.credentialsSomeOr.Some? <==> or != []
    ensures w.credentialsSomeOr.Some? ==> w.credentialsSomeOr.value == or
  {
    AppWhere(true, if |or| > 0 then Some(or) else None)
  }

  /** Without filtering the query asks for `enabled: true` and nothing more. */
  lemma UnfilteredQueryIsEnabledOnly(credentials: seq<Credential>, filterOnCredentials: Option<bool>)
    requires !FilterOn(filterOnCredentials)
    ensures WhereClause(OrClauses(credentials, filterOnCredentials)) == AppWhere(true, None)
  {
  }

  /**
   With filtering on, the query carries a credentials filter exactly when some
   credential has a truthy user id or team id.
   */
  lemma FilteredQueryNeedsAnId(credentials: seq<Credential>)
    ensures WhereClause(OrClauses(credentials, Some(true))).credentialsSomeOr.Some? <==>
      exists i :: 0 <= i < |credentials| && (IsTruthy(credentials[i].userId) || IsTruthy(credentials[i].teamId))
  {
    var u, t := CollectIds(credentials, UserId), CollectIds(credentials, TeamId);
    if exists i :: 0 <= i < |credentials| && (IsTruthy(credentials[i].userId) || IsTruthy(credentials[i].teamId)) {
      var i :| 0 <= i < |credentials| && (IsTruthy(credentials[i].userId) || IsTruthy(credentials[i].teamId));
      if IsTruthy(credentials[i].userId) {
        CollectIdsMembers(credentials, UserId, credentials[i].userId.value);
      } else {
        CollectIdsMembers(credentials, TeamId, credentials[i].teamId.value);
      }
    }
    if u != [] {
      CollectIdsMembers(credentials, UserId, u[0]);
    }
    if t != [] {
      CollectIdsMembers(credentials, TeamId, t[0]);
    }
  }

  // ---------------------------------------------------------------------------
  // The slug join
  // ---------------------------------------------------------------------------

  /** Entry `i` is the first with this slug. */
  predicate FirstWithSlug(apps: seq<AppMetadata>, i: int, slug: string)
  {
    0 <= i < |apps| && apps[i].slug == slug && forall j :: 0 <= j < i ==> apps[j].slug != slug
  }

  /** `apps.find(metadata => metadata.slug === slug)`: the first entry with that slug. */
  function FindBySlug(apps: seq<AppMetadata>, slug: string): (r: Option<AppMetadata>)
    ensures r.None? <==> forall i :: 0 <= i < |apps| ==> apps[i].slug != slug
    ensures r.Some? ==> r.value.slug == slug
    ensures r.Some? ==> exists i :: 0 <= i < |apps| && apps[i] == r.value && FirstWithSlug(apps, i, slug)
  {
    if apps == [] then None
    else if apps[0].slug == slug then Some(apps[0])
    else
      var r := FindBySlug(apps[1..], slug);
      assert r.Some? ==> exists i :: 0 <= i < |apps| && apps[i] == r.value && FirstWithSlug(apps, i, slug) by {
        if r.Some? {
          var i :| 0 <= i < |apps[1..]| && apps[1..][i] == r.value && FirstWithSlug(apps[1..], i, slug);
          assert forall j :: 1 <= j < i + 1 ==> apps[j] == apps[1..][j - 1];
          assert FirstWithSlug(apps, i + 1, slug);
        }
      }
      r
  }

  /** Some metadata entry has this slug. */
  predicate HasMetadata(apps: seq<AppMetadata>, slug: string)
  {
    exists j :: 0 <= j < |apps| && apps[j].slug == slug
  }

  /** `e` is the entry the reduce builds from `row`. */
  predicate EntryOf(row: AppRow, apps: seq<AppMetadata>, e: EnabledApp)
  {
    FindBySlug(apps, row.slug) == Some(e.metadata) && row.enabled == e.enabled
  }

  /**
   The reducer body for one row: the first metadata entry with the row's slug,
   with `enabled` overwritten by the row's flag, or nothing when no entry has
   that slug.
   */
  function JoinRow(row: AppRow, apps: seq<AppMetadata>): (r: seq<EnabledApp>)
    ensures |r| <= 1
    ensures r != [] <==> HasMetadata(apps, row.slug)
    ensures forall e :: e in r ==> EntryOf(row, apps, e) && e.metadata.slug == row.slug
  {
    match FindBySlug(apps, row.slug)
    case Some(m) => [EnabledApp(m, row.enabled)]
    case None => []
  }

  /** The joined list, in row order, for the rows seen so far. */
  function JoinRows(rows: seq<AppRow>, apps: seq<AppMetadata>): (r: seq<EnabledApp>)
    ensures |r| <= |rows|
  {
    if rows == [] then []
    else JoinRows(rows[..|rows| - 1], apps) + JoinRow(rows[|rows| - 1], apps)
  }

  /** The join distributes over concatenation: entries keep the rows' order. */
  lemma {:induction false} JoinRowsAppend(a: seq<AppRow>, b: seq<AppRow>, apps: seq<AppMetadata>)
    ensures JoinRows(a + b, apps) == JoinRows(a, apps) + JoinRows(b, apps)
  {
    if b != [] {
      var b' := b[..|b| - 1];
      assert (a + b)[..|a + b| - 1] == a + b';
      JoinRowsAppend(a, b', apps);
    } else {
      assert a + b == a;
    }
  }

  /**
   An entry is in the result exactly when some row's slug finds that metadata
   (the first with the slug) and the entry carries that row's `enabled` flag.
   */
  lemma {:induction false} JoinRowsMembers(rows: seq<AppRow>, apps: seq<AppMetadata>, e: EnabledApp)
    ensures e in JoinRows(rows, apps) <==> exists i :: 0 <= i < |rows| && EntryOf(rows[i], apps, e)
  {
    if rows != [] {
      var init, last := rows[..|rows| - 1], rows[|rows| - 1];
      JoinRowsMembers(init, apps, e);
      assert JoinRows(rows, apps) == JoinRows(init, apps) + JoinRow(last, apps);
      assert e in JoinRow(last, apps) <==> EntryOf(last, apps, e);
      if exists i :: 0 <= i < |rows| && EntryOf(rows[i], apps, e) {
        var i :| 0 <= i < |rows| && EntryOf(rows[i], apps, e);
        if i < |init| {
          assert init[i] == rows[i];
        }
      }
      if exists i :: 0 <= i < |init| && EntryOf(init[i], apps, e) {
        var i :| 0 <= i < |init| && EntryOf(init[i], apps, e);
        assert rows[i] == init[i];
      }
    }
  }

  /** No row is dropped when every row's slug has metadata. */
  lemma {:induction false} JoinRowsKeepsMatchedRows(rows: seq<AppRow>, apps: seq<AppMetadata>)
    requires forall i :: 0 <= i < |rows| ==> HasMetadata(apps, rows[i].slug)
    ensures |JoinRows(rows, apps)| == |rows|
  {
    if rows != [] {
      var init := rows[..|rows| - 1];
      assert forall i :: 0 <= i < |init| ==> init[i] == rows[i];
      JoinRowsKeepsMatchedRows(init, apps);
      assert HasMetadata(apps, rows[|rows| - 1].slug);
    }
  }

  /** The `reduce` over the rows with its mutable accumulator. */
  method FilterEnabledApps(rows: seq<AppRow>, apps: seq<AppMetadata>) returns (result: seq<EnabledApp>)
    ensures result == JoinRows(rows, apps)
  {
    result := [];
    for i := 0 to |rows|
      invariant result == JoinRows(rows[..i], apps)
    {
      var app := rows[i];
      assert rows[..i + 1][..i] == rows[..i];
      var appMetadata := FindBySlug(apps, app.slug);
      if appMetadata.Some? {
        result := result + [EnabledApp(appMetadata.value, app.enabled)];
      }
    }
    assert rows[..|rows|] == rows;
  }

  /**
   The whole selection: the `where` the query is issued with, and the entries
   built from `enabledApps`, the rows that query returned, and `apps`, the
   app metadata.
   */
  method GetEnabledApps(credentials: seq<Credential>, filterOnCredentials: Option<bool>,
                        enabledApps: seq<AppRow>, apps: seq<AppMetadata>)
    returns (where: AppWhere, result: seq<EnabledApp>)
    ensures where == WhereClause(OrClauses(credentials, filterOnCredentials))
    ensures !FilterOn(filterOnCredentials) ==> where == AppWhere(true, None)
    ensures result == JoinRows(enabledApps, apps)
    ensures |result| <= |enabledApps|
  {
    var or := BuildOrFilter(credentials, filterOnCredentials);
    where := WhereClause(or);
    result := FilterEnabledApps(enabledApps, apps);
  }
}
