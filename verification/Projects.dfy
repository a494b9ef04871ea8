/**
 Project rows, the paged list query over them, the writers' changes, and the
 cache keys under which lists are stored.
 */
module Projects {
  import opened Wrappers
  import opened Texts

  predicate IsUuidChar(c: char) {
    '0' <= c <= '9' || 'a' <= c <= 'f' || c == '-'
  }

  predicate IsUuid(s: string) {
    |s| == 36 && forall i :: 0 <= i < |s| ==> IsUuidChar(s[i])
  }

  /** The text of a UUID. */
  type Uuid = s: string | IsUuid(s) witness "00000000-0000-0000-0000-000000000000"

  datatype Status = Active | OnHold | Completed | Archived

  /** `content` stands for the columns that neither lists nor writers look at. */
  datatype Project = Project(id: nat, tenant: Uuid, client: Option<Uuid>, status: Status, content: string)

  datatype Query = Query(tenant: Uuid, offset: nat, limit: nat, client: Option<Uuid>)

  // ------------------------------------------------------------------- reads

  function OfTenant(db: seq<Project>, t: Uuid): seq<Project> {
    if db == [] then []
    else (if db[0].tenant == t then [db[0]] else []) + OfTenant(db[1..], t)
  }

  function OfClient(rows: seq<Project>, c: Uuid): seq<Project> {
    if rows == [] then []
    else (if rows[0].client == Some(c) then [rows[0]] else []) + OfClient(rows[1..], c)
  }

  /** OFFSET and LIMIT */
  function Page(rows: seq<Project>, offset: nat, limit: nat): seq<Project> {
    var start := if offset <= |rows| then offset else |rows|;
    var end := if start + limit <= |rows| then start + limit else |rows|;
    rows[start..end]
  }

  /** `list` or `list_by_client`, over rows kept newest first. */
  function Ask(db: seq<Project>, q: Query): seq<Project> {
    var rows := OfTenant(db, q.tenant);
    Page(if q.client.Some? then OfClient(rows, q.client.value) else rows, q.offset, q.limit)
  }

  lemma {:induction false} OfTenantConcat(a: seq<Project>, b: seq<Project>, t: Uuid)
    ensures OfTenant(a + b, t) == OfTenant(a, t) + OfTenant(b, t)
  {
    hide IsUuid;
    if a == [] {
      assert a + b == b;
    } else {
      assert (a + b)[1..] == a[1..] + b && (a + b)[0] == a[0];
      OfTenantConcat(a[1..], b, t);
      var head := if a[0].tenant == t then [a[0]] else [];
      assert OfTenant(a + b, t) == head + (OfTenant(a[1..], t) + OfTenant(b, t));
    }
  }

  lemma {:induction false} OfTenantIsOwn(db: seq<Project>, t: Uuid)
    ensures forall p :: p in OfTenant(db, t) ==> p.tenant == t && p in db
  {
    hide IsUuid;
    if db == [] {
    } else {
      OfTenantIsOwn(db[1..], t);
    }
  }

  lemma {:induction false} OfClientIsPart(rows: seq<Project>, c: Uuid)
    ensures forall p :: p in OfClient(rows, c) ==> p in rows && p.client == Some(c)
  {
    hide IsUuid;
    if rows == [] {
    } else {
      OfClientIsPart(rows[1..], c);
    }
  }

  lemma {:induction false} OfTenantIsAll(db: seq<Project>, t: Uuid)
    ensures forall p :: p in db && p.tenant == t ==> p in OfTenant(db, t)
  {
    hide IsUuid;
    if db == [] {
    } else {
      OfTenantIsAll(db[1..], t);
    }
  }

  lemma {:induction false} OfClientIsAll(rows: seq<Project>, c: Uuid)
    ensures forall p :: p in rows && p.client == Some(c) ==> p in OfClient(rows, c)
  {
    hide IsUuid;
    if rows == [] {
    } else {
      OfClientIsAll(rows[1..], c);
    }
  }

  /** Consecutive pages tile: reading on from where a page ended neither repeats nor skips a row. */
  lemma PagesTile(db: seq<Project>, q: Query, more: nat)
    ensures Ask(db, q) + Ask(db, q.(offset := q.offset + q.limit, limit := more)) == Ask(db, q.(limit := q.limit + more))
  {
  }

  /** A long enough first page lists every matching row. */
  lemma FirstPageIsComplete(db: seq<Project>, q: Query)
    requires q.offset == 0 && |OfTenant(db, q.tenant)| <= q.limit
    ensures forall p :: p in db && p.tenant == q.tenant && (q.client.Some? ==> p.client == q.client) ==> p in Ask(db, q)
  {
    var rows := OfTenant(db, q.tenant);
    OfTenantIsAll(db, q.tenant);
    if q.client.Some? {
      OfClientIsAll(rows, q.client.value);
      OfClientIsShorter(rows, q.client.value);
    }
  }

  lemma {:induction false} OfClientIsShorter(rows: seq<Project>, c: Uuid)
    ensures |OfClient(rows, c)| <= |rows|
  {
    if rows == [] {
    } else {
      OfClientIsShorter(rows[1..], c);
    }
  }

  /** A list holds only rows of the tenant that asked, and of the client asked for. */
  lemma AnswersAreOwn(db: seq<Project>, q: Query)
    ensures |Ask(db, q)| <= q.limit
    ensures forall p :: p in Ask(db, q) ==> p in db && p.tenant == q.tenant && (q.client.Some? ==> p.client == q.client)
  {
    OfTenantIsOwn(db, q.tenant);
    if q.client.Some? {
      OfClientIsPart(OfTenant(db, q.tenant), q.client.value);
    }
  }

  predicate Matches(p: Project, q: Query) {
    p.tenant == q.tenant && (q.client.Some? ==> p.client == q.client)
  }

  /** Matching rows before the given one. */
  function MatchesBefore(db: seq<Project>, q: Query, i: nat): nat
    requires i <= |db|
  {
    if i == 0 then 0 else MatchesBefore(db, q, i - 1) + if Matches(db[i - 1], q) then 1 else 0
  }

  function Unpaged(db: seq<Project>, q: Query): seq<Project> {
    if q.client.Some? then OfClient(OfTenant(db, q.tenant), q.client.value) else OfTenant(db, q.tenant)
  }

  function OfClientHead(p: Project, c: Uuid): seq<Project> {
    if p.client == Some(c) then [p] else []
  }

  lemma OfClientCons(p: Project, rows: seq<Project>, c: Uuid)
    ensures OfClient([p] + rows, c) == OfClientHead(p, c) + OfClient(rows, c)
  {
    hide IsUuid;
    assert ([p] + rows)[1..] == rows;
  }

  lemma {:induction false} OfClientConcat(a: seq<Project>, b: seq<Project>, c: Uuid)
    ensures OfClient(a + b, c) == OfClient(a, c) + OfClient(b, c)
  {
    hide IsUuid, OfClient, OfClientHead;
    if a == [] {
      NoClients(c);
      assert a + b == b;
    } else {
      assert a + b == [a[0]] + (a[1..] + b) && a == [a[0]] + a[1..];
      OfClientCons(a[0], a[1..] + b, c);
      OfClientCons(a[0], a[1..], c);
      OfClientConcat(a[1..], b, c);
    }
  }

  lemma NoClients(c: Uuid)
    ensures OfClient([], c) == []
  {
  }

  lemma UnpagedConcat(a: seq<Project>, b: seq<Project>, q: Query)
    ensures Unpaged(a + b, q) == Unpaged(a, q) + Unpaged(b, q)
  {
    hide OfTenant, OfClient, IsUuid;
    OfTenantConcat(a, b, q.tenant);
    if q.client.Some? {
      OfClientConcat(OfTenant(a, q.tenant), OfTenant(b, q.tenant), q.client.value);
    }
  }

  lemma UnpagedOne(p: Project, q: Query)
    ensures Unpaged([p], q) == if Matches(p, q) then [p] else []
  {
    assert [p][1..] == [] && OfTenant([], q.tenant) == [];
    assert OfTenant([p], q.tenant) == if p.tenant == q.tenant then [p] else [];
    if q.client.Some? {
      NoClients(q.client.value);
      OfClientCons(p, [], q.client.value);
      assert [p] + [] == [p];
    }
    hide OfTenant, OfClient, IsUuid;
  }

  lemma {:induction false} UnpagedCounts(db: seq<Project>, q: Query, i: nat)
    requires i <= |db|
    ensures |Unpaged(db[..i], q)| == MatchesBefore(db, q, i)
  {
    hide OfTenant, OfClient, IsUuid;
    if i == 0 {
      NothingUnpaged(q);
    } else {
      UnpagedCounts(db, q, i - 1);
      assert db[..i] == db[..i - 1] + [db[i - 1]];
      UnpagedConcat(db[..i - 1], [db[i - 1]], q);
      UnpagedOne(db[i - 1], q);
      hide Unpaged;
    }
  }

  lemma NothingUnpaged(q: Query)
    ensures Unpaged([], q) == []
  {
  }

  lemma UnpagedAt(db: seq<Project>, q: Query, i: nat)
    requires i < |db| && Matches(db[i], q)
    ensures MatchesBefore(db, q, i) < |Unpaged(db, q)| && Unpaged(db, q)[MatchesBefore(db, q, i)] == db[i]
  {
    UnpagedCounts(db, q, i);
    hide Unpaged, IsUuid;
    assert db == db[..i] + [db[i]] + db[i + 1..];
    UnpagedConcat(db[..i] + [db[i]], db[i + 1..], q);
    UnpagedConcat(db[..i], [db[i]], q);
    UnpagedOne(db[i], q);
  }

  /** Newest first, a page shows exactly the matching rows that have from `offset` to `offset + limit` matching rows before them. */
  lemma PageShows(db: seq<Project>, q: Query, i: nat)
    requires i < |db| && Matches(db[i], q)
    ensures
      var n := MatchesBefore(db, q, i);
      q.offset <= n < q.offset + q.limit ==> n - q.offset < |Ask(db, q)| && Ask(db, q)[n - q.offset] == db[i]
    ensures
      var total := MatchesBefore(db, q, |db|);
      |Ask(db, q)| == (if total <= q.offset then 0 else if total - q.offset <= q.limit then total - q.offset else q.limit)
  {
    UnpagedAt(db, q, i);
    UnpagedCounts(db, q, |db|);
    assert db[..|db|] == db;
    assert Ask(db, q) == Page(Unpaged(db, q), q.offset, q.limit);
    hide OfTenant, OfClient, Unpaged, IsUuid;
  }

  // ------------------------------------------------------------------ writes

  /** What a writer commits.  A created row takes its place in creation order, wherever that is. */
  datatype Change =
    | Created(project: Project, place: nat)
    | Updated(id: nat, patch: Patch)
    | Deleted(id: nat)

  /** What an update request sets; an absent client or status keeps the one there is. */
  datatype Patch = Patch(client: Option<Uuid>, status: Option<Status>, content: string)

  predicate IsRow(p: Project, t: Uuid, id: nat) {
    p.tenant == t && p.id == id
  }

  /** `get_by_id`: ids are primary keys, so the first row is the only one. */
  function FindRow(db: seq<Project>, t: Uuid, id: nat): (i: Option<nat>)
    ensures i.Some? ==> i.value < |db| && IsRow(db[i.value], t, id)
    ensures i.None? ==> forall j :: 0 <= j < |db| ==> !IsRow(db[j], t, id)
  {
    if db == [] then None
    else if IsRow(db[0], t, id) then Some(0)
    else
      match FindRow(db[1..], t, id)
      case Some(i) => Some(i + 1)
      case None => assert forall j :: 0 < j < |db| ==> db[j] == db[1..][j - 1]; None
  }

  predicate CanMove(from: Status, to: Status) {
    match from
    case Active => to != Active
    case OnHold => to == Active || to == Archived
    case Completed => to == Archived
    case Archived => false
  }

  predicate AllowsStatus(p: Project, patch: Patch) {
    patch.status.None? || patch.status.value == p.status || CanMove(p.status, patch.status.value)
  }

  /**
   Update and delete raise, and commit nothing, when the tenant has no such
   project; so does an update whose status the project cannot move to.
   */
  predicate Commits(db: seq<Project>, t: Uuid, c: Change) {
    match c
    case Created(p, place) => p.tenant == t && place <= |db|
    case Updated(id, patch) => FindRow(db, t, id).Some? && AllowsStatus(db[FindRow(db, t, id).value], patch)
    case Deleted(id) => FindRow(db, t, id).Some?
  }

  function Edited(p: Project, patch: Patch): Project {
    p.(client := if patch.client.Some? then patch.client else p.client, status := patch.status.GetOr(p.status),
       content := patch.content)
  }

  function UpdateRows(db: seq<Project>, t: Uuid, id: nat, patch: Patch): seq<Project> {
    if db == [] then []
    else [if IsRow(db[0], t, id) then Edited(db[0], patch) else db[0]] + UpdateRows(db[1..], t, id, patch)
  }

  function DeleteRows(db: seq<Project>, t: Uuid, id: nat): seq<Project> {
    if db == [] then []
    else (if IsRow(db[0], t, id) then [] else [db[0]]) + DeleteRows(db[1..], t, id)
  }

  function Changed(db: seq<Project>, t: Uuid, c: Change): seq<Project>
    requires Commits(db, t, c)
  {
    match c
    case Created(p, place) => db[..place] + [p] + db[place..]
    case Updated(id, patch) => UpdateRows(db, t, id, patch)
    case Deleted(id) => DeleteRows(db, t, id)
  }

  /** An update edits exactly the tenant's row of that id, in place: client and status only if they are given. */
  lemma {:induction false} UpdateIsPointwise(db: seq<Project>, t: Uuid, id: nat, patch: Patch)
    ensures
      var after := UpdateRows(db, t, id, patch);
      && |after| == |db|
      && forall i :: 0 <= i < |db| ==>
           after[i] ==
             if db[i].tenant == t && db[i].id == id then
               db[i].(client := if patch.client.Some? then patch.client else db[i].client,
                      status := if patch.status.Some? then patch.status.value else db[i].status, content := patch.content)
             else db[i]
  {
    hide IsUuid;
    if db == [] {
    } else {
      UpdateIsPointwise(db[1..], t, id, patch);
    }
  }

  /** A deletion drops exactly the tenant's row of that id. */
  lemma {:induction false} DeleteIsExact(db: seq<Project>, t: Uuid, id: nat)
    ensures forall p :: p in DeleteRows(db, t, id) <==> p in db && !(p.tenant == t && p.id == id)
  {
    hide IsUuid;
    if db == [] {
    } else {
      DeleteIsExact(db[1..], t, id);
      assert forall p :: p in db <==> p == db[0] || p in db[1..];
    }
  }

  lemma DeleteCons(p: Project, rows: seq<Project>, t: Uuid, id: nat)
    ensures DeleteRows([p] + rows, t, id) == if p.tenant == t && p.id == id then DeleteRows(rows, t, id) else [p] + DeleteRows(rows, t, id)
  {
    hide IsUuid;
    assert ([p] + rows)[1..] == rows;
    assert [] + DeleteRows(rows, t, id) == DeleteRows(rows, t, id);
  }

  predicate NoneHas(rows: seq<Project>, t: Uuid, id: nat) {
    forall i :: 0 <= i < |rows| ==> !(rows[i].tenant == t && rows[i].id == id)
  }

  /** The rows above and below the deleted one stay as they are and in their order. */
  lemma {:induction false} DeleteCuts(above: seq<Project>, p: Project, below: seq<Project>)
    requires NoneHas(above, p.tenant, p.id) && NoneHas(below, p.tenant, p.id)
    ensures DeleteRows(above + [p] + below, p.tenant, p.id) == above + below
  {
    hide IsUuid, DeleteRows;
    if above == [] {
      assert above + [p] + below == [p] + below && above + below == below;
      DeleteCons(p, below, p.tenant, p.id);
      NothingDeleted(below, p.tenant, p.id);
    } else {
      DeleteCuts(above[1..], p, below);
      DeleteCons(above[0], above[1..] + [p] + below, p.tenant, p.id);
      assert above + [p] + below == [above[0]] + (above[1..] + [p] + below);
      assert above + below == [above[0]] + (above[1..] + below);
    }
  }

  lemma {:induction false} NothingDeleted(db: seq<Project>, t: Uuid, id: nat)
    requires NoneHas(db, t, id)
    ensures DeleteRows(db, t, id) == db
  {
    hide IsUuid;
    if db == [] {
    } else {
      NothingDeleted(db[1..], t, id);
      DeleteCons(db[0], db[1..], t, id);
      assert db == [db[0]] + db[1..];
    }
  }

  /** When a writer commits: creation always, deletion and update of a known row, and an update only along the project's transitions. */
  lemma CommitsIff(db: seq<Project>, t: Uuid, id: nat, patch: Patch)
    ensures Commits(db, t, Deleted(id)) <==> exists i :: 0 <= i < |db| && db[i].tenant == t && db[i].id == id
    ensures Commits(db, t, Updated(id, patch)) <==>
      exists i ::
        && 0 <= i < |db| && db[i].tenant == t && db[i].id == id
        && (forall j :: 0 <= j < i ==> !(db[j].tenant == t && db[j].id == id))
        && (patch.status.Some? ==>
              (db[i].status, patch.status.value) !in
                {(OnHold, Completed), (Completed, Active), (Completed, OnHold),
                 (Archived, Active), (Archived, OnHold), (Archived, Completed)})
  {
    hide IsUuid;
    FirstRowFound(db, t, id);
    hide FindRow;
    if FindRow(db, t, id).Some? {
      var i := FindRow(db, t, id).value;
      assert db[i].tenant == t && db[i].id == id;
    }
  }

  lemma {:induction false} FirstRowFound(db: seq<Project>, t: Uuid, id: nat)
    ensures FindRow(db, t, id).Some? ==> forall j :: 0 <= j < FindRow(db, t, id).value ==> !(db[j].tenant == t && db[j].id == id)
  {
    hide IsUuid;
    if db == [] || IsRow(db[0], t, id) {
    } else {
      FirstRowFound(db[1..], t, id);
      assert forall j :: 0 < j < |db| ==> db[j] == db[1..][j - 1];
    }
  }

  lemma {:induction false} UpdateKeepsOthers(db: seq<Project>, t: Uuid, id: nat, patch: Patch, u: Uuid)
    requires u != t
    ensures OfTenant(UpdateRows(db, t, id, patch), u) == OfTenant(db, u)
  {
    hide IsUuid;
    if db == [] {
    } else {
      UpdateKeepsOthers(db[1..], t, id, patch, u);
      var after := UpdateRows(db, t, id, patch);
      assert after[1..] == UpdateRows(db[1..], t, id, patch);
    }
  }

  lemma {:induction false} DeleteKeepsOthers(db: seq<Project>, t: Uuid, id: nat, u: Uuid)
    requires u != t
    ensures OfTenant(DeleteRows(db, t, id), u) == OfTenant(db, u)
  {
    hide IsUuid;
    if db == [] {
    } else {
      DeleteKeepsOthers(db[1..], t, id, u);
      var rest := DeleteRows(db[1..], t, id);
      if !IsRow(db[0], t, id) {
        assert DeleteRows(db, t, id)[1..] == rest;
      } else {
        assert [] + rest == rest;
      }
    }
  }

  lemma InsertKeepsOthers(db: seq<Project>, p: Project, place: nat, u: Uuid)
    requires place <= |db| && p.tenant != u
    ensures OfTenant(db[..place] + [p] + db[place..], u) == OfTenant(db, u)
  {
    hide IsUuid;
    var above, below := db[..place], db[place..];
    OfTenantConcat(above + [p], below, u);
    OfTenantConcat(above, [p], u);
    OfTenantConcat(above, below, u);
    assert OfTenant([p], u) == [];
    assert above + below == db;
  }

  /** A commit of one tenant changes no answer of another. */
  lemma CommitKeepsOtherAnswers(db: seq<Project>, t: Uuid, c: Change, q: Query)
    requires Commits(db, t, c) && q.tenant != t
    ensures Ask(Changed(db, t, c), q) == Ask(db, q)
  {
    var u := q.tenant;
    hide Page, OfTenant;
    match c
    case Created(p, place) => InsertKeepsOthers(db, p, place, u);
    case Updated(id, patch) => UpdateKeepsOthers(db, t, id, patch, u);
    case Deleted(id) => DeleteKeepsOthers(db, t, id, u);
  }

  // -------------------------------------------------------------------- keys

  function ClientText(client: Option<Uuid>): string {
    if client.Some? then client.value else "None"
  }

  function KeyOf(q: Query): string {
    "projects:" + q.tenant + ":" + Decimal(q.offset) + ":" + Decimal(q.limit) + ":" + ClientText(q.client)
  }

  function PatternOf(t: Uuid): string {
    "projects:" + t + ":*"
  }

  /** Redis glob matching of literals, `?` and `*`. */
  predicate Glob(pattern: string, s: string)
    decreases |pattern| + |s|
  {
    if pattern == [] then s == []
    else if pattern[0] == '*' then Glob(pattern[1..], s) || (s != [] && Glob(pattern, s[1..]))
    else s != [] && (pattern[0] == '?' || pattern[0] == s[0]) && Glob(pattern[1..], s[1..])
  }

  predicate IsLiteral(s: string) {
    forall i :: 0 <= i < |s| ==> s[i] != '*' && s[i] != '?'
  }

  lemma {:induction false} StarMatchesAll(s: string)
    ensures Glob("*", s)
  {
    if s != [] {
      StarMatchesAll(s[1..]);
    } else {
      assert "*"[1..] == [];
    }
  }

  /** A literal followed by a star matches exactly the texts that start with the literal. */
  lemma {:induction false} GlobIsPrefix(literal: string, s: string)
    requires IsLiteral(literal)
    ensures Glob(literal + "*", s) <==> literal <= s
  {
    if literal == [] {
      assert literal + "*" == "*";
      StarMatchesAll(s);
    } else {
      assert (literal + "*")[1..] == literal[1..] + "*";
      if s != [] {
        GlobIsPrefix(literal[1..], s[1..]);
        assert literal <= s <==> literal[0] == s[0] && literal[1..] <= s[1..];
      }
    }
  }

  lemma UuidIsLiteral(t: Uuid)
    ensures IsLiteral(t) && ColonFree(t)
  {
    assert forall i :: 0 <= i < |t| ==> IsUuidChar(t[i]);
  }

  function Rest(q: Query): string {
    Decimal(q.offset) + ":" + (Decimal(q.limit) + ":" + ClientText(q.client))
  }

  lemma KeyParts(q: Query)
    ensures KeyOf(q) == "projects:" + (q.tenant + ":" + Rest(q))
  {
  }

  /** Invalidating a tenant's pattern reaches exactly that tenant's lists. */
  lemma PatternIsTenant(t: Uuid, q: Query)
    ensures Glob(PatternOf(t), KeyOf(q)) <==> q.tenant == t
  {
    var literal := "projects:" + t + ":";
    UuidIsLiteral(t);
    assert IsLiteral("projects:");
    assert PatternOf(t) == literal + "*";
    GlobIsPrefix(literal, KeyOf(q));
    KeyParts(q);
    hide Glob, Rest, KeyOf;
    var key := KeyOf(q);
    assert key[9..45] == q.tenant && key[45] == ':';
    assert literal[9..45] == t;
    if q.tenant == t {
      assert key == literal + Rest(q);
    }
  }

  /** Different queries never share a cache key. */
  lemma KeyIsInjective(q: Query, r: Query)
    ensures KeyOf(q) == KeyOf(r) <==> q == r
  {
    if KeyOf(q) == KeyOf(r) {
      KeyParts(q);
      KeyParts(r);
      assert KeyOf(q)[9..] == q.tenant + ":" + Rest(q) && KeyOf(r)[9..] == r.tenant + ":" + Rest(r);
      UuidIsLiteral(q.tenant);
      UuidIsLiteral(r.tenant);
      JoinIsInjective(q.tenant, Rest(q), r.tenant, Rest(r));
      RestIsInjective(q, r);
    }
  }

  lemma RestIsInjective(q: Query, r: Query)
    requires Rest(q) == Rest(r)
    ensures q.offset == r.offset && q.limit == r.limit && q.client == r.client
  {
    DecimalIsColonFree(q.offset);
    DecimalIsColonFree(r.offset);
    DecimalIsColonFree(q.limit);
    DecimalIsColonFree(r.limit);
    JoinIsInjective(Decimal(q.offset), Decimal(q.limit) + ":" + ClientText(q.client),
                    Decimal(r.offset), Decimal(r.limit) + ":" + ClientText(r.client));
    JoinIsInjective(Decimal(q.limit), ClientText(q.client), Decimal(r.limit), ClientText(r.client));
    DecimalIsInjective(q.offset, r.offset);
    DecimalIsInjective(q.limit, r.limit);
    assert |"None"| == 4;
  }
}
