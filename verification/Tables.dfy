/**
 The tables a project tree lives in, and the single SQL statements that read
 and write them. Folders and requests have the columns the tree logic touches
 in common, so one row type serves both: `parent` is `folders.parent_id` for a
 folder and `requests.folder_id` for a request. `settings` stands for the
 columns no statement here looks at (name, auth, scripts, headers, body).
 */
module Tables {
  import opened Common

  datatype ProxyMode = Inherit | Global | Direct | ViaProxy

  datatype Node = Node(
    project: Id,
    parent: Option<Id>,
    sortOrder: Int32,
    createdAt: int,
    proxyMode: ProxyMode,
    proxyId: Option<Id>,
    settings: string)

  type Table = map<Id, Node>

  datatype Kind = FolderKind | RequestKind

  /** `proxies` maps each proxy to its project. */
  datatype Db = Db(projects: set<Id>, folders: Table, requests: Table, proxies: map<Id, Id>) {
    function Rows(kind: Kind): Table {
      if kind.FolderKind? then folders else requests
    }

    function WithRows(kind: Kind, rows: Table): Db {
      if kind.FolderKind? then this.(folders := rows) else this.(requests := rows)
    }
  }

  datatype Fault =
    | NotFound                   // pgx.ErrNoRows
    | InvalidTarget              // ErrInvalidParentFolder, ErrInvalidRequestFolder, errProxyNotInProject
    | FolderCycle                // ErrFolderCycle
    | BadList                    // checkSameIDSet's veto
    | ForeignKey(to: Reference)  // SQLSTATE 23503, not mapped by the caller
    | OutOfRange                 // integer out of range

  /** Which foreign key was broken: the constraint name of the error. */
  datatype Reference = ToProject | ToParent | ToProxy

  // ---------------------------------------------------------------- queries

  /** The rows that share a project and a parent. */
  function Siblings(t: Table, project: Id, parent: Option<Id>): set<Id> {
    set i | i in t && t[i].project == project && t[i].parent == parent
  }

  /** `requireFolderInProject`; a nil target is not looked up. */
  predicate TargetInProject(db: Db, target: Option<Id>, project: Id) {
    target.Some? ==> target.value in db.folders && db.folders[target.value].project == project
  }

  /** `requireProxyInProject` for a patch that names a proxy. */
  predicate ProxyInProject(db: Db, proxy: Id, project: Id) {
    proxy in db.proxies && db.proxies[proxy] == project
  }

  ghost predicate IsMaxOrder(t: Table, ids: set<Id>, m: Int32) {
    && (exists i :: i in ids && i in t && t[i].sortOrder == m)
    && forall i :: i in ids && i in t ==> t[i].sortOrder <= m
  }

  /** `COALESCE(MAX(sort_order) + 1, 0)::int`: an error when the maximum is already the largest int32. */
  ghost predicate NextOrder(t: Table, ids: set<Id>, r: Result<Int32, Fault>) {
    if ids == {} then r == Ok(0)
    else exists m :: IsMaxOrder(t, ids, m) &&
                     r == if m == MAX_INT32 then Err(OutOfRange) else Ok(m + 1)
  }

  /** The query has exactly one answer. */
  lemma NextOrderUnique(t: Table, ids: set<Id>, r: Result<Int32, Fault>, r': Result<Int32, Fault>)
    requires NextOrder(t, ids, r) && NextOrder(t, ids, r')
    ensures r == r'
  {
    if ids != {} {
      var m :| IsMaxOrder(t, ids, m) && r == if m == MAX_INT32 then Err(OutOfRange) else Ok(m + 1);
      var m' :| IsMaxOrder(t, ids, m') && r' == if m' == MAX_INT32 then Err(OutOfRange) else Ok(m' + 1);
      assert m == m';
    }
  }

  /** Computes the position after the last sibling by scanning the group. */
  method SelectNextOrder(t: Table, ids: set<Id>) returns (r: Result<Int32, Fault>)
    requires ids <= t.Keys
    ensures NextOrder(t, ids, r)
  {
    if ids == {} {
      return Ok(0);
    }
    var first :| first in ids;
    var best, seen := t[first].sortOrder, {first};
    while seen != ids
      invariant seen <= ids
      invariant IsMaxOrder(t, seen, best)
      decreases ids - seen
    {
      assert ids - seen != {};
      var i :| i in ids - seen;
      if t[i].sortOrder > best {
        best := t[i].sortOrder;
        assert i in seen + {i};
      }
      seen := seen + {i};
    }
    r := if best == MAX_INT32 then Err(OutOfRange) else Ok(best + 1);
  }

  ghost function NextOrderOf(t: Table, ids: set<Id>): (r: Result<Int32, Fault>)
    requires ids <= t.Keys
    ensures NextOrder(t, ids, r)
  {
    NextOrderExists(t, ids);
    var r :| NextOrder(t, ids, r);
    r
  }

  lemma {:induction false} NextOrderExists(t: Table, ids: set<Id>)
    requires ids <= t.Keys
    ensures exists r :: NextOrder(t, ids, r)
    decreases ids
  {
    if ids == {} {
      assert NextOrder(t, ids, Ok(0));
    } else {
      var m := MaxOrderExists(t, ids);
      assert NextOrder(t, ids, if m == MAX_INT32 then Err(OutOfRange) else Ok(m + 1));
    }
  }

  lemma {:induction false} MaxOrderExists(t: Table, ids: set<Id>) returns (m: Int32)
    requires ids <= t.Keys && ids != {}
    ensures IsMaxOrder(t, ids, m)
    decreases ids
  {
    var i :| i in ids;
    m := t[i].sortOrder;
    if ids != {i} {
      assert ids == {i} + (ids - {i});
      var rest := MaxOrderExists(t, ids - {i});
      var k :| k in ids - {i} && t[k].sortOrder == rest;
      if rest > m {
        m := rest;
        assert k in ids;
      }
    }
  }

  // ------------------------------------------------------------- statements

  /**
   The write of `CreateFolder` / `CreateRequest` at a position already read.
   Fails on a missing project or parent row; the project's key was declared
   first and is checked first.
   */
  function InsertAt(
    db: Db, kind: Kind, id: Id, project: Id, parent: Option<Id>, order: Int32, createdAt: int, settings: string)
    : Result<Db, Fault>
  {
    if project !in db.projects then Err(ForeignKey(ToProject))
    else if parent.Some? && parent.value !in db.folders then Err(ForeignKey(ToParent))
    else
      var node := Node(project, parent, order, createdAt, Inherit, None, settings);
      Ok(db.WithRows(kind, db.Rows(kind)[id := node]))
  }

  /** The whole statement with nothing in between: read the position after the siblings, then write. */
  ghost function Insert(
    db: Db, kind: Kind, id: Id, project: Id, parent: Option<Id>, createdAt: int, settings: string): Result<Db, Fault>
  {
    match NextOrderOf(db.Rows(kind), Siblings(db.Rows(kind), project, parent))
    case Err(e) => Err(e)
    case Ok(order) => InsertAt(db, kind, id, project, parent, order, createdAt, settings)
  }

  /**
   `UpdateFolderParent` / `UpdateRequestFolder`: re-parent a row; without an
   explicit position it goes after its new siblings, itself not counted.
   */
  ghost function Reparent(db: Db, kind: Kind, id: Id, parent: Option<Id>, order: Option<Int32>): Result<Db, Fault> {
    var t := db.Rows(kind);
    if id !in t then Err(NotFound)
    else
      match (if order.Some? then Ok(order.value) else NextOrderOf(t, Siblings(t, t[id].project, parent) - {id}))
      case Err(e) => Err(e)
      case Ok(position) =>
        if parent.Some? && parent.value !in db.folders then Err(ForeignKey(ToParent))
        else Ok(db.WithRows(kind, t[id := t[id].(parent := parent, sortOrder := position)]))
  }

  /** Position of the first occurrence of `id`. */
  function IndexOf(ids: seq<Id>, id: Id): (i: nat)
    requires id in ids
    ensures i < |ids| && ids[i] == id
    ensures id !in ids[..i]
  {
    if ids[0] == id then 0 else
      var i := 1 + IndexOf(ids[1..], id);
      assert ids[..i] == [ids[0]] + ids[1..][..i - 1];
      i
  }

  /** First position `WITH ORDINALITY` yields after the statement's own offset: 1 for folders, 0 for requests. */
  function Base(kind: Kind): nat {
    if kind.FolderKind? then 1 else 0
  }

  /** `BulkUpdateFolderOrder` / `BulkUpdateRequestOrder`: position in the list becomes sort_order within one group. */
  function BulkOrder(t: Table, kind: Kind, project: Id, parent: Option<Id>, ids: seq<Id>): (r: Table)
    requires Base(kind) + |ids| <= MAX_INT32 + 1
    ensures r.Keys == t.Keys
  {
    map i | i in t ::
      if i in ids && t[i].project == project && t[i].parent == parent
      then t[i].(sortOrder := Base(kind) + IndexOf(ids, i))
      else t[i]
  }

  /** A validated proxy patch: `parseProxyPatch` lets an id through only with mode `proxy`, and requires it there. */
  datatype ProxyPatch = ProxyPatch(mode: ProxyMode, proxyId: Option<Id>) {
    predicate Valid() {
      mode.ViaProxy? <==> proxyId.Some?
    }
  }

  /** The proxy columns of `UpdateFolder` / `UpdateRequest`; the foreign key refuses a proxy that is gone. */
  function SetProxy(db: Db, kind: Kind, id: Id, patch: ProxyPatch): Result<Db, Fault> {
    var t := db.Rows(kind);
    if id !in t then Err(NotFound)
    else if patch.proxyId.Some? && patch.proxyId.value !in db.proxies then Err(ForeignKey(ToProxy))
    else Ok(db.WithRows(kind, t[id := t[id].(proxyMode := patch.mode, proxyId := patch.proxyId)]))
  }

  /** `DeleteProxy`: ON DELETE SET NULL on both node tables, the mode stays. */
  function ForgetProxy(t: Table, proxy: Id): (r: Table)
    ensures r.Keys == t.Keys
  {
    map i | i in t :: if t[i].proxyId == Some(proxy) then t[i].(proxyId := None) else t[i]
  }

  function DeleteProxy(db: Db, proxy: Id): Db {
    db.(folders := ForgetProxy(db.folders, proxy),
        requests := ForgetProxy(db.requests, proxy),
        proxies := db.proxies - {proxy})
  }

  function OutsideProject(t: Table, project: Id): Table {
    map i | i in t && t[i].project != project :: t[i]
  }

  /** `DeleteProject`: ON DELETE CASCADE on the three tables that reference it. */
  function DeleteProject(db: Db, project: Id): Db {
    Db(db.projects - {project},
       OutsideProject(db.folders, project),
       OutsideProject(db.requests, project),
       map q | q in db.proxies && db.proxies[q] != project :: db.proxies[q])
  }
}
