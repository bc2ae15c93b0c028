/**
 Every operation on a project tree as a transaction with a program counter,
 interleaved freely. One step runs one statement on the committed tables; the
 last write and the commit are one step. A statement that appends a row takes
 two: it reads the position, then writes. Moves and reorders hold the project
 lock from `LockProject` to commit; creates, deletes and proxy updates take no
 lock and rely on the foreign keys when they write.
 */
module Interleaving {
  import opened Common
  import opened Tables
  import opened Tree

  type TxId = nat

  datatype Call =
    | Move(kind: Kind, id: Id, target: Option<Id>, order: Option<Int32>)
    | Reorder(kind: Kind, project: Id, target: Option<Id>, ids: seq<Id>)
    | Create(kind: Kind, project: Id, target: Option<Id>, settings: string)
    | Patch(kind: Kind, id: Id, patch: ProxyPatch)

  /** The last statement a transaction has run, with the project id it read. */
  datatype Pc =
    | Started
    | Seen(project: Id)
    | Locked(project: Id)
    | Checked(project: Id)
    | Walked(project: Id)
    | Placed(project: Id, order: Int32)
    | Listed(project: Id)
    | Finished(fault: Option<Fault>)

  datatype Txn = Txn(call: Call, pc: Pc)

  /** `issued` holds every id ever handed out: gen_random_uuid() never repeats one. */
  datatype State = State(db: Db, issued: set<Id>, locks: Locks, txns: map<TxId, Txn>)

  datatype Action =
    | Begin(t: TxId, call: Call)
    | Advance(t: TxId, newId: Id, now: int)
    | Delete(kind: Kind, id: Id)
    | CreateProxy(proxy: Id, owner: Id)
    | DropProxy(proxy: Id)
    | CreateProject(project: Id)
    | DropProject(project: Id)

  const INITIAL := State(Db({}, map[], map[], map[]), {}, map[], map[])

  // ------------------------------------------------------------------ steps

  function Goto(s: State, t: TxId, pc: Pc): State
    requires t in s.txns
  {
    s.(txns := s.txns[t := s.txns[t].(pc := pc)])
  }

  /** Commit with the new tables, or roll back; either way the lock goes. */
  function Finish(s: State, t: TxId, r: Result<Db, Fault>): State
    requires t in s.txns
  {
    var pc := Finished(if r.Ok? then None else Some(r.error));
    Goto(s, t, pc).(db := if r.Ok? then r.value else s.db, locks := Release(s.locks, t))
  }

  /** `LockProject`: stays where it is while another transaction holds the lock. */
  function TakeLock(s: State, t: TxId, project: Id): State
    requires t in s.txns
  {
    match Acquire(s.db.projects, s.locks, project, t)
    case None => s
    case Some(locks) => Goto(s, t, Locked(project)).(locks := locks)
  }

  /**
   A parent or proxy that went away before the write is reported as a bad
   target, except by `MoveFolder`; a project that went away is not mapped.
   */
  function MapForeignKey(call: Call, r: Result<Db, Fault>): Result<Db, Fault> {
    if r.Err? && r.error.ForeignKey? && !r.error.to.ToProject? && !(call.Move? && call.kind.FolderKind?)
    then Err(InvalidTarget) else r
  }

  /**
   The snapshot of the writing statement: it reads the position, and whatever
   commits from here to the write is not seen by it.
   */
  function Place(s: State, t: TxId, position: Result<Int32, Fault>): State
    requires t in s.txns && !s.txns[t].pc.Started? && !s.txns[t].pc.Finished?
  {
    match position
    case Err(e) => Finish(s, t, Err(e))
    case Ok(order) => Goto(s, t, Placed(s.txns[t].pc.project, order))
  }

  ghost function AdvanceMove(s: State, t: TxId, c: Call, pc: Pc): State
    requires t in s.txns && c.Move? && pc == s.txns[t].pc
  {
    var rows := s.db.Rows(c.kind);
    match pc
    case Started => if c.id in rows then Goto(s, t, Seen(rows[c.id].project)) else Finish(s, t, Err(NotFound))
    case Seen(project) => TakeLock(s, t, project)
    case Locked(project) =>
      if TargetInProject(s.db, c.target, project) then Goto(s, t, Checked(project))
      else Finish(s, t, Err(InvalidTarget))
    case Checked(project) =>
      if c.kind.FolderKind? && c.target.Some? && Descends(s.db.folders, c.target.value, c.id)
      then Finish(s, t, Err(FolderCycle)) else Goto(s, t, Walked(project))
    case Walked(_) =>
      if c.id !in rows then Finish(s, t, Err(NotFound))
      else Place(s, t, if c.order.Some? then Ok(c.order.value)
                       else NextOrderOf(rows, Siblings(rows, rows[c.id].project, c.target) - {c.id}))
    case Placed(_, order) => Finish(s, t, MapForeignKey(c, Reparent(s.db, c.kind, c.id, c.target, Some(order))))
    case _ => s
  }

  ghost function AdvanceReorder(s: State, t: TxId, c: Call, pc: Pc): State
    requires t in s.txns && c.Reorder?
  {
    var rows := s.db.Rows(c.kind);
    match pc
    case Started => if c.project in s.db.projects then Goto(s, t, Seen(c.project)) else Finish(s, t, Err(NotFound))
    case Seen(project) => TakeLock(s, t, project)
    case Locked(project) =>
      if TargetInProject(s.db, c.target, project) then Goto(s, t, Checked(project))
      else Finish(s, t, Err(InvalidTarget))
    case Checked(project) =>
      if NoDuplicates(c.ids) && Elements(c.ids) == Siblings(rows, project, c.target)
      then Goto(s, t, Listed(project)) else Finish(s, t, Err(BadList))
    case Listed(project) =>
      Finish(s, t, if Base(c.kind) + |c.ids| <= MAX_INT32 + 1
                   then Ok(s.db.WithRows(c.kind, BulkOrder(rows, c.kind, project, c.target, c.ids)))
                   else Err(OutOfRange))
    case _ => s
  }

  ghost function AdvanceCreate(s: State, t: TxId, c: Call, pc: Pc, newId: Id, now: int): State
    requires t in s.txns && c.Create? && pc == s.txns[t].pc
  {
    match pc
    case Started => if c.project in s.db.projects then Goto(s, t, Seen(c.project)) else Finish(s, t, Err(NotFound))
    case Seen(project) =>
      if TargetInProject(s.db, c.target, project) then Goto(s, t, Checked(project))
      else Finish(s, t, Err(InvalidTarget))
    case Checked(project) =>
      Place(s, t, NextOrderOf(s.db.Rows(c.kind), Siblings(s.db.Rows(c.kind), project, c.target)))
    case Placed(project, order) =>
      if newId in s.issued then s
      else Finish(s, t, MapForeignKey(c, InsertAt(s.db, c.kind, newId, project, c.target, order, now, c.settings)))
           .(issued := s.issued + {newId})
    case _ => s
  }

  ghost function AdvancePatch(s: State, t: TxId, c: Call, pc: Pc): State
    requires t in s.txns && c.Patch?
  {
    var rows := s.db.Rows(c.kind);
    match pc
    case Started => if c.id in rows then Goto(s, t, Seen(rows[c.id].project)) else Finish(s, t, Err(NotFound))
    case Seen(project) =>
      if c.patch.proxyId.Some? && !ProxyInProject(s.db, c.patch.proxyId.value, project)
      then Finish(s, t, Err(InvalidTarget)) else Goto(s, t, Checked(project))
    case Checked(_) => Finish(s, t, MapForeignKey(c, SetProxy(s.db, c.kind, c.id, c.patch)))
    case _ => s
  }

  /** Rows a reorder has selected FOR UPDATE and not yet released. */
  ghost predicate RowLocked(s: State, kind: Kind, id: Id) {
    exists t :: t in s.txns && s.txns[t].pc.Listed? && s.txns[t].call.Reorder? &&
                s.txns[t].call.kind == kind && id in s.txns[t].call.ids
  }

  ghost predicate DeleteWaits(s: State, kind: Kind, id: Id) {
    var after := DeleteNode(s.db, kind, id);
    exists k, i :: i in s.db.Rows(k) && i !in after.Rows(k) && RowLocked(s, k, i)
  }

  /** One step; an action that cannot run now changes nothing. */
  ghost function Step(s: State, a: Action): State {
    match a
    case Begin(t, call) =>
      if t in s.txns || (call.Patch? && !call.patch.Valid()) then s
      else s.(txns := s.txns[t := Txn(call, Started)])
    case Advance(t, newId, now) =>
      if t !in s.txns then s else
        var c, pc := s.txns[t].call, s.txns[t].pc;
        (match c
         case Move(_, _, _, _) => AdvanceMove(s, t, c, pc)
         case Reorder(_, _, _, _) => AdvanceReorder(s, t, c, pc)
         case Create(_, _, _, _) => AdvanceCreate(s, t, c, pc, newId, now)
         case Patch(_, _, _) => AdvancePatch(s, t, c, pc))
    case Delete(kind, id) => if DeleteWaits(s, kind, id) then s else s.(db := DeleteNode(s.db, kind, id))
    case CreateProxy(proxy, owner) =>
      if proxy in s.issued || owner !in s.db.projects then s
      else s.(db := s.db.(proxies := s.db.proxies[proxy := owner]), issued := s.issued + {proxy})
    case DropProxy(proxy) => s.(db := DeleteProxy(s.db, proxy))
    case CreateProject(project) =>
      if project in s.issued then s
      else s.(db := s.db.(projects := s.db.projects + {project}), issued := s.issued + {project})
    case DropProject(project) =>
      if project in s.locks then s else s.(db := DeleteProject(s.db, project))
  }

  ghost function Run(s: State, actions: seq<Action>): State
    decreases |actions|
  {
    if actions == [] then s else Run(Step(s, actions[0]), actions[1..])
  }

  // -------------------------------------------------------------- invariant

  /** Every reference is live and inside the row's own project; a proxy id comes only with mode `proxy`. */
  ghost predicate NodeOk(db: Db, n: Node) {
    && n.project in db.projects
    && (n.parent.Some? ==> n.parent.value in db.folders && db.folders[n.parent.value].project == n.project)
    && (n.proxyId.Some? ==>
          n.proxyMode.ViaProxy? && n.proxyId.value in db.proxies && db.proxies[n.proxyId.value] == n.project)
  }

  ghost predicate DbOk(db: Db) {
    && (forall kind, i :: i in db.Rows(kind) ==> NodeOk(db, db.Rows(kind)[i]))
    && (forall q :: q in db.proxies ==> db.proxies[q] in db.projects)
  }

  ghost predicate AllIssued(s: State) {
    s.db.projects + s.db.folders.Keys + s.db.requests.Keys + s.db.proxies.Keys <= s.issued
  }

  ghost predicate HoldsLock(s: State, t: TxId, project: Id) {
    project in s.db.projects ==> project in s.locks && s.locks[project] == t
  }

  /** The row a call is about: if it still exists, it is in the project first read. */
  ghost predicate SubjectOk(s: State, c: Call, project: Id) {
    && project in s.issued
    && (c.Move? || c.Patch? ==>
          c.id in s.issued && (c.id in s.db.Rows(c.kind) ==> s.db.Rows(c.kind)[c.id].project == project))
    && (c.Reorder? || c.Create? ==> c.project == project)
  }

  /** The row a call refers to: if it still exists, it is in that project too. */
  ghost predicate TargetOk(s: State, c: Call, project: Id) {
    if c.Patch? then
      c.patch.proxyId.Some? ==>
        c.patch.proxyId.value in s.issued &&
        (c.patch.proxyId.value in s.db.proxies ==> s.db.proxies[c.patch.proxyId.value] == project)
    else
      c.target.Some? ==>
        c.target.value in s.issued &&
        (c.target.value in s.db.folders ==> s.db.folders[c.target.value].project == project)
  }

  /** A finished ancestor walk is still right. */
  ghost predicate WalkOk(s: State, c: Call) {
    c.Move? && c.kind.FolderKind? && c.target.Some? ==> !Descends(s.db.folders, c.target.value, c.id)
  }

  /** The rows of an accepted reorder are still in the group. */
  ghost predicate ListOk(s: State, c: Call, project: Id) {
    c.Reorder? && NoDuplicates(c.ids) && Elements(c.ids) <= Siblings(s.db.Rows(c.kind), project, c.target)
  }

  predicate Guarded(x: Txn) {
    (x.call.Move? || x.call.Reorder?) &&
    (x.pc.Locked? || x.pc.Checked? || x.pc.Walked? || x.pc.Placed? || x.pc.Listed?)
  }

  ghost predicate TxnOk(s: State, t: TxId)
    requires t in s.txns
  {
    var x := s.txns[t];
    && (x.call.Patch? ==> x.call.patch.Valid())
    && (!x.pc.Started? && !x.pc.Finished? ==> SubjectOk(s, x.call, x.pc.project))
    && (Guarded(x) ==> HoldsLock(s, t, x.pc.project))
    && (x.pc.Checked? || x.pc.Walked? || x.pc.Placed? || x.pc.Listed? ==> TargetOk(s, x.call, x.pc.project))
    && (x.pc.Walked? || x.pc.Placed? ==> WalkOk(s, x.call))
    && (x.pc.Listed? ==> ListOk(s, x.call, x.pc.project))
  }

  ghost predicate Inv(s: State) {
    && DbOk(s.db)
    && Acyclic(s.db.folders)
    && AllIssued(s)
    && forall t :: t in s.txns ==> TxnOk(s, t)
  }

  // ---------------------------------- what a step leaves alone for the others

  ghost predicate TableStable(t: Table, t': Table, issued: set<Id>) {
    forall i :: i in t' && i in issued ==> i in t && t'[i].project == t[i].project
  }

  /** No known id comes back to life, and no row changes project. */
  ghost predicate IdsStable(db: Db, db': Db, issued: set<Id>) {
    && TableStable(db.folders, db'.folders, issued)
    && TableStable(db.requests, db'.requests, issued)
    && (forall q :: q in db'.proxies && q in issued ==> q in db.proxies && db'.proxies[q] == db.proxies[q])
    && (forall p :: p in db'.projects && p in issued ==> p in db.projects)
  }

  ghost predicate TableParentsKept(t: Table, t': Table, project: Id) {
    forall i :: i in t && i in t' && t[i].project == project ==> t'[i].parent == t[i].parent
  }

  /** The surviving rows of one project keep their parents. */
  ghost predicate ParentsKept(db: Db, db': Db, project: Id) {
    TableParentsKept(db.folders, db'.folders, project) && TableParentsKept(db.requests, db'.requests, project)
  }

  ghost predicate AllParentsKept(db: Db, db': Db) {
    && (forall i :: i in db.folders && i in db'.folders ==> db'.folders[i].parent == db.folders[i].parent)
    && (forall i :: i in db.requests && i in db'.requests ==> db'.requests[i].parent == db.requests[i].parent)
  }

  ghost predicate AllRowsKept(db: Db, db': Db) {
    db.folders.Keys <= db'.folders.Keys && db.requests.Keys <= db'.requests.Keys
  }

  ghost predicate RowsKept(db: Db, db': Db, kind: Kind, ids: seq<Id>) {
    forall i :: i in ids && i in db.Rows(kind) ==> i in db'.Rows(kind)
  }

  lemma {:induction false} ClimbBack(db: Db, db': Db, issued: set<Id>, project: Id, p: Id, x: Id, n: nat)
    requires DbOk(db) && db.folders.Keys <= issued
    requires IdsStable(db, db', issued) && ParentsKept(db, db', project)
    requires p in issued && Climbs(db'.folders, p, x, n)
    requires p in db.folders ==> db.folders[p].project == project
    ensures Climbs(db.folders, p, x, n)
    decreases n
  {
    assert p in db.folders;
    if n > 0 {
      var q := db'.folders[p].parent.value;
      assert db.folders[p].parent == Some(q);
      assert NodeOk(db, db.Rows(FolderKind)[p]);
      ClimbBack(db, db', issued, project, q, x, n - 1);
    }
  }

  /** A transaction that did not act keeps its assertion under any step with these effects. */
  lemma TxnStable(s: State, s': State, u: TxId)
    requires DbOk(s.db) && AllIssued(s)
    requires u in s.txns && u in s'.txns && s'.txns[u] == s.txns[u] && TxnOk(s, u)
    requires s.issued <= s'.issued && IdsStable(s.db, s'.db, s.issued)
    requires forall p :: p in s.locks && s.locks[p] == u ==> p in s'.locks && s'.locks[p] == u
    requires Guarded(s.txns[u]) ==> ParentsKept(s.db, s'.db, s.txns[u].pc.project)
    requires s.txns[u].pc.Listed? && s.txns[u].call.Reorder? ==>
               RowsKept(s.db, s'.db, s.txns[u].call.kind, s.txns[u].call.ids)
    ensures TxnOk(s', u)
  {
    var x := s.txns[u];
    if (x.pc.Walked? || x.pc.Placed?) && x.call.Move? && x.call.kind.FolderKind? && x.call.target.Some? {
      if Descends(s'.db.folders, x.call.target.value, x.call.id) {
        var n: nat :| Climbs(s'.db.folders, x.call.target.value, x.call.id, n);
        ClimbBack(s.db, s'.db, s.issued, x.pc.project, x.call.target.value, x.call.id, n);
      }
    }
    if x.pc.Listed? {
      var c := x.call;
      assert Guarded(x);
      forall i | i in Elements(c.ids) ensures i in Siblings(s'.db.Rows(c.kind), x.pc.project, c.target) {
        assert i in Siblings(s.db.Rows(c.kind), x.pc.project, c.target);
      }
    }
  }

  // --------------------------------------------- each kind of write, on tables

  lemma SameParentsAcyclic(t: Table, t': Table)
    requires Acyclic(t) && t'.Keys <= t.Keys
    requires forall g :: g in t' ==> t'[g].parent == t[g].parent
    requires forall g :: g in t' && t[g].parent.Some? ==> t[g].parent.value in t'
    ensures Acyclic(t')
  {
    forall f | f in t' ensures ReachesRoot(t', f) {
      assert ReachesRoot(t, f);
      var n: nat :| Rooted(t, f, n);
      RootedTransfers(t, t', f, n);
    }
  }

  /** Writes that only touch positions or proxy columns. */
  ghost predicate SameShape(t: Table, t': Table) {
    t'.Keys == t.Keys && forall i :: i in t ==> t'[i].project == t[i].project && t'[i].parent == t[i].parent
  }

  ghost predicate SameTree(db: Db, db': Db) {
    db'.projects == db.projects && SameShape(db.folders, db'.folders) && SameShape(db.requests, db'.requests)
  }

  lemma SameTreeEffects(db: Db, db': Db, issued: set<Id>)
    requires SameTree(db, db') && DbOk(db) && Acyclic(db.folders)
    requires forall q :: q in db'.proxies && q in issued ==> q in db.proxies && db'.proxies[q] == db.proxies[q]
    ensures Acyclic(db'.folders) && IdsStable(db, db', issued)
    ensures AllParentsKept(db, db') && AllRowsKept(db, db')
  {
    forall g | g in db.folders && db.folders[g].parent.Some? ensures db.folders[g].parent.value in db'.folders {
      assert NodeOk(db, db.Rows(FolderKind)[g]);
    }
    SameParentsAcyclic(db.folders, db'.folders);
  }

  lemma SameReferencesOk(db: Db, db': Db)
    requires DbOk(db) && SameTree(db, db') && db'.proxies == db.proxies
    requires forall k, i :: i in db.Rows(k) && i in db'.Rows(k) ==>
               db'.Rows(k)[i].proxyId == db.Rows(k)[i].proxyId && db'.Rows(k)[i].proxyMode == db.Rows(k)[i].proxyMode
    ensures DbOk(db')
  {
    forall k, i | i in db'.Rows(k) ensures NodeOk(db', db'.Rows(k)[i]) {
      assert NodeOk(db, db.Rows(k)[i]);
    }
  }

  lemma BulkOrderKeeps(db: Db, kind: Kind, project: Id, parent: Option<Id>, ids: seq<Id>)
    requires DbOk(db) && Base(kind) + |ids| <= MAX_INT32 + 1
    ensures var db' := db.WithRows(kind, BulkOrder(db.Rows(kind), kind, project, parent, ids));
            DbOk(db') && SameTree(db, db') && db'.proxies == db.proxies
  {
    SameReferencesOk(db, db.WithRows(kind, BulkOrder(db.Rows(kind), kind, project, parent, ids)));
  }

  lemma SetProxyKeeps(db: Db, kind: Kind, id: Id, patch: ProxyPatch)
    requires DbOk(db) && patch.Valid() && SetProxy(db, kind, id, patch).Ok?
    requires patch.proxyId.Some? ==> db.proxies[patch.proxyId.value] == db.Rows(kind)[id].project
    ensures var db' := SetProxy(db, kind, id, patch).value;
            DbOk(db') && SameTree(db, db') && db'.proxies == db.proxies
  {
    var db' := SetProxy(db, kind, id, patch).value;
    assert NodeOk(db, db.Rows(kind)[id]);
    forall k, i | i in db'.Rows(k) ensures NodeOk(db', db'.Rows(k)[i]) {
      assert NodeOk(db, db.Rows(k)[i]);
    }
  }

  lemma DeleteProxyKeeps(db: Db, proxy: Id)
    requires DbOk(db)
    ensures DbOk(DeleteProxy(db, proxy)) && SameTree(db, DeleteProxy(db, proxy))
  {
    var db' := DeleteProxy(db, proxy);
    forall k, i | i in db'.Rows(k) ensures NodeOk(db', db'.Rows(k)[i]) {
      assert NodeOk(db, db.Rows(k)[i]);
    }
  }

  lemma ReparentKeeps(db: Db, kind: Kind, id: Id, parent: Option<Id>, order: Option<Int32>, issued: set<Id>)
    requires DbOk(db) && Acyclic(db.folders) && Reparent(db, kind, id, parent, order).Ok?
    requires parent.Some? ==> db.folders[parent.value].project == db.Rows(kind)[id].project
    requires kind.FolderKind? && parent.Some? ==> !Descends(db.folders, parent.value, id)
    ensures var db' := Reparent(db, kind, id, parent, order).value;
            && DbOk(db') && Acyclic(db'.folders) && IdsStable(db, db', issued)
            && (forall p :: p != db.Rows(kind)[id].project ==> ParentsKept(db, db', p))
            && AllRowsKept(db, db')
            && db'.projects == db.projects && db'.proxies == db.proxies
            && db'.folders.Keys == db.folders.Keys && db'.requests.Keys == db.requests.Keys
  {
    var db' := Reparent(db, kind, id, parent, order).value;
    assert NodeOk(db, db.Rows(kind)[id]);
    forall k, i | i in db'.Rows(k) ensures NodeOk(db', db'.Rows(k)[i]) {
      assert NodeOk(db, db.Rows(k)[i]);
    }
    if kind.FolderKind? {
      ReparentKeepsForest(db.folders, db'.folders, id);
    }
  }

  lemma InsertKeeps(
    db: Db, kind: Kind, id: Id, project: Id, parent: Option<Id>, order: Int32, now: int,
    settings: string, issued: set<Id>)
    requires DbOk(db) && Acyclic(db.folders) && InsertAt(db, kind, id, project, parent, order, now, settings).Ok?
    requires parent.Some? ==> db.folders[parent.value].project == project
    requires id !in issued && db.folders.Keys + db.requests.Keys <= issued
    ensures var db' := InsertAt(db, kind, id, project, parent, order, now, settings).value;
            && DbOk(db') && Acyclic(db'.folders) && IdsStable(db, db', issued)
            && AllParentsKept(db, db') && AllRowsKept(db, db')
            && db'.projects == db.projects && db'.proxies == db.proxies
            && db'.folders.Keys <= db.folders.Keys + {id} && db'.requests.Keys <= db.requests.Keys + {id}
  {
    var db' := InsertAt(db, kind, id, project, parent, order, now, settings).value;
    forall k, i | i in db'.Rows(k) ensures NodeOk(db', db'.Rows(k)[i]) {
      if i in db.Rows(k) { assert NodeOk(db, db.Rows(k)[i]); }
    }
    GrownStaysAcyclic(db, db', id);
  }

  lemma GrownStaysAcyclic(db: Db, db': Db, id: Id)
    requires DbOk(db) && Acyclic(db.folders)
    requires db.folders.Keys <= db'.folders.Keys <= db.folders.Keys + {id}
    requires forall g :: g in db.folders ==> db'.folders[g] == db.folders[g]
    requires id !in db.folders && id in db'.folders && db'.folders[id].parent.Some? ==>
               db'.folders[id].parent.value in db.folders
    ensures Acyclic(db'.folders)
  {
    forall f | f in db'.folders ensures ReachesRoot(db'.folders, f) {
      GrownStaysRooted(db, db', id, f);
    }
  }

  lemma GrownStaysRooted(db: Db, db': Db, id: Id, f: Id)
    requires DbOk(db) && Acyclic(db.folders) && f in db'.folders
    requires db'.folders.Keys >= db.folders.Keys && forall g :: g in db.folders ==> db'.folders[g] == db.folders[g]
    requires f !in db.folders ==> f == id && (db'.folders[f].parent.Some? ==> db'.folders[f].parent.value in db.folders)
    ensures ReachesRoot(db'.folders, f)
  {
    forall g | g in db.folders && db.folders[g].parent.Some? ensures db.folders[g].parent.value in db'.folders {
      assert NodeOk(db, db.Rows(FolderKind)[g]);
    }
    if f in db.folders {
      assert ReachesRoot(db.folders, f);
      var n: nat :| Rooted(db.folders, f, n);
      RootedTransfers(db.folders, db'.folders, f, n);
    } else if db'.folders[f].parent.None? {
      assert Rooted(db'.folders, f, 1);
    } else {
      var p := db'.folders[f].parent.value;
      assert ReachesRoot(db.folders, p);
      var n: nat :| Rooted(db.folders, p, n);
      RootedTransfers(db.folders, db'.folders, p, n);
      assert Rooted(db'.folders, f, n + 1);
    }
  }

  lemma DeleteNodeKeeps(db: Db, kind: Kind, id: Id, issued: set<Id>)
    requires DbOk(db) && Acyclic(db.folders)
    ensures var db' := DeleteNode(db, kind, id);
            && DbOk(db') && Acyclic(db'.folders) && IdsStable(db, db', issued)
            && AllParentsKept(db, db')
  {
    var db' := DeleteNode(db, kind, id);
    var doomed := if kind.FolderKind? then Subtree(db.folders, id) else {};
    forall f | f in db.folders && f !in doomed && db.folders[f].parent.Some?
      ensures db.folders[f].parent.value !in doomed
    {
      var p := db.folders[f].parent.value;
      if Descends(db.folders, p, id) {
        var n: nat :| Climbs(db.folders, p, id, n);
        assert Climbs(db.folders, f, id, n + 1);
      }
    }
    forall k, i | i in db'.Rows(k) ensures NodeOk(db', db'.Rows(k)[i]) {
      assert NodeOk(db, db.Rows(k)[i]);
    }
    forall g | g in db'.folders && db.folders[g].parent.Some? ensures db.folders[g].parent.value in db'.folders {
      assert NodeOk(db, db.Rows(FolderKind)[g]);
    }
    SameParentsAcyclic(db.folders, db'.folders);
  }

  lemma DeleteProjectKeeps(db: Db, project: Id, issued: set<Id>)
    requires DbOk(db) && Acyclic(db.folders)
    ensures var db' := DeleteProject(db, project);
            && DbOk(db') && Acyclic(db'.folders) && IdsStable(db, db', issued)
            && AllParentsKept(db, db')
  {
    var db' := DeleteProject(db, project);
    forall k, i | i in db'.Rows(k) ensures NodeOk(db', db'.Rows(k)[i]) {
      assert NodeOk(db, db.Rows(k)[i]);
    }
    forall g | g in db'.folders && db.folders[g].parent.Some? ensures db.folders[g].parent.value in db'.folders {
      assert NodeOk(db, db.Rows(FolderKind)[g]);
    }
    SameParentsAcyclic(db.folders, db'.folders);
  }

  // ------------------------------------------------- every step keeps it all

  /** Steps that leave the tables alone. */
  lemma QuietStep(s: State, s': State, t: TxId)
    requires Inv(s) && s'.db == s.db && s'.issued == s.issued
    requires s'.txns.Keys == s.txns.Keys + {t}
    requires forall u :: u in s.txns && u != t ==> s'.txns[u] == s.txns[u]
    requires forall p :: p in s.locks && s.locks[p] != t ==> p in s'.locks && s'.locks[p] == s.locks[p]
    requires TxnOk(s', t)
    ensures Inv(s')
  {
    forall u | u in s'.txns ensures TxnOk(s', u) {
      if u != t {
        TxnStable(s, s', u);
      }
    }
  }

  /** Steps that commit new tables for transaction t. */
  lemma CommitStep(s: State, t: TxId, db': Db, s': State)
    requires Inv(s) && t in s.txns && s' == Finish(s, t, Ok(db')).(issued := s'.issued)
    requires DbOk(db') && Acyclic(db'.folders) && AllIssued(s')
    requires s.issued <= s'.issued && IdsStable(s.db, db', s.issued)
    requires forall u :: u in s.txns && u != t && Guarded(s.txns[u]) ==> ParentsKept(s.db, db', s.txns[u].pc.project)
    requires AllRowsKept(s.db, db')
    ensures Inv(s')
  {
    forall u | u in s'.txns ensures TxnOk(s', u) {
      if u != t {
        TxnStable(s, s', u);
      }
    }
  }

  lemma SameTreeCommit(s: State, t: TxId, db': Db)
    requires Inv(s) && t in s.txns && DbOk(db') && SameTree(s.db, db') && db'.proxies == s.db.proxies
    ensures Inv(Finish(s, t, Ok(db')))
  {
    SameTreeEffects(s.db, db', s.issued);
    CommitStep(s, t, db', Finish(s, t, Ok(db')));
  }

  /** Steps outside any transaction. */
  lemma OutsideStep(s: State, s': State)
    requires Inv(s) && s'.txns == s.txns && s'.locks == s.locks && s.issued <= s'.issued
    requires DbOk(s'.db) && Acyclic(s'.db.folders) && AllIssued(s') && IdsStable(s.db, s'.db, s.issued)
    requires AllParentsKept(s.db, s'.db)
    requires forall u :: u in s.txns && s.txns[u].pc.Listed? && s.txns[u].call.Reorder?
               ==> RowsKept(s.db, s'.db, s.txns[u].call.kind, s.txns[u].call.ids)
    ensures Inv(s')
  {
    forall u | u in s'.txns ensures TxnOk(s', u) {
      TxnStable(s, s', u);
    }
  }

  lemma FailKeeps(s: State, t: TxId, e: Fault)
    requires Inv(s) && t in s.txns
    ensures Inv(Finish(s, t, Err(e)))
  {
    QuietStep(s, Finish(s, t, Err(e)), t);
  }

  lemma LockKeeps(s: State, t: TxId)
    requires Inv(s) && t in s.txns && s.txns[t].pc.Seen? && (s.txns[t].call.Move? || s.txns[t].call.Reorder?)
    ensures Inv(TakeLock(s, t, s.txns[t].pc.project))
  {
    var s' := TakeLock(s, t, s.txns[t].pc.project);
    if s' != s {
      QuietStep(s, s', t);
    }
  }

  /** Reading the position keeps every assertion, or the transaction ends. */
  lemma PlaceKeeps(s: State, t: TxId, position: Result<Int32, Fault>)
    requires Inv(s) && t in s.txns
    requires (s.txns[t].call.Move? && s.txns[t].pc.Walked?) || (s.txns[t].call.Create? && s.txns[t].pc.Checked?)
    ensures Inv(Place(s, t, position))
  {
    if position.Ok? {
      assert TxnOk(s, t);
      QuietStep(s, Place(s, t, position), t);
    } else {
      FailKeeps(s, t, position.error);
    }
  }

  lemma MoveCommitKeeps(s: State, t: TxId)
    requires Inv(s) && t in s.txns && s.txns[t].call.Move? && s.txns[t].pc.Placed?
    ensures Inv(AdvanceMove(s, t, s.txns[t].call, s.txns[t].pc))
  {
    var c, project := s.txns[t].call, s.txns[t].pc.project;
    var order := Some(s.txns[t].pc.order);
    var r := MapForeignKey(c, Reparent(s.db, c.kind, c.id, c.target, order));
    if r.Err? {
      FailKeeps(s, t, r.error);
    } else {
      assert NodeOk(s.db, s.db.Rows(c.kind)[c.id]);
      assert Guarded(s.txns[t]);
      ReparentKeeps(s.db, c.kind, c.id, c.target, order, s.issued);
      forall u | u in s.txns && u != t && Guarded(s.txns[u]) ensures s.txns[u].pc.project != project {
        assert TxnOk(s, u) && HoldsLock(s, u, s.txns[u].pc.project) && HoldsLock(s, t, project);
      }
      CommitStep(s, t, r.value, Finish(s, t, r));
    }
  }

  lemma MoveKeeps(s: State, t: TxId)
    requires Inv(s) && t in s.txns && s.txns[t].call.Move?
    ensures Inv(AdvanceMove(s, t, s.txns[t].call, s.txns[t].pc))
  {
    var c, pc := s.txns[t].call, s.txns[t].pc;
    var s' := AdvanceMove(s, t, c, pc);
    assert TxnOk(s, t);
    match pc
    case Started =>
      if c.id in s.db.Rows(c.kind) {
        assert NodeOk(s.db, s.db.Rows(c.kind)[c.id]);
        QuietStep(s, s', t);
      } else {
        FailKeeps(s, t, NotFound);
      }
    case Seen(_) => LockKeeps(s, t);
    case Locked(project) =>
      if TargetInProject(s.db, c.target, project) { QuietStep(s, s', t); } else { FailKeeps(s, t, InvalidTarget); }
    case Checked(_) =>
      if s'.txns[t].pc.Walked? { QuietStep(s, s', t); } else { FailKeeps(s, t, FolderCycle); }
    case Walked(_) =>
      var rows := s.db.Rows(c.kind);
      if c.id !in rows {
        FailKeeps(s, t, NotFound);
      } else if c.order.Some? {
        PlaceKeeps(s, t, Ok(c.order.value));
      } else {
        PlaceKeeps(s, t, NextOrderOf(rows, Siblings(rows, rows[c.id].project, c.target) - {c.id}));
      }
    case Placed(_, _) => MoveCommitKeeps(s, t);
    case _ =>
  }

  lemma ReorderCommitKeeps(s: State, t: TxId)
    requires Inv(s) && t in s.txns && s.txns[t].call.Reorder? && s.txns[t].pc.Listed?
    ensures Inv(AdvanceReorder(s, t, s.txns[t].call, s.txns[t].pc))
  {
    var c, project := s.txns[t].call, s.txns[t].pc.project;
    if Base(c.kind) + |c.ids| <= MAX_INT32 + 1 {
      BulkOrderKeeps(s.db, c.kind, project, c.target, c.ids);
      SameTreeCommit(s, t, s.db.WithRows(c.kind, BulkOrder(s.db.Rows(c.kind), c.kind, project, c.target, c.ids)));
    } else {
      FailKeeps(s, t, OutOfRange);
    }
  }

  lemma ReorderKeeps(s: State, t: TxId)
    requires Inv(s) && t in s.txns && s.txns[t].call.Reorder?
    ensures Inv(AdvanceReorder(s, t, s.txns[t].call, s.txns[t].pc))
  {
    var c, pc := s.txns[t].call, s.txns[t].pc;
    var s' := AdvanceReorder(s, t, c, pc);
    assert TxnOk(s, t);
    match pc
    case Started => if c.project in s.db.projects { QuietStep(s, s', t); } else { FailKeeps(s, t, NotFound); }
    case Seen(_) => LockKeeps(s, t);
    case Locked(project) =>
      if TargetInProject(s.db, c.target, project) { QuietStep(s, s', t); } else { FailKeeps(s, t, InvalidTarget); }
    case Checked(_) => if s'.txns[t].pc.Listed? { QuietStep(s, s', t); } else { FailKeeps(s, t, BadList); }
    case Listed(_) => ReorderCommitKeeps(s, t);
    case _ =>
  }

  lemma GrowCommit(s: State, t: TxId, db': Db, newId: Id)
    requires Inv(s) && t in s.txns && newId !in s.issued
    requires DbOk(db') && Acyclic(db'.folders) && IdsStable(s.db, db', s.issued)
    requires AllParentsKept(s.db, db') && AllRowsKept(s.db, db')
    requires AllIssued(Finish(s, t, Ok(db')).(issued := s.issued + {newId}))
    ensures Inv(Finish(s, t, Ok(db')).(issued := s.issued + {newId}))
  {
    CommitStep(s, t, db', Finish(s, t, Ok(db')).(issued := s.issued + {newId}));
  }

  lemma InsertFailKeeps(s: State, t: TxId, newId: Id, e: Fault)
    requires Inv(s) && t in s.txns && newId !in s.issued
    ensures Inv(Finish(s, t, Err(e)).(issued := s.issued + {newId}))
  {
    var ok := Finish(s, t, Ok(s.db)).(issued := s.issued + {newId});
    GrowCommit(s, t, s.db, newId);
    FinishedAnyway(ok, Finish(s, t, Err(e)).(issued := s.issued + {newId}), t);
  }

  lemma CreateKeeps(s: State, t: TxId, newId: Id, now: int)
    requires Inv(s) && t in s.txns && s.txns[t].call.Create?
    ensures Inv(AdvanceCreate(s, t, s.txns[t].call, s.txns[t].pc, newId, now))
  {
    var c, pc := s.txns[t].call, s.txns[t].pc;
    var s' := AdvanceCreate(s, t, c, pc, newId, now);
    assert TxnOk(s, t);
    match pc
    case Started => if c.project in s.db.projects { QuietStep(s, s', t); } else { FailKeeps(s, t, NotFound); }
    case Seen(project) =>
      if TargetInProject(s.db, c.target, project) { QuietStep(s, s', t); } else { FailKeeps(s, t, InvalidTarget); }
    case Checked(project) =>
      PlaceKeeps(s, t, NextOrderOf(s.db.Rows(c.kind), Siblings(s.db.Rows(c.kind), project, c.target)));
    case Placed(project, order) =>
      if newId !in s.issued {
        var r := MapForeignKey(c, InsertAt(s.db, c.kind, newId, project, c.target, order, now, c.settings));
        if r.Ok? {
          InsertKeeps(s.db, c.kind, newId, project, c.target, order, now, c.settings, s.issued);
          GrowCommit(s, t, r.value, newId);
        } else {
          InsertFailKeeps(s, t, newId, r.error);
        }
      }
    case _ =>
  }

  lemma FinishedAnyway(s: State, s': State, t: TxId)
    requires Inv(s) && t in s.txns && t in s'.txns && s'.txns[t].pc.Finished? && s'.txns[t].call == s.txns[t].call
    requires s' == s.(txns := s.txns[t := s'.txns[t]])
    ensures Inv(s')
  {
    QuietStep(s, s', t);
  }

  lemma PatchKeeps(s: State, t: TxId)
    requires Inv(s) && t in s.txns && s.txns[t].call.Patch?
    ensures Inv(AdvancePatch(s, t, s.txns[t].call, s.txns[t].pc))
  {
    var c, pc := s.txns[t].call, s.txns[t].pc;
    var s' := AdvancePatch(s, t, c, pc);
    assert TxnOk(s, t);
    match pc
    case Started =>
      if c.id in s.db.Rows(c.kind) {
        assert NodeOk(s.db, s.db.Rows(c.kind)[c.id]);
        QuietStep(s, s', t);
      } else {
        FailKeeps(s, t, NotFound);
      }
    case Seen(_) => if s'.txns[t].pc.Checked? { QuietStep(s, s', t); } else { FailKeeps(s, t, InvalidTarget); }
    case Checked(_) =>
      var r := MapForeignKey(c, SetProxy(s.db, c.kind, c.id, c.patch));
      if r.Err? {
        FailKeeps(s, t, r.error);
      } else {
        SetProxyKeeps(s.db, c.kind, c.id, c.patch);
        SameTreeCommit(s, t, r.value);
      }
    case _ =>
  }

  lemma DeleteKeeps(s: State, kind: Kind, id: Id)
    requires Inv(s) && !DeleteWaits(s, kind, id)
    ensures Inv(s.(db := DeleteNode(s.db, kind, id)))
  {
    var s' := s.(db := DeleteNode(s.db, kind, id));
    DeleteNodeKeeps(s.db, kind, id, s.issued);
    forall u, i | u in s.txns && s.txns[u].pc.Listed? && s.txns[u].call.Reorder? &&
                  i in s.txns[u].call.ids && i in s.db.Rows(s.txns[u].call.kind)
      ensures i in s'.db.Rows(s.txns[u].call.kind)
    {
      assert RowLocked(s, s.txns[u].call.kind, i);
    }
    OutsideStep(s, s');
  }

  lemma DropProjectKeeps(s: State, project: Id)
    requires Inv(s) && project !in s.locks
    ensures Inv(s.(db := DeleteProject(s.db, project)))
  {
    var s' := s.(db := DeleteProject(s.db, project));
    DeleteProjectKeeps(s.db, project, s.issued);
    forall u, i | u in s.txns && s.txns[u].pc.Listed? && s.txns[u].call.Reorder? &&
                  i in s.txns[u].call.ids && i in s.db.Rows(s.txns[u].call.kind)
      ensures i in s'.db.Rows(s.txns[u].call.kind)
    {
      var c := s.txns[u].call;
      assert TxnOk(s, u) && i in Elements(c.ids);
      assert i in Siblings(s.db.Rows(c.kind), s.txns[u].pc.project, c.target);
      assert NodeOk(s.db, s.db.Rows(c.kind)[i]);
    }
    OutsideStep(s, s');
  }

  lemma AdvanceKeeps(s: State, t: TxId, newId: Id, now: int)
    requires Inv(s) && t in s.txns
    ensures Inv(Step(s, Advance(t, newId, now)))
  {
    match s.txns[t].call
    case Move(_, _, _, _) => MoveKeeps(s, t);
    case Reorder(_, _, _, _) => ReorderKeeps(s, t);
    case Create(_, _, _, _) => CreateKeeps(s, t, newId, now);
    case Patch(_, _, _) => PatchKeeps(s, t);
  }

  lemma CreateProxyKeeps(s: State, proxy: Id, owner: Id)
    requires Inv(s)
    ensures Inv(Step(s, CreateProxy(proxy, owner)))
  {
    var s' := Step(s, CreateProxy(proxy, owner));
    if s' != s {
      ProxyAdded(s.db, proxy, owner);
      OutsideStep(s, s');
    }
  }

  lemma CreateProjectKeeps(s: State, project: Id)
    requires Inv(s)
    ensures Inv(Step(s, CreateProject(project)))
  {
    var s' := Step(s, CreateProject(project));
    if s' != s {
      ProjectAdded(s.db, project);
      OutsideStep(s, s');
    }
  }

  lemma DropProxyKeeps(s: State, proxy: Id)
    requires Inv(s)
    ensures Inv(s.(db := DeleteProxy(s.db, proxy)))
  {
    var s' := s.(db := DeleteProxy(s.db, proxy));
    DeleteProxyKeeps(s.db, proxy);
    SameTreeEffects(s.db, s'.db, s.issued);
    OutsideStep(s, s');
  }

  lemma BeginKeeps(s: State, t: TxId, call: Call)
    requires Inv(s)
    ensures Inv(Step(s, Begin(t, call)))
  {
    var s' := Step(s, Begin(t, call));
    if s' != s {
      QuietStep(s, s', t);
    }
  }

  /** Every action keeps the invariant. */
  lemma StepKeeps(s: State, a: Action)
    requires Inv(s)
    ensures Inv(Step(s, a))
  {
    match a
    case Begin(t, call) => BeginKeeps(s, t, call);
    case Advance(t, newId, now) => if t in s.txns { AdvanceKeeps(s, t, newId, now); }
    case Delete(kind, id) => if !DeleteWaits(s, kind, id) { DeleteKeeps(s, kind, id); }
    case CreateProxy(proxy, owner) => CreateProxyKeeps(s, proxy, owner);
    case DropProxy(proxy) => DropProxyKeeps(s, proxy);
    case CreateProject(project) => CreateProjectKeeps(s, project);
    case DropProject(project) => if project !in s.locks { DropProjectKeeps(s, project); }
  }

  lemma ProxyAdded(db: Db, proxy: Id, owner: Id)
    requires DbOk(db) && owner in db.projects && proxy !in db.proxies
    ensures DbOk(db.(proxies := db.proxies[proxy := owner]))
  {
    var db' := db.(proxies := db.proxies[proxy := owner]);
    forall k, i | i in db'.Rows(k) ensures NodeOk(db', db'.Rows(k)[i]) {
      assert NodeOk(db, db.Rows(k)[i]);
    }
  }

  lemma ProjectAdded(db: Db, project: Id)
    requires DbOk(db)
    ensures DbOk(db.(projects := db.projects + {project}))
  {
    var db' := db.(projects := db.projects + {project});
    forall k, i | i in db'.Rows(k) ensures NodeOk(db', db'.Rows(k)[i]) {
      assert NodeOk(db, db.Rows(k)[i]);
    }
  }

  lemma {:induction false} RunKeeps(s: State, actions: seq<Action>)
    requires Inv(s)
    ensures Inv(Run(s, actions))
    decreases |actions|
  {
    if actions != [] {
      StepKeeps(s, actions[0]);
      RunKeeps(Step(s, actions[0]), actions[1..]);
    }
  }

  // ---------------------------------------------------------- main theorems

  /** In every interleaving, following parent_id from any folder reaches the root. */
  lemma EveryFolderReachesRoot(actions: seq<Action>, f: Id)
    requires f in Run(INITIAL, actions).db.folders
    ensures ReachesRoot(Run(INITIAL, actions).db.folders, f)
    ensures forall k: nat :: k > 0 ==> !Climbs(Run(INITIAL, actions).db.folders, f, f, k)
  {
    RunKeeps(INITIAL, actions);
    forall k: nat | k > 0 ensures !Climbs(Run(INITIAL, actions).db.folders, f, f, k) {
      AcyclicHasNoLoop(Run(INITIAL, actions).db.folders, f, k);
    }
  }

  /** In every interleaving, every reference is a live row of the node's own project. */
  lemma ReferencesStayInProject(actions: seq<Action>, kind: Kind, i: Id)
    requires i in Run(INITIAL, actions).db.Rows(kind)
    ensures var db := Run(INITIAL, actions).db;
            var n := db.Rows(kind)[i];
            && n.project in db.projects
            && (n.parent.Some? ==> n.parent.value in db.folders && db.folders[n.parent.value].project == n.project)
            && (n.proxyId.Some? ==>
                  n.proxyMode.ViaProxy? && n.proxyId.value in db.proxies && db.proxies[n.proxyId.value] == n.project)
  {
    RunKeeps(INITIAL, actions);
    assert NodeOk(Run(INITIAL, actions).db, Run(INITIAL, actions).db.Rows(kind)[i]);
  }
}
