/**
 Teams, memberships, project grants and invitations: the store's transactions
 and the handlers that guard them, run one at a time.
 */
module Teams {
  import opened Common

  /** A normalised email address. Only equality matters. */
  type Email = nat

  datatype Status = Pending | Accepted | Rejected

  datatype Project = Project(team: Id, owner: Id)

  datatype Invitation = Invitation(team: Id, email: Email, status: Status)

  /**
   `users` maps to the unique email, `teams` to the owner, `members` (team,
   user) to all_projects; `grants` holds (project, user) rows.
   */
  datatype World = World(
    users: map<Id, Email>,
    teams: map<Id, Id>,
    members: map<(Id, Id), bool>,
    projects: map<Id, Project>,
    grants: set<(Id, Id)>,
    invitations: map<Id, Invitation>)

  const EMPTY_WORLD := World(map[], map[], map[], map[], {}, map[])

  datatype Reply = Done | BadRequest | Unauthorized | Forbidden | Missing | Conflict | Failed

  // ------------------------------------------------------------- access rule

  /** `GetProjectForUser`: the whole access rule. */
  predicate Reaches(w: World, user: Id, project: Id) {
    project in w.projects &&
    var p := w.projects[project];
    && p.team in w.teams
    && (p.team, user) in w.members
    && (w.members[(p.team, user)] || w.teams[p.team] == user || p.owner == user || (project, user) in w.grants)
  }

  predicate Manages(w: World, user: Id, project: Id) {
    Reaches(w, user, project) && (w.teams[w.projects[project].team] == user || w.projects[project].owner == user)
  }

  /** `RequireTeamOwner`: membership first, then ownership. */
  function TeamOwnerReply(w: World, team: Id, user: Id): Reply {
    if (team, user) !in w.members || team !in w.teams then Missing
    else if w.teams[team] != user then Forbidden
    else Done
  }

  function ManageReply(w: World, user: Id, project: Id): Reply {
    if !Reaches(w, user, project) then Missing
    else if !Manages(w, user, project) then Forbidden
    else Done
  }

  // ------------------------------------------------------------ dedupeUUIDs

  /** First occurrences, in order. */
  function Dedupe(ids: seq<Id>): seq<Id> {
    if ids == [] then []
    else
      var init, last := ids[..|ids| - 1], ids[|ids| - 1];
      if last in init then Dedupe(init) else Dedupe(init) + [last]
  }

  lemma {:induction false} DedupeFacts(ids: seq<Id>)
    ensures NoDuplicates(Dedupe(ids)) && Elements(Dedupe(ids)) == Elements(ids)
  {
    if ids != [] {
      var init, last := ids[..|ids| - 1], ids[|ids| - 1];
      DedupeFacts(init);
      assert Elements(ids) == Elements(init) + {last};
      assert last in init <==> last in Elements(Dedupe(init));
      assert Elements(Dedupe(init) + [last]) == Elements(Dedupe(init)) + {last};
    }
  }

  method DedupeUuids(ids: seq<Id>) returns (unique: seq<Id>)
    ensures unique == Dedupe(ids)
  {
    var seen: set<Id> := {};
    unique := [];
    for i := 0 to |ids|
      invariant seen == Elements(ids[..i]) && unique == Dedupe(ids[..i])
    {
      var id := ids[i];
      assert ids[..i + 1][..i] == ids[..i];
      assert Elements(ids[..i + 1]) == Elements(ids[..i]) + {id};
      if id !in seen {
        seen := seen + {id};
        unique := unique + [id];
      }
    }
    assert ids[..|ids|] == ids;
  }

  /** The counting query against a list without repetitions: equal counts mean every id was found. */
  lemma CountFindsAll(ids: seq<Id>, found: set<Id>)
    requires NoDuplicates(ids) && found <= Elements(ids)
    ensures |found| == |ids| <==> found == Elements(ids)
  {
    DistinctSize(ids);
    if |found| == |ids| {
      SubsetOfSameSize(found, Elements(ids));
    }
  }

  function FoundMembers(w: World, team: Id, ids: seq<Id>): set<Id> {
    set u | u in ids && (team, u) in w.members
  }

  function FoundProjects(w: World, team: Id, ids: seq<Id>): set<Id> {
    set p | p in ids && p in w.projects && w.projects[p].team == team
  }

  /** `CountTeamMembersInList` against the length of the list. */
  predicate AllTeamMembers(w: World, team: Id, ids: seq<Id>) {
    |FoundMembers(w, team, ids)| == |ids|
  }

  /** `CountProjectsInTeam` against the length of the list. */
  predicate AllTeamProjects(w: World, team: Id, ids: seq<Id>) {
    |FoundProjects(w, team, ids)| == |ids|
  }

  /** The membership check passes exactly for lists of current members. */
  lemma AllTeamMembersExact(w: World, team: Id, ids: seq<Id>)
    ensures AllTeamMembers(w, team, Dedupe(ids)) <==> forall u :: u in ids ==> (team, u) in w.members
  {
    DedupeFacts(ids);
    var d := Dedupe(ids);
    var found := FoundMembers(w, team, d);
    CountFindsAll(d, found);
    assert forall u :: u in ids <==> u in Elements(d);
    assert found == Elements(d) <==> forall u :: u in ids ==> (team, u) in w.members;
  }

  lemma AllTeamProjectsExact(w: World, team: Id, ids: seq<Id>)
    ensures AllTeamProjects(w, team, Dedupe(ids)) <==>
            forall p :: p in ids ==> p in w.projects && w.projects[p].team == team
  {
    DedupeFacts(ids);
    var d := Dedupe(ids);
    var found := FoundProjects(w, team, d);
    CountFindsAll(d, found);
    assert forall p :: p in ids <==> p in Elements(d);
    assert found == Elements(d) <==> forall p :: p in ids ==> p in w.projects && w.projects[p].team == team;
  }

  // ---------------------------------------------------- transactions, as values

  function GrantsOfUserInTeam(w: World, team: Id, user: Id): set<(Id, Id)> {
    set g | g in w.grants && g.1 == user && g.0 in w.projects && w.projects[g.0].team == team
  }

  function ReplaceProjectAccess(w: World, project: Id, users: seq<Id>): World {
    w.(grants := (set g | g in w.grants && g.0 != project) + (set u | u in users :: (project, u)))
  }

  /** None when the target is not a member; the old list is cleared whichever way the flag goes. */
  function SetMemberProjectAccess(w: World, team: Id, user: Id, all: bool, projects: seq<Id>): Option<World> {
    if (team, user) !in w.members then None
    else Some(w.(members := w.members[(team, user) := all],
                 grants := w.grants - GrantsOfUserInTeam(w, team, user) +
                           if all then {} else set p | p in projects :: (p, user)))
  }

  function RemoveTeamMember(w: World, team: Id, user: Id): Option<World> {
    if (team, user) !in w.members then None
    else Some(w.(members := w.members - {(team, user)},
                 grants := w.grants - GrantsOfUserInTeam(w, team, user)))
  }

  /** The guarded update: None when the invitation is gone or already answered. */
  function AnswerInvitation(w: World, id: Id, status: Status): Option<World> {
    if id in w.invitations && w.invitations[id].status.Pending?
    then Some(w.(invitations := w.invitations[id := w.invitations[id].(status := status)]))
    else None
  }

  function AcceptInvitation(w: World, id: Id, user: Id): Option<World> {
    match AnswerInvitation(w, id, Accepted)
    case None => None
    case Some(w') =>
      var key := (w.invitations[id].team, user);
      Some(if key in w'.members then w' else w'.(members := w'.members[key := true]))
  }

  /** Cascades from `teams`: memberships, projects with their grants, invitations. */
  function DeleteTeam(w: World, team: Id): World {
    World(w.users, w.teams - {team},
          map m | m in w.members && m.0 != team :: w.members[m],
          map p | p in w.projects && w.projects[p].team != team :: w.projects[p],
          set g | g in w.grants && g.0 in w.projects && w.projects[g.0].team != team,
          map i | i in w.invitations && w.invitations[i].team != team :: w.invitations[i])
  }

  function DeleteProject(w: World, project: Id): World {
    w.(projects := w.projects - {project}, grants := set g | g in w.grants && g.0 != project)
  }

  /** The store's multi-statement transactions, statement by statement. */
  class TeamStore {
    var w: World

    constructor ()
      ensures w == EMPTY_WORLD
    {
      w := EMPTY_WORLD;
    }

    method CreateTeamWithOwner(team: Id, owner: Id) returns (ok: bool)
      modifies this
      ensures ok <==> team !in old(w).teams && (team, owner) !in old(w).members
      ensures w == if ok then old(w).(teams := old(w).teams[team := owner],
                                            members := old(w).members[(team, owner) := true])
                   else old(w)
    {
      var tx := w;
      if team in tx.teams {
        return false;
      }
      tx := tx.(teams := tx.teams[team := owner]);
      if (team, owner) in tx.members {
        return false;
      }
      tx := tx.(members := tx.members[(team, owner) := true]);
      w := tx;
      return true;
    }

    method ReplaceAccess(project: Id, users: seq<Id>)
      modifies this
      ensures w == ReplaceProjectAccess(old(w), project, users)
      ensures w == World(old(w).users, old(w).teams, old(w).members, old(w).projects, w.grants, old(w).invitations)
      ensures forall p, u :: (p, u) in w.grants <==> if p == project then u in users else (p, u) in old(w).grants
    {
      var tx := w;
      tx := tx.(grants := set g | g in tx.grants && g.0 != project);
      if |users| > 0 {
        tx := tx.(grants := tx.grants + set u | u in users :: (project, u));
      }
      w := tx;
    }

    method SetMemberAccess(team: Id, user: Id, all: bool, projects: seq<Id>) returns (found: bool)
      modifies this
      ensures found <==> (team, user) in old(w).members
      ensures w == if found then SetMemberProjectAccess(old(w), team, user, all, projects).value else old(w)
      ensures w == World(old(w).users, old(w).teams, w.members, old(w).projects, w.grants, old(w).invitations)
      ensures found ==> w.members == old(w).members[(team, user) := all]
      ensures found ==> forall p, u :: (p, u) in w.grants <==>
                (u == user && !all && p in projects) ||
                ((p, u) in old(w).grants && !(u == user && InTeam(old(w), p, team)))
    {
      var tx := w;
      if (team, user) !in tx.members {
        return false;
      }
      tx := tx.(members := tx.members[(team, user) := all]);
      tx := tx.(grants := tx.grants - GrantsOfUserInTeam(tx, team, user));
      if !all && |projects| > 0 {
        tx := tx.(grants := tx.grants + set p | p in projects :: (p, user));
      }
      w := tx;
      return true;
    }

    method RemoveMember(team: Id, user: Id) returns (removed: nat)
      modifies this
      ensures removed == if (team, user) in old(w).members then 1 else 0
      ensures w == if removed == 1 then RemoveTeamMember(old(w), team, user).value else old(w)
      ensures w == World(old(w).users, old(w).teams, w.members, old(w).projects, w.grants, old(w).invitations)
      ensures forall m :: m in w.members <==> m in old(w).members && m != (team, user)
      ensures forall m :: m in w.members ==> w.members[m] == old(w).members[m]
      ensures forall p, u :: (p, u) in w.grants <==>
                (p, u) in old(w).grants && !(removed == 1 && u == user && InTeam(old(w), p, team))
    {
      var tx := w;
      if (team, user) !in tx.members {
        return 0;
      }
      tx := tx.(members := tx.members - {(team, user)});
      tx := tx.(grants := tx.grants - GrantsOfUserInTeam(tx, team, user));
      w := tx;
      return 1;
    }

    method Accept(invitation: Id, user: Id) returns (found: bool)
      modifies this
      ensures found <==> AcceptInvitation(old(w), invitation, user).Some?
      ensures w == if found then AcceptInvitation(old(w), invitation, user).value else old(w)
      ensures found ==> w.invitations[invitation].status.Accepted? &&
                        (w.invitations[invitation].team, user) in w.members
    {
      var tx := w;
      if invitation !in tx.invitations || !tx.invitations[invitation].status.Pending? {
        return false;
      }
      tx := tx.(invitations := tx.invitations[invitation := tx.invitations[invitation].(status := Accepted)]);
      var key := (tx.invitations[invitation].team, user);
      if key !in tx.members {
        tx := tx.(members := tx.members[key := true]);
      }
      w := tx;
      return true;
    }
  }

  // --------------------------------------------------------------- handlers

  /**
   The handlers that guard those transactions: check first, then call the
   store. Each is the handler of the run model below and keeps its invariant.
   */
  class Handlers {
    const store: TeamStore

    constructor (store: TeamStore)
      ensures this.store == store
    {
      this.store := store;
    }

    /** `handleSetProjectAccess`. */
    method PutProjectAccess(caller: Id, project: Id, userIds: seq<Id>) returns (reply: Reply)
      modifies store
      ensures (store.w, reply) == Handle(old(store.w), SetProjectAccess(caller, project, userIds))
      ensures SetProjectAccessPromise(old(store.w), caller, project, userIds, store.w, reply)
      ensures old(WorldOk(store.w)) ==> WorldOk(store.w)
    {
      SetProjectAccessKept(store.w, caller, project, userIds);
      HandlePreserves(store.w, SetProjectAccess(caller, project, userIds));
      if caller !in store.w.users {
        return Unauthorized;
      }
      var guard := ManageReply(store.w, caller, project);
      if guard != Done {
        return guard;
      }
      var ids := DedupeUuids(userIds);
      DedupeFacts(userIds);
      if !AllTeamMembers(store.w, store.w.projects[project].team, ids) {
        return BadRequest;
      }
      store.ReplaceAccess(project, ids);
      return Done;
    }

    /** `handleSetMemberAccess`. */
    method PutMemberAccess(caller: Id, team: Id, target: Id, all: Option<bool>, projectIds: seq<Id>)
      returns (reply: Reply)
      modifies store
      ensures (store.w, reply) == Handle(old(store.w), SetAccess(caller, team, target, all, projectIds))
      ensures SetAccessPromise(old(store.w), caller, team, target, all, projectIds, store.w, reply)
      ensures old(WorldOk(store.w)) ==> WorldOk(store.w)
      ensures reply == Done && all == Some(false) ==>
                forall p, u :: p in old(store.w).projects ==>
                  (Reaches(store.w, u, p) <==> RestrictedTo(old(store.w), team, target, projectIds, p, u))
    {
      SetAccessKept(store.w, caller, team, target, all, projectIds);
      HandlePreserves(store.w, SetAccess(caller, team, target, all, projectIds));
      RestrictedEverywhere(store.w, caller, team, target, projectIds);
      if caller !in store.w.users {
        return Unauthorized;
      }
      var guard := TeamOwnerReply(store.w, team, caller);
      if guard != Done {
        return guard;
      }
      if target == store.w.teams[team] || all.None? {
        return BadRequest;
      }
      var ids := DedupeUuids(projectIds);
      if !all.value && !AllTeamProjects(store.w, team, ids) {
        return BadRequest;
      }
      var found := store.SetMemberAccess(team, target, all.value, ids);
      return if found then Done else Missing;
    }

    /** `handleDeleteTeamMember`. */
    method DeleteMember(caller: Id, team: Id, target: Id) returns (reply: Reply)
      modifies store
      ensures (store.w, reply) == Handle(old(store.w), Remove(caller, team, target))
      ensures RemovePromise(old(store.w), caller, team, target, store.w, reply)
      ensures old(WorldOk(store.w)) ==> WorldOk(store.w)
      ensures reply == Done ==>
                forall p, u :: p in old(store.w).projects && (u != target || !InTeam(old(store.w), p, team)) ==>
                  (Reaches(store.w, u, p) <==> Reaches(old(store.w), u, p))
    {
      RemoveKept(store.w, caller, team, target);
      RemovedElsewhere(store.w, caller, team, target);
      HandlePreserves(store.w, Remove(caller, team, target));
      if caller !in store.w.users {
        return Unauthorized;
      }
      var guard := RemoveGuard(store.w, caller, team, target);
      if guard != Done {
        return guard;
      }
      var removed := store.RemoveMember(team, target);
      return if removed == 0 then Missing else Done;
    }

    /** `handleCreateInvitation`; the partial unique index is what finds a duplicate. */
    method PostInvitation(caller: Id, team: Id, email: Email, invitation: Id) returns (reply: Reply)
      modifies store
      ensures (store.w, reply) == Handle(old(store.w), Invite(caller, team, email, invitation))
      ensures InvitePromise(old(store.w), caller, team, email, invitation, store.w, reply)
      ensures old(WorldOk(store.w)) ==> WorldOk(store.w)
    {
      InviteKept(store.w, caller, team, email, invitation);
      HandlePreserves(store.w, Invite(caller, team, email, invitation));
      if caller !in store.w.users {
        return Unauthorized;
      }
      var guard := TeamOwnerReply(store.w, team, caller);
      if guard != Done {
        return guard;
      }
      if email == store.w.users[caller] || EmailIsMember(store.w, team, email) {
        return Conflict;
      }
      if HasPending(store.w, team, email) {
        return Conflict;
      }
      if invitation in store.w.invitations {
        return Failed;
      }
      store.w := store.w.(invitations := store.w.invitations[invitation := Invitation(team, email, Pending)]);
      return Done;
    }

    /** `handleAcceptInvitation`. */
    method PostAccept(caller: Id, invitation: Id) returns (reply: Reply)
      modifies store
      ensures (store.w, reply) == Handle(old(store.w), Accept(caller, invitation))
      ensures AnswerPromise(old(store.w), caller, invitation, Accepted, store.w, reply)
      ensures old(WorldOk(store.w)) ==> WorldOk(store.w)
    {
      AnswerKept(store.w, caller, invitation);
      HandlePreserves(store.w, Accept(caller, invitation));
      if caller !in store.w.users {
        return Unauthorized;
      }
      var guard := PendingForCaller(store.w, caller, invitation);
      if guard != Done {
        return guard;
      }
      var found := store.Accept(invitation, caller);
      return if found then Done else Conflict;
    }

    /** `handleRejectInvitation`. */
    method PostReject(caller: Id, invitation: Id) returns (reply: Reply)
      modifies store
      ensures (store.w, reply) == Handle(old(store.w), Reject(caller, invitation))
      ensures AnswerPromise(old(store.w), caller, invitation, Rejected, store.w, reply)
      ensures old(WorldOk(store.w)) ==> WorldOk(store.w)
    {
      AnswerKept(store.w, caller, invitation);
      HandlePreserves(store.w, Reject(caller, invitation));
      if caller !in store.w.users {
        return Unauthorized;
      }
      var guard := PendingForCaller(store.w, caller, invitation);
      if guard != Done {
        return guard;
      }
      var w := store.w;
      if invitation !in w.invitations || !w.invitations[invitation].status.Pending? {
        return Conflict;
      }
      store.w := w.(invitations := w.invitations[invitation := w.invitations[invitation].(status := Rejected)]);
      return Done;
    }

    /** `handleDeleteInvitation`: a revoke; whoever is not the owner is told it does not exist. */
    method DeleteInvitation(caller: Id, invitation: Id) returns (reply: Reply)
      modifies store
      ensures (store.w, reply) == Handle(old(store.w), Revoke(caller, invitation))
      ensures RevokePromise(old(store.w), caller, invitation, store.w, reply)
      ensures old(WorldOk(store.w)) ==> WorldOk(store.w)
    {
      AnswerKept(store.w, caller, invitation);
      HandlePreserves(store.w, Revoke(caller, invitation));
      if caller !in store.w.users {
        return Unauthorized;
      }
      var guard := RevokeGuard(store.w, caller, invitation);
      if guard != Done {
        return guard;
      }
      store.w := store.w.(invitations := store.w.invitations - {invitation});
      return Done;
    }
  }

  datatype Call =
    | Register(user: Id, email: Email)
    | NewTeam(caller: Id, team: Id)
    | DropTeam(caller: Id, team: Id)
    | NewProject(caller: Id, team: Id, project: Id)
    | DropProject(caller: Id, project: Id)
    | SetProjectAccess(caller: Id, project: Id, userIds: seq<Id>)
    | SetAccess(caller: Id, team: Id, target: Id, all: Option<bool>, projectIds: seq<Id>)
    | Remove(caller: Id, team: Id, target: Id)
    | Invite(caller: Id, team: Id, email: Email, invitation: Id)
    | Accept(caller: Id, invitation: Id)
    | Reject(caller: Id, invitation: Id)
    | Revoke(caller: Id, invitation: Id)

  /** `IsEmailTeamMember`. */
  predicate EmailIsMember(w: World, team: Id, email: Email) {
    exists u :: u in w.users && w.users[u] == email && (team, u) in w.members
  }

  predicate HasPending(w: World, team: Id, email: Email) {
    exists i :: i in w.invitations && w.invitations[i] == Invitation(team, email, Pending)
  }

  /** `pendingInvitationForCaller`. */
  function PendingForCaller(w: World, caller: Id, invitation: Id): Reply
    requires caller in w.users
  {
    if invitation !in w.invitations || w.invitations[invitation].email != w.users[caller] then Missing
    else if !w.invitations[invitation].status.Pending? then Conflict
    else Done
  }

  /** The guard of `handleDeleteInvitation`. */
  function RevokeGuard(w: World, caller: Id, invitation: Id): Reply {
    if invitation !in w.invitations || TeamOwnerReply(w, w.invitations[invitation].team, caller) != Done then Missing
    else if !w.invitations[invitation].status.Pending? then Conflict
    else Done
  }

  /** The case split of `handleDeleteTeamMember`. */
  function RemoveGuard(w: World, caller: Id, team: Id, target: Id): Reply {
    if (team, caller) !in w.members then Missing
    else if team !in w.teams then Failed
    else if target == w.teams[team] then BadRequest
    else if w.teams[team] == caller || target == caller then Done
    else Missing
  }

  function Settle(w: World, r: Option<World>, otherwise: Reply): (World, Reply) {
    if r.Some? then (r.value, Done) else (w, otherwise)
  }

  ghost function Handle(w: World, call: Call): (World, Reply) {
    if !call.Register? && call.caller !in w.users then (w, Unauthorized)
    else
      match call
      case Register(user, email) =>
        if user in w.users || email in w.users.Values then (w, Conflict)
        else (w.(users := w.users[user := email]), Done)
      case NewTeam(caller, team) =>
        if team in w.teams then (w, Failed)
        else (w.(teams := w.teams[team := caller], members := w.members[(team, caller) := true]), Done)
      case DropTeam(caller, team) =>
        if TeamOwnerReply(w, team, caller) != Done then (w, TeamOwnerReply(w, team, caller))
        else (DeleteTeam(w, team), Done)
      case NewProject(caller, team, project) =>
        if (team, caller) !in w.members then (w, Missing)
        else if project in w.projects || team !in w.teams then (w, Failed)
        else (w.(projects := w.projects[project := Project(team, caller)]), Done)
      case DropProject(caller, project) =>
        if ManageReply(w, caller, project) != Done then (w, ManageReply(w, caller, project))
        else (DeleteProject(w, project), Done)
      case SetProjectAccess(caller, project, userIds) =>
        if ManageReply(w, caller, project) != Done then (w, ManageReply(w, caller, project))
        else if !AllTeamMembers(w, w.projects[project].team, Dedupe(userIds)) then (w, BadRequest)
        else (ReplaceProjectAccess(w, project, Dedupe(userIds)), Done)
      case SetAccess(caller, team, target, all, projectIds) =>
        if TeamOwnerReply(w, team, caller) != Done then (w, TeamOwnerReply(w, team, caller))
        else if target == w.teams[team] || all.None? then (w, BadRequest)
        else if !all.value && !AllTeamProjects(w, team, Dedupe(projectIds)) then (w, BadRequest)
        else Settle(w, SetMemberProjectAccess(w, team, target, all.value, Dedupe(projectIds)), Missing)
      case Remove(caller, team, target) =>
        if RemoveGuard(w, caller, team, target) != Done then (w, RemoveGuard(w, caller, team, target))
        else Settle(w, RemoveTeamMember(w, team, target), Missing)
      case Invite(caller, team, email, invitation) =>
        if TeamOwnerReply(w, team, caller) != Done then (w, TeamOwnerReply(w, team, caller))
        else if email == w.users[caller] || EmailIsMember(w, team, email) || HasPending(w, team, email)
        then (w, Conflict)
        else if invitation in w.invitations then (w, Failed)
        else (w.(invitations := w.invitations[invitation := Invitation(team, email, Pending)]), Done)
      case Accept(caller, invitation) =>
        if PendingForCaller(w, caller, invitation) != Done then (w, PendingForCaller(w, caller, invitation))
        else Settle(w, AcceptInvitation(w, invitation, caller), Conflict)
      case Reject(caller, invitation) =>
        if PendingForCaller(w, caller, invitation) != Done then (w, PendingForCaller(w, caller, invitation))
        else Settle(w, AnswerInvitation(w, invitation, Rejected), Conflict)
      case Revoke(caller, invitation) =>
        if RevokeGuard(w, caller, invitation) != Done then (w, RevokeGuard(w, caller, invitation))
        else (w.(invitations := w.invitations - {invitation}), Done)
  }

  // ------------------------------------- what each handler answers and changes

  /** The caller is the owner, and a member, of a live team. */
  ghost predicate OwnsTeam(w: World, caller: Id, team: Id) {
    caller in w.users && team in w.teams && w.teams[team] == caller && (team, caller) in w.members
  }

  /** The caller is a member of the project's live team and owns the team or the project. */
  ghost predicate RunsProject(w: World, caller: Id, project: Id) {
    caller in w.users && project in w.projects &&
    var p := w.projects[project];
    p.team in w.teams && (p.team, caller) in w.members && (w.teams[p.team] == caller || p.owner == caller)
  }

  ghost predicate InTeam(w: World, project: Id, team: Id) {
    project in w.projects && w.projects[project].team == team
  }

  ghost predicate RegisterPromise(w: World, user: Id, email: Email, w': World, reply: Reply) {
    if user in w.users || exists u :: u in w.users && w.users[u] == email then reply == Conflict && w' == w
    else reply == Done && w' == World(w.users[user := email], w.teams, w.members, w.projects, w.grants, w.invitations)
  }

  ghost predicate NewTeamPromise(w: World, caller: Id, team: Id, w': World, reply: Reply) {
    && (reply == Done <==> caller in w.users && team !in w.teams)
    && if reply != Done then w' == w
       else w' == World(w.users, w.teams[team := caller], w.members[(team, caller) := true], w.projects,
                        w.grants, w.invitations)
  }

  /** The team goes with its memberships, projects, their grants, and invitations; other teams keep all of theirs. */
  ghost predicate DropTeamPromise(w: World, caller: Id, team: Id, w': World, reply: Reply) {
    && (reply == Done <==> OwnsTeam(w, caller, team))
    && (reply == Forbidden <==>
          caller in w.users && (team, caller) in w.members && team in w.teams && w.teams[team] != caller)
    && if reply != Done then w' == w
       else
         && w'.users == w.users
         && (forall t :: t in w'.teams <==> t in w.teams && t != team)
         && (forall t :: t in w'.teams ==> w'.teams[t] == w.teams[t])
         && (forall m :: m in w'.members <==> m in w.members && m.0 != team)
         && (forall m :: m in w'.members ==> w'.members[m] == w.members[m])
         && (forall p :: p in w'.projects <==> p in w.projects && w.projects[p].team != team)
         && (forall p :: p in w'.projects ==> w'.projects[p] == w.projects[p])
         && (forall g :: g in w'.grants <==> g in w.grants && g.0 in w.projects && w.projects[g.0].team != team)
         && (forall i :: i in w'.invitations <==> i in w.invitations && w.invitations[i].team != team)
         && (forall i :: i in w'.invitations ==> w'.invitations[i] == w.invitations[i])
  }

  ghost predicate NewProjectPromise(w: World, caller: Id, team: Id, project: Id, w': World, reply: Reply) {
    && (reply == Done <==>
          caller in w.users && (team, caller) in w.members && team in w.teams && project !in w.projects)
    && if reply != Done then w' == w
       else w' == World(w.users, w.teams, w.members, w.projects[project := Project(team, caller)],
                        w.grants, w.invitations)
  }

  ghost predicate DropProjectPromise(w: World, caller: Id, project: Id, w': World, reply: Reply) {
    && (reply == Done <==> RunsProject(w, caller, project))
    && (reply == Forbidden <==> caller in w.users && Reaches(w, caller, project) && !RunsProject(w, caller, project))
    && if reply != Done then w' == w
       else
         && w' == World(w.users, w.teams, w.members, w'.projects, w'.grants, w.invitations)
         && (forall p :: p in w'.projects <==> p in w.projects && p != project)
         && (forall p :: p in w'.projects ==> w'.projects[p] == w.projects[p])
         && (forall g :: g in w'.grants <==> g in w.grants && g.0 != project)
  }

  ghost predicate SetProjectAccessPromise(
    w: World, caller: Id, project: Id, userIds: seq<Id>, w': World, reply: Reply)
  {
    var members := project in w.projects && forall u :: u in userIds ==> (w.projects[project].team, u) in w.members;
    && (reply == Unauthorized <==> caller !in w.users)
    && (reply == Missing <==> caller in w.users && !Reaches(w, caller, project))
    && (reply == Forbidden <==> caller in w.users && Reaches(w, caller, project) && !RunsProject(w, caller, project))
    && (reply == BadRequest <==> RunsProject(w, caller, project) && !members)
    && (reply == Done <==> RunsProject(w, caller, project) && members)
    && if reply != Done then w' == w
       else
         && w' == World(w.users, w.teams, w.members, w.projects, w'.grants, w.invitations)
         && (forall p, u :: (p, u) in w'.grants <==> if p == project then u in userIds else (p, u) in w.grants)
  }

  ghost predicate SetAccessPromise(
    w: World, caller: Id, team: Id, target: Id, all: Option<bool>, list: seq<Id>, w': World, reply: Reply)
  {
    var ready := OwnsTeam(w, caller, team) && target != caller && all.Some? &&
                 (all == Some(false) ==> forall p :: p in list ==> InTeam(w, p, team));
    && (reply == Unauthorized <==> caller !in w.users)
    && (reply == Forbidden <==>
          caller in w.users && (team, caller) in w.members && team in w.teams && w.teams[team] != caller)
    && (reply == BadRequest <==> OwnsTeam(w, caller, team) && !ready)
    && (reply == Done <==> ready && (team, target) in w.members)
    && if reply != Done then w' == w
       else
         && w' == World(w.users, w.teams, w.members[(team, target) := all.value], w.projects, w'.grants, w.invitations)
         && (forall p, u :: (p, u) in w'.grants <==>
               if u == target && InTeam(w, p, team) then !all.value && p in list else (p, u) in w.grants)
  }

  /** Owner and target alike may end a membership, but not the owner's; grants go in that team and nowhere else. */
  ghost predicate RemovePromise(w: World, caller: Id, team: Id, target: Id, w': World, reply: Reply) {
    && (reply == Unauthorized <==> caller !in w.users)
    && (reply == BadRequest <==>
          caller in w.users && (team, caller) in w.members && team in w.teams && target == w.teams[team])
    && (reply == Done <==>
          caller in w.users && (team, caller) in w.members && team in w.teams && target != w.teams[team] &&
          (caller == w.teams[team] || caller == target) && (team, target) in w.members)
    && if reply != Done then w' == w
       else
         && w' == World(w.users, w.teams, w'.members, w.projects, w'.grants, w.invitations)
         && (forall m :: m in w'.members <==> m in w.members && m != (team, target))
         && (forall m :: m in w'.members ==> w'.members[m] == w.members[m])
         && (forall p, u :: (p, u) in w'.grants <==> (p, u) in w.grants && !(u == target && InTeam(w, p, team)))
  }

  ghost predicate InvitePromise(
    w: World, caller: Id, team: Id, email: Email, invitation: Id, w': World, reply: Reply)
  {
    var taken := (exists u :: u in w.users && w.users[u] == email && (u == caller || (team, u) in w.members)) ||
                 exists i :: i in w.invitations && w.invitations[i] == Invitation(team, email, Pending);
    && (reply == Unauthorized <==> caller !in w.users)
    && (reply == Forbidden <==>
          caller in w.users && (team, caller) in w.members && team in w.teams && w.teams[team] != caller)
    && (reply == Conflict <==> OwnsTeam(w, caller, team) && taken)
    && (reply == Done <==> OwnsTeam(w, caller, team) && !taken && invitation !in w.invitations)
    && if reply != Done then w' == w
       else w' == World(w.users, w.teams, w.members, w.projects, w.grants,
                        w.invitations[invitation := Invitation(team, email, Pending)])
  }

  /** The invitation is addressed to the caller. */
  ghost predicate Addressed(w: World, caller: Id, invitation: Id) {
    caller in w.users && invitation in w.invitations && w.invitations[invitation].email == w.users[caller]
  }

  /** An answer by the addressee to an open invitation; an accept joins them, and leaves a membership they had alone. */
  ghost predicate AnswerPromise(w: World, caller: Id, invitation: Id, status: Status, w': World, reply: Reply) {
    && (reply == Unauthorized <==> caller !in w.users)
    && (reply == Missing <==> caller in w.users && !Addressed(w, caller, invitation))
    && (reply == Conflict <==> Addressed(w, caller, invitation) && !w.invitations[invitation].status.Pending?)
    && (reply == Done <==> Addressed(w, caller, invitation) && w.invitations[invitation].status.Pending?)
    && if reply != Done then w' == w
       else
         var was := w.invitations[invitation];
         && w' == World(w.users, w.teams, w'.members, w.projects, w.grants,
                        w.invitations[invitation := Invitation(was.team, was.email, status)])
         && w'.members ==
            if status.Accepted? && (was.team, caller) !in w.members then w.members[(was.team, caller) := true]
            else w.members
  }

  ghost predicate RevokePromise(w: World, caller: Id, invitation: Id, w': World, reply: Reply) {
    var owns := invitation in w.invitations && OwnsTeam(w, caller, w.invitations[invitation].team);
    && (reply == Unauthorized <==> caller !in w.users)
    && (reply == Missing <==> caller in w.users && !owns)
    && (reply == Conflict <==> owns && !w.invitations[invitation].status.Pending?)
    && (reply == Done <==> owns && w.invitations[invitation].status.Pending?)
    && if reply != Done then w' == w
       else
         && w' == World(w.users, w.teams, w.members, w.projects, w.grants, w'.invitations)
         && (forall i :: i in w'.invitations <==> i in w.invitations && i != invitation)
         && (forall i :: i in w'.invitations ==> w'.invitations[i] == w.invitations[i])
  }

  /** The promise of each call. */
  ghost predicate Promise(w: World, call: Call, w': World, reply: Reply) {
    match call
    case Register(user, email) => RegisterPromise(w, user, email, w', reply)
    case NewTeam(caller, team) => NewTeamPromise(w, caller, team, w', reply)
    case DropTeam(caller, team) => DropTeamPromise(w, caller, team, w', reply)
    case NewProject(caller, team, project) => NewProjectPromise(w, caller, team, project, w', reply)
    case DropProject(caller, project) => DropProjectPromise(w, caller, project, w', reply)
    case SetProjectAccess(caller, project, userIds) => SetProjectAccessPromise(w, caller, project, userIds, w', reply)
    case SetAccess(caller, team, target, all, list) => SetAccessPromise(w, caller, team, target, all, list, w', reply)
    case Remove(caller, team, target) => RemovePromise(w, caller, team, target, w', reply)
    case Invite(caller, team, email, invitation) => InvitePromise(w, caller, team, email, invitation, w', reply)
    case Accept(caller, invitation) => AnswerPromise(w, caller, invitation, Accepted, w', reply)
    case Reject(caller, invitation) => AnswerPromise(w, caller, invitation, Rejected, w', reply)
    case Revoke(caller, invitation) => RevokePromise(w, caller, invitation, w', reply)
  }

  lemma RegisterKept(w: World, user: Id, email: Email)
    ensures var r := Handle(w, Register(user, email));
            RegisterPromise(w, user, email, r.0, r.1)
  {
    assert email in w.users.Values <==> exists u :: u in w.users && w.users[u] == email;
  }

  lemma TeamCallsKept(w: World, caller: Id, team: Id, project: Id)
    ensures var r := Handle(w, NewTeam(caller, team));
            NewTeamPromise(w, caller, team, r.0, r.1)
    ensures var r := Handle(w, DropTeam(caller, team));
            DropTeamPromise(w, caller, team, r.0, r.1)
    ensures var r := Handle(w, NewProject(caller, team, project));
            NewProjectPromise(w, caller, team, project, r.0, r.1)
    ensures var r := Handle(w, DropProject(caller, project));
            DropProjectPromise(w, caller, project, r.0, r.1)
  {
  }

  lemma SetProjectAccessKept(w: World, caller: Id, project: Id, userIds: seq<Id>)
    ensures var r := Handle(w, SetProjectAccess(caller, project, userIds));
            SetProjectAccessPromise(w, caller, project, userIds, r.0, r.1)
  {
    if project in w.projects {
      AllTeamMembersExact(w, w.projects[project].team, userIds);
    }
    DedupeFacts(userIds);
    assert forall u :: u in userIds <==> u in Elements(Dedupe(userIds));
  }

  lemma GrantsSet(w: World, team: Id, target: Id, all: bool, list: seq<Id>)
    requires (team, target) in w.members && (!all ==> forall p :: p in list ==> InTeam(w, p, team))
    ensures var w' := SetMemberProjectAccess(w, team, target, all, Dedupe(list)).value;
            forall p, u :: (p, u) in w'.grants <==>
              if u == target && InTeam(w, p, team) then !all && p in list else (p, u) in w.grants
  {
    DedupeFacts(list);
    assert forall p :: p in list <==> p in Elements(Dedupe(list));
    assert forall p, u :: (p, u) in GrantsOfUserInTeam(w, team, target) <==>
                          (p, u) in w.grants && u == target && InTeam(w, p, team);
  }

  lemma SetAccessKept(w: World, caller: Id, team: Id, target: Id, all: Option<bool>, list: seq<Id>)
    ensures var r := Handle(w, SetAccess(caller, team, target, all, list));
            SetAccessPromise(w, caller, team, target, all, list, r.0, r.1)
  {
    AllTeamProjectsExact(w, team, list);
    assert (forall p :: p in list ==> InTeam(w, p, team)) <==>
           forall p :: p in list ==> p in w.projects && w.projects[p].team == team;
    var r := Handle(w, SetAccess(caller, team, target, all, list));
    if r.1 == Done {
      GrantsSet(w, team, target, all.value, list);
      assert r.0 == SetMemberProjectAccess(w, team, target, all.value, Dedupe(list)).value;
    }
  }

  lemma RemoveKept(w: World, caller: Id, team: Id, target: Id)
    ensures var r := Handle(w, Remove(caller, team, target));
            RemovePromise(w, caller, team, target, r.0, r.1)
  {
    assert forall p, u :: (p, u) in GrantsOfUserInTeam(w, team, target) <==>
                          (p, u) in w.grants && u == target && InTeam(w, p, team);
  }

  lemma InviteKept(w: World, caller: Id, team: Id, email: Email, invitation: Id)
    ensures var r := Handle(w, Invite(caller, team, email, invitation));
            InvitePromise(w, caller, team, email, invitation, r.0, r.1)
  {
  }

  lemma AnswerKept(w: World, caller: Id, invitation: Id)
    ensures var r := Handle(w, Accept(caller, invitation));
            AnswerPromise(w, caller, invitation, Accepted, r.0, r.1)
    ensures var r := Handle(w, Reject(caller, invitation));
            AnswerPromise(w, caller, invitation, Rejected, r.0, r.1)
    ensures var r := Handle(w, Revoke(caller, invitation));
            RevokePromise(w, caller, invitation, r.0, r.1)
  {
  }

  /** Every handler, from every state, answers and changes exactly what is promised, and nothing else. */
  lemma HandlePromised(w: World, call: Call)
    ensures Promise(w, call, Handle(w, call).0, Handle(w, call).1)
  {
    match call
    case Register(user, email) => RegisterKept(w, user, email);
    case NewTeam(caller, team) => TeamCallsKept(w, caller, team, 0);
    case DropTeam(caller, team) => TeamCallsKept(w, caller, team, 0);
    case NewProject(caller, team, project) => TeamCallsKept(w, caller, team, project);
    case DropProject(caller, project) => TeamCallsKept(w, caller, 0, project);
    case SetProjectAccess(caller, project, userIds) => SetProjectAccessKept(w, caller, project, userIds);
    case SetAccess(caller, team, target, all, list) => SetAccessKept(w, caller, team, target, all, list);
    case Remove(caller, team, target) => RemoveKept(w, caller, team, target);
    case Invite(caller, team, email, invitation) => InviteKept(w, caller, team, email, invitation);
    case Accept(caller, invitation) => AnswerKept(w, caller, invitation);
    case Reject(caller, invitation) => AnswerKept(w, caller, invitation);
    case Revoke(caller, invitation) => AnswerKept(w, caller, invitation);
  }

  ghost function RunHandlers(w: World, calls: seq<Call>): World
    decreases |calls|
  {
    if calls == [] then w else RunHandlers(Handle(w, calls[0]).0, calls[1..])
  }

  // -------------------------------------------------------------- invariant

  ghost predicate OwnersAreMembers(w: World) {
    forall t :: t in w.teams ==> (t, w.teams[t]) in w.members && w.members[(t, w.teams[t])]
  }

  /** Rows refer to live rows: the foreign keys. */
  ghost predicate KeysLive(w: World) {
    && (forall m :: m in w.members ==> m.0 in w.teams && m.1 in w.users)
    && (forall p :: p in w.projects ==> w.projects[p].team in w.teams)
    && (forall i :: i in w.invitations ==> w.invitations[i].team in w.teams)
    && (forall g :: g in w.grants ==> g.0 in w.projects)
  }

  ghost predicate GrantsNameMembers(w: World) {
    forall g :: g in w.grants ==> g.0 in w.projects && (w.projects[g.0].team, g.1) in w.members
  }

  ghost predicate EmailsUnique(w: World) {
    forall u, v :: u in w.users && v in w.users && w.users[u] == w.users[v] ==> u == v
  }

  ghost predicate OnePendingEach(w: World) {
    forall i, j :: i in w.invitations && j in w.invitations && i != j &&
                   w.invitations[i].status.Pending? && w.invitations[j].status.Pending?
      ==> w.invitations[i].team != w.invitations[j].team || w.invitations[i].email != w.invitations[j].email
  }

  ghost predicate NoPendingForMembers(w: World) {
    forall i, u :: i in w.invitations && w.invitations[i].status.Pending? &&
                   u in w.users && w.users[u] == w.invitations[i].email
      ==> (w.invitations[i].team, u) !in w.members
  }

  ghost predicate WorldOk(w: World) {
    && OwnersAreMembers(w) && KeysLive(w) && GrantsNameMembers(w)
    && EmailsUnique(w) && OnePendingEach(w) && NoPendingForMembers(w)
  }

  lemma NewcomerHasNoPending(w: World, w': World, user: Id)
    requires KeysLive(w) && NoPendingForMembers(w) && user !in w.users
    requires w'.members == w.members && w'.invitations == w.invitations && w'.users.Keys == w.users.Keys + {user}
    requires forall u :: u in w.users ==> w'.users[u] == w.users[u]
    ensures NoPendingForMembers(w')
  {
    assert forall t :: (t, user) !in w.members;
  }

  lemma NewcomerEmailUnique(w: World, user: Id, email: Email)
    requires EmailsUnique(w) && user !in w.users && email !in w.users.Values
    ensures EmailsUnique(w.(users := w.users[user := email]))
  {
    assert forall u :: u in w.users ==> w.users[u] in w.users.Values;
  }

  lemma RegisterKeeps(w: World, user: Id, email: Email)
    requires WorldOk(w)
    ensures WorldOk(Handle(w, Register(user, email)).0)
  {
    var w' := Handle(w, Register(user, email)).0;
    if w' != w {
      NewcomerHasNoPending(w, w', user);
      NewcomerEmailUnique(w, user, email);
      assert OwnersAreMembers(w');
      assert KeysLive(w');
      assert GrantsNameMembers(w');
      assert OnePendingEach(w');
    }
  }

  lemma DropTeamRows(w: World, team: Id)
    requires OwnersAreMembers(w) && KeysLive(w) && GrantsNameMembers(w)
    ensures var w' := DeleteTeam(w, team);
            OwnersAreMembers(w') && KeysLive(w') && GrantsNameMembers(w')
  {
    var w' := DeleteTeam(w, team);
    assert OwnersAreMembers(w');
    assert KeysLive(w');
  }

  lemma DropTeamKeeps(w: World, team: Id)
    requires WorldOk(w)
    ensures WorldOk(DeleteTeam(w, team))
  {
    DropTeamRows(w, team);
    var w' := DeleteTeam(w, team);
    assert forall i :: i in w'.invitations ==> i in w.invitations && w'.invitations[i] == w.invitations[i];
    assert forall m :: m in w'.members ==> m in w.members;
    assert OnePendingEach(w');
    assert NoPendingForMembers(w');
  }

  lemma DropProjectKeeps(w: World, project: Id)
    requires WorldOk(w)
    ensures WorldOk(DeleteProject(w, project))
  {
    var w' := DeleteProject(w, project);
    assert KeysLive(w');
    assert GrantsNameMembers(w');
    assert NoPendingForMembers(w');
  }

  lemma RevokeKeeps(w: World, id: Id)
    requires WorldOk(w)
    ensures WorldOk(w.(invitations := w.invitations - {id}))
  {
    var w' := w.(invitations := w.invitations - {id});
    assert OwnersAreMembers(w');
    assert GrantsNameMembers(w');
    assert NoPendingForMembers(w');
  }

  lemma SetProjectAccessKeeps(w: World, project: Id, userIds: seq<Id>)
    requires WorldOk(w) && project in w.projects && AllTeamMembers(w, w.projects[project].team, Dedupe(userIds))
    ensures WorldOk(ReplaceProjectAccess(w, project, Dedupe(userIds)))
  {
    AllTeamMembersExact(w, w.projects[project].team, userIds);
    DedupeFacts(userIds);
    var w' := ReplaceProjectAccess(w, project, Dedupe(userIds));
    forall g | g in w'.grants ensures g.0 in w.projects && (w.projects[g.0].team, g.1) in w.members {
      if g !in w.grants || g.0 == project {
        assert g.1 in Elements(Dedupe(userIds));
      }
    }
  }

  lemma SetAccessKeeps(w: World, team: Id, target: Id, all: bool, projectIds: seq<Id>)
    requires WorldOk(w) && team in w.teams && target != w.teams[team] && (team, target) in w.members
    requires !all ==> AllTeamProjects(w, team, Dedupe(projectIds))
    ensures WorldOk(SetMemberProjectAccess(w, team, target, all, Dedupe(projectIds)).value)
  {
    AllTeamProjectsExact(w, team, projectIds);
    DedupeFacts(projectIds);
    var w' := SetMemberProjectAccess(w, team, target, all, Dedupe(projectIds)).value;
    forall g | g in w'.grants ensures g.0 in w.projects && (w.projects[g.0].team, g.1) in w'.members {
      if g !in w.grants {
        assert g.0 in Elements(Dedupe(projectIds));
      }
    }
  }

  lemma RemoveKeeps(w: World, team: Id, target: Id)
    requires WorldOk(w) && team in w.teams && target != w.teams[team] && (team, target) in w.members
    ensures WorldOk(RemoveTeamMember(w, team, target).value)
  {
    var w' := RemoveTeamMember(w, team, target).value;
    forall g | g in w'.grants ensures g.0 in w.projects && (w.projects[g.0].team, g.1) in w'.members {
      assert g !in GrantsOfUserInTeam(w, team, target);
    }
  }

  lemma AnswerKeeps(w: World, id: Id, status: Status)
    requires WorldOk(w) && AnswerInvitation(w, id, status).Some? && !status.Pending?
    ensures WorldOk(AnswerInvitation(w, id, status).value)
  {
    var w' := AnswerInvitation(w, id, status).value;
    assert OwnersAreMembers(w');
    assert KeysLive(w');
    assert GrantsNameMembers(w');
    assert OnePendingEach(w');
    assert NoPendingForMembers(w');
  }

  /** With no other pending invitation to the same address, the new member has none left. */
  lemma JoinKeeps(w: World, team: Id, user: Id)
    requires WorldOk(w) && team in w.teams && user in w.users && (team, user) !in w.members
    requires !HasPending(w, team, w.users[user])
    ensures WorldOk(w.(members := w.members[(team, user) := true]))
  {
    var w' := w.(members := w.members[(team, user) := true]);
    assert OwnersAreMembers(w');
    assert KeysLive(w');
    assert GrantsNameMembers(w');
    forall i, u | i in w.invitations && w.invitations[i].status.Pending? &&
                  u in w.users && w.users[u] == w.invitations[i].email
      ensures (w.invitations[i].team, u) !in w'.members
    {
      assert w.invitations[i] == Invitation(w.invitations[i].team, w.invitations[i].email, Pending);
    }
    assert NoPendingForMembers(w');
  }

  lemma AcceptKeeps(w: World, id: Id, caller: Id)
    requires WorldOk(w) && caller in w.users && PendingForCaller(w, caller, id) == Done
    ensures WorldOk(AcceptInvitation(w, id, caller).value)
  {
    AnswerKeeps(w, id, Accepted);
    var w1 := AnswerInvitation(w, id, Accepted).value;
    var team := w.invitations[id].team;
    forall j | j in w1.invitations ensures w1.invitations[j] != Invitation(team, w.users[caller], Pending) {
      assert j != id ==> w1.invitations[j] == w.invitations[j];
    }
    if (team, caller) !in w.members {
      JoinKeeps(w1, team, caller);
    }
  }

  lemma NewTeamHasNoPending(w: World, w': World, caller: Id, team: Id)
    requires KeysLive(w) && NoPendingForMembers(w) && team !in w.teams
    requires w'.users == w.users && w'.invitations == w.invitations && w'.members == w.members[(team, caller) := true]
    ensures NoPendingForMembers(w')
  {
  }

  lemma NewTeamKeeps(w: World, caller: Id, team: Id)
    requires WorldOk(w) && caller in w.users && team !in w.teams
    ensures WorldOk(w.(teams := w.teams[team := caller], members := w.members[(team, caller) := true]))
  {
    var w' := w.(teams := w.teams[team := caller], members := w.members[(team, caller) := true]);
    NewTeamHasNoPending(w, w', caller, team);
    assert OwnersAreMembers(w');
    assert KeysLive(w');
    assert GrantsNameMembers(w');
  }

  lemma NewProjectKeeps(w: World, team: Id, project: Id, owner: Id)
    requires WorldOk(w) && team in w.teams && project !in w.projects
    ensures WorldOk(w.(projects := w.projects[project := Project(team, owner)]))
  {
    var w' := w.(projects := w.projects[project := Project(team, owner)]);
    assert KeysLive(w');
    assert GrantsNameMembers(w');
    assert NoPendingForMembers(w');
  }

  lemma AccessCallKeeps(w: World, call: Call)
    requires WorldOk(w) && (call.SetProjectAccess? || call.SetAccess? || call.Remove?)
    ensures WorldOk(Handle(w, call).0)
  {
    if Handle(w, call).0 != w {
      match call
      case SetProjectAccess(_, project, userIds) => SetProjectAccessKeeps(w, project, userIds);
      case SetAccess(_, team, target, all, projectIds) => SetAccessKeeps(w, team, target, all.value, projectIds);
      case Remove(_, team, target) => RemoveKeeps(w, team, target);
    }
  }

  lemma InvitationCallKeeps(w: World, call: Call)
    requires WorldOk(w) && (call.Invite? || call.Accept? || call.Reject? || call.Revoke?)
    ensures WorldOk(Handle(w, call).0)
  {
    if Handle(w, call).0 != w {
      match call
      case Invite(_, team, email, invitation) => InviteKeeps(w, team, email, invitation);
      case Accept(caller, invitation) => AcceptKeeps(w, invitation, caller);
      case Reject(_, invitation) => AnswerKeeps(w, invitation, Rejected);
      case Revoke(_, invitation) => RevokeKeeps(w, invitation);
    }
  }

  lemma TeamCallKeeps(w: World, call: Call)
    requires WorldOk(w) && (call.NewTeam? || call.DropTeam? || call.NewProject? || call.DropProject?)
    ensures WorldOk(Handle(w, call).0)
  {
    if Handle(w, call).0 != w {
      match call
      case NewTeam(caller, team) => NewTeamKeeps(w, caller, team);
      case DropTeam(_, team) => DropTeamKeeps(w, team);
      case NewProject(caller, team, project) => NewProjectKeeps(w, team, project, caller);
      case DropProject(_, project) => DropProjectKeeps(w, project);
    }
  }

  /** Every handler, run to its end, keeps the invariant, whatever it answers. */
  lemma HandleKeeps(w: World, call: Call)
    requires WorldOk(w)
    ensures WorldOk(Handle(w, call).0)
  {
    match call
    case Register(user, email) => RegisterKeeps(w, user, email);
    case SetProjectAccess(_, _, _) => AccessCallKeeps(w, call);
    case SetAccess(_, _, _, _, _) => AccessCallKeeps(w, call);
    case Remove(_, _, _) => AccessCallKeeps(w, call);
    case Invite(_, _, _, _) => InvitationCallKeeps(w, call);
    case Accept(_, _) => InvitationCallKeeps(w, call);
    case Reject(_, _) => InvitationCallKeeps(w, call);
    case Revoke(_, _) => InvitationCallKeeps(w, call);
    case _ => TeamCallKeeps(w, call);
  }

  lemma HandlePreserves(w: World, call: Call)
    ensures WorldOk(w) ==> WorldOk(Handle(w, call).0)
  {
    if WorldOk(w) {
      HandleKeeps(w, call);
    }
  }

  lemma InvitedOnce(w: World, w': World, invitation: Id, added: Invitation)
    requires OnePendingEach(w) && invitation !in w.invitations && added.status.Pending?
    requires w'.invitations == w.invitations[invitation := added] && !HasPending(w, added.team, added.email)
    ensures OnePendingEach(w')
  {
    forall i | i in w.invitations && w.invitations[i].status.Pending?
      ensures w.invitations[i].team != added.team || w.invitations[i].email != added.email
    {
      assert w.invitations[i] == Invitation(w.invitations[i].team, w.invitations[i].email, Pending);
    }
  }

  lemma InvitedStranger(w: World, w': World, invitation: Id, added: Invitation)
    requires NoPendingForMembers(w) && invitation !in w.invitations && !EmailIsMember(w, added.team, added.email)
    requires w' == w.(invitations := w.invitations[invitation := added])
    ensures NoPendingForMembers(w')
  {
  }

  lemma InviteKeeps(w: World, team: Id, email: Email, invitation: Id)
    requires WorldOk(w) && team in w.teams && invitation !in w.invitations
    requires !EmailIsMember(w, team, email) && !HasPending(w, team, email)
    ensures WorldOk(w.(invitations := w.invitations[invitation := Invitation(team, email, Pending)]))
  {
    var w' := w.(invitations := w.invitations[invitation := Invitation(team, email, Pending)]);
    InvitedOnce(w, w', invitation, Invitation(team, email, Pending));
    InvitedStranger(w, w', invitation, Invitation(team, email, Pending));
    assert OwnersAreMembers(w');
    assert KeysLive(w');
    assert GrantsNameMembers(w');
  }

  lemma {:induction false} RunKeeps(w: World, calls: seq<Call>)
    requires WorldOk(w)
    ensures WorldOk(RunHandlers(w, calls))
    decreases |calls|
  {
    if calls != [] {
      HandleKeeps(w, calls[0]);
      RunKeeps(Handle(w, calls[0]).0, calls[1..]);
    }
  }

  // ---------------------------------------------------------- main theorems

  /**
   In every reachable state grants name members, owners see everything, and
   pending invitations are unique and never address a member.
   */
  lemma ReachableWorlds(calls: seq<Call>)
    ensures var w := RunHandlers(EMPTY_WORLD, calls);
            && (forall g :: g in w.grants ==> g.0 in w.projects && (w.projects[g.0].team, g.1) in w.members)
            && (forall t :: t in w.teams ==> (t, w.teams[t]) in w.members && w.members[(t, w.teams[t])])
            && OnePendingEach(w) && NoPendingForMembers(w)
  {
    RunKeeps(EMPTY_WORLD, calls);
  }

  /** The team's owner reaches every project of the team, always. */
  lemma OwnerReachesAll(calls: seq<Call>, project: Id)
    requires project in RunHandlers(EMPTY_WORLD, calls).projects
    ensures var w := RunHandlers(EMPTY_WORLD, calls);
            var team := w.projects[project].team;
            team in w.teams && Reaches(w, w.teams[team], project)
  {
    RunKeeps(EMPTY_WORLD, calls);
  }

  lemma SetAccessDone(w: World, caller: Id, team: Id, target: Id, all: bool, list: seq<Id>)
    requires Handle(w, SetAccess(caller, team, target, Some(all), list)).1 == Done
    ensures team in w.teams && target != w.teams[team] && (team, target) in w.members
    ensures !all ==> AllTeamProjects(w, team, Dedupe(list))
    ensures Some(Handle(w, SetAccess(caller, team, target, Some(all), list)).0) ==
            SetMemberProjectAccess(w, team, target, all, Dedupe(list))
  {
  }

  lemma RestrictedGrants(w: World, team: Id, target: Id, list: seq<Id>, p: Id, u: Id)
    requires (team, target) in w.members && p in w.projects
    requires forall q :: q in list ==> q in w.projects && w.projects[q].team == team
    ensures var w' := SetMemberProjectAccess(w, team, target, false, Dedupe(list)).value;
            (p, u) in w'.grants <==>
              if u == target && w.projects[p].team == team then p in list else (p, u) in w.grants
  {
    DedupeFacts(list);
    assert p in list <==> p in Elements(Dedupe(list));
    assert (p, target) in w.grants && w.projects[p].team == team ==> (p, target) in GrantsOfUserInTeam(w, team, target);
  }

  lemma RestrictedRule(w: World, team: Id, target: Id, list: seq<Id>, p: Id, u: Id)
    requires team in w.teams && target != w.teams[team] && (team, target) in w.members && p in w.projects
    requires forall q :: q in list ==> q in w.projects && w.projects[q].team == team
    ensures var w' := SetMemberProjectAccess(w, team, target, false, Dedupe(list)).value;
            Reaches(w', u, p) <==> RestrictedTo(w, team, target, list, p, u)
  {
    RestrictedGrants(w, team, target, list, p, u);
  }

  /**
   Who reaches what once `target` is restricted to a list in `team`: the list
   and what they own there; all else as before.
   */
  predicate RestrictedTo(w: World, team: Id, target: Id, list: seq<Id>, p: Id, u: Id)
    requires p in w.projects
  {
    if u == target && w.projects[p].team == team then p in list || w.projects[p].owner == target
    else Reaches(w, u, p)
  }

  /**
   Right after an owner restricts a member to a list, that member reaches in
   the team exactly the listed projects and the ones they own, from any state;
   nobody else's reach changes, nor the member's in other teams.
   */
  lemma RestrictedReach(w: World, caller: Id, team: Id, target: Id, list: seq<Id>, p: Id, u: Id)
    requires Handle(w, SetAccess(caller, team, target, Some(false), list)).1 == Done && p in w.projects
    ensures var w' := Handle(w, SetAccess(caller, team, target, Some(false), list)).0;
            && w'.projects == w.projects
            && (p in list ==> w.projects[p].team == team)
            && (Reaches(w', u, p) <==> RestrictedTo(w, team, target, list, p, u))
  {
    SetAccessDone(w, caller, team, target, false, list);
    AllTeamProjectsExact(w, team, list);
    RestrictedRule(w, team, target, list, p, u);
  }

  lemma RestrictedEverywhere(w: World, caller: Id, team: Id, target: Id, list: seq<Id>)
    ensures var r := Handle(w, SetAccess(caller, team, target, Some(false), list));
            r.1 == Done ==>
              forall p, u :: p in w.projects ==> (Reaches(r.0, u, p) <==> RestrictedTo(w, team, target, list, p, u))
  {
    var r := Handle(w, SetAccess(caller, team, target, Some(false), list));
    if r.1 == Done {
      forall p, u | p in w.projects ensures Reaches(r.0, u, p) <==> RestrictedTo(w, team, target, list, p, u) {
        RestrictedReach(w, caller, team, target, list, p, u);
      }
    }
  }

  lemma {:induction false} RunAppend(w: World, a: seq<Call>, b: seq<Call>)
    ensures RunHandlers(w, a + b) == RunHandlers(RunHandlers(w, a), b)
    decreases |a|
  {
    if a == [] {
      assert a + b == b;
    } else {
      assert (a + b)[1..] == a[1..] + b;
      RunAppend(Handle(w, a[0]).0, a[1..], b);
    }
  }

  /** Hence at the end of every run that ends with the restriction, whatever joins, removals and rejoins came before. */
  lemma RestrictedAfterAnyHistory(calls: seq<Call>, caller: Id, team: Id, target: Id, list: seq<Id>, p: Id)
    requires Handle(RunHandlers(EMPTY_WORLD, calls), SetAccess(caller, team, target, Some(false), list)).1 == Done
    requires p in RunHandlers(EMPTY_WORLD, calls).projects && RunHandlers(EMPTY_WORLD, calls).projects[p].team == team
    ensures var w' := RunHandlers(EMPTY_WORLD, calls + [SetAccess(caller, team, target, Some(false), list)]);
            p in w'.projects && (Reaches(w', target, p) <==> p in list || w'.projects[p].owner == target)
  {
    var call := SetAccess(caller, team, target, Some(false), list);
    RunAppend(EMPTY_WORLD, calls, [call]);
    assert RunHandlers(Handle(RunHandlers(EMPTY_WORLD, calls), call).0, [call][1..]) ==
           Handle(RunHandlers(EMPTY_WORLD, calls), call).0;
    RestrictedReach(RunHandlers(EMPTY_WORLD, calls), caller, team, target, list, p, target);
  }

  /** Who reaches what once a project's list is replaced: listed members, both owners, and members with all projects. */
  lemma SharedReach(w: World, caller: Id, project: Id, userIds: seq<Id>, p: Id, u: Id)
    requires Handle(w, SetProjectAccess(caller, project, userIds)).1 == Done && p in w.projects
    ensures project in w.projects
    ensures var w' := Handle(w, SetProjectAccess(caller, project, userIds)).0;
            var team := w.projects[project].team;
            && (forall v :: v in userIds ==> (team, v) in w.members)
            && (Reaches(w', u, p) <==>
                  if p != project then Reaches(w, u, p)
                  else (team, u) in w.members &&
                       (w.members[(team, u)] || w.teams[team] == u || w.projects[p].owner == u || u in userIds))
  {
    AllTeamMembersExact(w, w.projects[project].team, userIds);
    DedupeFacts(userIds);
    assert u in userIds <==> u in Elements(Dedupe(userIds));
  }

  // --------------------------------------------------- the all_projects flag

  function GrantsTo(user: Id, projects: seq<Id>): set<(Id, Id)> {
    set p | p in projects :: (p, user)
  }

  /** Turning the flag on clears the member's list in the team, whatever it was. */
  lemma TurningOnClearsTheList(w: World, caller: Id, team: Id, target: Id, list: seq<Id>)
    requires Handle(w, SetAccess(caller, team, target, Some(true), list)).1 == Done
    ensures GrantsOfUserInTeam(Handle(w, SetAccess(caller, team, target, Some(true), list)).0, team, target) == {}
  {
    SetAccessDone(w, caller, team, target, true, list);
  }

  /**
   Turning the flag off, from any state, makes the member's list exactly the
   one sent: one configured before, on either side, comes back only by being
   sent again.
   */
  lemma TogglingForgetsTheList(w: World, caller: Id, team: Id, target: Id, list: seq<Id>)
    requires Handle(w, SetAccess(caller, team, target, Some(false), list)).1 == Done
    ensures GrantsOfUserInTeam(Handle(w, SetAccess(caller, team, target, Some(false), list)).0, team, target) ==
            GrantsTo(target, list)
  {
    var off := Handle(w, SetAccess(caller, team, target, Some(false), list)).0;
    SetAccessDone(w, caller, team, target, false, list);
    AllTeamProjectsExact(w, team, list);
    forall g ensures g in GrantsOfUserInTeam(off, team, target) <==> g in GrantsTo(target, list) {
      if g.0 in w.projects {
        RestrictedGrants(w, team, target, list, g.0, g.1);
      }
    }
  }

  /** User 1 owns team 7 with project 9, user 2 has accepted an invitation to it. */
  function TwoMembers(): seq<Call> {
    [Register(1, 1), Register(2, 2), NewTeam(1, 7), NewProject(1, 7, 9), Invite(1, 7, 2, 5), Accept(2, 5)]
  }

  /**
   User 1 restricts user 2 to project 9, lifts the restriction, and lists user
   2 for project 9 from the project's side.
   */
  function ListedOnBothSides(): seq<Call> {
    [SetAccess(1, 7, 2, Some(false), [9]), SetAccess(1, 7, 2, Some(true), []), SetProjectAccess(1, 9, [2])]
  }

  ghost predicate Example(w: World, all: bool, grants: set<(Id, Id)>) {
    && 1 in w.users && 2 in w.users
    && 7 in w.teams && w.teams[7] == 1
    && (7, 1) in w.members && w.members[(7, 1)] && (7, 2) in w.members && w.members[(7, 2)] == all
    && 9 in w.projects && w.projects[9] == Project(7, 1) && w.grants == grants
  }

  lemma ExampleFounded(w: World)
    requires w == EMPTY_WORLD
    ensures RunHandlers(w, TwoMembers()[..4]) ==
            World(map[1 := 1, 2 := 2], map[7 := 1], map[(7, 1) := true], map[9 := Project(7, 1)], {}, map[])
  {
    var w1 := Handle(w, Register(1, 1)).0;
    var w2 := Handle(w1, Register(2, 2)).0;
    var w3 := Handle(w2, NewTeam(1, 7)).0;
    var calls := TwoMembers()[..4];
    assert calls[1..][1..] == [NewTeam(1, 7), NewProject(1, 7, 9)];
    assert RunHandlers(w, calls) == Handle(w3, NewProject(1, 7, 9)).0;
  }

  lemma ExampleJoined(w: World)
    requires w == World(map[1 := 1, 2 := 2], map[7 := 1], map[(7, 1) := true], map[9 := Project(7, 1)], {}, map[])
    ensures Example(RunHandlers(w, TwoMembers()[4..]), true, {})
  {
    var w1 := Handle(w, Invite(1, 7, 2, 5)).0;
    assert w1.invitations == map[5 := Invitation(7, 2, Pending)];
    assert TwoMembers()[4..] == [Invite(1, 7, 2, 5), Accept(2, 5)];
    assert RunHandlers(w, TwoMembers()[4..]) == Handle(w1, Accept(2, 5)).0;
  }

  lemma SetAccessGoes(w: World, caller: Id, team: Id, target: Id, all: bool, list: seq<Id>)
    requires caller in w.users && TeamOwnerReply(w, team, caller) == Done &&
             target != caller && (team, target) in w.members
    requires !all ==> AllTeamProjects(w, team, Dedupe(list))
    ensures Handle(w, SetAccess(caller, team, target, Some(all), list)) ==
            (SetMemberProjectAccess(w, team, target, all, Dedupe(list)).value, Done)
  {
  }

  lemma ExampleSetAccess(w: World, before: bool, grants: set<(Id, Id)>, all: bool, list: seq<Id>)
    requires Example(w, before, grants) && grants <= {(9, 2)} && Elements(list) <= {9}
    ensures Handle(w, SetAccess(1, 7, 2, Some(all), list)).1 == Done
    ensures Example(Handle(w, SetAccess(1, 7, 2, Some(all), list)).0, all, if all then {} else GrantsTo(2, list))
  {
    assert forall p :: p in list ==> p in Elements(list);
    AllTeamProjectsExact(w, 7, list);
    SetAccessGoes(w, 1, 7, 2, all, list);
    DedupeFacts(list);
    assert forall p :: p in list <==> p in Elements(Dedupe(list));
    assert GrantsOfUserInTeam(w, 7, 2) == grants;
  }

  lemma ExampleShare(w: World, all: bool, grants: set<(Id, Id)>)
    requires Example(w, all, grants) && grants <= {(9, 2)}
    ensures Example(Handle(w, SetProjectAccess(1, 9, [2])).0, all, {(9, 2)})
  {
    AllTeamMembersExact(w, 7, [2]);
    DedupeFacts([2]);
    assert Elements(Dedupe([2])) == {2};
    assert forall u :: u in Dedupe([2]) <==> u in Elements(Dedupe([2]));
  }

  lemma ExampleListed(w: World)
    requires Example(w, true, {})
    ensures Example(RunHandlers(w, ListedOnBothSides()), true, {(9, 2)})
  {
    var calls := ListedOnBothSides();
    var w1 := Handle(w, calls[0]).0;
    var w2 := Handle(w1, calls[1]).0;
    ExampleSetAccess(w, true, {}, false, [9]);
    ExampleSetAccess(w1, false, GrantsTo(2, [9]), true, []);
    ExampleShare(w2, true, {});
    assert calls[1..][1..] == [calls[2]];
    assert RunHandlers(w, calls) == Handle(w2, calls[2]).0;
  }

  lemma ExampleReached(w: World)
    requires w == EMPTY_WORLD
    ensures Example(RunHandlers(w, TwoMembers() + ListedOnBothSides()), true, {(9, 2)})
  {
    var founded := RunHandlers(w, TwoMembers()[..4]);
    assert TwoMembers()[..4] + TwoMembers()[4..] == TwoMembers();
    RunAppend(w, TwoMembers()[..4], TwoMembers()[4..]);
    RunAppend(w, TwoMembers(), ListedOnBothSides());
    ExampleFounded(w);
    ExampleJoined(founded);
    ExampleListed(RunHandlers(founded, TwoMembers()[4..]));
  }

  /**
   A reachable case: project 9 is on user 2's list, configured from both
   sides; the flag goes off with no list sent, and project 9 is out of reach.
   */
  lemma TogglingExample()
    ensures var w := RunHandlers(EMPTY_WORLD, TwoMembers() + ListedOnBothSides());
            var off := Handle(w, SetAccess(1, 7, 2, Some(false), []));
            && GrantsOfUserInTeam(w, 7, 2) == {(9, 2)} && Reaches(w, 2, 9)
            && off.1 == Done && GrantsOfUserInTeam(off.0, 7, 2) == {} && !Reaches(off.0, 2, 9)
  {
    var w := RunHandlers(EMPTY_WORLD, TwoMembers() + ListedOnBothSides());
    ExampleReached(EMPTY_WORLD);
    ExampleSetAccess(w, true, {(9, 2)}, false, []);
    assert (9, 2) in GrantsOfUserInTeam(w, 7, 2);
  }

  // ------------------------------------------------------ joining and leaving

  /** Leaving ends all access in the team, for good: not even a grant row survives. */
  lemma RemovedReachesNothing(w: World, caller: Id, team: Id, target: Id, p: Id)
    requires Handle(w, Remove(caller, team, target)).1 == Done && p in w.projects && w.projects[p].team == team
    ensures var w' := Handle(w, Remove(caller, team, target)).0;
            !Reaches(w', target, p) && (p, target) !in w'.grants
  {
    assert (p, target) in w.grants ==> (p, target) in GrantsOfUserInTeam(w, team, target);
  }

  /** And nothing else ends: everyone's grants and reach outside that, and the leaver's in every other team, stay. */
  lemma RemovedElsewhere(w: World, caller: Id, team: Id, target: Id)
    ensures var r := Handle(w, Remove(caller, team, target));
            forall p, u :: p in w.projects && (u != target || w.projects[p].team != team) ==>
              ((p, u) in r.0.grants <==> (p, u) in w.grants) && (Reaches(r.0, u, p) <==> Reaches(w, u, p))
  {
    RemoveKept(w, caller, team, target);
  }

  /** A revoked invitation cannot be accepted any more. */
  lemma RevokedIsGone(w: World, owner: Id, invitation: Id, caller: Id)
    requires Handle(w, Revoke(owner, invitation)).1 == Done && caller in w.users
    ensures var w' := Handle(w, Revoke(owner, invitation)).0;
            Handle(w', Accept(caller, invitation)) == (w', Missing)
  {
  }

  /** Whoever accepts starts with every project of the team, however they were restricted in an earlier membership. */
  lemma AcceptedReachesAll(w: World, caller: Id, invitation: Id, p: Id)
    requires KeysLive(w) && NoPendingForMembers(w) && Handle(w, Accept(caller, invitation)).1 == Done
    requires p in w.projects && w.projects[p].team == w.invitations[invitation].team
    ensures Reaches(Handle(w, Accept(caller, invitation)).0, caller, p)
  {
    assert (w.invitations[invitation].team, caller) !in w.members;
  }
}
