/**
 The webhook endpoint quota: count and insert run under the project lock, next
 to unlocked deletes of endpoints and projects coming and going.
 */
module Quota {
  import opened Common

  datatype Stage = Started | Locked | Counted | Finished(created: bool)

  datatype Creation = Creation(project: Id, stage: Stage)

  /** `endpoints` maps each endpoint to its project; `issued` holds every project id ever used. */
  datatype System = System(
    projects: set<Id>, issued: set<Id>, endpoints: map<Id, Id>, locks: Locks, creations: map<nat, Creation>)

  datatype Action =
    | Begin(t: nat, project: Id)
    | Advance(t: nat, endpoint: Id, slugTaken: bool)
    | DropEndpoint(endpoint: Id)
    | NewProject(project: Id)
    | DropProject(project: Id)

  const INITIAL := System({}, {}, map[], map[], map[])

  /** `CountWebhookEndpointsInProject`. */
  function Endpoints(s: System, project: Id): set<Id> {
    set e | e in s.endpoints && s.endpoints[e] == project
  }

  function Goto(s: System, t: nat, stage: Stage): System
    requires t in s.creations
  {
    s.(creations := s.creations[t := s.creations[t].(stage := stage)])
  }

  function Finish(s: System, t: nat, created: bool): System
    requires t in s.creations
  {
    Goto(s, t, Finished(created)).(locks := Release(s.locks, t))
  }

  /** One statement of `CreateWebhookEndpointWithQuota`. */
  function AdvanceCreation(s: System, t: nat, endpoint: Id, slugTaken: bool, max: nat): System
    requires t in s.creations
  {
    var project := s.creations[t].project;
    match s.creations[t].stage
    case Started =>
      (match Acquire(s.projects, s.locks, project, t)
       case None => s
       case Some(locks) => Goto(s, t, Locked).(locks := locks))
    case Locked => if |Endpoints(s, project)| >= max then Finish(s, t, false) else Goto(s, t, Counted)
    case Counted =>
      if endpoint in s.endpoints || slugTaken || project !in s.projects then Finish(s, t, false)
      else Finish(s, t, true).(endpoints := s.endpoints[endpoint := project])
    case Finished(_) => s
  }

  function Step(s: System, a: Action, max: nat): System {
    match a
    case Begin(t, project) =>
      if t in s.creations || project !in s.projects then s
      else s.(creations := s.creations[t := Creation(project, Started)])
    case Advance(t, endpoint, slugTaken) =>
      if t in s.creations then AdvanceCreation(s, t, endpoint, slugTaken, max) else s
    case DropEndpoint(endpoint) => s.(endpoints := s.endpoints - {endpoint})
    case NewProject(project) =>
      if project in s.issued then s else s.(projects := s.projects + {project}, issued := s.issued + {project})
    case DropProject(project) =>
      if project in s.locks then s
      else s.(projects := s.projects - {project},
              endpoints := map e | e in s.endpoints && s.endpoints[e] != project :: s.endpoints[e])
  }

  function Run(s: System, actions: seq<Action>, max: nat): System
    decreases |actions|
  {
    if actions == [] then s else Run(Step(s, actions[0], max), actions[1..], max)
  }

  ghost predicate CreationOk(s: System, t: nat, max: nat)
    requires t in s.creations
  {
    var c := s.creations[t];
    && c.project in s.issued
    && (c.stage.Locked? || c.stage.Counted? ==>
          (c.project in s.projects ==> c.project in s.locks && s.locks[c.project] == t))
    && (c.stage.Counted? ==> |Endpoints(s, c.project)| < max)
  }

  ghost predicate Inv(s: System, max: nat) {
    && s.projects <= s.issued
    && (forall p :: |Endpoints(s, p)| <= max)
    && (forall t :: t in s.creations ==> CreationOk(s, t, max))
  }

  lemma SmallerSet<T>(a: set<T>, b: set<T>)
    requires a <= b
    ensures |a| <= |b|
  {
    assert b == a + (b - a);
  }

  /** Steps that add no endpoint and revive no project. */
  lemma ShrinkKeeps(s: System, s': System, t: nat, max: nat)
    requires Inv(s, max) && s'.issued >= s.issued && s'.projects <= s'.issued
    requires forall p :: p in s'.projects && p in s.issued ==> p in s.projects
    requires forall p :: Endpoints(s', p) <= Endpoints(s, p)
    requires forall u :: u in s'.creations && u != t ==> u in s.creations && s'.creations[u] == s.creations[u]
    requires forall p :: p in s.locks && s.locks[p] != t ==> p in s'.locks && s'.locks[p] == s.locks[p]
    requires t in s'.creations ==> CreationOk(s', t, max)
    ensures Inv(s', max)
  {
    forall p ensures |Endpoints(s', p)| <= |Endpoints(s, p)| {
      SmallerSet(Endpoints(s', p), Endpoints(s, p));
    }
    forall u | u in s'.creations && u != t ensures CreationOk(s', u, max) {
      assert CreationOk(s, u, max);
    }
  }

  lemma CountAfterInsert(s: System, s': System, endpoint: Id, project: Id, p: Id)
    requires endpoint !in s.endpoints && s'.endpoints == s.endpoints[endpoint := project]
    ensures |Endpoints(s', p)| == |Endpoints(s, p)| + if p == project then 1 else 0
  {
    assert Endpoints(s', p) == Endpoints(s, p) + if p == project then {endpoint} else {};
  }

  /** While one creation is past its count, no other is past its own for the same project. */
  lemma CountedAlone(s: System, t: nat, u: nat, max: nat)
    requires Inv(s, max) && t in s.creations && u in s.creations && t != u
    requires s.creations[t].stage.Counted? && s.creations[u].stage.Counted? && s.creations[t].project in s.projects
    ensures s.creations[u].project != s.creations[t].project
  {
    assert CreationOk(s, t, max) && CreationOk(s, u, max);
  }

  lemma InsertKeeps(s: System, t: nat, endpoint: Id, max: nat)
    requires Inv(s, max) && t in s.creations && s.creations[t].stage.Counted?
    requires endpoint !in s.endpoints && s.creations[t].project in s.projects
    ensures Inv(Step(s, Advance(t, endpoint, false), max), max)
  {
    var s', project := Step(s, Advance(t, endpoint, false), max), s.creations[t].project;
    assert CreationOk(s, t, max);
    forall p ensures |Endpoints(s', p)| <= max {
      CountAfterInsert(s, s', endpoint, project, p);
    }
    forall u | u in s'.creations ensures CreationOk(s', u, max) {
      assert CreationOk(s, u, max);
      CountAfterInsert(s, s', endpoint, project, s.creations[u].project);
      if u != t && s.creations[u].stage.Counted? {
        CountedAlone(s, t, u, max);
      }
    }
  }

  lemma AdvanceKeeps(s: System, t: nat, endpoint: Id, slugTaken: bool, max: nat)
    requires Inv(s, max) && t in s.creations
    ensures Inv(Step(s, Advance(t, endpoint, slugTaken), max), max)
  {
    var s', c := Step(s, Advance(t, endpoint, slugTaken), max), s.creations[t];
    assert CreationOk(s, t, max);
    if c.stage.Counted? && endpoint !in s.endpoints && !slugTaken && c.project in s.projects {
      InsertKeeps(s, t, endpoint, max);
    } else {
      assert forall p :: Endpoints(s', p) == Endpoints(s, p);
      ShrinkKeeps(s, s', t, max);
    }
  }

  lemma StepKeeps(s: System, a: Action, max: nat)
    requires Inv(s, max)
    ensures Inv(Step(s, a, max), max)
  {
    var s' := Step(s, a, max);
    match a
    case Begin(t, _) => if s' != s { ShrinkKeeps(s, s', t, max); }
    case Advance(t, endpoint, slugTaken) => if t in s.creations { AdvanceKeeps(s, t, endpoint, slugTaken, max); }
    case DropEndpoint(_) => OthersKeep(s, s', max);
    case NewProject(_) => OthersKeep(s, s', max);
    case DropProject(_) => OthersKeep(s, s', max);
  }

  lemma OthersKeep(s: System, s': System, max: nat)
    requires Inv(s, max) && s'.issued >= s.issued && s'.projects <= s'.issued
    requires forall p :: p in s'.projects && p in s.issued ==> p in s.projects
    requires forall e :: e in s'.endpoints ==> e in s.endpoints && s'.endpoints[e] == s.endpoints[e]
    requires s'.creations == s.creations && s'.locks == s.locks
    ensures Inv(s', max)
  {
    forall p ensures |Endpoints(s', p)| <= |Endpoints(s, p)| {
      SmallerSet(Endpoints(s', p), Endpoints(s, p));
    }
    forall u | u in s'.creations ensures CreationOk(s', u, max) {
      assert CreationOk(s, u, max);
    }
  }

  lemma {:induction false} RunKeeps(s: System, actions: seq<Action>, max: nat)
    requires Inv(s, max)
    ensures Inv(Run(s, actions, max), max)
    decreases |actions|
  {
    if actions != [] {
      StepKeeps(s, actions[0], max);
      RunKeeps(Step(s, actions[0], max), actions[1..], max);
    }
  }

  /** In any interleaving of creates and deletes no project ever holds more than the allowed number of endpoints. */
  lemma QuotaHolds(actions: seq<Action>, max: nat, project: Id)
    ensures |Endpoints(Run(INITIAL, actions, max), project)| <= max
  {
    assert forall p :: Endpoints(INITIAL, p) == {};
    RunKeeps(INITIAL, actions, max);
  }

  // ------------------------------------------------------ what each step does

  /** The count step refuses exactly when the project's endpoints have reached the quota. */
  lemma CountRefusesAtQuota(s: System, t: nat, endpoint: Id, slugTaken: bool, max: nat)
    requires t in s.creations && s.creations[t].stage.Locked?
    ensures var project := s.creations[t].project;
            var s' := Step(s, Advance(t, endpoint, slugTaken), max);
            && s'.endpoints == s.endpoints
            && s'.creations[t].stage ==
               if |set e | e in s.endpoints && s.endpoints[e] == project| >= max then Finished(false) else Counted
  {
    var project := s.creations[t].project;
    assert Endpoints(s, project) == set e | e in s.endpoints && s.endpoints[e] == project;
  }

  /** The state with creation t inside its transaction. */
  function Inside(s: System, t: nat, project: Id, stage: Stage): System {
    s.(locks := s.locks[project := t], creations := s.creations[t := Creation(project, stage)])
  }

  /** The state with creation t over and these endpoints. */
  function Over(s: System, t: nat, project: Id, created: bool, endpoints: map<Id, Id>): System {
    s.(endpoints := endpoints, creations := s.creations[t := Creation(project, Finished(created))])
  }

  lemma LocksAlone(s: System, t: nat, project: Id, endpoint: Id, slugTaken: bool, max: nat)
    requires t !in s.creations && project in s.projects && project !in s.locks
    ensures Step(Step(s, Begin(t, project), max), Advance(t, endpoint, slugTaken), max) == Inside(s, t, project, Locked)
  {
    assert s.creations[t := Creation(project, Started)][t := Creation(project, Locked)] ==
           s.creations[t := Creation(project, Locked)];
  }

  lemma FinishAlone(s: System, t: nat, project: Id, stage: Stage, created: bool)
    requires project !in s.locks && forall p :: p in s.locks ==> s.locks[p] != t
    ensures Finish(Inside(s, t, project, stage), t, created) == Over(s, t, project, created, s.endpoints)
  {
    assert Release(s.locks[project := t], t) == s.locks;
    assert s.creations[t := Creation(project, stage)][t := Creation(project, Finished(created))] ==
           s.creations[t := Creation(project, Finished(created))];
  }

  lemma CountsAlone(s: System, t: nat, project: Id, endpoint: Id, slugTaken: bool, max: nat)
    requires project !in s.locks && forall p :: p in s.locks ==> s.locks[p] != t
    ensures Step(Inside(s, t, project, Locked), Advance(t, endpoint, slugTaken), max) ==
            if |Endpoints(s, project)| >= max
            then Over(s, t, project, false, s.endpoints)
            else Inside(s, t, project, Counted)
  {
    assert Endpoints(Inside(s, t, project, Locked), project) == Endpoints(s, project);
    FinishAlone(s, t, project, Locked, false);
    assert s.creations[t := Creation(project, Locked)][t := Creation(project, Counted)] ==
           s.creations[t := Creation(project, Counted)];
  }

  lemma InsertsAlone(s: System, t: nat, project: Id, endpoint: Id, slugTaken: bool, max: nat)
    requires project in s.projects && project !in s.locks && forall p :: p in s.locks ==> s.locks[p] != t
    ensures var created := !slugTaken && endpoint !in s.endpoints;
            Step(Inside(s, t, project, Counted), Advance(t, endpoint, slugTaken), max) ==
            Over(s, t, project, created, if created then s.endpoints[endpoint := project] else s.endpoints)
  {
    FinishAlone(s, t, project, Counted, !slugTaken && endpoint !in s.endpoints);
  }

  /**
   A create nobody interrupts, in a live project that has the endpoints `own`
   and that nobody has locked: it adds the endpoint exactly when the quota
   leaves room and neither id nor slug is taken, changes nothing else, and
   holds no lock at the end.
   */
  lemma CreateAlone(
    s: System, t: nat, project: Id, own: set<Id>, endpoint: Id, slugTaken: bool, max: nat)
    requires forall e :: e in own <==> e in s.endpoints && s.endpoints[e] == project
    requires t !in s.creations && project in s.projects && project !in s.locks
    requires forall p :: p in s.locks ==> s.locks[p] != t
    ensures var a := Advance(t, endpoint, slugTaken);
            var created := |own| < max && !slugTaken && endpoint !in s.endpoints;
            Run(s, [Begin(t, project), a, a, a], max) ==
            System(s.projects, s.issued,
                   if created then s.endpoints[endpoint := project] else s.endpoints,
                   s.locks,
                   s.creations[t := Creation(project, Finished(created))])
  {
    var a := Advance(t, endpoint, slugTaken);
    assert own == Endpoints(s, project);
    RunFour(s, Begin(t, project), a, a, a, max);
    LocksAlone(s, t, project, endpoint, slugTaken, max);
    CountsAlone(s, t, project, endpoint, slugTaken, max);
    if |own| < max {
      InsertsAlone(s, t, project, endpoint, slugTaken, max);
    }
  }

  lemma RunFirst(s: System, a: Action, rest: seq<Action>, max: nat)
    ensures Run(s, [a] + rest, max) == Run(Step(s, a, max), rest, max)
  {
    assert ([a] + rest)[1..] == rest;
  }

  lemma RunFour(s: System, a: Action, b: Action, c: Action, d: Action, max: nat)
    ensures Run(s, [a, b, c, d], max) == Step(Step(Step(Step(s, a, max), b, max), c, max), d, max)
  {
    RunFirst(s, a, [b, c, d], max);
    RunFirst(Step(s, a, max), b, [c, d], max);
    RunFirst(Step(Step(s, a, max), b, max), c, [d], max);
    RunFirst(Step(Step(Step(s, a, max), b, max), c, max), d, [], max);
    assert [a] + [b, c, d] == [a, b, c, d] && [b] + [c, d] == [b, c, d] && [c] + [d] == [c, d] && [d] + [] == [d];
  }

  /** A fresh project is there to be used. */
  lemma NewProjectRuns(s: System, project: Id, max: nat)
    ensures var s' := Step(s, NewProject(project), max);
            if project in s.issued then s' == s
            else s' == s.(projects := s.projects + {project}, issued := s.issued + {project})
  {
  }

  /** Deletes remove exactly what they name: one endpoint, or a project nobody has locked with all of its own. */
  lemma DeletesRun(s: System, endpoint: Id, project: Id, max: nat)
    ensures var s' := Step(s, DropEndpoint(endpoint), max);
            && s' == s.(endpoints := s'.endpoints)
            && (forall e :: e in s'.endpoints <==> e in s.endpoints && e != endpoint)
            && (forall e :: e in s'.endpoints ==> s'.endpoints[e] == s.endpoints[e])
    ensures var s' := Step(s, DropProject(project), max);
            if project in s.locks then s' == s
            else
              && s' == s.(projects := s'.projects, endpoints := s'.endpoints)
              && (forall p :: p in s'.projects <==> p in s.projects && p != project)
              && (forall e :: e in s'.endpoints <==> e in s.endpoints && s.endpoints[e] != project)
              && (forall e :: e in s'.endpoints ==> s'.endpoints[e] == s.endpoints[e])
  {
  }
}
