/**
 Accept, reject and revoke as concurrent requests: each reads and checks the
 invitation first and writes in a later step, so any number of them can be
 between the two at once.
 */
module Invitations {
  import opened Common
  import opened Teams

  datatype Intent = ToAccept | ToReject | ToRevoke

  datatype Stage = Arrived | Vetted | Replied(reply: Reply)

  datatype Session = Session(intent: Intent, caller: Id, invitation: Id, stage: Stage)

  datatype System = System(w: World, sessions: map<nat, Session>)

  datatype Event =
    | Arrive(sid: nat, intent: Intent, caller: Id, invitation: Id)
    | Proceed(sid: nat)

  /** The check a handler runs before it writes. */
  function Vet(w: World, x: Session): Reply {
    if x.caller !in w.users then Unauthorized
    else if x.intent.ToRevoke? then RevokeGuard(w, x.caller, x.invitation)
    else PendingForCaller(w, x.caller, x.invitation)
  }

  /** The write: guarded on `pending` for answers, unguarded for a revoke. */
  function Write(w: World, x: Session): (World, Reply) {
    match x.intent
    case ToAccept => Settle(w, AcceptInvitation(w, x.invitation, x.caller), Conflict)
    case ToReject => Settle(w, AnswerInvitation(w, x.invitation, Rejected), Conflict)
    case ToRevoke => (w.(invitations := w.invitations - {x.invitation}), Done)
  }

  function Next(s: System, e: Event): System {
    match e
    case Arrive(sid, intent, caller, invitation) =>
      if sid in s.sessions then s
      else s.(sessions := s.sessions[sid := Session(intent, caller, invitation, Arrived)])
    case Proceed(sid) =>
      if sid !in s.sessions then s else
        var x := s.sessions[sid];
        match x.stage
        case Arrived =>
          var stage := if Vet(s.w, x) == Done then Vetted else Replied(Vet(s.w, x));
          s.(sessions := s.sessions[sid := x.(stage := stage)])
        case Vetted =>
          var (w, reply) := Write(s.w, x);
          System(w, s.sessions[sid := x.(stage := Replied(reply))])
        case Replied(_) => s
  }

  function Run(s: System, events: seq<Event>): System
    decreases |events|
  {
    if events == [] then s else Run(Next(s, events[0]), events[1..])
  }

  /** A request that was told it answered the invitation. */
  predicate Won(s: System, sid: nat, invitation: Id) {
    sid in s.sessions && s.sessions[sid].invitation == invitation &&
    !s.sessions[sid].intent.ToRevoke? && s.sessions[sid].stage == Replied(Done)
  }

  /** A winning accept that joined `user` to `team`. */
  predicate Joined(w0: World, s: System, sid: nat, team: Id, user: Id) {
    sid in s.sessions && Won(s, sid, s.sessions[sid].invitation) && s.sessions[sid].intent.ToAccept? &&
    s.sessions[sid].invitation in w0.invitations &&
    w0.invitations[s.sessions[sid].invitation].team == team && s.sessions[sid].caller == user
  }

  // -------------------------------------------------------------- invariant

  /** Rows are only answered or removed; nothing else about them changes. */
  ghost predicate RowsTraceBack(w0: World, s: System) {
    forall i :: i in s.w.invitations ==>
      i in w0.invitations && s.w.invitations[i].team == w0.invitations[i].team &&
      s.w.invitations[i].email == w0.invitations[i].email
  }

  /** A changed status has a winner, and a winner's answer is the status. */
  ghost predicate StatusHasWinner(w0: World, s: System) {
    forall i :: i in s.w.invitations && i in w0.invitations ==>
      s.w.invitations[i].status == w0.invitations[i].status || exists sid :: Won(s, sid, i)
  }

  ghost predicate WinnersAnswered(w0: World, s: System) {
    forall sid :: sid in s.sessions && Won(s, sid, s.sessions[sid].invitation) ==>
      var x := s.sessions[sid];
      && x.invitation in w0.invitations && x.caller in w0.users
      && w0.invitations[x.invitation].email == w0.users[x.caller]
      && w0.invitations[x.invitation].status.Pending?
      && (x.invitation in s.w.invitations ==>
            s.w.invitations[x.invitation].status == if x.intent.ToAccept? then Accepted else Rejected)
  }

  ghost predicate OneWinner(s: System) {
    forall a, b, i :: Won(s, a, i) && Won(s, b, i) ==> a == b
  }

  ghost predicate MembersFromWinners(w0: World, s: System) {
    forall team: Id, user: Id :: (team, user) in s.w.members <==>
      (team, user) in w0.members || exists sid :: Joined(w0, s, sid, team, user)
  }

  ghost predicate VettedAddressee(w0: World, s: System) {
    forall sid :: sid in s.sessions && s.sessions[sid].stage.Vetted? && !s.sessions[sid].intent.ToRevoke? ==>
      var x := s.sessions[sid];
      x.invitation in w0.invitations && x.caller in w0.users &&
      w0.invitations[x.invitation].email == w0.users[x.caller] &&
      w0.invitations[x.invitation].status.Pending?
  }

  ghost predicate Inv(w0: World, s: System) {
    && s.w.users == w0.users
    && RowsTraceBack(w0, s) && StatusHasWinner(w0, s) && WinnersAnswered(w0, s)
    && OneWinner(s) && MembersFromWinners(w0, s) && VettedAddressee(w0, s)
  }

  /** A pending row was pending from the start and nobody has won it. */
  lemma PendingIsUnanswered(w0: World, s: System, i: Id)
    requires Inv(w0, s) && i in s.w.invitations && s.w.invitations[i].status.Pending?
    ensures i in w0.invitations && w0.invitations[i].status.Pending?
    ensures forall sid :: !Won(s, sid, i)
  {
    forall sid ensures !Won(s, sid, i) {
      assert sid in s.sessions && s.sessions[sid].invitation == i ==> !Won(s, sid, s.sessions[sid].invitation);
    }
  }

  /** A session moves on without becoming a winner. */
  lemma QuietKeeps(w0: World, s: System, s': System, sid: nat)
    requires Inv(w0, s) && s'.w == s.w && sid in s'.sessions &&
             s' == s.(sessions := s.sessions[sid := s'.sessions[sid]])
    requires sid in s.sessions ==> !(s.sessions[sid].stage == Replied(Done))
    requires !(s'.sessions[sid].stage == Replied(Done))
    requires s'.sessions[sid].stage.Vetted? && !s'.sessions[sid].intent.ToRevoke? ==>
               var x := s'.sessions[sid];
               x.invitation in w0.invitations && x.caller in w0.users &&
               w0.invitations[x.invitation].email == w0.users[x.caller] &&
               w0.invitations[x.invitation].status.Pending?
    ensures Inv(w0, s')
  {
    SameWinners(s, s', sid);
    forall i | i in s'.w.invitations && i in w0.invitations
      ensures s'.w.invitations[i].status == w0.invitations[i].status || exists k :: Won(s', k, i)
    {
      if s.w.invitations[i].status != w0.invitations[i].status {
        var k :| Won(s, k, i);
        assert Won(s', k, i);
      }
    }
    SameJoins(w0, s, s', sid);
  }

  lemma SameWinners(s: System, s': System, sid: nat)
    requires sid in s'.sessions && s'.sessions == s.sessions[sid := s'.sessions[sid]]
    requires sid in s.sessions ==> !(s.sessions[sid].stage == Replied(Done))
    requires !(s'.sessions[sid].stage == Replied(Done))
    ensures forall k, i :: Won(s', k, i) <==> Won(s, k, i)
  {
  }

  lemma SameJoins(w0: World, s: System, s': System, sid: nat)
    requires sid in s'.sessions && s'.sessions == s.sessions[sid := s'.sessions[sid]] && s'.w.members == s.w.members
    requires sid in s.sessions ==> !(s.sessions[sid].stage == Replied(Done))
    requires !(s'.sessions[sid].stage == Replied(Done))
    requires MembersFromWinners(w0, s)
    ensures MembersFromWinners(w0, s')
  {
    forall team: Id, user: Id ensures (team, user) in s'.w.members <==>
                              (team, user) in w0.members || exists k :: Joined(w0, s', k, team, user) {
      assert forall k :: Joined(w0, s', k, team, user) <==> Joined(w0, s, k, team, user);
    }
  }

  ghost predicate CanWin(s: System, sid: nat) {
    sid in s.sessions && s.sessions[sid].stage.Vetted? && !s.sessions[sid].intent.ToRevoke? &&
    s.sessions[sid].invitation in s.w.invitations && s.w.invitations[s.sessions[sid].invitation].status.Pending?
  }

  lemma WinnersAfterWin(s: System, sid: nat)
    requires CanWin(s, sid)
    ensures var s', i := Next(s, Proceed(sid)), s.sessions[sid].invitation;
            && (forall k, j :: Won(s', k, j) <==> Won(s, k, j) || (k == sid && j == i))
            && s'.w.users == s.w.users
            && s'.w.invitations == s.w.invitations[i := s'.w.invitations[i]]
            && s'.w.invitations[i] ==
               s.w.invitations[i].(status := if s.sessions[sid].intent.ToAccept? then Accepted else Rejected)
  {
  }

  lemma WinStatus(w0: World, s: System, s': System, sid: nat, i: Id)
    requires StatusHasWinner(w0, s) && Won(s', sid, i)
    requires forall k, j :: Won(s, k, j) ==> Won(s', k, j)
    requires i in s.w.invitations && s'.w.invitations.Keys == s.w.invitations.Keys
    requires forall j :: j in s.w.invitations && j != i ==> s'.w.invitations[j] == s.w.invitations[j]
    ensures StatusHasWinner(w0, s')
  {
    forall j | j in s'.w.invitations && j in w0.invitations
      ensures s'.w.invitations[j].status == w0.invitations[j].status || exists k :: Won(s', k, j)
    {
      if j != i && s.w.invitations[j].status != w0.invitations[j].status {
        var k :| Won(s, k, j);
        assert Won(s', k, j);
      }
    }
  }

  lemma WinAnswered(w0: World, s: System, sid: nat)
    requires WinnersAnswered(w0, s) && VettedAddressee(w0, s) && CanWin(s, sid)
    requires forall k :: !Won(s, k, s.sessions[sid].invitation)
    ensures WinnersAnswered(w0, Next(s, Proceed(sid))) && VettedAddressee(w0, Next(s, Proceed(sid)))
  {
    WinnersAfterWin(s, sid);
    var s', i := Next(s, Proceed(sid)), s.sessions[sid].invitation;
    forall k | k in s'.sessions && Won(s', k, s'.sessions[k].invitation)
      ensures k != sid ==> Won(s, k, s.sessions[k].invitation) && s.sessions[k].invitation != i
    {
      if k != sid {
        assert s'.sessions[k] == s.sessions[k];
      }
    }
  }

  /** The step by which a session wins. */
  lemma WinKeeps(w0: World, s: System, sid: nat)
    requires Inv(w0, s) && CanWin(s, sid)
    ensures Inv(w0, Next(s, Proceed(sid)))
  {
    var s', i := Next(s, Proceed(sid)), s.sessions[sid].invitation;
    PendingIsUnanswered(w0, s, i);
    WinnersAfterWin(s, sid);
    WinStatus(w0, s, s', sid, i);
    WinAnswered(w0, s, sid);
    WinJoins(w0, s, sid);
  }

  lemma WinJoins(w0: World, s: System, sid: nat)
    requires MembersFromWinners(w0, s) && RowsTraceBack(w0, s) && CanWin(s, sid)
    ensures MembersFromWinners(w0, Next(s, Proceed(sid)))
  {
    var s', x := Next(s, Proceed(sid)), s.sessions[sid];
    forall team: Id, user: Id ensures (team, user) in s'.w.members <==>
                              (team, user) in w0.members || exists k :: Joined(w0, s', k, team, user) {
      assert forall k :: k != sid ==> (Joined(w0, s', k, team, user) <==> Joined(w0, s, k, team, user));
      assert !Joined(w0, s, sid, team, user);
      assert Joined(w0, s', sid, team, user) <==>
             x.intent.ToAccept? && team == w0.invitations[x.invitation].team && user == x.caller;
      assert (team, user) in s'.w.members <==> (team, user) in s.w.members || Joined(w0, s', sid, team, user);
    }
  }

  /** A revoke removes the row, answered or not. */
  lemma RevokedKeeps(w0: World, s: System, sid: nat)
    requires Inv(w0, s) && sid in s.sessions && s.sessions[sid].stage.Vetted? && s.sessions[sid].intent.ToRevoke?
    ensures Inv(w0, Next(s, Proceed(sid)))
  {
    var s' := Next(s, Proceed(sid));
    assert forall k, i :: Won(s', k, i) <==> Won(s, k, i);
    assert StatusHasWinner(w0, s') by {
      forall i | i in s'.w.invitations && i in w0.invitations && s.w.invitations[i].status != w0.invitations[i].status
        ensures exists k :: Won(s', k, i)
      {
        var k :| Won(s, k, i);
        assert Won(s', k, i);
      }
    }
    forall team: Id, user: Id ensures (team, user) in s'.w.members <==>
                              (team, user) in w0.members || exists k :: Joined(w0, s', k, team, user) {
      assert forall k :: Joined(w0, s', k, team, user) <==> Joined(w0, s, k, team, user);
    }
  }

  lemma NextKeeps(w0: World, s: System, e: Event)
    requires Inv(w0, s)
    ensures Inv(w0, Next(s, e))
  {
    var s' := Next(s, e);
    if s' != s {
      match e
      case Arrive(sid, _, _, _) => QuietKeeps(w0, s, s', sid);
      case Proceed(sid) =>
        var x := s.sessions[sid];
        if x.stage.Arrived? {
          if Vet(s.w, x) == Done && !x.intent.ToRevoke? {
            PendingIsUnanswered(w0, s, x.invitation);
          }
          QuietKeeps(w0, s, s', sid);
        } else if x.intent.ToRevoke? {
          RevokedKeeps(w0, s, sid);
        } else if CanWin(s, sid) {
          WinKeeps(w0, s, sid);
        } else {
          QuietKeeps(w0, s, s', sid);
        }
    }
  }

  lemma {:induction false} RunKeeps(w0: World, s: System, events: seq<Event>)
    requires Inv(w0, s)
    ensures Inv(w0, Run(s, events))
    decreases |events|
  {
    if events != [] {
      NextKeeps(w0, s, events[0]);
      RunKeeps(w0, Next(s, events[0]), events[1..]);
    }
  }

  /**
   In any interleaving an invitation is answered at most once, only by its
   addressee and only while it was pending, and a user becomes a member of a
   team exactly through a winning accept of one of its invitations.
   */
  lemma AnsweredAtMostOnce(w0: World, events: seq<Event>, a: nat, b: nat, i: Id)
    requires Won(Run(System(w0, map[]), events), a, i) && Won(Run(System(w0, map[]), events), b, i)
    ensures a == b
    ensures var x := Run(System(w0, map[]), events).sessions[a];
            && i in w0.invitations && w0.invitations[i].status.Pending?
            && x.caller in w0.users && w0.users[x.caller] == w0.invitations[i].email
  {
    RunKeeps(w0, System(w0, map[]), events);
  }

  lemma JoinedOnlyByWinning(w0: World, events: seq<Event>, team: Id, user: Id)
    ensures var s := Run(System(w0, map[]), events);
            (team, user) in s.w.members <==>
            (team, user) in w0.members || exists sid :: Joined(w0, s, sid, team, user)
  {
    RunKeeps(w0, System(w0, map[]), events);
  }

  /**
   A surviving row tells the outcome: still pending means nobody won, otherwise
   exactly one session did, as the status says.
   */
  lemma StatusTellsWinner(w0: World, events: seq<Event>, i: Id)
    requires i in Run(System(w0, map[]), events).w.invitations
    requires i in w0.invitations && w0.invitations[i].status.Pending?
    ensures var s := Run(System(w0, map[]), events);
            match s.w.invitations[i].status
            case Pending => forall sid :: !Won(s, sid, i)
            case Accepted => exists sid :: Won(s, sid, i) && s.sessions[sid].intent.ToAccept?
            case Rejected => exists sid :: Won(s, sid, i) && s.sessions[sid].intent.ToReject?
  {
    RunKeeps(w0, System(w0, map[]), events);
    var s := Run(System(w0, map[]), events);
    if s.w.invitations[i].status.Pending? {
      PendingIsUnanswered(w0, s, i);
    } else {
      var sid :| Won(s, sid, i);
      assert Won(s, sid, s.sessions[sid].invitation);
    }
  }

  // ---------------------------------- a request nobody interrupts is the handler

  function AsCall(intent: Intent, caller: Id, invitation: Id): Call {
    match intent
    case ToAccept => Accept(caller, invitation)
    case ToReject => Reject(caller, invitation)
    case ToRevoke => Revoke(caller, invitation)
  }

  lemma RunThree(s: System, a: Event, b: Event, c: Event)
    ensures Run(s, [a, b, c]) == Next(Next(Next(s, a), b), c)
  {
    assert [a, b, c][1..] == [b, c] && [b, c][1..] == [c] && [c][1..] == [];
    assert Run(s, [a, b, c]) == Run(Next(s, a), [b, c]);
    assert Run(Next(s, a), [b, c]) == Run(Next(Next(s, a), b), [c]);
  }

  /** Check and write in a row answer and change exactly what the handler run at once does. */
  lemma AloneIsTheHandler(s: System, sid: nat, intent: Intent, caller: Id, invitation: Id)
    requires sid !in s.sessions
    ensures var s' := Run(s, [Arrive(sid, intent, caller, invitation), Proceed(sid), Proceed(sid)]);
            var (w, reply) := Handle(s.w, AsCall(intent, caller, invitation));
            && s'.w == w && Promise(s.w, AsCall(intent, caller, invitation), s'.w, reply)
            && s'.sessions == s.sessions[sid := Session(intent, caller, invitation, Replied(reply))]
  {
    var s1 := Next(s, Arrive(sid, intent, caller, invitation));
    var s2 := Next(s1, Proceed(sid));
    var s3 := Next(s2, Proceed(sid));
    RunThree(s, Arrive(sid, intent, caller, invitation), Proceed(sid), Proceed(sid));
    HandlePromised(s.w, AsCall(intent, caller, invitation));
    assert s3.sessions == s.sessions[sid := s3.sessions[sid]];
  }
}
