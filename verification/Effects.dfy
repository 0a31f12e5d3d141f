/** The handlers read the other way round: not what each does to all the tables, but what becomes of
    each row in any step, said in the columns' own terms. */
module Effects {
  import opened Basics
  import opened Rows
  import opened Maintenance
  import opened Handlers
  import opened Moves

  /** Registered and in good standing. */
  predicate Acts(db: Db, q: Id) { q in db.agents && db.agents[q].status == AgentActive }

  /** Registered, if only soft-banned. */
  predicate Calls(db: Db, q: Id) { q in db.agents && db.agents[q].status in {AgentActive, SoftBanned} }

  // ---------------------------------------------------------------- sessions

  function ClosedFor(r: Session, now: Time, why: CloseReason): Session {
    r.(status := Closed, closedAt := Some(now), closeReason := Some(why))
  }

  /** Proposed by the other member. */
  predicate Offered(r: Session, q: Id) {
    r.status == MatchProposed && r.proposedBy.Some? && r.proposedBy.value != q
  }

  function SessionAfter(db: Db, now: Time, e: Event, sid: Id): Session
    requires sid in db.sessions
  {
    var r := db.sessions[sid];
    match e
    case DoRelayActivate(s) =>
      if s == sid && r.status == AwaitingJoin
      then r.(status := Active, activeAt := Some(now), expiresAt := now + 30 * MINUTE) else r
    case DoRelayCount(s, count) => if s == sid then r.(messageCount := count) else r
    case DoRelayClose(s, why, final) =>
      if s != sid then r
      else ClosedFor(r, now, why).(messageCount := if final.Some? then final.value else r.messageCount)
    case DoProposeMatch(q, s) =>
      if s == sid && Acts(db, q) && q in {r.agentA, r.agentB} && r.status == Active
      then r.(status := MatchProposed, proposedBy := Some(q), proposedAt := Some(now)) else r
    case DoAcceptMatch(q, s) =>
      if s == sid && Acts(db, q) && q in {r.agentA, r.agentB} && Offered(r, q)
      then r.(status := MatchConfirmed, confirmedAt := Some(now), expiresAt := now + 10 * MINUTE) else r
    case DoRejectMatch(q, s) =>
      if s == sid && Acts(db, q) && q in {r.agentA, r.agentB} && Offered(r, q)
      then r.(status := Active, proposedBy := None, proposedAt := None) else r
    case DoEndSession(q, s) =>
      if s == sid && Acts(db, q) && q in {r.agentA, r.agentB} && r.status != Closed
      then ClosedFor(r, now, EndedByAgent) else r
    case DoBlock(q, t, _) =>
      if Acts(db, q) && t in db.agents && t != q && {r.agentA, r.agentB} == {q, t} && r.status != Closed
      then ClosedFor(r, now, Blocked) else r
    case DoDeleteAccount(q) =>
      if Calls(db, q) && q in {r.agentA, r.agentB} && r.status != Closed then ClosedFor(r, now, AccountDeleted) else r
    case DoMaintenance =>
      if r.status == Closed || now < r.expiresAt then r
      else ClosedFor(r, now, if r.status == AwaitingJoin then AwaitingJoinExpired
                        else if r.status == MatchConfirmed then HandoffComplete else TimeLimitReached)
    case _ => r
  }

  lemma BlockedSessions(db: Db, now: Time, e: Event, sid: Id)
    requires sid in db.sessions && (e.DoBlock?)
    ensures sid in Step(db, now, e).sessions && Step(db, now, e).sessions[sid] == SessionAfter(db, now, e, sid)
  {
    hide Register, Poll, CreateIntent, DeleteIntent, RefreshIntent, Connect, AcceptRequest, RejectRequest,
      CancelRequest, ProposeMatch, AcceptMatch, RejectMatch, EndSession, UnblockAgent, DeleteAccount,
      RelayActivate, RelayCount, RelayClose, Maintained, CheckSoftBan;
  }

  lemma DeletedSessions(db: Db, now: Time, e: Event, sid: Id)
    requires sid in db.sessions && (e.DoDeleteAccount?)
    ensures sid in Step(db, now, e).sessions && Step(db, now, e).sessions[sid] == SessionAfter(db, now, e, sid)
  {
    hide Register, Poll, CreateIntent, DeleteIntent, RefreshIntent, Connect, AcceptRequest, RejectRequest,
      CancelRequest, ProposeMatch, AcceptMatch, RejectMatch, EndSession, BlockAgent, UnblockAgent,
      RelayActivate, RelayCount, RelayClose, Maintained;
  }

  lemma OverdueSessions(db: Db, now: Time, e: Event, sid: Id)
    requires sid in db.sessions && (e.DoMaintenance?)
    ensures sid in Step(db, now, e).sessions && Step(db, now, e).sessions[sid] == SessionAfter(db, now, e, sid)
  {
    hide Register, Poll, CreateIntent, DeleteIntent, RefreshIntent, Connect, AcceptRequest, RejectRequest,
      CancelRequest, ProposeMatch, AcceptMatch, RejectMatch, EndSession, BlockAgent, UnblockAgent,
      DeleteAccount, RelayActivate, RelayCount, RelayClose;
  }

  lemma RelaySessions(db: Db, now: Time, e: Event, sid: Id)
    requires sid in db.sessions && (e.DoRelayActivate? || e.DoRelayCount? || e.DoRelayClose?)
    ensures sid in Step(db, now, e).sessions && Step(db, now, e).sessions[sid] == SessionAfter(db, now, e, sid)
  {
    hide Register, Poll, CreateIntent, DeleteIntent, RefreshIntent, Connect, AcceptRequest, RejectRequest,
      CancelRequest, ProposeMatch, AcceptMatch, RejectMatch, EndSession, BlockAgent, UnblockAgent,
      DeleteAccount, Maintained;
  }

  lemma MatchedSessions(db: Db, now: Time, e: Event, sid: Id)
    requires sid in db.sessions && (e.DoProposeMatch? || e.DoAcceptMatch? || e.DoRejectMatch?)
    ensures sid in Step(db, now, e).sessions && Step(db, now, e).sessions[sid] == SessionAfter(db, now, e, sid)
  {
    hide Register, Poll, CreateIntent, DeleteIntent, RefreshIntent, Connect, AcceptRequest, RejectRequest,
      CancelRequest, EndSession, BlockAgent, UnblockAgent, DeleteAccount, RelayActivate, RelayCount,
      RelayClose, Maintained;
  }

  lemma OtherSessions(db: Db, now: Time, e: Event, sid: Id)
    requires sid in db.sessions && (e.DoEndSession? || e.DoAcceptRequest?)
    ensures sid in Step(db, now, e).sessions && Step(db, now, e).sessions[sid] == SessionAfter(db, now, e, sid)
  {
    hide Register, Poll, CreateIntent, DeleteIntent, RefreshIntent, Connect, RejectRequest, CancelRequest,
      ProposeMatch, AcceptMatch, RejectMatch, BlockAgent, UnblockAgent, DeleteAccount, RelayActivate,
      RelayCount, RelayClose, Maintained;
  }

  /** What becomes of a session row, in any step. */
  lemma SessionRows(db: Db, now: Time, e: Event, sid: Id)
    requires sid in db.sessions
    ensures sid in Step(db, now, e).sessions
    ensures Step(db, now, e).sessions[sid] == SessionAfter(db, now, e, sid)
  {
    hide Step;
    if LeavesSessions(e) {
      StepLeaves(db, now, e);
    } else {
      match e
      case DoBlock(_, _, _) => BlockedSessions(db, now, e, sid);
      case DoDeleteAccount(_) => DeletedSessions(db, now, e, sid);
      case DoMaintenance => OverdueSessions(db, now, e, sid);
      case DoRelayActivate(_) => RelaySessions(db, now, e, sid);
      case DoRelayCount(_, _) => RelaySessions(db, now, e, sid);
      case DoRelayClose(_, _, _) => RelaySessions(db, now, e, sid);
      case DoProposeMatch(_, _) => MatchedSessions(db, now, e, sid);
      case DoAcceptMatch(_, _) => MatchedSessions(db, now, e, sid);
      case DoRejectMatch(_, _) => MatchedSessions(db, now, e, sid);
      case _ => OtherSessions(db, now, e, sid);
    }
  }

  // ---------------------------------------------------------------- the handshake

  /** `q`, in good standing, is a member of the session. */
  predicate Takes(db: Db, q: Id, sid: Id) {
    Acts(db, q) && sid in db.sessions && q in {db.sessions[sid].agentA, db.sessions[sid].agentB}
  }

  /** The gate and the membership check every one of the three routes begins with. */
  lemma Admitted(db: Db, now: Time, q: Id, sid: Id)
    requires !Takes(db, q, sid)
    ensures ProposeMatch(db, now, q, sid).reply in {BANNED, UNKNOWN, Refused(404, "session not found")}
    ensures AcceptMatch(db, now, q, sid).reply == ProposeMatch(db, now, q, sid).reply
    ensures RejectMatch(db, q, sid).reply == ProposeMatch(db, now, q, sid).reply
    ensures Step(db, now, DoProposeMatch(q, sid)) == db && Step(db, now, DoAcceptMatch(q, sid)) == db
            && Step(db, now, DoRejectMatch(q, sid)) == db
  {
  }

  /** Proposing makes a proposal if and only if a member asks it of an active session; it answers `Ok`
      as well, and changes nothing, if that member's proposal stands already or a match is confirmed. */
  lemma ProposeIff(db: Db, now: Time, q: Id, sid: Id)
    requires Takes(db, q, sid)
    ensures var r, after, reply := db.sessions[sid], Step(db, now, DoProposeMatch(q, sid)), ProposeMatch(db, now, q, sid).reply;
      && (after != db <==> r.status == Active)
      && (r.status == Active ==>
            after == db.(sessions := db.sessions[sid :=
              r.(status := MatchProposed, proposedBy := Some(q), proposedAt := Some(now))]))
      && (reply == Ok <==> r.status == Active || (r.status == MatchProposed && r.proposedBy == Some(q))
                           || (r.status == MatchConfirmed && r.proposedBy.Some?))
      && (reply != Ok ==> reply == Refused(409, "session_not_active"))
  {
  }

  /** Accepting confirms the match, for ten minutes and in both members' totals, if and only if the other
      member's proposal stands; otherwise nothing changes. */
  lemma AcceptIff(db: Db, now: Time, q: Id, sid: Id)
    requires Takes(db, q, sid)
    ensures var r, after, reply := db.sessions[sid], Step(db, now, DoAcceptMatch(q, sid)), AcceptMatch(db, now, q, sid).reply;
      && (after != db <==> Offered(r, q)) && (reply == Ok <==> Offered(r, q))
      && (Offered(r, q) ==>
            && after == db.(agents := after.agents, sessions := db.sessions[sid :=
                 r.(status := MatchConfirmed, confirmedAt := Some(now), expiresAt := now + 10 * MINUTE)])
            && after.agents.Keys == db.agents.Keys
            && forall a | a in db.agents ::
                 var both, t := {q, r.proposedBy.value}, db.agents[a].totals;
                 after.agents[a] == db.agents[a].(totals := t.(confirmed := t.confirmed + if a in both then 1 else 0)))
      && (reply != Ok ==> reply == if r.status == MatchProposed && r.proposedBy.Some? then
                                     Refused(403, "proposer_cannot_accept") else Refused(409, "match_not_proposed"))
  {
    hide Register, Poll, CreateIntent, DeleteIntent, RefreshIntent, Connect, AcceptRequest, RejectRequest,
      CancelRequest, ProposeMatch, RejectMatch, EndSession, BlockAgent, UnblockAgent, DeleteAccount,
      RelayActivate, RelayCount, RelayClose, Maintained;
  }

  /** Rejecting puts the session back if and only if the other member's proposal stands. */
  lemma RejectIff(db: Db, now: Time, q: Id, sid: Id)
    requires Takes(db, q, sid)
    ensures var r, after, reply := db.sessions[sid], Step(db, now, DoRejectMatch(q, sid)), RejectMatch(db, q, sid).reply;
      && (after != db <==> Offered(r, q)) && (reply == Ok <==> Offered(r, q))
      && (Offered(r, q) ==> after == db.(sessions := db.sessions[sid :=
                                r.(status := Active, proposedBy := None, proposedAt := None)]))
      && (reply != Ok ==> reply == if r.status == MatchProposed && r.proposedBy.Some? then
                                     Refused(403, "proposer_cannot_reject") else Refused(409, "match_not_proposed"))
  {
  }

  // ---------------------------------------------------------------- new sessions

  /** The target, in good standing, answers a pending request before its deadline, for the first time
      and under a fresh id. */
  predicate Introduces(db: Db, now: Time, e: Event) {
    && e.DoAcceptRequest? && Acts(db, e.caller) && e.request in db.requests
    && db.requests[e.request].toAgent == e.caller && db.requests[e.request].status == Pending
    && now < db.requests[e.request].expiresAt
    && e.newId !in db.sessions && forall s | s in db.sessions :: db.sessions[s].requestId != e.request
  }

  /** A session comes from just that, and that always makes one. */
  lemma SessionOpensIff(db: Db, now: Time, e: Event, sid: Id)
    requires sid !in db.sessions
    ensures sid in Step(db, now, e).sessions <==> Introduces(db, now, e) && e.newId == sid
    ensures sid in Step(db, now, e).sessions ==>
      Step(db, now, e).sessions[sid] ==
      Session(db.requests[e.request].fromAgent, e.caller, e.request, AwaitingJoin, now, now + 72 * HOUR,
              None, None, 0, None, None, None, None)
  {
    if e.DoAcceptRequest? {
      hide CheckSoftBan, CreateIntent, Connect, BlockAgent, DeleteAccount;
    } else if sid in Step(db, now, e).sessions {
      StepCreates(db, now, e, sid);
    }
  }

  // ---------------------------------------------------------------- requests

  function RequestAfter(db: Db, now: Time, e: Event, rid: Id): Request
    requires rid in db.requests
  {
    var r := db.requests[rid];
    if r.status != Pending then r
    else match e
      case DoAcceptRequest(_, q, _) =>
        if q == rid && Introduces(db, now, e) then r.(status := RequestAccepted, respondedAt := Some(now)) else r
      case DoRejectRequest(q, x, reason) =>
        if x == rid && Acts(db, q) && r.toAgent == q
        then r.(status := Rejected, respondedAt := Some(now), rejectionReason := reason) else r
      case DoCancelRequest(q, x) =>
        if x == rid && Acts(db, q) && r.fromAgent == q then r.(status := Cancelled, respondedAt := Some(now)) else r
      case DoMaintenance =>
        if r.expiresAt <= now then r.(status := RequestExpired, respondedAt := Some(now)) else r
      case _ => r
  }

  /** What becomes of a request row, in any step. */
  lemma RequestRows(db: Db, now: Time, e: Event, rid: Id)
    requires rid in db.requests
    ensures rid in Step(db, now, e).requests
    ensures Step(db, now, e).requests[rid] == RequestAfter(db, now, e, rid)
  {
    if LeavesRequests(e) {
      hide Step;
      StepLeavesRequests(db, now, e);
    } else {
      hide Register, Poll, CreateIntent, DeleteIntent, RefreshIntent, ProposeMatch, AcceptMatch, RejectMatch,
        EndSession, BlockAgent, UnblockAgent, DeleteAccount, RelayActivate, RelayCount, RelayClose, CheckSoftBan;
    }
  }

  predicate Discoverable(db: Db, i: Id) { i in db.intents && db.intents[i].status == IntentActive }

  predicate MayMeet(db: Db, q: Id, to: Id) {
    to in db.agents && to != q && (q, to) !in db.blocks && (to, q) !in db.blocks
  }

  /** Everything `create_connection` demands. */
  predicate Asks(db: Db, now: Time, e: Event) {
    && e.DoConnect? && Acts(db, e.caller) && Discoverable(db, e.target) && Discoverable(db, e.from)
    && db.intents[e.from].agentId == e.caller && MayMeet(db, e.caller, db.intents[e.target].agentId)
    && |set r | r in db.requests && db.requests[r].fromAgent == e.caller && db.requests[r].status == Pending
                && now < db.requests[r].expiresAt| < 20
    && |set r | r in db.requests && db.requests[r].fromAgent == e.caller && now - DAY <= db.requests[r].createdAt| < 50
    && e.newId !in db.requests
  }

  lemma PendingInWords(db: Db, q: Id, now: Time)
    ensures Count(db.requests, PendingFrom(q, now)) ==
      |set r | r in db.requests && db.requests[r].fromAgent == q && db.requests[r].status == Pending
               && now < db.requests[r].expiresAt|
  {
    assert Hits(db.requests, PendingFrom(q, now)) ==
      set r | r in db.requests && db.requests[r].fromAgent == q && db.requests[r].status == Pending
              && now < db.requests[r].expiresAt;
  }

  lemma SentInWords(t: map<Id, Request>, q: Id, since: Time)
    ensures Count(t, SentSince(q, since)) == |set r | r in t && t[r].fromAgent == q && since <= t[r].createdAt|
  {
    assert Hits(t, SentSince(q, since)) == set r | r in t && t[r].fromAgent == q && since <= t[r].createdAt;
  }

  lemma PostedInWords(t: map<Id, Intent>, q: Id, since: Time)
    ensures Count(t, PostedSince(q, since)) == |set i | i in t && t[i].agentId == q && since <= t[i].createdAt|
  {
    assert Hits(t, PostedSince(q, since)) == set i | i in t && t[i].agentId == q && since <= t[i].createdAt;
  }

  /** The three lemmas on counting, applied to what `create_connection` counts. */
  lemma AskedInWords(db: Db, now: Time, q: Id, target: Id, from: Id, newId: Id)
    ensures var e, after := DoConnect(q, target, from, newId), Connect(db, now, q, target, from, newId).db;
      && (Asks(db, now, e) ==> after.requests == db.requests[newId :=
            Request(q, db.intents[target].agentId, target, from, Pending, now, now + 72 * HOUR, None, None)])
      && (!Asks(db, now, e) ==> after.requests == db.requests)
  {
    hide CheckSoftBan;
    PendingInWords(db, q, now);
    SentInWords(db.requests, q, now - DAY);
  }

  /** A request comes from just that, and that always makes one. */
  lemma RequestMadeIff(db: Db, now: Time, e: Event, rid: Id)
    requires rid !in db.requests
    ensures rid in Step(db, now, e).requests <==> Asks(db, now, e) && e.newId == rid
    ensures rid in Step(db, now, e).requests ==>
      Step(db, now, e).requests[rid] ==
      Request(e.caller, db.intents[e.target].agentId, e.target, e.from, Pending, now, now + 72 * HOUR, None, None)
  {
    if e.DoConnect? {
      hide Connect;
      AskedInWords(db, now, e.caller, e.target, e.from, e.newId);
    } else if rid in Step(db, now, e).requests {
      StepRequests(db, now, e, rid);
    }
  }

  // ---------------------------------------------------------------- intents

  /** The step bans the owner. */
  predicate OwnerBanned(db: Db, now: Time, e: Event, a: Id) {
    Acts(db, a) && a in Step(db, now, e).agents && Step(db, now, e).agents[a].status == SoftBanned
  }

  predicate Alive(r: Intent) { r.status == IntentActive || r.status == Dormant }

  /** The owner polled in the five minutes up to `now`. */
  predicate Awake(db: Db, a: Id, now: Time) {
    a in db.agents && db.agents[a].lastSeenAt.Some? && now - 5 * MINUTE <= db.agents[a].lastSeenAt.value
  }

  function IntentAfter(db: Db, now: Time, e: Event, i: Id): Intent
    requires i in db.intents
  {
    var r := db.intents[i];
    match e
    case DoDeleteIntent(q, x) => if x == i && Acts(db, q) && r.agentId == q then r.(status := IntentDeleted) else r
    case DoDeleteAccount(q) => if Calls(db, q) && r.agentId == q then r.(status := IntentDeleted) else r
    case DoRefreshIntent(q, x) =>
      if x == i && Acts(db, q) && r.agentId == q && Alive(r)
      then r.(status := IntentActive, expiresAt := now + r.ttlDays * DAY) else r
    case DoMaintenance =>
      if !Alive(r) then r
      else if r.expiresAt <= now then r.(status := IntentExpired)
      else if r.agentId !in db.agents then r
      else r.(status := if Awake(db, r.agentId, now) then IntentActive else Dormant)
    case _ => if r.status == IntentActive && OwnerBanned(db, now, e, r.agentId) then r.(status := Dormant) else r
  }

  /** A ban check silences the banned one's active intents, and touches nobody else. */
  lemma BanSilences(mid: Db, who: Id, now: Time, i: Id)
    requires i in mid.intents
    ensures var after, r := CheckSoftBan(mid, who, now), mid.intents[i];
      && after.agents.Keys == mid.agents.Keys && i in after.intents
      && after.intents[i] ==
         (if r.status == IntentActive && r.agentId == who && Acts(mid, who) && after.agents[who].status == SoftBanned
          then r.(status := Dormant) else r)
      && forall a | a in mid.agents && a != who :: after.agents[a].status == mid.agents[a].status
  {
    hide BanTrigger;
  }

  lemma PostShape(db: Db, now: Time, e: Event)
    requires e.DoCreateIntent?
    ensures Step(db, now, e) == db
            || (Acts(db, e.caller) && e.newId !in db.intents
                && Step(db, now, e) == CheckSoftBan(Posted(db, now, e.caller, e.newId, e.ttlDays), e.caller, now))
  {
    hide Register, Poll, DeleteIntent, RefreshIntent, Connect, AcceptRequest, RejectRequest, CancelRequest,
      ProposeMatch, AcceptMatch, RejectMatch, EndSession, BlockAgent, UnblockAgent, DeleteAccount,
      RelayActivate, RelayCount, RelayClose, Maintained, CheckSoftBan, Posted;
  }

  lemma AskShape(db: Db, now: Time, e: Event)
    requires e.DoConnect?
    ensures Step(db, now, e) == db
            || (Acts(db, e.caller) && e.target in db.intents && e.newId !in db.requests
                && Step(db, now, e) == CheckSoftBan(Asked(db, now, e.caller, db.intents[e.target].agentId, e.target,
                                                          e.from, e.newId), e.caller, now))
  {
    hide Register, Poll, CreateIntent, DeleteIntent, RefreshIntent, AcceptRequest, RejectRequest,
      CancelRequest, ProposeMatch, AcceptMatch, RejectMatch, EndSession, BlockAgent, UnblockAgent,
      DeleteAccount, RelayActivate, RelayCount, RelayClose, Maintained, CheckSoftBan, BlockReply, Asked;
  }

  lemma PostIntents(db: Db, now: Time, e: Event, i: Id)
    requires i in db.intents && e.DoCreateIntent?
    ensures i in Step(db, now, e).intents && Step(db, now, e).intents[i] == IntentAfter(db, now, e, i)
  {
    hide Step, CheckSoftBan;
    PostShape(db, now, e);
    BanSilences(Posted(db, now, e.caller, e.newId, e.ttlDays), e.caller, now, i);
  }

  lemma AskIntents(db: Db, now: Time, e: Event, i: Id)
    requires i in db.intents && e.DoConnect?
    ensures i in Step(db, now, e).intents && Step(db, now, e).intents[i] == IntentAfter(db, now, e, i)
  {
    hide Step, CheckSoftBan;
    AskShape(db, now, e);
    if e.target in db.intents {
      BanSilences(Asked(db, now, e.caller, db.intents[e.target].agentId, e.target, e.from, e.newId), e.caller, now, i);
    }
  }

  lemma BlockIntents(db: Db, now: Time, e: Event, i: Id)
    requires i in db.intents && e.DoBlock?
    ensures i in Step(db, now, e).intents && Step(db, now, e).intents[i] == IntentAfter(db, now, e, i)
  {
    hide Register, Poll, CreateIntent, DeleteIntent, RefreshIntent, Connect, AcceptRequest, RejectRequest,
      CancelRequest, ProposeMatch, AcceptMatch, RejectMatch, EndSession, UnblockAgent, DeleteAccount,
      RelayActivate, RelayCount, RelayClose, Maintained, CheckSoftBan;
    BanSilences(Shunned(db, now, e.caller, e.who, e.reason), e.who, now, i);
  }

  lemma OwnIntents(db: Db, now: Time, e: Event, i: Id)
    requires i in db.intents && (e.DoDeleteIntent? || e.DoRefreshIntent?)
    ensures i in Step(db, now, e).intents && Step(db, now, e).intents[i] == IntentAfter(db, now, e, i)
  {
    hide Register, Poll, CreateIntent, Connect, AcceptRequest, RejectRequest, CancelRequest, ProposeMatch,
      AcceptMatch, RejectMatch, EndSession, BlockAgent, UnblockAgent, DeleteAccount, RelayActivate, RelayCount,
      RelayClose, Maintained;
  }

  lemma SweptIntents(db: Db, now: Time, e: Event, i: Id)
    requires i in db.intents && (e.DoDeleteAccount? || e.DoMaintenance?)
    ensures i in Step(db, now, e).intents && Step(db, now, e).intents[i] == IntentAfter(db, now, e, i)
  {
    hide Register, Poll, CreateIntent, DeleteIntent, RefreshIntent, Connect, AcceptRequest, RejectRequest,
      CancelRequest, ProposeMatch, AcceptMatch, RejectMatch, EndSession, BlockAgent, UnblockAgent,
      RelayActivate, RelayCount, RelayClose;
  }

  /** Nobody is banned in a step that does not check. */
  lemma NoBanElsewhere(db: Db, now: Time, e: Event, a: Id)
    requires LeavesIntents(e) && Acts(db, a)
    ensures a in Step(db, now, e).agents && Step(db, now, e).agents[a].status == AgentActive
  {
    hide CheckSoftBan, CreateIntent, Connect, BlockAgent, DeleteAccount;
  }

  /** What becomes of an intent row, in any step. */
  lemma IntentRows(db: Db, now: Time, e: Event, i: Id)
    requires i in db.intents
    ensures i in Step(db, now, e).intents
    ensures Step(db, now, e).intents[i] == IntentAfter(db, now, e, i)
  {
    hide Step;
    if LeavesIntents(e) {
      StepLeavesIntents(db, now, e);
      if Acts(db, db.intents[i].agentId) { NoBanElsewhere(db, now, e, db.intents[i].agentId); }
    } else if e.DoCreateIntent? {
      PostIntents(db, now, e, i);
    } else if e.DoConnect? {
      AskIntents(db, now, e, i);
    } else if e.DoBlock? {
      BlockIntents(db, now, e, i);
    } else if e.DoDeleteIntent? || e.DoRefreshIntent? {
      OwnIntents(db, now, e, i);
    } else {
      SweptIntents(db, now, e, i);
    }
  }

  /** Everything `create_intent` demands. */
  predicate Posts(db: Db, now: Time, e: Event) {
    && e.DoCreateIntent? && Acts(db, e.caller) && 1 <= e.ttlDays <= 90 && e.blemish.None?
    && |set i | i in db.intents && db.intents[i].agentId == e.caller && db.intents[i].status == IntentActive| < 10
    && |set i | i in db.intents && db.intents[i].agentId == e.caller && now - DAY <= db.intents[i].createdAt| < 30
    && e.newId !in db.intents
  }

  lemma ActiveInWords(db: Db, q: Id)
    ensures Count(db.intents, ActiveOf(q)) ==
            |set i | i in db.intents && db.intents[i].agentId == q && db.intents[i].status == IntentActive|
  {
    assert Hits(db.intents, ActiveOf(q)) ==
           set i | i in db.intents && db.intents[i].agentId == q && db.intents[i].status == IntentActive;
  }

  /** An intent comes from just that, and that always makes one; it starts out active unless posting it
      is what gets its owner banned. */
  lemma IntentMadeIff(db: Db, now: Time, e: Event, i: Id)
    requires i !in db.intents
    ensures i in Step(db, now, e).intents <==> Posts(db, now, e) && e.newId == i
    ensures i in Step(db, now, e).intents ==>
      Step(db, now, e).intents[i] ==
      Intent(e.caller, e.ttlDays, now, now + e.ttlDays * DAY,
             if OwnerBanned(db, now, e, e.caller) then Dormant else IntentActive)
  {
    if e.DoCreateIntent? {
      hide CheckSoftBan, Connect, BlockAgent, AcceptRequest, AcceptMatch, DeleteAccount;
      ActiveInWords(db, e.caller);
      PostedInWords(db.intents, e.caller, now - DAY);
      BanSilences(Posted(db, now, e.caller, e.newId, e.ttlDays), e.caller, now, e.newId);
    } else if i in Step(db, now, e).intents {
      StepPosts(db, now, e, i);
    }
  }

  // ---------------------------------------------------------------- maintenance

  /** What a maintenance run does to the three tables with deadlines, all of it. */
  lemma MaintenanceRows(db: Db, now: Time)
    ensures var after := Step(db, now, DoMaintenance);
      && after.requests.Keys == db.requests.Keys && after.intents.Keys == db.intents.Keys
      && after.sessions.Keys == db.sessions.Keys
      && (forall r | r in db.requests ::
            after.requests[r] == if db.requests[r].status == Pending && db.requests[r].expiresAt <= now
                                 then db.requests[r].(status := RequestExpired, respondedAt := Some(now))
                                 else db.requests[r])
      && (forall i | i in db.intents :: after.intents[i].status == IntentExpired <==>
            db.intents[i].status == IntentExpired
            || (db.intents[i].status in {IntentActive, Dormant} && db.intents[i].expiresAt <= now))
      && (forall s | s in db.sessions :: after.sessions[s].status != db.sessions[s].status <==>
            db.sessions[s].status != Closed && db.sessions[s].expiresAt <= now)
  {
    hide Step;
    var e := DoMaintenance;
    forall r | r in db.requests ensures r in Step(db, now, e).requests
      && Step(db, now, e).requests[r] == RequestAfter(db, now, e, r) { RequestRows(db, now, e, r); }
    forall i | i in db.intents ensures i in Step(db, now, e).intents
      && Step(db, now, e).intents[i] == IntentAfter(db, now, e, i) { IntentRows(db, now, e, i); }
    forall s | s in db.sessions ensures s in Step(db, now, e).sessions
      && Step(db, now, e).sessions[s] == SessionAfter(db, now, e, s) { SessionRows(db, now, e, s); }
    RunAddsNoRows(db, now, e);
  }

  lemma RunAddsNoRows(db: Db, now: Time, e: Event)
    requires e.DoMaintenance?
    ensures Step(db, now, e).requests.Keys <= db.requests.Keys && Step(db, now, e).intents.Keys <= db.intents.Keys
            && Step(db, now, e).sessions.Keys <= db.sessions.Keys
  {
  }

  // ---------------------------------------------------------------- blocks

  /** The row of a pair, if there is one. */
  function RowOf(db: Db, p: (Id, Id)): Option<Block> { if p in db.blocks then Some(db.blocks[p]) else None }

  /** The row of a pair after a step, if there is one. */
  function BlockAfter(db: Db, now: Time, e: Event, p: (Id, Id)): Option<Block> {
    var was := RowOf(db, p);
    match e
    case DoBlock(q, t, reason) =>
      if p == (q, t) && Acts(db, q) && t in db.agents && t != q
      then Some(Block(reason, if was.Some? then was.value.createdAt else now)) else was
    case DoUnblock(q, t) => if p == (q, t) && Acts(db, q) && t in db.agents then None else was
    case DoDeleteAccount(q) => if Calls(db, q) && (p.0 == q || p.1 == q) then None else was
    case _ => was
  }

  lemma BlockingRows(db: Db, now: Time, e: Event, p: (Id, Id))
    requires e.DoBlock?
    ensures RowOf(Step(db, now, e), p) == BlockAfter(db, now, e, p)
  {
    hide Register, Poll, CreateIntent, DeleteIntent, RefreshIntent, Connect, AcceptRequest, RejectRequest,
      CancelRequest, ProposeMatch, AcceptMatch, RejectMatch, EndSession, RelayActivate, RelayCount, RelayClose,
      Maintained, CheckSoftBan, UnblockAgent, DeleteAccount;
  }

  lemma RemovingRows(db: Db, now: Time, e: Event, p: (Id, Id))
    requires e.DoUnblock? || e.DoDeleteAccount?
    ensures RowOf(Step(db, now, e), p) == BlockAfter(db, now, e, p)
  {
    hide Register, Poll, CreateIntent, DeleteIntent, RefreshIntent, Connect, AcceptRequest, RejectRequest,
      CancelRequest, ProposeMatch, AcceptMatch, RejectMatch, EndSession, RelayActivate, RelayCount, RelayClose,
      Maintained, CheckSoftBan, BlockAgent;
  }

  /** What becomes of a block row, in any step. */
  lemma BlockRows(db: Db, now: Time, e: Event, p: (Id, Id))
    ensures RowOf(Step(db, now, e), p) == BlockAfter(db, now, e, p)
  {
    hide Step;
    if e.DoBlock? {
      BlockingRows(db, now, e, p);
    } else if e.DoUnblock? || e.DoDeleteAccount? {
      RemovingRows(db, now, e, p);
    } else {
      StepLeavesBlocks(db, now, e);
    }
  }

  // ---------------------------------------------------------------- bans

  /** More than five blocks against `a` in seven days. */
  predicate TooManyBlocks(t: map<(Id, Id), Block>, a: Id, now: Time) {
    |set p | p in t && p.1 == a && now - 7 * DAY <= t[p].createdAt| > 5
  }

  /** At least fifty requests in seven days, and more than fifty for each one accepted in them. */
  predicate Spams(t: map<Id, Request>, a: Id, now: Time) {
    var sent := |set r | r in t && t[r].fromAgent == a && now - 7 * DAY <= t[r].createdAt|;
    var accepted := |set r | r in t && t[r].fromAgent == a && t[r].status == RequestAccepted && t[r].respondedAt.Some?
                              && now - 7 * DAY <= t[r].respondedAt.value|;
    sent >= 50 && (accepted == 0 ==> sent > 50) && (accepted > 0 ==> sent > 50 * accepted)
  }

  predicate Floods(t: map<Id, Intent>, a: Id, now: Time) {
    |set i | i in t && t[i].agentId == a && now - DAY <= t[i].createdAt| > 100
  }

  /** The first of the three that holds of the tables. */
  function Offence(db: Db, a: Id, now: Time): Option<BanReason> {
    if TooManyBlocks(db.blocks, a, now) then Some(BlocksReceived)
    else if Spams(db.requests, a, now) then Some(ConnectionSpam)
    else if Floods(db.intents, a, now) then Some(IntentBurst)
    else None
  }

  lemma OffenceInWords(db: Db, a: Id, now: Time)
    ensures BanTrigger(db, a, now) == Offence(db, a, now)
  {
    SentInWords(db.requests, a, now - SOFT_BAN);
    PostedInWords(db.intents, a, now - DAY);
    assert Hits(db.requests, AcceptedSince(a, now - SOFT_BAN)) ==
      set r | r in db.requests && db.requests[r].fromAgent == a && db.requests[r].status == RequestAccepted
              && db.requests[r].respondedAt.Some? && now - 7 * DAY <= db.requests[r].respondedAt.value;
    assert (set p | p in db.blocks && p.1 == a && db.blocks[p].createdAt >= now - SOFT_BAN) ==
      set p | p in db.blocks && p.1 == a && now - 7 * DAY <= db.blocks[p].createdAt;
  }

  /** Whom a step judges: who posted an intent or a request in it, or was newly blocked in it. */
  predicate Judges(db: Db, after: Db, e: Event, a: Id) {
    match e
    case DoCreateIntent(q, i, _, _) => a == q && i in after.intents && i !in db.intents
    case DoConnect(q, _, _, r) => a == q && r in after.requests && r !in db.requests
    case DoBlock(q, t, _) => a == t && (q, t) in after.blocks && (q, t) !in db.blocks
    case _ => false
  }

  /** The verdict of `check_and_apply_soft_ban`, on the tables it leaves behind. */
  lemma BanVerdict(mid: Db, a: Id, now: Time)
    requires a in mid.agents
    ensures var after := CheckSoftBan(mid, a, now);
      && a in after.agents && after.requests == mid.requests && after.blocks == mid.blocks
      && after.intents.Keys == mid.intents.Keys
      && Offence(after, a, now) == Offence(mid, a, now)
      && var banned := Acts(mid, a) && Offence(mid, a, now).Some?;
         && after.agents[a] == (if banned then mid.agents[a].(status := SoftBanned, softBanLiftsAt := Some(now + 7 * DAY))
                                else mid.agents[a])
         && after.abuse == mid.abuse + (if banned then [AbuseEvent(a, Offence(mid, a, now).value, now)] else [])
  {
    hide BanTrigger, Spams, TooManyBlocks;
    OffenceInWords(mid, a, now);
    var after := CheckSoftBan(mid, a, now);
    assert (set i | i in after.intents && after.intents[i].agentId == a && now - DAY <= after.intents[i].createdAt) ==
      set i | i in mid.intents && mid.intents[i].agentId == a && now - DAY <= mid.intents[i].createdAt;
    assert mid.abuse + [] == mid.abuse;
  }

  // ---------------------------------------------------------------- agents

  function Banned(r: Agent, now: Time): Agent { r.(status := SoftBanned, softBanLiftsAt := Some(now + 7 * DAY)) }

  /** The step bans `a`: it judges it, in good standing until then, and finds it over one of the three
      limits by the tables as the step leaves them. */
  predicate Bans(db: Db, after: Db, now: Time, e: Event, a: Id) {
    Acts(db, a) && Judges(db, after, e, a) && Offence(after, a, now).Some?
  }

  function AgentAfter(db: Db, now: Time, e: Event, a: Id): Agent
    requires a in db.agents
  {
    var r := db.agents[a];
    match e
    case DoPoll(q) => if q == a && Calls(db, a) then r.(lastSeenAt := Some(now)) else r
    case DoDeleteAccount(q) =>
      if q == a && Calls(db, a)
      then r.(githubUserId := None, lastSeenAt := None, status := AgentDeleted, softBanLiftsAt := None) else r
    case DoMaintenance =>
      if r.status == SoftBanned && r.softBanLiftsAt.Some? && r.softBanLiftsAt.value <= now
      then r.(status := AgentActive, softBanLiftsAt := None) else r
    case _ => if Bans(db, Step(db, now, e), now, e, a) then Banned(r, now) else r
  }

  /** The row but for the totals, which `Accounting` and `Blocking` speak of. */
  function Rest(r: Agent): Agent { r.(totals := ZERO_TOTALS) }

  /** The row of `a` is as said, and a ban is put on record with the first limit passed. */
  ghost predicate AgentAsSaid(db: Db, now: Time, e: Event, a: Id) {
    var after := Step(db, now, e);
    && a in db.agents && a in after.agents
    && Rest(after.agents[a]) == Rest(AgentAfter(db, now, e, a))
    && (Bans(db, after, now, e, a) ==> after.abuse == db.abuse + [AbuseEvent(a, Offence(after, a, now).value, now)])
  }

  lemma CheckedBan(mid: Db, who: Id, now: Time, a: Id)
    requires a in mid.agents && who in mid.agents
    ensures var after := CheckSoftBan(mid, who, now);
            var banned := Acts(mid, a) && a == who && Offence(after, a, now).Some?;
      && a in after.agents && after.agents[a] == (if banned then Banned(mid.agents[a], now) else mid.agents[a])
      && (banned ==> after.abuse == mid.abuse + [AbuseEvent(a, Offence(after, a, now).value, now)])
  {
    hide CheckSoftBan, Offence;
    BanVerdict(mid, who, now);
    if a != who { OthersKeepStanding(mid, who, now, a); }
  }

  lemma OthersKeepStanding(mid: Db, who: Id, now: Time, a: Id)
    requires a in mid.agents && a != who
    ensures a in CheckSoftBan(mid, who, now).agents && CheckSoftBan(mid, who, now).agents[a] == mid.agents[a]
  {
    hide BanTrigger;
  }

  lemma PostAgents(db: Db, now: Time, e: Event, a: Id)
    requires a in db.agents && e.DoCreateIntent?
    ensures AgentAsSaid(db, now, e, a)
  {
    hide Step, CheckSoftBan, Offence;
    PostShape(db, now, e);
    if Step(db, now, e) != db {
      CheckedBan(Posted(db, now, e.caller, e.newId, e.ttlDays), e.caller, now, a);
    }
  }

  lemma AskAgents(db: Db, now: Time, e: Event, a: Id)
    requires a in db.agents && e.DoConnect?
    ensures AgentAsSaid(db, now, e, a)
  {
    hide Step, CheckSoftBan, Offence;
    AskShape(db, now, e);
    if Step(db, now, e) != db {
      var mid := Asked(db, now, e.caller, db.intents[e.target].agentId, e.target, e.from, e.newId);
      AskedAgents(db, now, e, a);
      CheckedBan(mid, e.caller, now, a);
    }
  }

  lemma AskedAgents(db: Db, now: Time, e: Event, a: Id)
    requires a in db.agents && e.DoConnect? && e.target in db.intents
    ensures var mid := Asked(db, now, e.caller, db.intents[e.target].agentId, e.target, e.from, e.newId);
      && a in mid.agents && Rest(mid.agents[a]) == Rest(db.agents[a]) && mid.abuse == db.abuse
      && e.newId in mid.requests && (e.caller in db.agents ==> e.caller in mid.agents)
  {
  }

  lemma BlockAgents(db: Db, now: Time, e: Event, a: Id)
    requires a in db.agents && e.DoBlock?
    ensures AgentAsSaid(db, now, e, a)
  {
    hide Register, Poll, CreateIntent, DeleteIntent, RefreshIntent, Connect, AcceptRequest, RejectRequest,
      CancelRequest, ProposeMatch, AcceptMatch, RejectMatch, EndSession, UnblockAgent, DeleteAccount,
      RelayActivate, RelayCount, RelayClose, Maintained, CheckSoftBan, Offence;
    if e.who in db.agents { CheckedBan(Shunned(db, now, e.caller, e.who, e.reason), e.who, now, a); }
  }

  lemma AcceptAgents(db: Db, now: Time, e: Event, a: Id)
    requires a in db.agents && e.DoAcceptRequest?
    ensures AgentAsSaid(db, now, e, a)
  {
    hide Register, Poll, CreateIntent, DeleteIntent, RefreshIntent, Connect, RejectRequest, CancelRequest,
      ProposeMatch, RejectMatch, EndSession, BlockAgent, UnblockAgent, DeleteAccount, RelayCount, RelayClose,
      Maintained, CheckSoftBan, Offence, AcceptMatch, RelayActivate;
  }

  lemma ConfirmAgents(db: Db, now: Time, e: Event, a: Id)
    requires a in db.agents && e.DoAcceptMatch?
    ensures AgentAsSaid(db, now, e, a)
  {
    hide Register, Poll, CreateIntent, DeleteIntent, RefreshIntent, Connect, RejectRequest, CancelRequest,
      ProposeMatch, RejectMatch, EndSession, BlockAgent, UnblockAgent, DeleteAccount, RelayCount, RelayClose,
      Maintained, CheckSoftBan, Offence, AcceptRequest, RelayActivate;
  }

  lemma ActivateAgents(db: Db, now: Time, e: Event, a: Id)
    requires a in db.agents && e.DoRelayActivate?
    ensures AgentAsSaid(db, now, e, a)
  {
    hide Register, Poll, CreateIntent, DeleteIntent, RefreshIntent, Connect, RejectRequest, CancelRequest,
      ProposeMatch, RejectMatch, EndSession, BlockAgent, UnblockAgent, DeleteAccount, RelayCount, RelayClose,
      Maintained, CheckSoftBan, Offence, AcceptRequest, AcceptMatch;
  }

  lemma OtherAgents(db: Db, now: Time, e: Event, a: Id)
    requires a in db.agents && !e.DoCreateIntent? && !e.DoConnect? && !e.DoBlock?
    requires !e.DoAcceptRequest? && !e.DoAcceptMatch? && !e.DoRelayActivate?
    ensures AgentAsSaid(db, now, e, a)
  {
    hide CreateIntent, Connect, BlockAgent, AcceptRequest, AcceptMatch, RelayActivate, Offence;
  }

  /** What becomes of an agent row, in any step: who is seen, deleted, let off, and who is banned, when
      and for how long. */
  lemma AgentRows(db: Db, now: Time, e: Event, a: Id)
    requires a in db.agents
    ensures AgentAsSaid(db, now, e, a)
  {
    hide Step;
    match e
    case DoCreateIntent(_, _, _, _) => PostAgents(db, now, e, a);
    case DoConnect(_, _, _, _) => AskAgents(db, now, e, a);
    case DoBlock(_, _, _) => BlockAgents(db, now, e, a);
    case DoAcceptRequest(_, _, _) => AcceptAgents(db, now, e, a);
    case DoAcceptMatch(_, _) => ConfirmAgents(db, now, e, a);
    case DoRelayActivate(_) => ActivateAgents(db, now, e, a);
    case _ => OtherAgents(db, now, e, a);
  }

  /** An agent comes from registering a key nobody has, under a fresh id. */
  lemma AgentMadeIff(db: Db, now: Time, e: Event, a: Id)
    requires a !in db.agents
    ensures a in Step(db, now, e).agents <==>
      e.DoRegister? && e.newId == a && forall b | b in db.agents :: db.agents[b].pubkey != e.pubkey
    ensures a in Step(db, now, e).agents ==>
      Step(db, now, e).agents[a] == Agent(e.pubkey, Some(e.github), now, None, AgentActive, None, Totals(0, 0, 0, 0, 0, 0, 0))
  {
    if e.DoRegister? {
      hide Poll, CreateIntent, DeleteIntent, RefreshIntent, Connect, AcceptRequest, RejectRequest, CancelRequest,
        ProposeMatch, AcceptMatch, RejectMatch, EndSession, BlockAgent, UnblockAgent, DeleteAccount,
        RelayActivate, RelayCount, RelayClose, Maintained;
    } else {
      hide Step;
      StepAgents(db, now, e, a);
    }
  }
}
