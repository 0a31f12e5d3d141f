/** What one step of the system may do to one row of each table. Everything proved about runs
    rests on these few kinds of move. */
module Moves {
  import opened Basics
  import opened Rows
  import opened Handlers

  // ---------------------------------------------------------------- one row, one step

  predicate Activated(r: Session, q: Session, now: Time) {
    r.status == AwaitingJoin
    && q == r.(status := Active, activeAt := Some(now), expiresAt := now + ACTIVE_WINDOW)
  }

  predicate Proposed(r: Session, q: Session, p: Id, now: Time) {
    r.status == Active && r.HasMember(p)
    && q == r.(status := MatchProposed, proposedBy := Some(p), proposedAt := Some(now))
  }

  predicate ConfirmedBy(r: Session, q: Session, p: Id, now: Time) {
    r.status == MatchProposed && r.HasMember(p) && r.proposedBy.Some? && r.proposedBy.value != p
    && q == r.(status := MatchConfirmed, confirmedAt := Some(now), expiresAt := now + HANDOFF_WINDOW)
  }

  predicate Withdrawn(r: Session, q: Session) {
    r.status == MatchProposed && q == r.(status := Active, proposedBy := None, proposedAt := None)
  }

  predicate Ended(r: Session, q: Session, now: Time) {
    q.closeReason.Some?
    && q == r.(status := Closed, closedAt := Some(now), closeReason := q.closeReason,
               messageCount := q.messageCount)
  }

  /** Everything a step can do to a session row. Only the relay writes `message_count`, and only the
      relay closes a row that is closed already. */
  predicate RowMoves(r: Session, q: Session, now: Time, e: Event, sid: Id) {
    || q == r
    || (e.DoRelayCount? && e.session == sid && q == r.(messageCount := q.messageCount))
    || (e.DoRelayActivate? && e.session == sid && Activated(r, q, now))
    || (e.DoProposeMatch? && e.session == sid && Proposed(r, q, e.caller, now))
    || (e.DoAcceptMatch? && e.session == sid && ConfirmedBy(r, q, e.caller, now))
    || (e.DoRejectMatch? && e.session == sid && Withdrawn(r, q))
    || (Ended(r, q, now)
        && ((e.DoRelayClose? && e.session == sid) || (r.status != Closed && q.messageCount == r.messageCount)))
  }

  predicate LeavesSessions(e: Event) {
    e.DoRegister? || e.DoPoll? || e.DoCreateIntent? || e.DoDeleteIntent? || e.DoRefreshIntent?
    || e.DoConnect? || e.DoRejectRequest? || e.DoCancelRequest? || e.DoUnblock?
  }

  predicate ClosesInBulk(e: Event) { e.DoBlock? || e.DoDeleteAccount? || e.DoMaintenance? }

  lemma StepLeaves(db: Db, now: Time, e: Event)
    requires LeavesSessions(e)
    ensures Step(db, now, e).sessions == db.sessions
  {
  }

  lemma BulkMoves(db: Db, now: Time, e: Event, sid: Id)
    requires sid in db.sessions && ClosesInBulk(e)
    ensures sid in Step(db, now, e).sessions
    ensures RowMoves(db.sessions[sid], Step(db, now, e).sessions[sid], now, e, sid)
  {
  }

  lemma OneRowMoves(db: Db, now: Time, e: Event, sid: Id)
    requires sid in db.sessions && !LeavesSessions(e) && !ClosesInBulk(e)
    ensures sid in Step(db, now, e).sessions
    ensures RowMoves(db.sessions[sid], Step(db, now, e).sessions[sid], now, e, sid)
  {
    if (e.DoProposeMatch? || e.DoAcceptMatch? || e.DoRejectMatch?) && e.session != sid {
      assert Step(db, now, e).sessions[sid] == db.sessions[sid];
    }
  }

  /** Twenty kinds of step, six ways to touch a session row: rows are never removed, and a row
      moves only in these ways. */
  lemma StepMoves(db: Db, now: Time, e: Event, sid: Id)
    requires sid in db.sessions
    ensures sid in Step(db, now, e).sessions
    ensures RowMoves(db.sessions[sid], Step(db, now, e).sessions[sid], now, e, sid)
  {
    if LeavesSessions(e) {
      StepLeaves(db, now, e);
    } else if ClosesInBulk(e) {
      BulkMoves(db, now, e, sid);
    } else {
      OneRowMoves(db, now, e, sid);
    }
  }

  /** A new session row can only come from the target accepting a pending request before its deadline,
      and starts out waiting. */
  lemma StepCreates(db: Db, now: Time, e: Event, sid: Id)
    requires sid !in db.sessions && sid in Step(db, now, e).sessions
    ensures e.DoAcceptRequest? && e.newId == sid && e.request in db.requests
    ensures Step(db, now, e).sessions[sid] == SessionFor(db, e.request, now)
    ensures MayMutate(db, e.caller) && db.requests[e.request].toAgent == e.caller
    ensures db.requests[e.request].status == Pending && now < db.requests[e.request].expiresAt
  {
    if LeavesSessions(e) {
      StepLeaves(db, now, e);
    }
  }

  // ---------------------------------------------------------------- the other tables

  /** A request is answered at most once: it leaves `pending` for good. */
  predicate Answers(r: Request, q: Request, now: Time) {
    || q == r
    || (r.status == Pending && q.status != Pending
        && q == r.(status := q.status, respondedAt := Some(now), rejectionReason := q.rejectionReason))
  }

  predicate LeavesRequests(e: Event) {
    !(e.DoConnect? || e.DoAcceptRequest? || e.DoRejectRequest? || e.DoCancelRequest? || e.DoMaintenance?)
  }

  lemma StepLeavesRequests(db: Db, now: Time, e: Event)
    requires LeavesRequests(e)
    ensures Step(db, now, e).requests == db.requests
  {
  }

  lemma AcceptAnswers(db: Db, now: Time, e: Event, rid: Id)
    requires rid in db.requests && e.DoAcceptRequest?
    ensures rid in Step(db, now, e).requests
    ensures Answers(db.requests[rid], Step(db, now, e).requests[rid], now)
    ensures db.requests[rid].status != RequestAccepted && Step(db, now, e).requests[rid].status == RequestAccepted
            ==> e.request == rid && e.newId in Step(db, now, e).sessions && e.newId !in db.sessions
                && Step(db, now, e).sessions[e.newId] == SessionFor(db, rid, now)
  {
  }

  lemma OthersAnswer(db: Db, now: Time, e: Event, rid: Id)
    requires rid in db.requests && !LeavesRequests(e) && !e.DoAcceptRequest?
    ensures rid in Step(db, now, e).requests
    ensures Answers(db.requests[rid], Step(db, now, e).requests[rid], now)
    ensures Step(db, now, e).requests[rid].status == RequestAccepted ==> db.requests[rid].status == RequestAccepted
  {
    hide CheckSoftBan, CreateIntent, AcceptRequest, AcceptMatch, BlockAgent, DeleteAccount, RelayActivate;
  }

  /** An answer is final, and an acceptance comes with its session. */
  lemma StepAnswers(db: Db, now: Time, e: Event, rid: Id)
    requires rid in db.requests
    ensures rid in Step(db, now, e).requests
    ensures Answers(db.requests[rid], Step(db, now, e).requests[rid], now)
    ensures db.requests[rid].status != RequestAccepted && Step(db, now, e).requests[rid].status == RequestAccepted
            ==> e.DoAcceptRequest? && e.request == rid && e.newId in Step(db, now, e).sessions
                && e.newId !in db.sessions
                && Step(db, now, e).sessions[e.newId] == SessionFor(db, rid, now)
  {
    hide Step;
    if LeavesRequests(e) {
      StepLeavesRequests(db, now, e);
    } else if e.DoAcceptRequest? {
      AcceptAnswers(db, now, e, rid);
    } else {
      OthersAnswer(db, now, e, rid);
    }
  }

  /** A new request row comes from `create_connection` alone, between two different agents, each
      owning the intent named for it. */
  lemma StepRequests(db: Db, now: Time, e: Event, rid: Id)
    requires rid !in db.requests && rid in Step(db, now, e).requests
    ensures e.DoConnect? && e.newId == rid && Owns(db, e.caller, e.from) && e.target in db.intents
    ensures var to := db.intents[e.target].agentId;
            && to in db.agents && to != e.caller
            && Step(db, now, e).requests == db.requests[rid :=
                 Request(e.caller, to, e.target, e.from, Pending, now, now + REQUEST_TTL, None, None)]
    ensures MayMutate(db, e.caller)
    ensures Count(db.requests, PendingFrom(e.caller, now)) < PENDING_LIMIT
    ensures Count(db.requests, SentSince(e.caller, now - DAY)) < DAILY_REQUESTS
  {
  }

  predicate LeavesIntents(e: Event) {
    !(e.DoCreateIntent? || e.DoDeleteIntent? || e.DoRefreshIntent? || e.DoConnect? || e.DoBlock?
      || e.DoDeleteAccount? || e.DoMaintenance?)
  }

  lemma StepLeavesIntents(db: Db, now: Time, e: Event)
    requires LeavesIntents(e)
    ensures Step(db, now, e).intents == db.intents
  {
  }

  lemma StepKeepsIntents(db: Db, now: Time, e: Event)
    requires !LeavesIntents(e) && !e.DoCreateIntent?
    ensures Step(db, now, e).intents.Keys == db.intents.Keys
  {
  }

  /** Owner, term and creation time stay. */
  predicate IntentKept(t: map<Id, Intent>, u: map<Id, Intent>, i: Id)
    requires i in t
  {
    i in u && u[i] == t[i].(status := u[i].status, expiresAt := u[i].expiresAt)
  }

  lemma BanKeepsIntent(db: Db, who: Id, now: Time, i: Id)
    requires i in db.intents
    ensures IntentKept(db.intents, CheckSoftBan(db, who, now).intents, i)
  {
    hide BanTrigger;
  }

  lemma PostKeepsIntent(db: Db, now: Time, caller: Id, newId: Id, ttl: nat, blemish: Option<string>, i: Id)
    requires i in db.intents
    ensures IntentKept(db.intents, CreateIntent(db, now, caller, newId, ttl, blemish).db.intents, i)
  {
    hide CheckSoftBan;
    BanKeepsIntent(Posted(db, now, caller, newId, ttl), caller, now, i);
  }

  lemma AskKeepsIntent(db: Db, now: Time, caller: Id, target: Id, from: Id, newId: Id, i: Id)
    requires i in db.intents
    ensures IntentKept(db.intents, Connect(db, now, caller, target, from, newId).db.intents, i)
  {
    hide CheckSoftBan, BlockReply;
    if target in db.intents {
      BanKeepsIntent(Asked(db, now, caller, db.intents[target].agentId, target, from, newId), caller, now, i);
    }
  }

  lemma BlockKeepsIntent(db: Db, now: Time, caller: Id, who: Id, reason: Option<string>, i: Id)
    requires i in db.intents
    ensures IntentKept(db.intents, BlockAgent(db, now, caller, who, reason).db.intents, i)
  {
    hide CheckSoftBan;
    BanKeepsIntent(Shunned(db, now, caller, who, reason), who, now, i);
  }

  lemma CheckingKeepsIntent(db: Db, now: Time, e: Event, i: Id)
    requires i in db.intents && (e.DoCreateIntent? || e.DoConnect? || e.DoBlock?)
    ensures IntentKept(db.intents, Step(db, now, e).intents, i)
  {
    hide CreateIntent, Connect, BlockAgent, IntentKept;
    match e
    case DoCreateIntent(caller, newId, ttl, blemish) => PostKeepsIntent(db, now, caller, newId, ttl, blemish, i);
    case DoConnect(caller, target, from, newId) => AskKeepsIntent(db, now, caller, target, from, newId, i);
    case DoBlock(caller, who, reason) => BlockKeepsIntent(db, now, caller, who, reason, i);
  }

  lemma OthersKeepIntent(db: Db, now: Time, e: Event, i: Id)
    requires i in db.intents && (e.DoDeleteIntent? || e.DoRefreshIntent? || e.DoDeleteAccount? || e.DoMaintenance?)
    ensures IntentKept(db.intents, Step(db, now, e).intents, i)
  {
  }

  /** Owner, term and creation time of an intent never change. */
  lemma StepIntents(db: Db, now: Time, e: Event, i: Id)
    requires i in db.intents
    ensures i in Step(db, now, e).intents
    ensures var r, q := db.intents[i], Step(db, now, e).intents[i];
            q == r.(status := q.status, expiresAt := q.expiresAt)
  {
    hide Step;
    if LeavesIntents(e) {
      StepLeavesIntents(db, now, e);
    } else if e.DoCreateIntent? || e.DoConnect? || e.DoBlock? {
      CheckingKeepsIntent(db, now, e, i);
    } else {
      OthersKeepIntent(db, now, e, i);
    }
  }

  lemma PostMade(db: Db, now: Time, caller: Id, newId: Id, ttl: nat, blemish: Option<string>, i: Id)
    requires i !in db.intents && i in CreateIntent(db, now, caller, newId, ttl, blemish).db.intents
    ensures newId == i && MayMutate(db, caller)
    ensures var t := CreateIntent(db, now, caller, newId, ttl, blemish).db.intents;
            t.Keys == db.intents.Keys + {i} && t[i].agentId == caller && t[i].createdAt == now
    ensures Count(db.intents, PostedSince(caller, now - DAY)) < DAILY_INTENTS
  {
    hide CheckSoftBan;
    BanKeepsIntent(Posted(db, now, caller, newId, ttl), caller, now, newId);
  }

  /** A new intent row comes from `create_intent` alone, inside the daily limit. */
  lemma StepPosts(db: Db, now: Time, e: Event, i: Id)
    requires i !in db.intents && i in Step(db, now, e).intents
    ensures e.DoCreateIntent? && e.newId == i && MayMutate(db, e.caller)
    ensures Step(db, now, e).intents.Keys == db.intents.Keys + {i}
    ensures Step(db, now, e).intents[i].agentId == e.caller && Step(db, now, e).intents[i].createdAt == now
    ensures Count(db.intents, PostedSince(e.caller, now - DAY)) < DAILY_INTENTS
  {
    if e.DoCreateIntent? {
      hide CreateIntent;
      PostMade(db, now, e.caller, e.newId, e.ttlDays, e.blemish, i);
    } else {
      hide Step;
      if LeavesIntents(e) {
        StepLeavesIntents(db, now, e);
      } else {
        StepKeepsIntents(db, now, e);
      }
    }
  }

  lemma CheckingKeepsAgents(db: Db, now: Time, e: Event)
    requires e.DoCreateIntent? || e.DoConnect? || e.DoBlock?
    ensures Step(db, now, e).agents.Keys == db.agents.Keys
  {
    hide BanTrigger, Silenced;
  }

  lemma OthersKeepAgents(db: Db, now: Time, e: Event)
    requires !e.DoCreateIntent? && !e.DoConnect? && !e.DoBlock? && !e.DoRegister?
    ensures Step(db, now, e).agents.Keys == db.agents.Keys
  {
  }

  /** An agent row comes only from registration, with all its totals zero, and stays. */
  lemma StepAgents(db: Db, now: Time, e: Event, a: Id)
    ensures a in db.agents ==> a in Step(db, now, e).agents
    ensures a !in db.agents && a in Step(db, now, e).agents
            ==> e.DoRegister? && e.newId == a && Step(db, now, e).agents[a].totals == ZERO_TOTALS
                && Step(db, now, e) == db.(agents := db.agents[a := Step(db, now, e).agents[a]])
  {
    if e.DoRegister? {
    } else {
      hide Step;
      if e.DoCreateIntent? || e.DoConnect? || e.DoBlock? {
        CheckingKeepsAgents(db, now, e);
      } else {
        OthersKeepAgents(db, now, e);
      }
    }
  }

  // ---------------------------------------------------------------- steps that check for a ban

  /** The tables a step's ban check looks at, and whom it looks at. Only three handlers check. */
  function Checked(db: Db, now: Time, e: Event): (Db, Id) {
    match e
    case DoCreateIntent(caller, newId, ttl, blemish) => (Posted(db, now, caller, newId, ttl), caller)
    case DoConnect(caller, target, from, newId) =>
      (if target in db.intents then Asked(db, now, caller, db.intents[target].agentId, target, from, newId) else db, caller)
    case DoBlock(caller, who, reason) => (Shunned(db, now, caller, who, reason), who)
    case _ => (db, 0)
  }

  /** A step checks for a ban last or not at all, and what it checks has the agents' standing and
      keys of before the step. */
  lemma StepChecks(db: Db, now: Time, e: Event)
    requires e.DoCreateIntent? || e.DoConnect? || e.DoBlock?
    ensures var (mid, who) := Checked(db, now, e);
            Step(db, now, e) == CheckSoftBan(mid, who, now)
            || (Step(db, now, e).abuse == db.abuse && Step(db, now, e).agents == db.agents)
  {
    hide CheckSoftBan, Posted, Asked, Shunned, BlockReply;
  }

  lemma CheckedStarts(db: Db, now: Time, e: Event)
    ensures var (mid, who) := Checked(db, now, e);
      && mid.abuse == db.abuse
      && forall a | a in db.agents ::
           && a in mid.agents && mid.agents[a].status == db.agents[a].status
           && mid.agents[a].softBanLiftsAt == db.agents[a].softBanLiftsAt
           && mid.agents[a].pubkey == db.agents[a].pubkey
  {
  }

  lemma BanMoves(db: Db, who: Id, now: Time, a: Id)
    requires a in db.agents
    ensures a in CheckSoftBan(db, who, now).agents
    ensures var r, q := db.agents[a], CheckSoftBan(db, who, now).agents[a];
      || q == r
      || (a == who && r.status == AgentActive
          && q == r.(status := SoftBanned, softBanLiftsAt := Some(now + SOFT_BAN)))
  {
  }

  lemma StepLeavesBlocks(db: Db, now: Time, e: Event)
    requires !e.DoBlock? && !e.DoUnblock? && !e.DoDeleteAccount?
    ensures Step(db, now, e).blocks == db.blocks
  {
    hide CheckSoftBan, BlockAgent, UnblockAgent, DeleteAccount;
  }

  // ---------------------------------------------------------------- longer logs

  lemma AfterNext(log: seq<Entry>, n: nat)
    requires n < |log|
    ensures After(log, n + 1) == Step(After(log, n), log[n].at, log[n].event)
  {
  }

  lemma {:induction false} AfterPrefix(log: seq<Entry>, more: seq<Entry>, n: nat)
    requires n <= |log|
    ensures After(log + more, n) == After(log, n)
  {
    hide Step;
    if n > 0 { AfterPrefix(log, more, n - 1); }
  }
}
