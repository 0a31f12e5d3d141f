/** What each request is answered, and what an answer tells: a refusal leaves every table alone, and a
    success is worth what it says. */
module Replies {
  import opened Basics
  import opened Rows
  import opened Handlers
  import opened Effects

  /** The steps that are requests over HTTP by a registered agent. */
  predicate IsCall(e: Event) {
    !e.DoRegister? && !e.DoRelayActivate? && !e.DoRelayCount? && !e.DoRelayClose? && !e.DoMaintenance?
  }

  /** Polling and deleting the account are open to a soft-banned agent; nothing else is. */
  predicate ForBannedToo(e: Event) { e.DoPoll? || e.DoDeleteAccount? }

  function ReplyTo(db: Db, now: Time, e: Event): Reply
    requires IsCall(e)
  {
    match e
    case DoPoll(caller) => Poll(db, now, caller).reply
    case DoCreateIntent(caller, newId, ttl, blemish) => CreateIntent(db, now, caller, newId, ttl, blemish).reply
    case DoDeleteIntent(caller, i) => DeleteIntent(db, caller, i).reply
    case DoRefreshIntent(caller, i) => RefreshIntent(db, now, caller, i).reply
    case DoConnect(caller, target, from, newId) => Connect(db, now, caller, target, from, newId).reply
    case DoAcceptRequest(caller, r, newId) => AcceptRequest(db, now, caller, r, newId).reply
    case DoRejectRequest(caller, r, reason) => RejectRequest(db, now, caller, r, reason).reply
    case DoCancelRequest(caller, r) => CancelRequest(db, now, caller, r).reply
    case DoProposeMatch(caller, s) => ProposeMatch(db, now, caller, s).reply
    case DoAcceptMatch(caller, s) => AcceptMatch(db, now, caller, s).reply
    case DoRejectMatch(caller, s) => RejectMatch(db, caller, s).reply
    case DoEndSession(caller, s) => EndSession(db, now, caller, s).reply
    case DoBlock(caller, who, reason) => BlockAgent(db, now, caller, who, reason).reply
    case DoUnblock(caller, who) => UnblockAgent(db, caller, who).reply
    case DoDeleteAccount(caller) => DeleteAccount(db, now, caller).reply
  }

  /** Who is not registered, or deleted, or hard-banned, is answered 401; who is soft-banned 403, unless
      the request is open to it; and neither changes anything. */
  lemma GateReply(db: Db, now: Time, e: Event)
    requires IsCall(e)
    ensures !Calls(db, e.caller) ==>
      ReplyTo(db, now, e) == Refused(401, "agent not registered") && Step(db, now, e) == db
    ensures Calls(db, e.caller) && !Acts(db, e.caller) && !ForBannedToo(e) ==>
      ReplyTo(db, now, e) == Refused(403, "agent cannot mutate while banned") && Step(db, now, e) == db
  {
    hide CheckSoftBan;
  }

  /** A refused request has changed nothing. */
  lemma RefusedChangesNothing(db: Db, now: Time, e: Event)
    requires IsCall(e) && ReplyTo(db, now, e).Refused?
    ensures Step(db, now, e) == db
  {
    hide CheckSoftBan, BlockReply;
  }

  /** The limits of section 8.2 on intents, in the order in which they are looked at. */
  lemma PostReply(db: Db, now: Time, e: Event)
    requires e.DoCreateIntent? && Acts(db, e.caller) && e.newId !in db.intents
    requires 1 <= e.ttlDays <= 90 && e.blemish.None?
    ensures var active := |set i | i in db.intents && db.intents[i].agentId == e.caller && db.intents[i].status == IntentActive|;
            var today := |set i | i in db.intents && db.intents[i].agentId == e.caller && now - DAY <= db.intents[i].createdAt|;
      ReplyTo(db, now, e) == if active >= 10 then Refused(409, "intent_limit_reached")
                             else if today >= 30 then Refused(429, "rate_limited")
                             else Created(e.newId)
  {
    hide CheckSoftBan;
    ActiveInWords(db, e.caller);
    PostedInWords(db.intents, e.caller, now - DAY);
  }

  /** The limits on requests, once the two may meet at all. */
  lemma AskReply(db: Db, now: Time, e: Event)
    requires e.DoConnect? && Acts(db, e.caller) && e.newId !in db.requests
    requires Discoverable(db, e.target) && Discoverable(db, e.from) && db.intents[e.from].agentId == e.caller
    requires MayMeet(db, e.caller, db.intents[e.target].agentId)
    ensures var pending := |set r | r in db.requests && db.requests[r].fromAgent == e.caller && db.requests[r].status == Pending
                                    && now < db.requests[r].expiresAt|;
            var today := |set r | r in db.requests && db.requests[r].fromAgent == e.caller && now - DAY <= db.requests[r].createdAt|;
      ReplyTo(db, now, e) == if pending >= 20 then Refused(409, "connection_request_limit_reached")
                             else if today >= 50 then Refused(429, "rate_limited")
                             else Created(e.newId)
  {
    hide CheckSoftBan;
    PendingInWords(db, e.caller, now);
    SentInWords(db.requests, e.caller, now - DAY);
  }

  /** Who answers a request that is not theirs is told it does not exist; who answers their own too late,
      or a second time, that it is no longer pending. Only acceptance looks at the deadline. */
  lemma AnswerReply(db: Db, now: Time, e: Event)
    requires (e.DoAcceptRequest? || e.DoRejectRequest? || e.DoCancelRequest?) && Acts(db, e.caller)
    ensures var rid, reply := e.request, ReplyTo(db, now, e);
            var mine := rid in db.requests && e.caller ==
                        (if e.DoCancelRequest? then db.requests[rid].fromAgent else db.requests[rid].toAgent);
      && (reply == Refused(404, "connection request not found") <==> !mine)
      && (reply == Refused(409, "connection_request_not_pending") <==>
            mine && (db.requests[rid].status != Pending || (e.DoAcceptRequest? && db.requests[rid].expiresAt <= now)))
      && (reply.Created? <==> Introduces(db, now, e))
  {
    hide CreateIntent, Connect, BlockAgent, CheckSoftBan;
  }

  /** What stands before the limits: the request must be well formed, ... */
  lemma BadPostReply(db: Db, now: Time, e: Event)
    requires e.DoCreateIntent? && Acts(db, e.caller) && (e.ttlDays < 1 || e.ttlDays > 90 || e.blemish.Some?)
    ensures ReplyTo(db, now, e) ==
            if 1 <= e.ttlDays <= 90 then Refused(400, e.blemish.value) else Refused(422, "ttl_days")
  {
  }

  /** ... and the two intents must be found, the second as the caller's own, and belong to two agents. */
  lemma BadAskReply(db: Db, now: Time, e: Event)
    requires e.DoConnect? && Acts(db, e.caller)
    ensures var reply := ReplyTo(db, now, e);
            var found := Discoverable(db, e.target) && db.intents[e.target].agentId in db.agents;
            var own := Discoverable(db, e.from) && db.intents[e.from].agentId == e.caller;
      && (reply == Refused(404, "target intent not found") <==> !found)
      && (found && !own ==> reply == Refused(404, "from intent not found"))
      && (reply == Refused(400, "cannot_connect_to_self") <==> found && own && db.intents[e.target].agentId == e.caller)
  {
    hide CheckSoftBan;
    assert "target intent not found"[0] != "from intent not found"[0];
  }

  /** Only its owner finds an intent, and only a live one is refreshed. */
  lemma OwnIntentReply(db: Db, now: Time, e: Event)
    requires (e.DoDeleteIntent? || e.DoRefreshIntent?) && Acts(db, e.caller)
    ensures ReplyTo(db, now, e) ==
            if e.intent !in db.intents || db.intents[e.intent].agentId != e.caller then Refused(404, "intent not found")
            else if e.DoDeleteIntent? || Alive(db.intents[e.intent]) then Ok
            else Refused(409, "intent_not_refreshable")
  {
  }

  /** Blocking wants another, registered agent; unblocking takes anybody. Ending is for the members, and done
      once for all. Polling and deleting always succeed. */
  lemma PlainReply(db: Db, now: Time, e: Event)
    requires e.DoBlock? || e.DoUnblock? || e.DoEndSession? || e.DoPoll? || e.DoDeleteAccount?
    requires Calls(db, e.caller) && (ForBannedToo(e) || Acts(db, e.caller))
    ensures ReplyTo(db, now, e) ==
            if e.DoBlock? && e.who !in db.agents then Refused(404, "target agent not found")
            else if e.DoBlock? && e.who == e.caller then Refused(400, "cannot block self")
            else if e.DoEndSession? && !Takes(db, e.caller, e.session) then Refused(404, "session not found")
            else Ok
  {
    hide CheckSoftBan;
  }

  /** Deleting the account erases the row but for its key and its age, and with it the intents, the
      blocks either way, and the open sessions; nobody else's rows change. */
  lemma DeletionErases(db: Db, now: Time, q: Id)
    requires Calls(db, q)
    ensures var after, r := Step(db, now, DoDeleteAccount(q)), db.agents[q];
      && after.agents == db.agents[q := Agent(r.pubkey, None, r.createdAt, None, AgentDeleted, None, Totals(0, 0, 0, 0, 0, 0, 0))]
      && after.intents.Keys == db.intents.Keys && after.sessions.Keys == db.sessions.Keys && after.requests == db.requests
      && (forall i | i in db.intents ::
            after.intents[i] == if db.intents[i].agentId == q then db.intents[i].(status := IntentDeleted) else db.intents[i])
      && (forall s | s in db.sessions :: q in {db.sessions[s].agentA, db.sessions[s].agentB} ==>
            after.sessions[s].status == Closed)
      && (forall s | s in db.sessions :: q !in {db.sessions[s].agentA, db.sessions[s].agentB} ==>
            after.sessions[s] == db.sessions[s])
      && forall p :: p in after.blocks <==> p in db.blocks && q != p.0 && q != p.1
  {
    hide Register, Poll, CreateIntent, DeleteIntent, RefreshIntent, Connect, AcceptRequest, RejectRequest,
      CancelRequest, ProposeMatch, AcceptMatch, RejectMatch, EndSession, BlockAgent, UnblockAgent,
      RelayActivate, RelayCount, RelayClose, CheckSoftBan;
  }
}
