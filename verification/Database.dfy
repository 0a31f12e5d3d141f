/** The tables as the handlers of `routes/`, `jobs.py` and `moderation.py` change them, in place.
    Every method is proved against the value-level function of the same name. */
module Database {
  import opened Basics
  import opened Rows
  import opened Maintenance
  import opened Handlers
  import Inbox

  class Tables {
    var agents: map<Id, Agent>
    var intents: map<Id, Intent>
    var requests: map<Id, Request>
    var sessions: map<Id, Session>
    var blocks: map<(Id, Id), Block>
    var abuse: seq<AbuseEvent>

    function View(): Db
      reads this
    {
      Db(agents, intents, requests, sessions, blocks, abuse)
    }

    constructor ()
      ensures View() == EMPTY_DB
    {
      agents, intents, requests, sessions, blocks, abuse := map[], map[], map[], map[], map[], [];
    }

    // -------------------------------------------------------------- jobs.py

    /** The eight updates, in the order of the source, each over a whole table. */
    method RunMaintenance(now: Time)
      modifies this
      ensures View() == Maintained(old(View()), now)
    {
      IntentUpdates(agents, intents, now);
      SessionUpdates(sessions, now);
      agents := AgentsAt(agents, now);
      intents := SleepyAll(agents, intents, now);
      intents := WakenedAll(agents, intents, now);
      requests := RequestsAt(requests, now);
      sessions := OverdueAll(sessions, AwaitingJoin, AwaitingJoin, AwaitingJoinExpired, now);
      sessions := OverdueAll(sessions, Active, MatchProposed, TimeLimitReached, now);
      sessions := OverdueAll(sessions, MatchConfirmed, MatchConfirmed, HandoffComplete, now);
      intents := LapsedAll(intents, now);
    }

    // -------------------------------------------------------------- moderation.py

    method ApplySoftBan(a: Id, reason: BanReason, now: Time) returns (applied: bool)
      requires a in agents
      modifies this
      ensures View() == SoftBan(old(View()), a, reason, now)
      ensures applied == (old(agents[a].status) != SoftBanned)
    {
      if agents[a].status == SoftBanned { return false; }
      agents := agents[a := agents[a].(status := SoftBanned, softBanLiftsAt := Some(now + SOFT_BAN))];
      abuse := abuse + [AbuseEvent(a, reason, now)];
      intents := Silenced(intents, a);
      return true;
    }

    method CheckAndApplySoftBan(a: Id, now: Time) returns (applied: bool)
      modifies this
      ensures View() == CheckSoftBan(old(View()), a, now)
      ensures applied == (a in agents && agents[a].status == SoftBanned && old(a in agents && agents[a].status != SoftBanned))
    {
      if a !in agents || agents[a].status in {SoftBanned, HardBanned, AgentDeleted} { return false; }
      var blocked := BlocksSince(View(), a, now - SOFT_BAN);
      if blocked > 5 {
        applied := ApplySoftBan(a, BlocksReceived, now);
        return;
      }
      var sent := Count(requests, SentSince(a, now - SOFT_BAN));
      var accepted := Count(requests, AcceptedSince(a, now - SOFT_BAN));
      var denominator := if accepted > 1 then accepted else 1;
      if sent >= 50 && sent > 50 * denominator {
        applied := ApplySoftBan(a, ConnectionSpam, now);
        return;
      }
      var posted := Count(intents, PostedSince(a, now - DAY));
      if posted > 100 {
        applied := ApplySoftBan(a, IntentBurst, now);
        return;
      }
      return false;
    }

    /** `x.c_total = (x.c_total or 0) + 1`. */
    method Increment(a: Id, c: Counter)
      modifies this`agents
      ensures agents == Bump(old(agents), a, c)
    {
      if a in agents {
        agents := agents[a := agents[a].(totals := agents[a].totals.Plus(c))];
      }
    }

    // -------------------------------------------------------------- intents.py

    method CreateIntent(now: Time, caller: Id, newId: Id, ttlDays: nat, blemish: Option<string>) returns (reply: Reply)
      modifies this
      ensures Outcome(View(), reply) == Handlers.CreateIntent(old(View()), now, caller, newId, ttlDays, blemish)
    {
      if !MayMutate(View(), caller) { return Gate(View(), caller); }
      if !(1 <= ttlDays <= 90) { return Refused(422, "ttl_days"); }
      if blemish.Some? { return Refused(400, blemish.value); }
      var active := Count(intents, ActiveOf(caller));
      if active >= ACTIVE_INTENTS { return Refused(409, "intent_limit_reached"); }
      var daily := Count(intents, PostedSince(caller, now - DAY));
      if daily >= DAILY_INTENTS { return Refused(429, "rate_limited"); }
      if newId in intents { return Refused(500, "duplicate key"); }
      Increment(caller, Intents);
      intents := intents[newId := Intent(caller, ttlDays, now, now + ttlDays * DAY, IntentActive)];
      var _ := CheckAndApplySoftBan(caller, now);
      return Created(newId);
    }

    method DeleteIntent(caller: Id, i: Id) returns (reply: Reply)
      modifies this
      ensures Outcome(View(), reply) == Handlers.DeleteIntent(old(View()), caller, i)
    {
      if !MayMutate(View(), caller) { return Gate(View(), caller); }
      if i !in intents || intents[i].agentId != caller { return Refused(404, "intent not found"); }
      intents := intents[i := intents[i].(status := IntentDeleted)];
      return Ok;
    }

    method RefreshIntent(now: Time, caller: Id, i: Id) returns (reply: Reply)
      modifies this
      ensures Outcome(View(), reply) == Handlers.RefreshIntent(old(View()), now, caller, i)
    {
      if !MayMutate(View(), caller) { return Gate(View(), caller); }
      if i !in intents || intents[i].agentId != caller { return Refused(404, "intent not found"); }
      if intents[i].status in {IntentExpired, Matched, IntentDeleted} {
        return Refused(409, "intent_not_refreshable");
      }
      if intents[i].status == Dormant {
        intents := intents[i := intents[i].(status := IntentActive)];
      }
      intents := intents[i := intents[i].(expiresAt := now + intents[i].ttlDays * DAY)];
      return Ok;
    }

    // -------------------------------------------------------------- connections.py

    method CreateConnection(now: Time, caller: Id, target: Id, from: Id, newId: Id) returns (reply: Reply)
      modifies this
      ensures Outcome(View(), reply) == Connect(old(View()), now, caller, target, from, newId)
    {
      hide CheckSoftBan;
      if !MayMutate(View(), caller) { return Gate(View(), caller); }
      if target !in intents || intents[target].agentId !in agents || intents[target].status != IntentActive {
        return Refused(404, "target intent not found");
      }
      if from !in intents || intents[from].agentId != caller || intents[from].status != IntentActive {
        return Refused(404, "from intent not found");
      }
      var to := intents[target].agentId;
      if to == caller { return Refused(400, "cannot_connect_to_self"); }
      var blocked := BlockReply(View(), caller, to);
      if blocked != Ok { return blocked; }
      var pending := Count(requests, PendingFrom(caller, now));
      if pending >= PENDING_LIMIT { return Refused(409, "connection_request_limit_reached"); }
      var daily := Count(requests, SentSince(caller, now - DAY));
      if daily >= DAILY_REQUESTS { return Refused(429, "rate_limited"); }
      if newId in requests { return Refused(500, "duplicate key"); }
      Increment(caller, Sent);
      Increment(to, Received);
      requests := requests[newId := Request(caller, to, target, from, Pending, now, now + REQUEST_TTL, None, None)];
      var _ := CheckAndApplySoftBan(caller, now);
      return Created(newId);
    }

    method AcceptConnection(now: Time, caller: Id, rid: Id, newId: Id) returns (reply: Reply)
      modifies this
      ensures Outcome(View(), reply) == AcceptRequest(old(View()), now, caller, rid, newId)
    {
      if !MayMutate(View(), caller) { return Gate(View(), caller); }
      if rid !in requests || requests[rid].toAgent != caller {
        return Refused(404, "connection request not found");
      }
      if requests[rid].status != Pending || requests[rid].expiresAt <= now {
        return Refused(409, "connection_request_not_pending");
      }
      if newId in sessions || exists s :: s in sessions && sessions[s].requestId == rid {
        return Refused(500, "duplicate key");
      }
      requests := requests[rid := requests[rid].(status := RequestAccepted, respondedAt := Some(now))];
      sessions := sessions[newId := Session(requests[rid].fromAgent, requests[rid].toAgent, rid, AwaitingJoin,
                                            now, now + REQUEST_TTL, None, None, 0, None, None, None, None)];
      Increment(caller, Accepted);
      return Created(newId);
    }

    method UpdateRequestStatus(rid: Id, status: RequestStatus, now: Time, reason: Option<string>)
      requires rid in requests
      modifies this`requests
      ensures requests == old(requests)[rid := old(requests[rid]).(
                status := status, respondedAt := Some(now),
                rejectionReason := if status == Rejected then reason else old(requests[rid]).rejectionReason)]
    {
      var row := requests[rid].(status := status, respondedAt := Some(now));
      requests := requests[rid := if status == Rejected then row.(rejectionReason := reason) else row];
    }

    method RejectConnection(now: Time, caller: Id, rid: Id, reason: Option<string>) returns (reply: Reply)
      modifies this
      ensures Outcome(View(), reply) == RejectRequest(old(View()), now, caller, rid, reason)
    {
      if !MayMutate(View(), caller) { return Gate(View(), caller); }
      if rid !in requests || requests[rid].toAgent != caller {
        return Refused(404, "connection request not found");
      }
      if requests[rid].status != Pending { return Refused(409, "connection_request_not_pending"); }
      UpdateRequestStatus(rid, Rejected, now, reason);
      return Ok;
    }

    method CancelConnection(now: Time, caller: Id, rid: Id) returns (reply: Reply)
      modifies this
      ensures Outcome(View(), reply) == CancelRequest(old(View()), now, caller, rid)
    {
      if !MayMutate(View(), caller) { return Gate(View(), caller); }
      if rid !in requests || requests[rid].fromAgent != caller {
        return Refused(404, "connection request not found");
      }
      if requests[rid].status != Pending { return Refused(409, "connection_request_not_pending"); }
      UpdateRequestStatus(rid, Cancelled, now, None);
      return Ok;
    }

    // -------------------------------------------------------------- matches.py, sessions.py

    method ProposeMatch(now: Time, caller: Id, sid: Id) returns (reply: Reply)
      modifies this
      ensures Outcome(View(), reply) == Handlers.ProposeMatch(old(View()), now, caller, sid)
    {
      if !MayMutate(View(), caller) { return Gate(View(), caller); }
      if sid !in sessions || !sessions[sid].HasMember(caller) { return Refused(404, "session not found"); }
      if sessions[sid].status == MatchProposed && sessions[sid].proposedBy == Some(caller) { return Ok; }
      if sessions[sid].status == MatchConfirmed && sessions[sid].proposedBy.Some? { return Ok; }
      if sessions[sid].status != Active { return Refused(409, "session_not_active"); }
      sessions := sessions[sid := sessions[sid].(status := MatchProposed)];
      sessions := sessions[sid := sessions[sid].(proposedBy := Some(caller))];
      sessions := sessions[sid := sessions[sid].(proposedAt := Some(now))];
      return Ok;
    }

    method AcceptMatch(now: Time, caller: Id, sid: Id) returns (reply: Reply)
      modifies this
      ensures Outcome(View(), reply) == Handlers.AcceptMatch(old(View()), now, caller, sid)
    {
      if !MayMutate(View(), caller) { return Gate(View(), caller); }
      if sid !in sessions || !sessions[sid].HasMember(caller) { return Refused(404, "session not found"); }
      if sessions[sid].status != MatchProposed || sessions[sid].proposedBy.None? {
        return Refused(409, "match_not_proposed");
      }
      var proposer := sessions[sid].proposedBy.value;
      if proposer == caller { return Refused(403, "proposer_cannot_accept"); }
      sessions := sessions[sid := sessions[sid].(status := MatchConfirmed)];
      sessions := sessions[sid := sessions[sid].(confirmedAt := Some(now))];
      sessions := sessions[sid := sessions[sid].(expiresAt := now + HANDOFF_WINDOW)];
      Increment(caller, Confirmed);
      Increment(proposer, Confirmed);
      return Ok;
    }

    method RejectMatch(caller: Id, sid: Id) returns (reply: Reply)
      modifies this
      ensures Outcome(View(), reply) == Handlers.RejectMatch(old(View()), caller, sid)
    {
      if !MayMutate(View(), caller) { return Gate(View(), caller); }
      if sid !in sessions || !sessions[sid].HasMember(caller) { return Refused(404, "session not found"); }
      if sessions[sid].status != MatchProposed || sessions[sid].proposedBy.None? {
        return Refused(409, "match_not_proposed");
      }
      if sessions[sid].proposedBy.value == caller { return Refused(403, "proposer_cannot_reject"); }
      sessions := sessions[sid := sessions[sid].(status := Active)];
      sessions := sessions[sid := sessions[sid].(proposedBy := None)];
      sessions := sessions[sid := sessions[sid].(proposedAt := None)];
      return Ok;
    }

    /** `close_session`, the first half of the end route; the second is the relay's. */
    method EndSession(now: Time, caller: Id, sid: Id) returns (reply: Reply)
      modifies this
      ensures Outcome(View(), reply) == Handlers.EndSession(old(View()), now, caller, sid)
    {
      if !MayMutate(View(), caller) { return Gate(View(), caller); }
      if sid !in sessions || !sessions[sid].HasMember(caller) { return Refused(404, "session not found"); }
      if sessions[sid].status != Closed {
        sessions := sessions[sid := sessions[sid].ClosedAs(now, EndedByAgent)];
      }
      return Ok;
    }

    // -------------------------------------------------------------- blocks.py, agents.py

    /** Row by row, as the source does, returning the ids it closed. */
    method CloseSessionsBetween(a: Id, b: Id, now: Time) returns (ids: seq<Id>)
      modifies this`sessions
      ensures sessions == ClosedBetween(old(sessions), a, b, now)
      ensures forall s :: s in ids <==> s in old(sessions) && old(sessions[s].Between(a, b) && sessions[s].status != Closed)
      ensures forall i, j :: 0 <= i < j < |ids| ==> ids[i] != ids[j]
    {
      ghost var was := sessions;
      var rows := set s | s in sessions && sessions[s].Between(a, b) && sessions[s].status != Closed;
      ghost var all := rows;
      ids := [];
      while rows != {}
        invariant rows <= all
        invariant forall s :: s in ids <==> s in all && s !in rows
        invariant forall i, j :: 0 <= i < j < |ids| ==> ids[i] != ids[j]
        invariant sessions.Keys == was.Keys
        invariant forall s | s in was ::
          sessions[s] == if s in all && s !in rows then was[s].ClosedAs(now, Blocked) else was[s]
        decreases rows
      {
        var s :| s in rows;
        sessions := sessions[s := sessions[s].ClosedAs(now, Blocked)];
        ids := ids + [s];
        rows := rows - {s};
      }
    }

    method BlockAgent(now: Time, caller: Id, target: Id, reason: Option<string>) returns (reply: Reply, closed: seq<Id>)
      modifies this
      ensures Outcome(View(), reply) == Handlers.BlockAgent(old(View()), now, caller, target, reason)
      ensures forall s :: s in closed <==>
        reply == Ok && s in old(sessions) && old(sessions[s].Between(caller, target) && sessions[s].status != Closed)
    {
      if !MayMutate(View(), caller) { return Gate(View(), caller), []; }
      if target !in agents { return Refused(404, "target agent not found"), []; }
      if target == caller { return Refused(400, "cannot block self"), []; }
      var created := (caller, target) !in blocks;
      if created {
        Increment(target, Blocks);
        blocks := blocks[(caller, target) := Block(reason, now)];
      } else {
        blocks := blocks[(caller, target) := blocks[(caller, target)].(reason := reason)];
      }
      closed := CloseSessionsBetween(caller, target, now);
      if created {
        var _ := CheckAndApplySoftBan(target, now);
      }
      reply := Ok;
    }

    method UnblockAgent(caller: Id, target: Id) returns (reply: Reply)
      modifies this
      ensures Outcome(View(), reply) == Handlers.UnblockAgent(old(View()), caller, target)
    {
      if !MayMutate(View(), caller) { return Gate(View(), caller); }
      if target in agents {
        blocks := blocks - {(caller, target)};
      }
      return Ok;
    }

    method DeleteAgentAccount(now: Time, caller: Id) returns (reply: Reply)
      modifies this
      ensures Outcome(View(), reply) == DeleteAccount(old(View()), now, caller)
    {
      hide ErasedIntents, ErasedBlocks, ErasedSessions;
      if !Signed(View(), caller) { return UNKNOWN; }
      intents := ErasedIntents(intents, caller);
      blocks := ErasedBlocks(blocks, caller);
      sessions := ErasedSessions(sessions, caller, now);
      agents := agents[caller := agents[caller].(githubUserId := None, lastSeenAt := None)];
      agents := agents[caller := agents[caller].(status := AgentDeleted, softBanLiftsAt := None)];
      agents := agents[caller := agents[caller].(totals := ZERO_TOTALS)];
      return Ok;
    }

    // -------------------------------------------------------------- inbox.py

    /** Polling is a heartbeat: it is what keeps an agent's intents from going dormant. */
    method LoadInbox(now: Time, caller: Id) returns (reply: Reply, waiting: seq<Inbox.Waiting>)
      modifies this`agents
      ensures Outcome(View(), reply) == Poll(old(View()), now, caller)
      ensures Inbox.InOrder(waiting)
      ensures forall k | 0 <= k < |waiting| :: Inbox.EntryOf(View(), caller, now, waiting[k])
      ensures forall s :: reply == Ok && Inbox.Listed(View(), caller, now, s) ==> Inbox.Lists(waiting, s)
    {
      if !Signed(View(), caller) { return UNKNOWN, []; }
      agents := agents[caller := agents[caller].(lastSeenAt := Some(now))];
      waiting := Inbox.ListWaiting(View(), caller, now);
      reply := Ok;
    }

    // -------------------------------------------------------------- relay.py's writes

    method SetSessionActive(now: Time, sid: Id)
      modifies this
      ensures View() == RelayActivate(old(View()), now, sid)
    {
      if sid in sessions && sessions[sid].status == AwaitingJoin {
        sessions := sessions[sid := sessions[sid].(status := Active)];
        sessions := sessions[sid := sessions[sid].(activeAt := Some(now))];
        sessions := sessions[sid := sessions[sid].(expiresAt := now + ACTIVE_WINDOW)];
        Increment(sessions[sid].agentA, Started);
        Increment(sessions[sid].agentB, Started);
      }
    }

    method PersistMessageCount(sid: Id, count: nat)
      modifies this`sessions
      ensures View() == RelayCount(old(View()), sid, count)
    {
      if sid in sessions {
        sessions := sessions[sid := sessions[sid].(messageCount := count)];
      }
    }

    method PersistClosed(now: Time, sid: Id, reason: CloseReason, count: Option<nat>)
      modifies this`sessions
      ensures View() == RelayClose(old(View()), now, sid, reason, count)
    {
      if sid !in sessions { return; }
      sessions := sessions[sid := sessions[sid].(status := Closed)];
      sessions := sessions[sid := sessions[sid].(closedAt := Some(now), closeReason := Some(reason))];
      if count.Some? {
        sessions := sessions[sid := sessions[sid].(messageCount := count.value)];
      }
    }
  }
}
