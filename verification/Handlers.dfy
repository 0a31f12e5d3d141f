/** What every request handler and every relay write does to the tables: one value-level function
    per handler, from read to commit. The class `Database` performs them in place. */
module Handlers {
  import opened Basics
  import opened Rows
  import opened Maintenance

  const PENDING_LIMIT: nat := 20
  const DAILY_REQUESTS: nat := 50
  const ACTIVE_INTENTS: nat := 10
  const DAILY_INTENTS: nat := 30

  datatype Reply = Ok | Created(id: Id) | Refused(status: nat, code: string)

  datatype Outcome = Outcome(db: Db, reply: Reply)

  // ---------------------------------------------------------------- who may call

  /** `verify_signed_request`, the signature itself aside. */
  predicate Signed(db: Db, a: Id) {
    a in db.agents && db.agents[a].status != HardBanned && db.agents[a].status != AgentDeleted
  }

  predicate MayMutate(db: Db, a: Id) {
    Signed(db, a) && db.agents[a].status != SoftBanned
  }

  const UNKNOWN := Refused(401, "agent not registered")
  const BANNED := Refused(403, "agent cannot mutate while banned")

  /** The reply of the two authentication dependencies when they do not let the caller through. */
  function Gate(db: Db, a: Id): Reply {
    if Signed(db, a) then BANNED else UNKNOWN
  }

  // ---------------------------------------------------------------- counting queries

  function OwnedBy(a: Id): Intent -> bool { (i: Intent) => i.agentId == a }

  function ActiveOf(a: Id): Intent -> bool {
    (i: Intent) => i.agentId == a && i.status == IntentActive
  }

  function PostedSince(a: Id, since: Time): Intent -> bool {
    (i: Intent) => i.agentId == a && i.createdAt >= since
  }

  function PendingFrom(a: Id, now: Time): Request -> bool {
    (r: Request) => r.fromAgent == a && r.status == Pending && r.expiresAt > now
  }

  function SentSince(a: Id, since: Time): Request -> bool {
    (r: Request) => r.fromAgent == a && r.createdAt >= since
  }

  function AcceptedSince(a: Id, since: Time): Request -> bool {
    (r: Request) => r.fromAgent == a && r.status == RequestAccepted
                    && r.respondedAt.Some? && r.respondedAt.value >= since
  }

  /** `_count_blocks_received_since`: the table is keyed by pair, so this counts pairs. */
  function BlocksSince(db: Db, a: Id, since: Time): nat {
    |set p | p in db.blocks && p.1 == a && db.blocks[p].createdAt >= since|
  }

  // ---------------------------------------------------------------- moderation.py

  /** Which of the three triggers of `check_and_apply_soft_ban` fires, in their order. */
  function BanTrigger(db: Db, a: Id, now: Time): Option<BanReason> {
    var sent := Count(db.requests, SentSince(a, now - SOFT_BAN));
    var accepted := Count(db.requests, AcceptedSince(a, now - SOFT_BAN));
    var denominator := if accepted > 1 then accepted else 1;
    if BlocksSince(db, a, now - SOFT_BAN) > 5 then Some(BlocksReceived)
    else if sent >= 50 && sent > 50 * denominator then Some(ConnectionSpam)
    else if Count(db.intents, PostedSince(a, now - DAY)) > 100 then Some(IntentBurst)
    else None
  }

  function Silenced(t: map<Id, Intent>, a: Id): map<Id, Intent> {
    map i | i in t ::
      if t[i].agentId == a && t[i].status == IntentActive then t[i].(status := Dormant) else t[i]
  }

  function SoftBan(db: Db, a: Id, reason: BanReason, now: Time): Db
    requires a in db.agents
  {
    if db.agents[a].status == SoftBanned then db
    else db.(agents := db.agents[a := db.agents[a].(status := SoftBanned,
                                                    softBanLiftsAt := Some(now + SOFT_BAN))],
             abuse := db.abuse + [AbuseEvent(a, reason, now)],
             intents := Silenced(db.intents, a))
  }

  /** Beyond the agent's own status and lift time, a ban silences intents and is logged; nothing
      else moves. */
  function CheckSoftBan(db: Db, a: Id, now: Time): (r: Db)
    ensures r.requests == db.requests && r.sessions == db.sessions && r.blocks == db.blocks
    ensures r.agents.Keys == db.agents.Keys && r.intents.Keys == db.intents.Keys
  {
    if a !in db.agents || db.agents[a].status != AgentActive then db
    else
      var trigger := BanTrigger(db, a, now);
      if trigger.Some? then SoftBan(db, a, trigger.value, now) else db
  }

  // ---------------------------------------------------------------- register.py, inbox.py

  /** The row `create_registered_agent` inserts; module `Registration` has the protocol. */
  function Register(db: Db, now: Time, newId: Id, pubkey: string, github: int): Outcome {
    if newId in db.agents || exists a :: a in db.agents && db.agents[a].pubkey == pubkey
    then Outcome(db, Refused(500, "duplicate key"))
    else Outcome(db.(agents := db.agents[newId :=
                       Agent(pubkey, Some(github), now, None, AgentActive, None, ZERO_TOTALS)]),
                 Created(newId))
  }

  function Poll(db: Db, now: Time, caller: Id): Outcome {
    if !Signed(db, caller) then Outcome(db, UNKNOWN)
    else Outcome(db.(agents := db.agents[caller := db.agents[caller].(lastSeenAt := Some(now))]), Ok)
  }

  // ---------------------------------------------------------------- intents.py

  /** `persist_intent`. */
  function Posted(db: Db, now: Time, caller: Id, newId: Id, ttlDays: nat): Db {
    db.(agents := Bump(db.agents, caller, Intents),
        intents := db.intents[newId := Intent(caller, ttlDays, now, now + ttlDays * DAY, IntentActive)])
  }

  /** `blemish` is the verdict of the match-type pattern and the contact scan. */
  function CreateIntent(db: Db, now: Time, caller: Id, newId: Id, ttlDays: nat, blemish: Option<string>): Outcome {
    if !MayMutate(db, caller) then Outcome(db, Gate(db, caller))
    else if ttlDays < 1 || ttlDays > 90 then Outcome(db, Refused(422, "ttl_days"))
    else if blemish.Some? then Outcome(db, Refused(400, blemish.value))
    else if Count(db.intents, ActiveOf(caller)) >= ACTIVE_INTENTS then
      Outcome(db, Refused(409, "intent_limit_reached"))
    else if Count(db.intents, PostedSince(caller, now - DAY)) >= DAILY_INTENTS then
      Outcome(db, Refused(429, "rate_limited"))
    else if newId in db.intents then Outcome(db, Refused(500, "duplicate key"))
    else Outcome(CheckSoftBan(Posted(db, now, caller, newId, ttlDays), caller, now), Created(newId))
  }

  predicate Owns(db: Db, caller: Id, i: Id) {
    i in db.intents && db.intents[i].agentId == caller
  }

  function DeleteIntent(db: Db, caller: Id, i: Id): Outcome {
    if !MayMutate(db, caller) then Outcome(db, Gate(db, caller))
    else if !Owns(db, caller, i) then Outcome(db, Refused(404, "intent not found"))
    else Outcome(db.(intents := db.intents[i := db.intents[i].(status := IntentDeleted)]), Ok)
  }

  function RefreshIntent(db: Db, now: Time, caller: Id, i: Id): Outcome {
    if !MayMutate(db, caller) then Outcome(db, Gate(db, caller))
    else if !Owns(db, caller, i) then Outcome(db, Refused(404, "intent not found"))
    else
      var row := db.intents[i];
      if row.status in {IntentExpired, Matched, IntentDeleted} then
        Outcome(db, Refused(409, "intent_not_refreshable"))
      else
        Outcome(db.(intents := db.intents[i := row.(status := IntentActive,
                                                    expiresAt := now + row.ttlDays * DAY)]), Ok)
  }

  // ---------------------------------------------------------------- connections.py

  /** Two blocks, one in each direction, make the existence query of `has_block_between` raise. */
  function BlockReply(db: Db, a: Id, b: Id): Reply {
    if (a, b) in db.blocks && (b, a) in db.blocks then Refused(500, "multiple rows")
    else if (a, b) in db.blocks || (b, a) in db.blocks then Refused(403, "blocked")
    else Ok
  }

  /** `create_connection_request`. */
  function Asked(db: Db, now: Time, caller: Id, to: Id, target: Id, from: Id, newId: Id): Db {
    db.(agents := Bump(Bump(db.agents, caller, Sent), to, Received),
        requests := db.requests[newId := Request(caller, to, target, from, Pending, now,
                                                 now + REQUEST_TTL, None, None)])
  }

  function Connect(db: Db, now: Time, caller: Id, target: Id, from: Id, newId: Id): Outcome {
    if !MayMutate(db, caller) then Outcome(db, Gate(db, caller))
    else if target !in db.intents || db.intents[target].agentId !in db.agents
            || db.intents[target].status != IntentActive then
      Outcome(db, Refused(404, "target intent not found"))
    else if !Owns(db, caller, from) || db.intents[from].status != IntentActive then
      Outcome(db, Refused(404, "from intent not found"))
    else
      var to := db.intents[target].agentId;
      if to == caller then Outcome(db, Refused(400, "cannot_connect_to_self"))
      else if BlockReply(db, caller, to) != Ok then Outcome(db, BlockReply(db, caller, to))
      else if Count(db.requests, PendingFrom(caller, now)) >= PENDING_LIMIT then
        Outcome(db, Refused(409, "connection_request_limit_reached"))
      else if Count(db.requests, SentSince(caller, now - DAY)) >= DAILY_REQUESTS then
        Outcome(db, Refused(429, "rate_limited"))
      else if newId in db.requests then Outcome(db, Refused(500, "duplicate key"))
      else Outcome(CheckSoftBan(Asked(db, now, caller, to, target, from, newId), caller, now), Created(newId))
  }

  /** The row an accepted request gives rise to. */
  function SessionFor(db: Db, rid: Id, now: Time): Session
    requires rid in db.requests
  {
    Session(db.requests[rid].fromAgent, db.requests[rid].toAgent, rid, AwaitingJoin, now,
            now + REQUEST_TTL, None, None, 0, None, None, None, None)
  }

  function AcceptRequest(db: Db, now: Time, caller: Id, rid: Id, newId: Id): Outcome {
    if !MayMutate(db, caller) then Outcome(db, Gate(db, caller))
    else if rid !in db.requests || db.requests[rid].toAgent != caller then
      Outcome(db, Refused(404, "connection request not found"))
    else if db.requests[rid].status != Pending || db.requests[rid].expiresAt <= now then
      Outcome(db, Refused(409, "connection_request_not_pending"))
    else if newId in db.sessions || exists s :: s in db.sessions && db.sessions[s].requestId == rid then
      Outcome(db, Refused(500, "duplicate key"))
    else
      Outcome(db.(
        agents := Bump(db.agents, caller, Accepted),
        requests := db.requests[rid := db.requests[rid].(status := RequestAccepted, respondedAt := Some(now))],
        sessions := db.sessions[newId := SessionFor(db, rid, now)]), Created(newId))
  }

  function RejectRequest(db: Db, now: Time, caller: Id, rid: Id, reason: Option<string>): Outcome {
    if !MayMutate(db, caller) then Outcome(db, Gate(db, caller))
    else if rid !in db.requests || db.requests[rid].toAgent != caller then
      Outcome(db, Refused(404, "connection request not found"))
    else if db.requests[rid].status != Pending then
      Outcome(db, Refused(409, "connection_request_not_pending"))
    else
      Outcome(db.(requests := db.requests[rid := db.requests[rid].(
        status := Rejected, respondedAt := Some(now), rejectionReason := reason)]), Ok)
  }

  function CancelRequest(db: Db, now: Time, caller: Id, rid: Id): Outcome {
    if !MayMutate(db, caller) then Outcome(db, Gate(db, caller))
    else if rid !in db.requests || db.requests[rid].fromAgent != caller then
      Outcome(db, Refused(404, "connection request not found"))
    else if db.requests[rid].status != Pending then
      Outcome(db, Refused(409, "connection_request_not_pending"))
    else
      Outcome(db.(requests := db.requests[rid := db.requests[rid].(
        status := Cancelled, respondedAt := Some(now))]), Ok)
  }

  // ---------------------------------------------------------------- matches.py, sessions.py

  predicate IsMember(db: Db, caller: Id, sid: Id) {
    sid in db.sessions && db.sessions[sid].HasMember(caller)
  }

  function ProposeMatch(db: Db, now: Time, caller: Id, sid: Id): Outcome {
    if !MayMutate(db, caller) then Outcome(db, Gate(db, caller))
    else if !IsMember(db, caller, sid) then Outcome(db, Refused(404, "session not found"))
    else
      var row := db.sessions[sid];
      if row.status == MatchProposed && row.proposedBy == Some(caller) then Outcome(db, Ok)
      else if row.status == MatchConfirmed && row.proposedBy.Some? then Outcome(db, Ok)
      else if row.status != Active then Outcome(db, Refused(409, "session_not_active"))
      else Outcome(db.(sessions := db.sessions[sid := row.(
             status := MatchProposed, proposedBy := Some(caller), proposedAt := Some(now))]), Ok)
  }

  function AcceptMatch(db: Db, now: Time, caller: Id, sid: Id): Outcome {
    if !MayMutate(db, caller) then Outcome(db, Gate(db, caller))
    else if !IsMember(db, caller, sid) then Outcome(db, Refused(404, "session not found"))
    else
      var row := db.sessions[sid];
      if row.status != MatchProposed || row.proposedBy.None? then
        Outcome(db, Refused(409, "match_not_proposed"))
      else if row.proposedBy == Some(caller) then Outcome(db, Refused(403, "proposer_cannot_accept"))
      else
        Outcome(db.(
          agents := Bump(Bump(db.agents, caller, Confirmed), row.proposedBy.value, Confirmed),
          sessions := db.sessions[sid := row.(
            status := MatchConfirmed, confirmedAt := Some(now), expiresAt := now + HANDOFF_WINDOW)]), Ok)
  }

  function RejectMatch(db: Db, caller: Id, sid: Id): Outcome {
    if !MayMutate(db, caller) then Outcome(db, Gate(db, caller))
    else if !IsMember(db, caller, sid) then Outcome(db, Refused(404, "session not found"))
    else
      var row := db.sessions[sid];
      if row.status != MatchProposed || row.proposedBy.None? then
        Outcome(db, Refused(409, "match_not_proposed"))
      else if row.proposedBy == Some(caller) then Outcome(db, Refused(403, "proposer_cannot_reject"))
      else Outcome(db.(sessions := db.sessions[sid := row.(
             status := Active, proposedBy := None, proposedAt := None)]), Ok)
  }

  function EndSession(db: Db, now: Time, caller: Id, sid: Id): Outcome {
    if !MayMutate(db, caller) then Outcome(db, Gate(db, caller))
    else if !IsMember(db, caller, sid) then Outcome(db, Refused(404, "session not found"))
    else if db.sessions[sid].status == Closed then Outcome(db, Ok)
    else Outcome(db.(sessions := db.sessions[sid := db.sessions[sid].ClosedAs(now, EndedByAgent)]), Ok)
  }

  // ---------------------------------------------------------------- blocks.py, agents.py

  function ClosedBetween(t: map<Id, Session>, a: Id, b: Id, now: Time): map<Id, Session> {
    map s | s in t ::
      if t[s].Between(a, b) && t[s].status != Closed then t[s].ClosedAs(now, Blocked) else t[s]
  }

  /** `upsert_block` on a new pair, then `close_sessions_between`. */
  function Shunned(db: Db, now: Time, caller: Id, target: Id, reason: Option<string>): Db {
    db.(agents := Bump(db.agents, target, Blocks),
        blocks := db.blocks[(caller, target) := Block(reason, now)],
        sessions := ClosedBetween(db.sessions, caller, target, now))
  }

  /** Re-blocking edits the reason and keeps the original time; only a new row counts and is
      checked. */
  function BlockAgent(db: Db, now: Time, caller: Id, target: Id, reason: Option<string>): Outcome {
    if !MayMutate(db, caller) then Outcome(db, Gate(db, caller))
    else if target !in db.agents then Outcome(db, Refused(404, "target agent not found"))
    else if target == caller then Outcome(db, Refused(400, "cannot block self"))
    else if (caller, target) in db.blocks then
      Outcome(db.(
        blocks := db.blocks[(caller, target) := db.blocks[(caller, target)].(reason := reason)],
        sessions := ClosedBetween(db.sessions, caller, target, now)), Ok)
    else Outcome(CheckSoftBan(Shunned(db, now, caller, target, reason), target, now), Ok)
  }

  function UnblockAgent(db: Db, caller: Id, target: Id): Outcome {
    if !MayMutate(db, caller) then Outcome(db, Gate(db, caller))
    else if target !in db.agents then Outcome(db, Ok)
    else Outcome(db.(blocks := db.blocks - {(caller, target)}), Ok)
  }

  function ErasedIntents(t: map<Id, Intent>, a: Id): map<Id, Intent> {
    map i | i in t :: if t[i].agentId == a then t[i].(status := IntentDeleted) else t[i]
  }

  function ErasedBlocks(t: map<(Id, Id), Block>, a: Id): map<(Id, Id), Block> {
    map p | p in t && p.0 != a && p.1 != a :: t[p]
  }

  function ErasedSessions(t: map<Id, Session>, a: Id, now: Time): map<Id, Session> {
    map s | s in t ::
      if t[s].HasMember(a) && t[s].status != Closed then t[s].ClosedAs(now, AccountDeleted) else t[s]
  }

  function ErasedAgent(r: Agent): Agent {
    r.(githubUserId := None, lastSeenAt := None, status := AgentDeleted,
       softBanLiftsAt := None, totals := ZERO_TOTALS)
  }

  function DeleteAccount(db: Db, now: Time, caller: Id): Outcome {
    if !Signed(db, caller) then Outcome(db, UNKNOWN)
    else Outcome(db.(
      intents := ErasedIntents(db.intents, caller),
      blocks := ErasedBlocks(db.blocks, caller),
      sessions := ErasedSessions(db.sessions, caller, now),
      agents := db.agents[caller := ErasedAgent(db.agents[caller])]), Ok)
  }

  // ---------------------------------------------------------------- relay.py's writes

  /** `_set_session_active` on the row: only a waiting one is touched. */
  function ActivatedRow(r: Session, now: Time): Session {
    if r.status != AwaitingJoin then r
    else r.(status := Active, activeAt := Some(now), expiresAt := now + ACTIVE_WINDOW)
  }

  /** `_persist_closed` on the row. Unconditional: a row that is already closed is closed again, with
      a new time and reason. */
  function ClosedRow(r: Session, now: Time, reason: CloseReason, count: Option<nat>): Session {
    if count.Some? then r.ClosedAs(now, reason).(messageCount := count.value) else r.ClosedAs(now, reason)
  }

  function RelayActivate(db: Db, now: Time, sid: Id): Db {
    if sid !in db.sessions || db.sessions[sid].status != AwaitingJoin then db
    else db.(sessions := db.sessions[sid := ActivatedRow(db.sessions[sid], now)],
             agents := Bump(Bump(db.agents, db.sessions[sid].agentA, Started), db.sessions[sid].agentB, Started))
  }

  function RelayCount(db: Db, sid: Id, count: nat): Db {
    if sid !in db.sessions then db
    else db.(sessions := db.sessions[sid := db.sessions[sid].(messageCount := count)])
  }

  function RelayClose(db: Db, now: Time, sid: Id, reason: CloseReason, count: Option<nat>): Db {
    if sid !in db.sessions then db
    else db.(sessions := db.sessions[sid := ClosedRow(db.sessions[sid], now, reason, count)])
  }

  // ---------------------------------------------------------------- steps and runs

  datatype Event =
    | DoRegister(newId: Id, pubkey: string, github: int)
    | DoPoll(caller: Id)
    | DoCreateIntent(caller: Id, newId: Id, ttlDays: nat, blemish: Option<string>)
    | DoDeleteIntent(caller: Id, intent: Id)
    | DoRefreshIntent(caller: Id, intent: Id)
    | DoConnect(caller: Id, target: Id, from: Id, newId: Id)
    | DoAcceptRequest(caller: Id, request: Id, newId: Id)
    | DoRejectRequest(caller: Id, request: Id, reason: Option<string>)
    | DoCancelRequest(caller: Id, request: Id)
    | DoProposeMatch(caller: Id, session: Id)
    | DoAcceptMatch(caller: Id, session: Id)
    | DoRejectMatch(caller: Id, session: Id)
    | DoEndSession(caller: Id, session: Id)
    | DoBlock(caller: Id, who: Id, reason: Option<string>)
    | DoUnblock(caller: Id, who: Id)
    | DoDeleteAccount(caller: Id)
    | DoRelayActivate(session: Id)
    | DoRelayCount(session: Id, count: nat)
    | DoRelayClose(session: Id, why: CloseReason, final: Option<nat>)
    | DoMaintenance

  /** One atomic step at time `now`. The relay's three writes may come at any moment, whatever the
      process they come from has in memory: a restart needs no step of its own here. */
  function Step(db: Db, now: Time, e: Event): Db {
    match e
    case DoRegister(newId, pubkey, github) => Register(db, now, newId, pubkey, github).db
    case DoPoll(caller) => Poll(db, now, caller).db
    case DoCreateIntent(caller, newId, ttl, blemish) => CreateIntent(db, now, caller, newId, ttl, blemish).db
    case DoDeleteIntent(caller, i) => DeleteIntent(db, caller, i).db
    case DoRefreshIntent(caller, i) => RefreshIntent(db, now, caller, i).db
    case DoConnect(caller, target, from, newId) => Connect(db, now, caller, target, from, newId).db
    case DoAcceptRequest(caller, r, newId) => AcceptRequest(db, now, caller, r, newId).db
    case DoRejectRequest(caller, r, reason) => RejectRequest(db, now, caller, r, reason).db
    case DoCancelRequest(caller, r) => CancelRequest(db, now, caller, r).db
    case DoProposeMatch(caller, s) => ProposeMatch(db, now, caller, s).db
    case DoAcceptMatch(caller, s) => AcceptMatch(db, now, caller, s).db
    case DoRejectMatch(caller, s) => RejectMatch(db, caller, s).db
    case DoEndSession(caller, s) => EndSession(db, now, caller, s).db
    case DoBlock(caller, who, reason) => BlockAgent(db, now, caller, who, reason).db
    case DoUnblock(caller, who) => UnblockAgent(db, caller, who).db
    case DoDeleteAccount(caller) => DeleteAccount(db, now, caller).db
    case DoRelayActivate(s) => RelayActivate(db, now, s)
    case DoRelayCount(s, count) => RelayCount(db, s, count)
    case DoRelayClose(s, why, final) => RelayClose(db, now, s, why, final)
    case DoMaintenance => Maintained(db, now)
  }

  datatype Entry = Entry(at: Time, event: Event)

  /** The tables after the first `n` entries of a log that starts from nothing. */
  function After(log: seq<Entry>, n: nat): Db
    requires n <= |log|
  {
    if n == 0 then EMPTY_DB else Step(After(log, n - 1), log[n - 1].at, log[n - 1].event)
  }

  /** The clock never runs backwards. */
  predicate Clocked(log: seq<Entry>) {
    forall i | 0 < i < |log| :: log[i - 1].at <= log[i].at
  }

  /** When the log was last written to, counting `start` as the beginning. */
  function Latest(log: seq<Entry>, n: nat, start: Time): Time
    requires n <= |log|
  {
    if n == 0 then start else log[n - 1].at
  }
}
