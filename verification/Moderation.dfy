/** The soft ban of `moderation.py`: seven days, neither more nor less, and silence meanwhile. */
module Moderation {
  import opened Basics
  import opened Rows
  import opened Maintenance
  import opened Handlers
  import opened Moves

  /** Banned, and due to be lifted at `lifts`. */
  predicate BannedUntil(db: Db, a: Id, lifts: Time) {
    a in db.agents && db.agents[a].status == SoftBanned && db.agents[a].softBanLiftsAt == Some(lifts)
  }

  /** Everything a step can do to the standing of a registered agent. */
  predicate StandingMoves(r: Agent, q: Agent, a: Id, now: Time, e: Event) {
    || (q.status == r.status && q.softBanLiftsAt == r.softBanLiftsAt)
    || (r.status == AgentActive && q.status == SoftBanned && q.softBanLiftsAt == Some(now + SOFT_BAN))
    || (e.DoMaintenance? && q == AgentAt(r, now))
    || (e == DoDeleteAccount(a) && q.status == AgentDeleted && q.softBanLiftsAt.None?)
  }

  lemma StepStanding(db: Db, now: Time, e: Event, a: Id)
    requires a in db.agents
    ensures a in Step(db, now, e).agents
    ensures StandingMoves(db.agents[a], Step(db, now, e).agents[a], a, now, e)
  {
    if e.DoCreateIntent? || e.DoConnect? || e.DoBlock? {
      CheckedStanding(db, now, e, a);
    } else {
      UncheckedStanding(db, now, e, a);
    }
  }

  lemma CheckedStanding(db: Db, now: Time, e: Event, a: Id)
    requires a in db.agents && (e.DoCreateIntent? || e.DoConnect? || e.DoBlock?)
    ensures a in Step(db, now, e).agents
    ensures StandingMoves(db.agents[a], Step(db, now, e).agents[a], a, now, e)
  {
    hide Step, Checked;
    var (mid, who) := Checked(db, now, e);
    StepChecks(db, now, e);
    CheckedStarts(db, now, e);
    BanMoves(mid, who, now, a);
  }

  predicate Bumps(e: Event) { e.DoAcceptRequest? || e.DoAcceptMatch? || e.DoRelayActivate? }

  predicate WritesAgent(e: Event) { e.DoRegister? || e.DoPoll? || e.DoDeleteAccount? || e.DoMaintenance? }

  lemma BumpingStanding(db: Db, now: Time, e: Event, a: Id)
    requires a in db.agents && Bumps(e)
    ensures a in Step(db, now, e).agents
    ensures StandingMoves(db.agents[a], Step(db, now, e).agents[a], a, now, e)
  {
    hide Register, Poll, CreateIntent, DeleteIntent, RefreshIntent, Connect, RejectRequest, CancelRequest,
      ProposeMatch, RejectMatch, EndSession, BlockAgent, UnblockAgent, DeleteAccount, Maintained;
  }

  lemma WritingStanding(db: Db, now: Time, e: Event, a: Id)
    requires a in db.agents && WritesAgent(e)
    ensures a in Step(db, now, e).agents
    ensures StandingMoves(db.agents[a], Step(db, now, e).agents[a], a, now, e)
  {
  }

  lemma OthersLeaveAgents(db: Db, now: Time, e: Event)
    requires !Bumps(e) && !WritesAgent(e) && !e.DoCreateIntent? && !e.DoConnect? && !e.DoBlock?
    ensures Step(db, now, e).agents == db.agents
  {
  }

  lemma UncheckedStanding(db: Db, now: Time, e: Event, a: Id)
    requires a in db.agents && !e.DoCreateIntent? && !e.DoConnect? && !e.DoBlock?
    ensures a in Step(db, now, e).agents
    ensures StandingMoves(db.agents[a], Step(db, now, e).agents[a], a, now, e)
  {
    hide Step;
    if Bumps(e) {
      BumpingStanding(db, now, e, a);
    } else if WritesAgent(e) {
      WritingStanding(db, now, e, a);
    } else {
      OthersLeaveAgents(db, now, e);
    }
  }

  /** An agent is soft-banned exactly when a lift time is set. */
  predicate StandingShaped(r: Agent) { r.status == SoftBanned <==> r.softBanLiftsAt.Some? }

  lemma {:induction false} AlwaysStandingShaped(log: seq<Entry>, n: nat, a: Id)
    requires n <= |log| && a in After(log, n).agents
    ensures StandingShaped(After(log, n).agents[a])
    ensures After(log, n).agents[a].status != HardBanned
  {
    hide Step;
    var db, now, e := After(log, n - 1), log[n - 1].at, log[n - 1].event;
    if a in db.agents {
      AlwaysStandingShaped(log, n - 1, a);
      StepStanding(db, now, e, a);
    } else {
      NewcomerStanding(db, now, e, a);
    }
  }

  lemma NewcomerStanding(db: Db, now: Time, e: Event, a: Id)
    requires a !in db.agents && a in Step(db, now, e).agents
    ensures Step(db, now, e).agents[a].status == AgentActive && Step(db, now, e).agents[a].softBanLiftsAt.None?
  {
    hide Step;
    StepAgents(db, now, e, a);
    RegisteredStanding(db, now, e, a);
  }

  lemma RegisteredStanding(db: Db, now: Time, e: Event, a: Id)
    requires e.DoRegister? && a !in db.agents && a in Step(db, now, e).agents
    ensures Step(db, now, e).agents[a].status == AgentActive && Step(db, now, e).agents[a].softBanLiftsAt.None?
  {
  }

  /** Anything but the agent deleting itself and maintenance at or after `lifts`. */
  predicate Leaves(x: Entry, a: Id, lifts: Time) {
    x.event != DoDeleteAccount(a) && (x.event.DoMaintenance? ==> x.at < lifts)
  }

  /** Nothing else ends a standing ban, before its lift time or after, and no later trigger extends it. */
  lemma {:induction false} BanStands(log: seq<Entry>, m: nat, n: nat, a: Id, lifts: Time)
    requires m <= n <= |log| && BannedUntil(After(log, m), a, lifts)
    requires forall k | m <= k < n :: Leaves(log[k], a, lifts)
    ensures BannedUntil(After(log, n), a, lifts)
  {
    hide Step;
    if m < n {
      BanStands(log, m, n - 1, a, lifts);
      StepStanding(After(log, n - 1), log[n - 1].at, log[n - 1].event, a);
    }
  }

  /** While it stands, whatever the agent attempts with a mutating request changes nothing. */
  predicate Attempts(e: Event, a: Id) {
    match e
    case DoCreateIntent(c, _, _, _) => c == a
    case DoDeleteIntent(c, _) => c == a
    case DoRefreshIntent(c, _) => c == a
    case DoConnect(c, _, _, _) => c == a
    case DoAcceptRequest(c, _, _) => c == a
    case DoRejectRequest(c, _, _) => c == a
    case DoCancelRequest(c, _) => c == a
    case DoProposeMatch(c, _) => c == a
    case DoAcceptMatch(c, _) => c == a
    case DoRejectMatch(c, _) => c == a
    case DoEndSession(c, _) => c == a
    case DoBlock(c, _, _) => c == a
    case DoUnblock(c, _) => c == a
    case _ => false
  }

  lemma BannedIsMute(db: Db, now: Time, e: Event, a: Id)
    requires a in db.agents && db.agents[a].status == SoftBanned && Attempts(e, a)
    ensures Step(db, now, e) == db
  {
  }

  lemma RunLifts(db: Db, now: Time, a: Id)
    requires a in db.agents
    ensures a in Step(db, now, DoMaintenance).agents
    ensures Step(db, now, DoMaintenance).agents[a] == AgentAt(db.agents[a], now)
  {
  }

  /** A ban applied at entry `m` at time `t` stands, unless the account is deleted, until the first
      maintenance at or after `t` plus seven days, whatever else happens before or after that time; that
      maintenance lifts it; and every attempt of the agent until then changes nothing. */
  lemma {:induction false} SevenDays(log: seq<Entry>, m: nat, n: nat, a: Id)
    requires m < n < |log| && a in After(log, m).agents && After(log, m).agents[a].status != SoftBanned
    requires a in After(log, m + 1).agents && After(log, m + 1).agents[a].status == SoftBanned
    requires forall k | m < k < n :: Leaves(log[k], a, log[m].at + SOFT_BAN)
    ensures BannedUntil(After(log, n), a, log[m].at + SOFT_BAN)
    ensures Attempts(log[n].event, a) ==> After(log, n + 1) == After(log, n)
    ensures log[n].event.DoMaintenance? && log[n].at >= log[m].at + SOFT_BAN ==>
              a in After(log, n + 1).agents && After(log, n + 1).agents[a].status == AgentActive
              && After(log, n + 1).agents[a].softBanLiftsAt.None?
  {
    hide Step;
    StepStanding(After(log, m), log[m].at, log[m].event, a);
    BanStands(log, m + 1, n, a, log[m].at + SOFT_BAN);
    if Attempts(log[n].event, a) { BannedIsMute(After(log, n), log[n].at, log[n].event, a); }
    RunLifts(After(log, n), log[n].at, a);
  }
}
