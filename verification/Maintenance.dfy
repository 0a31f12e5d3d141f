/** `run_maintenance` of `jobs.py`, specified one row at a time. The class `Database`
    performs it as the source does, as eight ordered updates over whole tables. */
module Maintenance {
  import opened Basics
  import opened Rows

  /** `last_seen_at >= cutoff`; an agent that never polled has no `last_seen_at`. */
  predicate Polled(agents: map<Id, Agent>, a: Id, now: Time) {
    a in agents && agents[a].lastSeenAt.Some? && agents[a].lastSeenAt.value >= now - POLL_WINDOW
  }

  function AgentAt(r: Agent, now: Time): Agent {
    if r.status == SoftBanned && r.softBanLiftsAt.Some? && r.softBanLiftsAt.value <= now
    then r.(status := AgentActive, softBanLiftsAt := None)
    else r
  }

  /** A live intent is expired once due; before that it is active exactly when its owner polled
      in the last five minutes, whatever it was before. */
  function IntentAt(agents: map<Id, Agent>, r: Intent, now: Time): Intent {
    if r.status != IntentActive && r.status != Dormant then r
    else if r.expiresAt <= now then r.(status := IntentExpired)
    else if r.agentId !in agents then r
    else if Polled(agents, r.agentId, now) then r.(status := IntentActive)
    else r.(status := Dormant)
  }

  function RequestAt(r: Request, now: Time): Request {
    if r.status == Pending && r.expiresAt <= now
    then r.(status := RequestExpired, respondedAt := Some(now))
    else r
  }

  /** The reason a session past its deadline is closed with is fixed by its status. */
  function TimeoutReason(s: SessionStatus): CloseReason
    requires s != Closed
  {
    match s
    case AwaitingJoin => AwaitingJoinExpired
    case Active => TimeLimitReached
    case MatchProposed => TimeLimitReached
    case MatchConfirmed => HandoffComplete
  }

  function SessionAt(r: Session, now: Time): Session {
    if r.status != Closed && r.expiresAt <= now
    then r.ClosedAs(now, TimeoutReason(r.status))
    else r
  }

  function AgentsAt(t: map<Id, Agent>, now: Time): map<Id, Agent> {
    map a | a in t :: AgentAt(t[a], now)
  }

  function IntentsAt(agents: map<Id, Agent>, t: map<Id, Intent>, now: Time): map<Id, Intent> {
    map i | i in t :: IntentAt(agents, t[i], now)
  }

  function RequestsAt(t: map<Id, Request>, now: Time): map<Id, Request> {
    map r | r in t :: RequestAt(t[r], now)
  }

  function SessionsAt(t: map<Id, Session>, now: Time): map<Id, Session> {
    map s | s in t :: SessionAt(t[s], now)
  }

  function Maintained(db: Db, now: Time): Db {
    db.(agents := AgentsAt(db.agents, now),
        intents := IntentsAt(db.agents, db.intents, now),
        requests := RequestsAt(db.requests, now),
        sessions := SessionsAt(db.sessions, now))
  }

  // ---------------------------------------------------------------- the updates as issued

  /** An agent is in the subquery of inactive agents when it has no `last_seen_at` or an old one; an
      owner without a row is in neither subquery. */
  function Sleepy(agents: map<Id, Agent>, r: Intent, now: Time): Intent {
    if r.status == IntentActive && r.agentId in agents && !Polled(agents, r.agentId, now)
    then r.(status := Dormant) else r
  }

  function Wakened(agents: map<Id, Agent>, r: Intent, now: Time): Intent {
    if r.status == Dormant && Polled(agents, r.agentId, now) && r.expiresAt > now
    then r.(status := IntentActive) else r
  }

  function Lapsed(r: Intent, now: Time): Intent {
    if (r.status == IntentActive || r.status == Dormant) && r.expiresAt <= now
    then r.(status := IntentExpired) else r
  }

  function Overdue(r: Session, status: SessionStatus, or: SessionStatus, reason: CloseReason, now: Time): Session {
    if (r.status == status || r.status == or) && r.expiresAt <= now then r.ClosedAs(now, reason) else r
  }

  function SleepyAll(agents: map<Id, Agent>, t: map<Id, Intent>, now: Time): map<Id, Intent> {
    map i | i in t :: Sleepy(agents, t[i], now)
  }

  function WakenedAll(agents: map<Id, Agent>, t: map<Id, Intent>, now: Time): map<Id, Intent> {
    map i | i in t :: Wakened(agents, t[i], now)
  }

  function LapsedAll(t: map<Id, Intent>, now: Time): map<Id, Intent> {
    map i | i in t :: Lapsed(t[i], now)
  }

  function OverdueAll(t: map<Id, Session>, status: SessionStatus, or: SessionStatus, reason: CloseReason, now: Time): map<Id, Session> {
    map s | s in t :: Overdue(t[s], status, or, reason, now)
  }

  /** Three updates on intents, issued after the bans are lifted, amount to one verdict per row. */
  lemma IntentUpdates(agents: map<Id, Agent>, t: map<Id, Intent>, now: Time)
    ensures var lifted := AgentsAt(agents, now);
            LapsedAll(WakenedAll(lifted, SleepyAll(lifted, t, now), now), now) == IntentsAt(agents, t, now)
  {
    var lifted := AgentsAt(agents, now);
    forall i | i in t
      ensures Lapsed(Wakened(lifted, Sleepy(lifted, t[i], now), now), now) == IntentAt(agents, t[i], now)
    {
      assert Polled(lifted, t[i].agentId, now) == Polled(agents, t[i].agentId, now);
    }
  }

  /** So do the three updates on sessions: no session is closed for two reasons. */
  lemma SessionUpdates(t: map<Id, Session>, now: Time)
    ensures OverdueAll(OverdueAll(OverdueAll(t, AwaitingJoin, AwaitingJoin, AwaitingJoinExpired, now),
                                  Active, MatchProposed, TimeLimitReached, now),
                       MatchConfirmed, MatchConfirmed, HandoffComplete, now) == SessionsAt(t, now)
  {
    forall s | s in t
      ensures Overdue(Overdue(Overdue(t[s], AwaitingJoin, AwaitingJoin, AwaitingJoinExpired, now),
                              Active, MatchProposed, TimeLimitReached, now),
                      MatchConfirmed, MatchConfirmed, HandoffComplete, now) == SessionAt(t[s], now)
    {
    }
  }

  /** Two request tables that differ at most in `responded_at`. */
  ghost predicate SameRequests(x: map<Id, Request>, y: map<Id, Request>) {
    x.Keys == y.Keys && forall r | r in x :: x[r].(respondedAt := None) == y[r].(respondedAt := None)
  }

  /** Two session tables that differ at most in `closed_at`. */
  ghost predicate SameSessions(x: map<Id, Session>, y: map<Id, Session>) {
    x.Keys == y.Keys && forall s | s in x :: x[s].(closedAt := None) == y[s].(closedAt := None)
  }

  lemma AgentsTwice(t: map<Id, Agent>, early: Time, late: Time)
    requires early <= late
    ensures AgentsAt(AgentsAt(t, early), late) == AgentsAt(t, late)
  {
    assert forall a | a in t :: AgentAt(AgentAt(t[a], early), late) == AgentAt(t[a], late);
  }

  /** The second run's verdict on an intent does not depend on the first. */
  lemma IntentsTwice(agents: map<Id, Agent>, t: map<Id, Intent>, early: Time, late: Time)
    requires early <= late
    ensures IntentsAt(AgentsAt(agents, early), IntentsAt(agents, t, early), late) == IntentsAt(agents, t, late)
  {
    var once := AgentsAt(agents, early);
    forall i | i in t
      ensures IntentAt(once, IntentAt(agents, t[i], early), late) == IntentAt(agents, t[i], late)
    {
      assert Polled(once, t[i].agentId, late) == Polled(agents, t[i].agentId, late);
    }
  }

  lemma RequestsTwice(t: map<Id, Request>, early: Time, late: Time)
    requires early <= late
    ensures SameRequests(RequestsAt(RequestsAt(t, early), late), RequestsAt(t, late))
    ensures early == late ==> RequestsAt(RequestsAt(t, early), late) == RequestsAt(t, late)
  {
  }

  lemma SessionsTwice(t: map<Id, Session>, early: Time, late: Time)
    requires early <= late
    ensures SameSessions(SessionsAt(SessionsAt(t, early), late), SessionsAt(t, late))
    ensures early == late ==> SessionsAt(SessionsAt(t, early), late) == SessionsAt(t, late)
  {
  }

  /** Two databases that differ at most in those two bookkeeping times. */
  ghost predicate Alike(x: Db, y: Db) {
    && x.agents == y.agents && x.intents == y.intents && x.blocks == y.blocks && x.abuse == y.abuse
    && SameRequests(x.requests, y.requests) && SameSessions(x.sessions, y.sessions)
  }

  lemma RunTwice(db: Db, early: Time, late: Time)
    requires early <= late
    ensures Alike(Maintained(Maintained(db, early), late), Maintained(db, late))
    ensures early == late ==> Maintained(Maintained(db, early), late) == Maintained(db, late)
  {
    AgentsTwice(db.agents, early, late);
    IntentsTwice(db.agents, db.intents, early, late);
    RequestsTwice(db.requests, early, late);
    SessionsTwice(db.sessions, early, late);
  }

  lemma RequestsAlike(x: map<Id, Request>, y: map<Id, Request>, now: Time)
    requires SameRequests(x, y)
    ensures SameRequests(RequestsAt(x, now), RequestsAt(y, now))
  {
    forall r | r in x ensures RequestAt(x[r], now).(respondedAt := None) == RequestAt(y[r], now).(respondedAt := None) {
      assert x[r].(respondedAt := None) == y[r].(respondedAt := None);
    }
  }

  lemma SessionsAlike(x: map<Id, Session>, y: map<Id, Session>, now: Time)
    requires SameSessions(x, y)
    ensures SameSessions(SessionsAt(x, now), SessionsAt(y, now))
  {
    forall s | s in x ensures SessionAt(x[s], now).(closedAt := None) == SessionAt(y[s], now).(closedAt := None) {
      assert x[s].(closedAt := None) == y[s].(closedAt := None);
    }
  }

  /** No run looks at the two bookkeeping times. */
  lemma RunAlike(x: Db, y: Db, now: Time)
    requires Alike(x, y)
    ensures Alike(Maintained(x, now), Maintained(y, now))
  {
    RequestsAlike(x.requests, y.requests, now);
    SessionsAlike(x.sessions, y.sessions, now);
  }

  lemma AlikeThrough(x: Db, y: Db, z: Db)
    requires Alike(x, y) && Alike(y, z)
    ensures Alike(x, z)
  {
    forall r | r in x.requests
      ensures x.requests[r].(respondedAt := None) == z.requests[r].(respondedAt := None)
    {
      assert x.requests[r].(respondedAt := None) == y.requests[r].(respondedAt := None);
    }
    forall s | s in x.sessions
      ensures x.sessions[s].(closedAt := None) == z.sessions[s].(closedAt := None)
    {
      assert x.sessions[s].(closedAt := None) == y.sessions[s].(closedAt := None);
    }
  }

  /** The ticks of the scheduler, one run each. */
  function Ticked(db: Db, ticks: seq<Time>): Db {
    if ticks == [] then db else Maintained(Ticked(db, ticks[..|ticks| - 1]), ticks[|ticks| - 1])
  }

  predicate InSequence(ticks: seq<Time>) {
    forall i | 0 < i < |ticks| :: ticks[i - 1] <= ticks[i]
  }

  /** Coalesced ticks lose nothing: any number of runs decide what the last one alone decides, row by
      row, save for the times at which rows were closed or requests expired. */
  lemma {:induction false} TicksCoalesce(db: Db, ticks: seq<Time>)
    requires ticks != [] && InSequence(ticks)
    ensures Alike(Ticked(db, ticks), Maintained(db, ticks[|ticks| - 1]))
  {
    hide Maintained, Alike;
    var last, before := ticks[|ticks| - 1], ticks[..|ticks| - 1];
    if before == [] {
      AlikeSelf(Maintained(db, last));
    } else {
      TicksCoalesce(db, before);
      RunAlike(Ticked(db, before), Maintained(db, before[|before| - 1]), last);
      RunTwice(db, before[|before| - 1], last);
      AlikeThrough(Ticked(db, ticks), Maintained(Maintained(db, before[|before| - 1]), last), Maintained(db, last));
    }
  }

  lemma AlikeSelf(x: Db)
    ensures Alike(x, x)
  {
  }

  /** After a run nothing is overdue, and an intent is listed as active exactly when it was live
      and its owner has polled. */
  lemma NothingOverdue(db: Db, now: Time)
    requires forall i | i in db.intents :: db.intents[i].agentId in db.agents
    ensures var after := Maintained(db, now);
      && (forall s | s in after.sessions :: after.sessions[s].status == Closed || now < after.sessions[s].expiresAt)
      && (forall r | r in after.requests :: after.requests[r].status != Pending || now < after.requests[r].expiresAt)
      && (forall a | a in after.agents && after.agents[a].status == SoftBanned ::
            after.agents[a].softBanLiftsAt.Some? ==> now < after.agents[a].softBanLiftsAt.value)
      && (forall i | i in after.intents ::
            after.intents[i].status == IntentActive <==>
              && db.intents[i].status in {IntentActive, Dormant}
              && now < db.intents[i].expiresAt
              && Polled(db.agents, db.intents[i].agentId, now))
  {
  }
}
