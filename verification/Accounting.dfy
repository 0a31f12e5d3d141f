/** The stored counters of an agent equal the rows they stand for, on every run. What the one that
    stands for none counts is the subject of module `Blocking`. */
module Accounting {
  import opened Basics
  import opened Rows
  import opened Handlers
  import opened Moves
  import opened Correspondence
  import opened Lifecycle

  // ---------------------------------------------------------------- counters

  function SentBy(a: Id): Request -> bool { (r: Request) => r.fromAgent == a }

  function SentTo(a: Id): Request -> bool { (r: Request) => r.toAgent == a }

  function AcceptedBy(a: Id): Request -> bool {
    (r: Request) => r.toAgent == a && r.status == RequestAccepted
  }

  function StartedWith(a: Id): Session -> bool {
    (s: Session) => s.HasMember(a) && s.activeAt.Some?
  }

  function ConfirmedWith(a: Id): Session -> bool {
    (s: Session) => s.HasMember(a) && s.confirmedAt.Some?
  }

  /** The rows that counter `c` of agent `a` stands for. `blocks_received_total` stands for none: a
      block can be withdrawn and given again, and counts each time. */
  function RowCount(db: Db, a: Id, c: Counter): nat {
    match c
    case Intents => Count(db.intents, OwnedBy(a))
    case Sent => Count(db.requests, SentBy(a))
    case Received => Count(db.requests, SentTo(a))
    case Accepted => Count(db.requests, AcceptedBy(a))
    case Started => Count(db.sessions, StartedWith(a))
    case Confirmed => Count(db.sessions, ConfirmedWith(a))
    case Blocks => 0
  }

  predicate Live(db: Db, a: Id) { a in db.agents && db.agents[a].status != AgentDeleted }

  predicate Tallied(db: Db, a: Id, c: Counter) {
    Live(db, a) && c != Blocks ==> db.agents[a].totals.Get(c) == RowCount(db, a, c)
  }

  lemma BumpAdds(agents: map<Id, Agent>, a: Id, c: Counter, x: Id, d: Counter)
    requires x in agents
    ensures x in Bump(agents, a, c)
    ensures Bump(agents, a, c)[x].status == agents[x].status
    ensures Bump(agents, a, c)[x].totals.Get(d) == agents[x].totals.Get(d) + if x == a && d == c then 1 else 0
  {
  }

  lemma BanKeepsTally(db: Db, b: Id, now: Time, a: Id, c: Counter)
    requires Tallied(db, a, c)
    ensures Tallied(CheckSoftBan(db, b, now), a, c)
  {
    CountSame(db.intents, CheckSoftBan(db, b, now).intents, OwnedBy(a));
  }

  lemma PostTallied(db: Db, id: Id, row: Intent, a: Id, c: Counter)
    requires id !in db.intents && Tallied(db, a, c)
    ensures Tallied(db.(agents := Bump(db.agents, row.agentId, Intents), intents := db.intents[id := row]), a, c)
  {
    CountWrite(db.intents, id, row, OwnedBy(a));
    if a in db.agents { BumpAdds(db.agents, row.agentId, Intents, a, c); }
  }

  lemma SendTallied(db: Db, id: Id, row: Request, a: Id, c: Counter)
    requires id !in db.requests && row.status == Pending && Tallied(db, a, c)
    ensures Tallied(db.(agents := Bump(Bump(db.agents, row.fromAgent, Sent), row.toAgent, Received),
                        requests := db.requests[id := row]), a, c)
  {
    CountWrite(db.requests, id, row, SentBy(a));
    CountWrite(db.requests, id, row, SentTo(a));
    CountWrite(db.requests, id, row, AcceptedBy(a));
    if a in db.agents {
      BumpAdds(db.agents, row.fromAgent, Sent, a, c);
      BumpAdds(Bump(db.agents, row.fromAgent, Sent), row.toAgent, Received, a, c);
    }
  }

  lemma AcceptTallied(db: Db, rid: Id, row: Request, sid: Id, opens: Session, a: Id, c: Counter)
    requires rid in db.requests && db.requests[rid].status == Pending && sid !in db.sessions
    requires row.fromAgent == db.requests[rid].fromAgent && row.toAgent == db.requests[rid].toAgent
    requires row.status == RequestAccepted && opens.activeAt.None? && opens.confirmedAt.None?
    requires Tallied(db, a, c)
    ensures Tallied(db.(agents := Bump(db.agents, row.toAgent, Accepted),
                        requests := db.requests[rid := row], sessions := db.sessions[sid := opens]), a, c)
  {
    CountWrite(db.requests, rid, row, SentBy(a));
    CountWrite(db.requests, rid, row, SentTo(a));
    CountWrite(db.requests, rid, row, AcceptedBy(a));
    CountWrite(db.sessions, sid, opens, StartedWith(a));
    CountWrite(db.sessions, sid, opens, ConfirmedWith(a));
    if a in db.agents { BumpAdds(db.agents, row.toAgent, Accepted, a, c); }
  }

  /** Both members gain one, once each: they are different agents. */
  lemma BothTallied(db: Db, sid: Id, row: Session, p: Id, q: Id, d: Counter, a: Id, c: Counter)
    requires sid in db.sessions && Tallied(db, a, c) && p != q
    requires d == Started || d == Confirmed
    requires db.sessions[sid].HasMember(p) && db.sessions[sid].HasMember(q)
    requires row.agentA == db.sessions[sid].agentA && row.agentB == db.sessions[sid].agentB
    requires row.activeAt.Some? == (db.sessions[sid].activeAt.Some? || d == Started)
    requires row.confirmedAt.Some? == (db.sessions[sid].confirmedAt.Some? || d == Confirmed)
    requires d == Started ==> db.sessions[sid].activeAt.None?
    requires d == Confirmed ==> db.sessions[sid].confirmedAt.None?
    ensures Tallied(db.(sessions := db.sessions[sid := row], agents := Bump(Bump(db.agents, p, d), q, d)), a, c)
  {
    CountWrite(db.sessions, sid, row, StartedWith(a));
    CountWrite(db.sessions, sid, row, ConfirmedWith(a));
    if a in db.agents {
      BumpAdds(db.agents, p, d, a, c);
      BumpAdds(Bump(db.agents, p, d), q, d, a, c);
    }
  }

  /** Every other step writes no counter of a live agent and adds no row any counter stands for. */
  predicate Quiet(e: Event) {
    !(e.DoRegister? || e.DoCreateIntent? || e.DoConnect? || e.DoAcceptRequest? || e.DoAcceptMatch? || e.DoRelayActivate?)
  }

  predicate TotalKept(db: Db, after: Db, a: Id, c: Counter) {
    Live(after, a) ==> Live(db, a) && after.agents[a].totals.Get(c) == db.agents[a].totals.Get(c)
  }

  lemma BanKeepsTotal(db: Db, who: Id, now: Time, a: Id, c: Counter)
    ensures TotalKept(db, CheckSoftBan(db, who, now), a, c)
  {
    hide BanTrigger;
  }

  lemma BlockKeepsTotal(db: Db, now: Time, caller: Id, who: Id, reason: Option<string>, a: Id, c: Counter)
    requires c != Blocks
    ensures TotalKept(db, BlockAgent(db, now, caller, who, reason).db, a, c)
  {
    hide CheckSoftBan;
    BanKeepsTotal(Shunned(db, now, caller, who, reason), who, now, a, c);
  }

  lemma OthersKeepTotal(db: Db, now: Time, e: Event, a: Id, c: Counter)
    requires Quiet(e) && c != Blocks && !e.DoBlock?
    ensures TotalKept(db, Step(db, now, e), a, c)
  {
    hide Register, CreateIntent, Connect, AcceptRequest, AcceptMatch, BlockAgent, RelayActivate;
  }

  lemma QuietTotals(db: Db, now: Time, e: Event, a: Id, c: Counter)
    requires Quiet(e) && c != Blocks && Live(Step(db, now, e), a)
    ensures Live(db, a) && Step(db, now, e).agents[a].totals.Get(c) == db.agents[a].totals.Get(c)
  {
    hide BlockAgent;
    if e.DoBlock? {
      BlockKeepsTotal(db, now, e.caller, e.who, e.reason, a, c);
    } else {
      OthersKeepTotal(db, now, e, a, c);
    }
  }

  lemma QuietKeys(db: Db, now: Time, e: Event)
    requires Quiet(e)
    ensures Step(db, now, e).intents.Keys == db.intents.Keys
    ensures Step(db, now, e).requests.Keys == db.requests.Keys
    ensures Step(db, now, e).sessions.Keys == db.sessions.Keys
  {
    hide Step;
    var db' := Step(db, now, e);
    forall i ensures i in db'.intents <==> i in db.intents {
      if i in db.intents { StepIntents(db, now, e, i); } else if i in db'.intents { StepPosts(db, now, e, i); }
    }
    forall r ensures r in db'.requests <==> r in db.requests {
      if r in db.requests { StepAnswers(db, now, e, r); } else if r in db'.requests { StepRequests(db, now, e, r); }
    }
    forall s ensures s in db'.sessions <==> s in db.sessions {
      if s in db.sessions { StepMoves(db, now, e, s); } else if s in db'.sessions { StepCreates(db, now, e, s); }
    }
  }

  lemma QuietMove(r: Session, q: Session, now: Time, e: Event, sid: Id)
    requires RowMoves(r, q, now, e, sid) && Quiet(e)
    ensures q.activeAt == r.activeAt && q.confirmedAt == r.confirmedAt
    ensures q.agentA == r.agentA && q.agentB == r.agentB
  {
  }

  lemma QuietTallied(db: Db, now: Time, e: Event, a: Id, c: Counter)
    requires Quiet(e) && Tallied(db, a, c)
    ensures Tallied(Step(db, now, e), a, c)
  {
    hide Step;
    var db' := Step(db, now, e);
    if c != Blocks && Live(db', a) {
      QuietTotals(db, now, e, a, c);
      QuietKeys(db, now, e);
      forall i | i in db.intents ensures db'.intents[i].agentId == db.intents[i].agentId {
        StepIntents(db, now, e, i);
      }
      forall r | r in db.requests
        ensures db'.requests[r].fromAgent == db.requests[r].fromAgent && db'.requests[r].toAgent == db.requests[r].toAgent
        ensures (db'.requests[r].status == RequestAccepted) == (db.requests[r].status == RequestAccepted)
      {
        StepAnswers(db, now, e, r);
      }
      forall s | s in db.sessions
        ensures db'.sessions[s].activeAt == db.sessions[s].activeAt && db'.sessions[s].confirmedAt == db.sessions[s].confirmedAt
        ensures db'.sessions[s].agentA == db.sessions[s].agentA && db'.sessions[s].agentB == db.sessions[s].agentB
      {
        StepMoves(db, now, e, s);
        QuietMove(db.sessions[s], db'.sessions[s], now, e, s);
      }
      CountSame(db.intents, db'.intents, OwnedBy(a));
      CountSame(db.requests, db'.requests, SentBy(a));
      CountSame(db.requests, db'.requests, SentTo(a));
      CountSame(db.requests, db'.requests, AcceptedBy(a));
      CountSame(db.sessions, db'.sessions, StartedWith(a));
      CountSame(db.sessions, db'.sessions, ConfirmedWith(a));
    }
  }

  /** Nothing refers to an agent that has only just been registered. */
  lemma NewcomerTallied(db: Db, now: Time, e: Event, a: Id, c: Counter)
    requires e.DoRegister? && Linked(db) && Tallied(db, a, c)
    ensures Tallied(Step(db, now, e), a, c)
  {
    if a !in db.agents {
      CountNone(db.intents, OwnedBy(a));
      CountNone(db.requests, SentBy(a));
      CountNone(db.requests, SentTo(a));
      CountNone(db.requests, AcceptedBy(a));
      forall s | s in db.sessions ensures !db.sessions[s].HasMember(a) {
        assert SessionLinked(db, db.sessions[s]);
      }
      CountNone(db.sessions, StartedWith(a));
      CountNone(db.sessions, ConfirmedWith(a));
    }
  }

  /** The five steps that do count something, handler by handler. */
  lemma CreateIntentTallied(db: Db, now: Time, caller: Id, newId: Id, ttl: nat, blemish: Option<string>, a: Id, c: Counter)
    requires Tallied(db, a, c)
    ensures Tallied(CreateIntent(db, now, caller, newId, ttl, blemish).db, a, c)
  {
    if CreateIntent(db, now, caller, newId, ttl, blemish).reply.Created? {
      var row := Intent(caller, ttl, now, now + ttl * DAY, IntentActive);
      PostTallied(db, newId, row, a, c);
      BanKeepsTally(Posted(db, now, caller, newId, ttl), caller, now, a, c);
    }
  }

  lemma ConnectTallied(db: Db, now: Time, caller: Id, target: Id, from: Id, newId: Id, a: Id, c: Counter)
    requires Tallied(db, a, c)
    ensures Tallied(Connect(db, now, caller, target, from, newId).db, a, c)
  {
    if Connect(db, now, caller, target, from, newId).reply.Created? {
      var to := db.intents[target].agentId;
      var row := Request(caller, to, target, from, Pending, now, now + REQUEST_TTL, None, None);
      SendTallied(db, newId, row, a, c);
      BanKeepsTally(Asked(db, now, caller, to, target, from, newId), caller, now, a, c);
    }
  }

  lemma AcceptRequestTallied(db: Db, now: Time, caller: Id, rid: Id, newId: Id, a: Id, c: Counter)
    requires Tallied(db, a, c)
    ensures Tallied(AcceptRequest(db, now, caller, rid, newId).db, a, c)
  {
    if AcceptRequest(db, now, caller, rid, newId).reply.Created? {
      AcceptTallied(db, rid, db.requests[rid].(status := RequestAccepted, respondedAt := Some(now)),
                    newId, SessionFor(db, rid, now), a, c);
    }
  }

  lemma AcceptMatchTallied(db: Db, now: Time, caller: Id, s: Id, a: Id, c: Counter)
    requires AllShaped(db, now) && Tallied(db, a, c)
    ensures Tallied(AcceptMatch(db, now, caller, s).db, a, c)
  {
    if AcceptMatch(db, now, caller, s).reply == Ok {
      var row := db.sessions[s];
      assert Shaped(row, now);
      BothTallied(db, s, row.(status := MatchConfirmed, confirmedAt := Some(now), expiresAt := now + HANDOFF_WINDOW),
                  caller, row.proposedBy.value, Confirmed, a, c);
    }
  }

  lemma ActivateTallied(db: Db, now: Time, s: Id, a: Id, c: Counter)
    requires AllShaped(db, now) && Tallied(db, a, c)
    ensures Tallied(RelayActivate(db, now, s), a, c)
  {
    if s in db.sessions && db.sessions[s].status == AwaitingJoin {
      var row := db.sessions[s];
      assert Shaped(row, now);
      BothTallied(db, s, row.(status := Active, activeAt := Some(now), expiresAt := now + ACTIVE_WINDOW),
                  row.agentA, row.agentB, Started, a, c);
    }
  }

  lemma StepKeepsTally(db: Db, now: Time, e: Event, a: Id, c: Counter)
    requires Linked(db) && AllShaped(db, now) && Tallied(db, a, c)
    ensures Tallied(Step(db, now, e), a, c)
  {
    match e
    case DoRegister(_, _, _) => NewcomerTallied(db, now, e, a, c);
    case DoCreateIntent(caller, newId, ttl, blemish) => CreateIntentTallied(db, now, caller, newId, ttl, blemish, a, c);
    case DoConnect(caller, target, from, newId) => ConnectTallied(db, now, caller, target, from, newId, a, c);
    case DoAcceptRequest(caller, rid, newId) => AcceptRequestTallied(db, now, caller, rid, newId, a, c);
    case DoAcceptMatch(caller, s) => AcceptMatchTallied(db, now, caller, s, a, c);
    case DoRelayActivate(s) => ActivateTallied(db, now, s, a, c);
    case _ => QuietTallied(db, now, e, a, c);
  }

  /** On every run, whatever was closed, deleted or restarted in between, all six counters of an
      agent that has not been deleted equal the number of rows they stand for. */
  lemma {:induction false} CountersAgree(log: seq<Entry>, n: nat, a: Id, c: Counter)
    requires n <= |log| && Clocked(log)
    ensures Tallied(After(log, n), a, c)
  {
    hide Step;
    if n > 0 {
      CountersAgree(log, n - 1, a, c);
      AlwaysLinked(log, n - 1);
      AlwaysShaped(log, n - 1, log[n - 1].at);
      ShapeLasts(After(log, n - 1), Latest(log, n - 1, log[n - 1].at), log[n - 1].at);
      StepKeepsTally(After(log, n - 1), log[n - 1].at, log[n - 1].event, a, c);
    }
  }

  lemma ShapeLasts(db: Db, early: Time, late: Time)
    requires early <= late && AllShaped(db, early)
    ensures AllShaped(db, late)
  {
    forall s | s in db.sessions ensures Shaped(db.sessions[s], late) {
      assert Shaped(db.sessions[s], early);
    }
  }
}
