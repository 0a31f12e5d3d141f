/** Two runs from nothing: one that ends in a match, and one in which an agent that has deleted its account
    gets a session all the same. */
module Encounters {
  import opened Basics
  import opened Rows
  import opened Handlers
  import opened Moves
  import opened Effects
  import opened Histories
  import opened Blocking

  /** Two agents, an intent each, and the one asks to meet the other. */
  function Approach(t: Time): seq<Entry> {
    [Entry(t, DoRegister(1, "a", 1)), Entry(t, DoRegister(2, "b", 2)),
     Entry(t, DoCreateIntent(1, 1, 30, None)), Entry(t, DoCreateIntent(2, 2, 30, None)),
     Entry(t, DoConnect(1, 2, 1, 1))]
  }

  lemma CalmAsk(db: Db, now: Time)
    requires Calm(db) && db.requests == map[] && MayMutate(db, 1) && MayMutate(db, 2) && db.blocks == map[]
    requires Owns(db, 1, 1) && db.intents[1].status == IntentActive
    requires Owns(db, 2, 2) && db.intents[2].status == IntentActive
    ensures Step(db, now, DoConnect(1, 2, 1, 1)) == Asked(db, now, 1, 2, 2, 1, 1)
  {
    hide CheckSoftBan;
    CountAtMost(db.requests, PendingFrom(1, now));
    CountAtMost(db.requests, SentSince(1, now - DAY));
    CalmBansNobody(Asked(db, now, 1, 2, 2, 1, 1), 1, now);
  }

  /** After the five steps the request is pending and nothing else has happened to the pair. */
  predicate Approached(db: Db, t: Time) {
    && Acts(db, 1) && Acts(db, 2) && db.sessions == map[]
    && db.requests == map[1 := Request(1, 2, 2, 1, Pending, t, t + 72 * HOUR, None, None)]
  }

  lemma FeudBegins(log: seq<Entry>, t: Time)
    requires |log| >= 4 && log[..4] == Approach(t)[..4]
    ensures After(log, 4) == After(Feud(t), 4)
  {
    hide Step;
    var start := Approach(t)[..4];
    assert log == start + log[4..];
    assert Feud(t) == start + Feud(t)[4..];
    AfterPrefix(start, log[4..], 4);
    AfterPrefix(start, Feud(t)[4..], 4);
  }

  lemma ApproachMade(log: seq<Entry>, t: Time)
    requires |log| >= 5 && log[..5] == Approach(t)
    ensures Approached(After(log, 5), t)
  {
    AfterNext(log, 4);
    hide Step, After;
    assert log[4] == Approach(t)[4];
    assert log[..4] == log[..5][..4];
    FeudBegins(log, t);
    FeudPosts(t);
    CalmAsk(After(log, 4), t);
  }

  /** The other accepts, both come, one proposes, and the other agrees. */
  function Courtship(t: Time): seq<Entry> {
    Approach(t) + [Entry(t, DoAcceptRequest(2, 1, 1)), Entry(t, DoRelayActivate(1)),
                   Entry(t, DoProposeMatch(1, 1)), Entry(t, DoAcceptMatch(2, 1))]
  }

  /** The members of the session of `Courtship` stay in good standing while they talk. */
  lemma StaysGood(db: Db, now: Time, e: Event, a: Id)
    requires Acts(db, a) && LeavesIntents(e)
    ensures Acts(Step(db, now, e), a)
  {
    hide Step;
    NoBanElsewhere(db, now, e, a);
  }

  lemma CourtshipOpens(t: Time)
    ensures var db := After(Courtship(t), 6);
      Acts(db, 1) && Acts(db, 2) && 1 in db.sessions
      && db.sessions[1] == Session(1, 2, 1, AwaitingJoin, t, t + 72 * HOUR, None, None, 0, None, None, None, None)
  {
    var log := Courtship(t);
    AfterNext(log, 5);
    hide Step, After;
    assert log[..5] == Approach(t);
    ApproachMade(log, t);
    var db, e := After(log, 5), DoAcceptRequest(2, 1, 1);
    SessionOpensIff(db, t, e, 1);
    StaysGood(db, t, e, 1);
    StaysGood(db, t, e, 2);
  }

  lemma CourtshipMeets(t: Time)
    ensures var db := After(Courtship(t), 8);
      Acts(db, 2) && 1 in db.sessions && db.sessions[1].agentA == 1 && db.sessions[1].agentB == 2
      && db.sessions[1].status == MatchProposed && db.sessions[1].proposedBy == Some(1)
  {
    var log := Courtship(t);
    AfterNext(log, 6);
    AfterNext(log, 7);
    hide Step, After;
    CourtshipOpens(t);
    SessionRows(After(log, 6), t, DoRelayActivate(1), 1);
    StaysGood(After(log, 6), t, DoRelayActivate(1), 1);
    StaysGood(After(log, 6), t, DoRelayActivate(1), 2);
    SessionRows(After(log, 7), t, DoProposeMatch(1, 1), 1);
    StaysGood(After(log, 7), t, DoProposeMatch(1, 1), 2);
  }

  /** Matches happen: this run from nothing ends in one, with ten minutes to go. */
  lemma MatchHappens(t: Time)
    ensures var log := Courtship(t);
      && Clocked(log) && 1 in After(log, 9).sessions
      && var r := After(log, 9).sessions[1];
         r.status == MatchConfirmed && r.proposedBy == Some(1) && r.confirmedAt == Some(t)
         && r.expiresAt == t + 10 * MINUTE
  {
    var log := Courtship(t);
    AfterNext(log, 8);
    hide Step, After;
    CourtshipMeets(t);
    SessionRows(After(log, 8), t, DoAcceptMatch(2, 1), 1);
  }

  /** The one deletes its account before the other accepts. */
  function Haunting(t: Time): seq<Entry> {
    Approach(t) + [Entry(t, DoDeleteAccount(1)), Entry(t, DoAcceptRequest(2, 1, 1))]
  }

  /** The request survives its sender, and the session opens with nobody on the other side. */
  lemma DeletedStillMet(t: Time)
    ensures var log := Haunting(t);
      && Gone(After(log, 7), 1) && OpensLate(log, 6, 1, 1)
      && 1 in After(log, 7).sessions && After(log, 7).sessions[1].status == AwaitingJoin
      && After(log, 7).sessions[1].agentA == 1
  {
    var log := Haunting(t);
    AfterNext(log, 5);
    AfterNext(log, 6);
    hide Step, After;
    assert log[..5] == Approach(t);
    ApproachMade(log, t);
    var db := After(log, 5);
    Deleted(db, t, 1);
    AgentRows(db, t, DoDeleteAccount(1), 2);
    RequestRows(db, t, DoDeleteAccount(1), 1);
    if 1 in After(log, 6).sessions { SessionOpensIff(db, t, DoDeleteAccount(1), 1); }
    forall s | s in After(log, 6).sessions ensures s in db.sessions {
      if s !in db.sessions { SessionOpensIff(db, t, DoDeleteAccount(1), s); }
    }
    SessionOpensIff(After(log, 6), t, DoAcceptRequest(2, 1, 1), 1);
    GoneForGood(log, 6, 7, 1);
  }
}
