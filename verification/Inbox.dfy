/** The waiting sessions `load_inbox` lists for an agent, and what each entry says. */
module Inbox {
  import opened Rows
  import opened Handlers
  import opened Moves
  import opened Correspondence

  datatype Waiting = Waiting(sessionId: Id, counterpartyPubkey: string, acceptedAt: Time,
                             sessionExpiresAt: Time, myIntent: Id, counterpartyIntent: Id)

  /** The query's three inner joins find their rows. */
  predicate Joined(db: Db, s: Id) {
    && s in db.sessions && db.sessions[s].agentA in db.agents && db.sessions[s].agentB in db.agents
    && db.sessions[s].requestId in db.requests
  }

  /** The query's `where`. */
  predicate Listed(db: Db, a: Id, now: Time, s: Id) {
    && Joined(db, s) && db.sessions[s].HasMember(a)
    && db.sessions[s].status == AwaitingJoin && db.sessions[s].expiresAt > now
  }

  /** What an entry ought to say, put symmetrically: the entry for the requester and the entry for
      the target are each other's mirror image. */
  predicate Describes(db: Db, w: Waiting, me: Id, other: Id, s: Id) {
    && s in db.sessions && w.sessionId == s && me != other && db.sessions[s].Between(me, other)
    && other in db.agents && w.counterpartyPubkey == db.agents[other].pubkey
    && Owns(db, me, w.myIntent) && Owns(db, other, w.counterpartyIntent)
    && w.acceptedAt == db.sessions[s].createdAt && w.sessionExpiresAt == db.sessions[s].expiresAt
  }

  function ListingFor(db: Db, a: Id, s: Id): Waiting
    requires Joined(db, s)
  {
    var row := db.sessions[s];
    var request := db.requests[row.requestId];
    if row.agentA == a then
      Waiting(s, db.agents[row.agentB].pubkey, row.createdAt, row.expiresAt, request.fromIntent, request.targetIntent)
    else
      Waiting(s, db.agents[row.agentA].pubkey, row.createdAt, row.expiresAt, request.targetIntent, request.fromIntent)
  }

  predicate UniqueKeys(db: Db) {
    forall a, b | a in db.agents && b in db.agents :: db.agents[a].pubkey == db.agents[b].pubkey ==> a == b
  }

  lemma StepPubkeys(db: Db, now: Time, e: Event, a: Id)
    requires a in Step(db, now, e).agents
    ensures a in db.agents ==> Step(db, now, e).agents[a].pubkey == db.agents[a].pubkey
    ensures a !in db.agents ==> forall b | b in db.agents :: db.agents[b].pubkey != Step(db, now, e).agents[a].pubkey
    ensures a !in db.agents ==> e.DoRegister? && e.newId == a
  {
    if a !in db.agents {
      StepAgents(db, now, e, a);
    } else if !e.DoRegister? {
      PubkeysStay(db, now, e, a);
    }
  }

  lemma CheckedPubkeys(db: Db, now: Time, e: Event, a: Id)
    requires a in db.agents && (e.DoCreateIntent? || e.DoConnect? || e.DoBlock?)
    ensures a in Step(db, now, e).agents && Step(db, now, e).agents[a].pubkey == db.agents[a].pubkey
  {
    hide Step, Checked;
    var (mid, who) := Checked(db, now, e);
    StepChecks(db, now, e);
    CheckedStarts(db, now, e);
    BanMoves(mid, who, now, a);
  }

  lemma PubkeysStay(db: Db, now: Time, e: Event, a: Id)
    requires a in db.agents && !e.DoRegister?
    ensures a in Step(db, now, e).agents && Step(db, now, e).agents[a].pubkey == db.agents[a].pubkey
  {
    hide Register, CreateIntent, Connect, BlockAgent;
    if e.DoCreateIntent? || e.DoConnect? || e.DoBlock? {
      CheckedPubkeys(db, now, e, a);
    }
  }

  lemma {:induction false} AlwaysUniqueKeys(log: seq<Entry>, n: nat)
    requires n <= |log|
    ensures UniqueKeys(After(log, n))
  {
    hide Step;
    if n > 0 {
      AlwaysUniqueKeys(log, n - 1);
      var db, now, e := After(log, n - 1), log[n - 1].at, log[n - 1].event;
      forall a, b | a in Step(db, now, e).agents && b in Step(db, now, e).agents
        ensures Step(db, now, e).agents[a].pubkey == Step(db, now, e).agents[b].pubkey ==> a == b
      {
        StepPubkeys(db, now, e, a);
        StepPubkeys(db, now, e, b);
      }
    }
  }

  /** On every run the joins of the query lose no row: what is listed for an agent is just its sessions
      that still wait, up to their deadline. */
  lemma ListedIff(log: seq<Entry>, a: Id, s: Id, now: Time)
    ensures var db := After(log, |log|);
      Listed(db, a, now, s) <==>
        s in db.sessions && a in {db.sessions[s].agentA, db.sessions[s].agentB}
        && db.sessions[s].status == AwaitingJoin && now < db.sessions[s].expiresAt
  {
    hide Step, After;
    var db := After(log, |log|);
    AlwaysLinked(log, |log|);
    if s in db.sessions {
      assert SessionLinked(db, db.sessions[s]);
      assert RequestLinked(db, db.requests[db.sessions[s].requestId]);
    }
  }

  /** On every run, each of the two members of a waiting session finds one entry: its own intent and
      the counterparty's, under the counterparty's key, which no other agent has; and the two
      entries mirror each other. */
  lemma {:induction false} EntriesMirror(log: seq<Entry>, a: Id, s: Id, now: Time) returns (b: Id)
    requires Listed(After(log, |log|), a, now, s)
    ensures var db := After(log, |log|);
      && Describes(db, ListingFor(db, a, s), a, b, s)
      && Listed(db, b, now, s)
      && Describes(db, ListingFor(db, b, s), b, a, s)
      && ListingFor(db, a, s).myIntent == ListingFor(db, b, s).counterpartyIntent
      && ListingFor(db, a, s).counterpartyIntent == ListingFor(db, b, s).myIntent
      && forall c | c in db.agents :: db.agents[c].pubkey == ListingFor(db, a, s).counterpartyPubkey ==> c == b
  {
    hide Step, After;
    var db := After(log, |log|);
    AlwaysLinked(log, |log|);
    AlwaysUniqueKeys(log, |log|);
    var row := db.sessions[s];
    assert SessionLinked(db, row);
    assert RequestLinked(db, db.requests[row.requestId]);
    b := if row.agentA == a then row.agentB else row.agentA;
  }

  /** The first row of `order_by(created_at)`. */
  lemma EarliestExists(sessions: map<Id, Session>, rows: set<Id>) returns (s: Id)
    requires rows != {} && rows <= sessions.Keys
    ensures s in rows && forall t | t in rows :: sessions[s].createdAt <= sessions[t].createdAt
  {
    s :| s in rows;
    if rows != {s} {
      var t := EarliestExists(sessions, rows - {s});
      if sessions[t].createdAt < sessions[s].createdAt { s := t; }
    }
  }

  predicate InOrder(w: seq<Waiting>) {
    forall i, j :: 0 <= i < j < |w| ==> w[i].acceptedAt <= w[j].acceptedAt && w[i].sessionId != w[j].sessionId
  }

  predicate Lists(w: seq<Waiting>, s: Id) {
    exists k :: 0 <= k < |w| && w[k].sessionId == s
  }

  predicate EntryOf(db: Db, a: Id, now: Time, w: Waiting) {
    Listed(db, a, now, w.sessionId) && w == ListingFor(db, a, w.sessionId)
  }

  /** The loop of `load_inbox`: every waiting session of the caller, in the order the sessions were
      accepted, each exactly once. */
  method ListWaiting(db: Db, a: Id, now: Time) returns (waiting: seq<Waiting>)
    ensures InOrder(waiting)
    ensures forall k | 0 <= k < |waiting| :: EntryOf(db, a, now, waiting[k])
    ensures forall s :: Listed(db, a, now, s) ==> Lists(waiting, s)
  {
    waiting := [];
    var rows := set s | s in db.sessions && Listed(db, a, now, s);
    while rows != {}
      invariant InOrder(waiting)
      invariant forall s | s in rows :: s in db.sessions && Listed(db, a, now, s)
      invariant forall k | 0 <= k < |waiting| :: EntryOf(db, a, now, waiting[k]) && waiting[k].sessionId !in rows
      invariant forall k, s | 0 <= k < |waiting| && s in rows :: waiting[k].acceptedAt <= db.sessions[s].createdAt
      invariant forall s :: Listed(db, a, now, s) ==> s in rows || Lists(waiting, s)
      decreases rows
    {
      ghost var first := EarliestExists(db.sessions, rows);
      var s :| s in rows && forall t | t in rows :: db.sessions[s].createdAt <= db.sessions[t].createdAt;
      var row, request := db.sessions[s], db.requests[db.sessions[s].requestId];
      var isRequester := row.agentA == a;
      ghost var before := waiting;
      waiting := waiting + [Waiting(
        s, if isRequester then db.agents[row.agentB].pubkey else db.agents[row.agentA].pubkey,
        row.createdAt, row.expiresAt,
        if isRequester then request.fromIntent else request.targetIntent,
        if isRequester then request.targetIntent else request.fromIntent)];
      rows := rows - {s};
      assert waiting[|before|].sessionId == s;
      forall x | Lists(before, x) ensures Lists(waiting, x) {
        var k :| 0 <= k < |before| && before[k].sessionId == x;
        assert waiting[k].sessionId == x;
      }
    }
  }
}
