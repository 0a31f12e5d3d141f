/** Requests, sessions and intents of one run refer to each other consistently: every request joins
    two different agents through an intent of each, and has exactly one session if it was accepted
    and none otherwise. `load_inbox` depends on it. */
module Correspondence {
  import opened Rows
  import opened Handlers
  import opened Moves

  predicate IntentLinked(db: Db, i: Intent) { i.agentId in db.agents }

  predicate RequestLinked(db: Db, r: Request) {
    && r.fromAgent != r.toAgent && r.fromAgent in db.agents && r.toAgent in db.agents
    && Owns(db, r.fromAgent, r.fromIntent) && Owns(db, r.toAgent, r.targetIntent)
  }

  predicate SessionLinked(db: Db, s: Session) {
    && s.requestId in db.requests
    && db.requests[s.requestId].status == RequestAccepted
    && s.agentA == db.requests[s.requestId].fromAgent
    && s.agentB == db.requests[s.requestId].toAgent
  }

  ghost predicate HasSession(db: Db, rid: Id) {
    exists s :: s in db.sessions && db.sessions[s].requestId == rid
  }

  ghost predicate Linked(db: Db) {
    && (forall i | i in db.intents :: IntentLinked(db, db.intents[i]))
    && (forall r | r in db.requests :: RequestLinked(db, db.requests[r]))
    && (forall s | s in db.sessions :: SessionLinked(db, db.sessions[s]))
    && (forall r | r in db.requests && db.requests[r].status == RequestAccepted :: HasSession(db, r))
    && (forall s, t | s in db.sessions && t in db.sessions ::
          db.sessions[s].requestId == db.sessions[t].requestId ==> s == t)
  }

  lemma MovesKeepSession(db: Db, now: Time, e: Event, s: Id)
    requires s in db.sessions && SessionLinked(db, db.sessions[s])
    ensures s in Step(db, now, e).sessions
    ensures Step(db, now, e).sessions[s].requestId == db.sessions[s].requestId
    ensures SessionLinked(Step(db, now, e), Step(db, now, e).sessions[s])
  {
    StepMoves(db, now, e, s);
    StepAnswers(db, now, e, db.sessions[s].requestId);
  }

  lemma MovesKeepRequest(db: Db, now: Time, e: Event, r: Id)
    requires r in db.requests && RequestLinked(db, db.requests[r])
    ensures r in Step(db, now, e).requests
    ensures RequestLinked(Step(db, now, e), Step(db, now, e).requests[r])
  {
    StepAnswers(db, now, e, r);
    StepIntents(db, now, e, db.requests[r].fromIntent);
    StepIntents(db, now, e, db.requests[r].targetIntent);
    StepAgents(db, now, e, db.requests[r].fromAgent);
    StepAgents(db, now, e, db.requests[r].toAgent);
  }

  lemma NewSessionLinked(db: Db, now: Time, e: Event, s: Id)
    requires s !in db.sessions && s in Step(db, now, e).sessions
    ensures SessionLinked(Step(db, now, e), Step(db, now, e).sessions[s])
    ensures forall t | t in db.sessions :: db.sessions[t].requestId != Step(db, now, e).sessions[s].requestId
    ensures e.DoAcceptRequest? && e.newId == s
  {
    StepCreates(db, now, e, s);
  }

  lemma NewRequestLinked(db: Db, now: Time, e: Event, r: Id)
    requires Linked(db) && r !in db.requests && r in Step(db, now, e).requests
    ensures RequestLinked(Step(db, now, e), Step(db, now, e).requests[r])
    ensures Step(db, now, e).requests[r].status == Pending
  {
    StepRequests(db, now, e, r);
    StepIntents(db, now, e, e.from);
    StepIntents(db, now, e, e.target);
    StepAgents(db, now, e, e.caller);
    StepAgents(db, now, e, db.intents[e.target].agentId);
  }

  lemma KeepsIntents(db: Db, now: Time, e: Event, i: Id)
    requires Linked(db) && i in Step(db, now, e).intents
    ensures IntentLinked(Step(db, now, e), Step(db, now, e).intents[i])
  {
    if i in db.intents {
      StepIntents(db, now, e, i);
      StepAgents(db, now, e, db.intents[i].agentId);
    } else {
      StepPosts(db, now, e, i);
      StepAgents(db, now, e, e.caller);
    }
  }

  lemma KeepsHasSession(db: Db, now: Time, e: Event, r: Id)
    requires Linked(db) && r in Step(db, now, e).requests
    requires Step(db, now, e).requests[r].status == RequestAccepted
    ensures HasSession(Step(db, now, e), r)
  {
    if r !in db.requests {
      NewRequestLinked(db, now, e, r);
    } else {
      StepAnswers(db, now, e, r);
      if db.requests[r].status == RequestAccepted {
        assert HasSession(db, r);
        var s :| s in db.sessions && db.sessions[s].requestId == r;
        MovesKeepSession(db, now, e, s);
      }
    }
  }

  lemma StepKeepsLinked(db: Db, now: Time, e: Event)
    requires Linked(db)
    ensures Linked(Step(db, now, e))
  {
    hide Step;
    var db' := Step(db, now, e);
    forall i | i in db'.intents ensures IntentLinked(db', db'.intents[i]) {
      KeepsIntents(db, now, e, i);
    }
    forall r | r in db'.requests ensures RequestLinked(db', db'.requests[r]) {
      if r in db.requests { MovesKeepRequest(db, now, e, r); } else { NewRequestLinked(db, now, e, r); }
    }
    forall s | s in db'.sessions
      ensures SessionLinked(db', db'.sessions[s])
      ensures s in db.sessions ==> db'.sessions[s].requestId == db.sessions[s].requestId
      ensures s !in db.sessions ==>
                && e.DoAcceptRequest? && e.newId == s
                && forall t | t in db.sessions :: db.sessions[t].requestId != db'.sessions[s].requestId
    {
      if s in db.sessions { MovesKeepSession(db, now, e, s); } else { NewSessionLinked(db, now, e, s); }
    }
    forall r | r in db'.requests && db'.requests[r].status == RequestAccepted ensures HasSession(db', r) {
      KeepsHasSession(db, now, e, r);
    }
  }

  /** On every run. */
  lemma {:induction false} AlwaysLinked(log: seq<Entry>, n: nat)
    requires n <= |log|
    ensures Linked(After(log, n))
  {
    hide Step;
    if n > 0 {
      AlwaysLinked(log, n - 1);
      StepKeepsLinked(After(log, n - 1), log[n - 1].at, log[n - 1].event);
    }
  }

  /** On every run a request has a session exactly when it was accepted, and never two. */
  lemma {:induction false} OneSessionIffAccepted(log: seq<Entry>, rid: Id)
    ensures var db := After(log, |log|);
      rid in db.requests ==>
        |set s | s in db.sessions && db.sessions[s].requestId == rid|
        == if db.requests[rid].status == RequestAccepted then 1 else 0
  {
    hide Step;
    var db := After(log, |log|);
    AlwaysLinked(log, |log|);
    if rid in db.requests {
      var all := set s | s in db.sessions && db.sessions[s].requestId == rid;
      if db.requests[rid].status == RequestAccepted {
        assert HasSession(db, rid);
        var s :| s in db.sessions && db.sessions[s].requestId == rid;
        assert all == {s};
      } else {
        forall s | s in db.sessions ensures db.sessions[s].requestId != rid {
          assert SessionLinked(db, db.sessions[s]);
        }
        assert all == {};
      }
    }
  }

  /** Once answered, a request keeps its answer for the rest of every run. */
  lemma {:induction false} AnswerIsFinal(log: seq<Entry>, m: nat, n: nat, rid: Id)
    requires m <= n <= |log| && rid in After(log, m).requests
    requires After(log, m).requests[rid].status != Pending
    ensures rid in After(log, n).requests
    ensures After(log, n).requests[rid] == After(log, m).requests[rid]
  {
    hide Step;
    if m < n {
      AnswerIsFinal(log, m, n - 1, rid);
      StepAnswers(After(log, n - 1), log[n - 1].at, log[n - 1].event, rid);
    }
  }
}
