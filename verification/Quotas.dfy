/** The limits of `connections.py` and `intents.py` are checked against the window that ends at each
    insertion. They bound every window, wherever it lies, and the pending limit every moment. */
module Quotas {
  import opened Basics
  import opened Rows
  import opened Handlers
  import opened Moves

  /** Rows created in the closed 24 hours that begin at `from`. */
  function SentIn(a: Id, from: Time): Request -> bool {
    (r: Request) => r.fromAgent == a && from <= r.createdAt <= from + DAY
  }

  function PostedIn(a: Id, from: Time): Intent -> bool {
    (i: Intent) => i.agentId == a && from <= i.createdAt <= from + DAY
  }

  predicate WithinRequests(db: Db, a: Id, from: Time) {
    Count(db.requests, SentIn(a, from)) <= DAILY_REQUESTS
  }

  predicate WithinIntents(db: Db, a: Id, from: Time) {
    Count(db.intents, PostedIn(a, from)) <= DAILY_INTENTS
  }

  /** At time `t`, at most twenty requests of `a` are unanswered and not past their deadline. */
  predicate WithinPending(db: Db, a: Id, t: Time) {
    Count(db.requests, PendingFrom(a, t)) <= PENDING_LIMIT
  }

  /** A step either inserts one request, having looked at the caller's counts, or inserts none. */
  lemma RequestInsert(db: Db, now: Time, e: Event) returns (r: Option<Id>)
    ensures r.None? ==> Step(db, now, e).requests.Keys == db.requests.Keys
    ensures r.Some? ==>
      && r.value !in db.requests && r.value in Step(db, now, e).requests && e.DoConnect?
      && var row := Step(db, now, e).requests[r.value];
         && row.fromAgent == e.caller && row.createdAt == now && row.status == Pending
         && Step(db, now, e).requests == db.requests[r.value := row]
         && Count(db.requests, PendingFrom(e.caller, now)) < PENDING_LIMIT
         && Count(db.requests, SentSince(e.caller, now - DAY)) < DAILY_REQUESTS
  {
    hide Step;
    var db' := Step(db, now, e);
    if fresh' :| fresh' in db'.requests && fresh' !in db.requests {
      StepRequests(db, now, e, fresh');
      r := Some(fresh');
    } else {
      forall x ensures x in db'.requests <==> x in db.requests {
        if x in db.requests { StepAnswers(db, now, e, x); }
      }
      r := None;
    }
  }

  lemma KeepsRequestWindow(db: Db, now: Time, e: Event, a: Id, from: Time)
    requires WithinRequests(db, a, from)
    ensures WithinRequests(Step(db, now, e), a, from)
  {
    hide Step;
    var db' := Step(db, now, e);
    var r := RequestInsert(db, now, e);
    if r.Some? {
      CountWrite(db.requests, r.value, db'.requests[r.value], SentIn(a, from));
      if a == e.caller && from <= now <= from + DAY {
        CountFewer(db.requests, db.requests, SentIn(a, from), SentSince(a, now - DAY));
      }
    } else {
      forall x | x in db.requests
        ensures db'.requests[x].fromAgent == db.requests[x].fromAgent && db'.requests[x].createdAt == db.requests[x].createdAt
      {
        StepAnswers(db, now, e, x);
      }
      CountSame(db.requests, db'.requests, SentIn(a, from));
    }
  }

  lemma KeepsPending(db: Db, now: Time, e: Event, a: Id, t: Time)
    requires now <= t && WithinPending(db, a, t)
    ensures WithinPending(Step(db, now, e), a, t)
  {
    hide Step;
    var db' := Step(db, now, e);
    var r := RequestInsert(db, now, e);
    if r.Some? {
      CountWrite(db.requests, r.value, db'.requests[r.value], PendingFrom(a, t));
      if a == e.caller {
        CountFewer(db.requests, db.requests, PendingFrom(a, t), PendingFrom(a, now));
      }
    } else {
      forall x | x in db'.requests && PendingFrom(a, t)(db'.requests[x])
        ensures PendingFrom(a, t)(db.requests[x])
      {
        StepAnswers(db, now, e, x);
      }
      CountFewer(db'.requests, db.requests, PendingFrom(a, t), PendingFrom(a, t));
    }
  }

  lemma KeepsIntentWindow(db: Db, now: Time, e: Event, a: Id, from: Time)
    requires WithinIntents(db, a, from)
    ensures WithinIntents(Step(db, now, e), a, from)
  {
    hide Step;
    var db' := Step(db, now, e);
    forall x | x in db.intents
      ensures x in db'.intents
      ensures db'.intents[x].agentId == db.intents[x].agentId && db'.intents[x].createdAt == db.intents[x].createdAt
    {
      StepIntents(db, now, e, x);
    }
    if fresh' :| fresh' in db'.intents && fresh' !in db.intents {
      StepPosts(db, now, e, fresh');
      CountWrite(db.intents, fresh', db'.intents[fresh'], PostedIn(a, from));
      CountSame(db.intents[fresh' := db'.intents[fresh']], db'.intents, PostedIn(a, from));
      if a == e.caller && from <= now <= from + DAY {
        CountFewer(db.intents, db.intents, PostedIn(a, from), PostedSince(a, now - DAY));
      }
    } else {
      CountSame(db.intents, db'.intents, PostedIn(a, from));
    }
  }

  /** Every 24-hour window of every run holds at most fifty requests and thirty intents of an
      agent, and at every moment from now on at most twenty of its requests are pending. */
  lemma {:induction false} QuotasHold(log: seq<Entry>, n: nat, start: Time, a: Id, from: Time, t: Time)
    requires n <= |log| && Clocked(log) && Latest(log, n, start) <= t
    ensures WithinRequests(After(log, n), a, from)
    ensures WithinIntents(After(log, n), a, from)
    ensures WithinPending(After(log, n), a, t)
  {
    hide Step;
    if n > 0 {
      QuotasHold(log, n - 1, t, a, from, t);
      var db, now, e := After(log, n - 1), log[n - 1].at, log[n - 1].event;
      KeepsRequestWindow(db, now, e, a, from);
      KeepsIntentWindow(db, now, e, a, from);
      KeepsPending(db, now, e, a, t);
    } else {
      CountNone(EMPTY_DB.requests, SentIn(a, from));
      CountNone(EMPTY_DB.intents, PostedIn(a, from));
      CountNone(EMPTY_DB.requests, PendingFrom(a, t));
    }
  }

  // ---------------------------------------------------------------- the unreachable trigger

  predicate NotFuture(db: Db, now: Time) {
    forall i | i in db.intents :: db.intents[i].createdAt <= now
  }

  lemma {:induction false} AlwaysNotFuture(log: seq<Entry>, n: nat, start: Time)
    requires n <= |log| && Clocked(log)
    ensures NotFuture(After(log, n), Latest(log, n, start))
  {
    hide Step;
    if n > 0 {
      AlwaysNotFuture(log, n - 1, log[n - 1].at);
      var db, now, e := After(log, n - 1), log[n - 1].at, log[n - 1].event;
      forall i | i in Step(db, now, e).intents ensures Step(db, now, e).intents[i].createdAt <= now {
        if i in db.intents { StepIntents(db, now, e, i); } else { StepPosts(db, now, e, i); }
      }
    }
  }

  /** With at most thirty intents a day, more than a hundred never show. */
  lemma NoBurst(db: Db, a: Id, now: Time)
    requires NotFuture(db, now) && WithinIntents(db, a, now - DAY)
    ensures BanTrigger(db, a, now) != Some(IntentBurst)
  {
    CountFewer(db.intents, db.intents, PostedSince(a, now - DAY), PostedIn(a, now - DAY));
  }

  lemma BanAbuse(db: Db, a: Id, now: Time)
    ensures var db' := CheckSoftBan(db, a, now);
      && (db'.abuse == db.abuse
          || (BanTrigger(db, a, now).Some? && db'.abuse == db.abuse + [AbuseEvent(a, BanTrigger(db, a, now).value, now)]))
      && forall i | i in db.intents ::
           db'.intents[i].agentId == db.intents[i].agentId && db'.intents[i].createdAt == db.intents[i].createdAt
  {
  }

  lemma OthersLeaveAbuse(db: Db, now: Time, e: Event)
    requires !e.DoCreateIntent? && !e.DoConnect? && !e.DoBlock?
    ensures Step(db, now, e).abuse == db.abuse
  {
  }

  /** The third trigger of `check_and_apply_soft_ban` is dead code: on no run is anyone ever banned
      for a burst of intents. */
  lemma {:induction false} BurstNeverFires(log: seq<Entry>, n: nat, k: nat)
    requires n <= |log| && Clocked(log) && k < |After(log, n).abuse|
    ensures After(log, n).abuse[k].reason != IntentBurst
  {
    hide Step;
    if n > 0 {
      var db, now, e := After(log, n - 1), log[n - 1].at, log[n - 1].event;
      if k < |db.abuse| { BurstNeverFires(log, n - 1, k); }
      var (mid, who) := Checked(db, now, e);
      CheckedStarts(db, now, e);
      if e.DoCreateIntent? || e.DoConnect? || e.DoBlock? {
        StepChecks(db, now, e);
      } else {
        OthersLeaveAbuse(db, now, e);
      }
      if After(log, n).abuse != db.abuse {
        BanAbuse(mid, who, now);
        QuotasHold(log, n, now, who, now - DAY, now);
        AlwaysNotFuture(log, n, now);
        CountSame(mid.intents, After(log, n).intents, PostedIn(who, now - DAY));
        NoBurst(mid, who, now);
      }
    }
  }
}
