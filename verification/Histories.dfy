/** Where a row stands on any run, told from what happened: each status is traced to the entry of the
    log that gave it, and each such entry gives it. */
module Histories {
  import opened Basics
  import opened Rows
  import opened Handlers
  import opened Lifecycle
  import opened Effects
  import opened Blocking

  // ---------------------------------------------------------------- requests

  /** Entry `k` answers request `rid`: its target accepts it in time, or rejects it; its requester
      cancels it; or maintenance finds it due. */
  predicate AnsweredBy(log: seq<Entry>, k: nat, rid: Id, st: RequestStatus) {
    && k < |log| && rid in After(log, k).requests
    && var db, r, e := After(log, k), After(log, k).requests[rid], log[k].event;
       r.status == Pending
       && match st
          case Pending => false
          case RequestAccepted => Introduces(db, log[k].at, e) && e.request == rid
          case Rejected => e.DoRejectRequest? && e.request == rid && Acts(db, e.caller) && e.caller == r.toAgent
          case Cancelled => e.DoCancelRequest? && e.request == rid && Acts(db, e.caller) && e.caller == r.fromAgent
          case RequestExpired => e.DoMaintenance? && r.expiresAt <= log[k].at
  }

  ghost predicate EverAnswered(log: seq<Entry>, n: nat, rid: Id, st: RequestStatus) {
    exists k: nat :: k < n && AnsweredBy(log, k, rid, st)
  }

  lemma AnswerStep(log: seq<Entry>, k: nat, rid: Id, st: RequestStatus)
    requires k < |log| && rid in After(log, k).requests
    ensures rid in After(log, k + 1).requests
    ensures var was, now := After(log, k).requests[rid], After(log, k + 1).requests[rid];
      if was.status != Pending then now == was && !AnsweredBy(log, k, rid, st)
      else st != Pending ==> (now.status == st <==> AnsweredBy(log, k, rid, st))
  {
    hide Step;
    RequestRows(After(log, k), log[k].at, log[k].event, rid);
  }

  lemma FreshRequest(log: seq<Entry>, n: nat, rid: Id, st: RequestStatus)
    requires 0 < n <= |log| && rid in After(log, n).requests && rid !in After(log, n - 1).requests
    ensures After(log, n).requests[rid].status == Pending && !EverAnswered(log, n, rid, st)
  {
    hide Step;
    RequestMadeIff(After(log, n - 1), log[n - 1].at, log[n - 1].event, rid);
    forall k: nat | k < n ensures rid !in After(log, k).requests {
      if rid in After(log, k).requests { RequestsStay(log, k, n - 1, rid); }
    }
  }

  lemma {:induction false} RequestsStay(log: seq<Entry>, m: nat, n: nat, rid: Id)
    requires m <= n <= |log| && rid in After(log, m).requests
    ensures rid in After(log, n).requests
  {
    hide Step;
    if m < n {
      RequestsStay(log, m, n - 1, rid);
      AnswerStep(log, n - 1, rid, Pending);
    }
  }

  /** On every run a request is accepted, rejected, cancelled or expired if and only if that is how it
      was answered, by who may, and when. */
  lemma {:induction false} RequestStatusIff(log: seq<Entry>, n: nat, rid: Id, st: RequestStatus)
    requires n <= |log| && rid in After(log, n).requests && st != Pending
    ensures After(log, n).requests[rid].status == st <==> EverAnswered(log, n, rid, st)
  {
    hide Step, AnsweredBy;
    if rid !in After(log, n - 1).requests {
      FreshRequest(log, n, rid, st);
    } else {
      RequestStatusIff(log, n - 1, rid, st);
      AnswerStep(log, n - 1, rid, st);
      if EverAnswered(log, n - 1, rid, st) {
        var k: nat :| k < n - 1 && AnsweredBy(log, k, rid, st);
        assert EverAnswered(log, n, rid, st);
      }
      if AnsweredBy(log, n - 1, rid, st) { assert EverAnswered(log, n, rid, st); }
    }
  }

  // ---------------------------------------------------------------- sessions

  /** Why a step closes the session, if it does. */
  function ClosingBy(db: Db, now: Time, e: Event, sid: Id): Option<CloseReason>
    requires sid in db.sessions
  {
    var r := db.sessions[sid];
    var open, member := r.status != Closed, (q: Id) => q in {r.agentA, r.agentB};
    match e
    case DoRelayClose(s, why, _) => if s == sid then Some(why) else None
    case DoEndSession(q, s) => if s == sid && open && Acts(db, q) && member(q) then Some(EndedByAgent) else None
    case DoBlock(q, t, _) =>
      if open && Acts(db, q) && t in db.agents && t != q && {r.agentA, r.agentB} == {q, t} then Some(Blocked) else None
    case DoDeleteAccount(q) => if open && Calls(db, q) && member(q) then Some(AccountDeleted) else None
    case DoMaintenance =>
      if !open || now < r.expiresAt then None
      else Some(match r.status
                case AwaitingJoin => AwaitingJoinExpired
                case MatchConfirmed => HandoffComplete
                case _ => TimeLimitReached)
    case _ => None
  }

  /** The last entry that closed the session: when, and why. */
  function LastClosing(log: seq<Entry>, n: nat, sid: Id): Option<(Time, CloseReason)>
    requires n <= |log|
  {
    if n == 0 || sid !in After(log, n - 1).sessions then None
    else
      var why := ClosingBy(After(log, n - 1), log[n - 1].at, log[n - 1].event, sid);
      if why.Some? then Some((log[n - 1].at, why.value)) else LastClosing(log, n - 1, sid)
  }

  lemma ClosingStep(db: Db, now: Time, e: Event, sid: Id)
    requires sid in db.sessions
    ensures sid in Step(db, now, e).sessions
    ensures var r, q, why := db.sessions[sid], Step(db, now, e).sessions[sid], ClosingBy(db, now, e, sid);
      if why.Some? then q.status == Closed && q.closedAt == Some(now) && q.closeReason == why
      else (q.status == Closed <==> r.status == Closed) && q.closedAt == r.closedAt && q.closeReason == r.closeReason
  {
    hide Step;
    SessionRows(db, now, e, sid);
  }

  /** On every run a session is closed if and only if some entry closed it, and the row has the time and
      the reason of the last one that did. */
  lemma {:induction false} ClosedIff(log: seq<Entry>, n: nat, sid: Id)
    requires n <= |log| && sid in After(log, n).sessions
    ensures var r, last := After(log, n).sessions[sid], LastClosing(log, n, sid);
      && (r.status == Closed <==> last.Some?)
      && (last.Some? ==> r.closedAt == Some(last.value.0) && r.closeReason == Some(last.value.1))
  {
    hide Step, ClosingBy;
    var db, now, e := After(log, n - 1), log[n - 1].at, log[n - 1].event;
    if sid in db.sessions {
      ClosedIff(log, n - 1, sid);
      ClosingStep(db, now, e, sid);
    } else {
      SessionOpensIff(db, now, e, sid);
    }
  }

  /** Entry `j` confirms a match: a member in good standing accepts the other's standing proposal. */
  predicate Confirms(log: seq<Entry>, j: nat, sid: Id) {
    && j < |log| && sid in After(log, j).sessions
    && log[j].event.DoAcceptMatch? && log[j].event.session == sid && Acts(After(log, j), log[j].event.caller)
    && var r, q := After(log, j).sessions[sid], log[j].event.caller;
       q in {r.agentA, r.agentB} && r.status == MatchProposed && r.proposedBy.Some? && r.proposedBy.value != q
  }

  lemma ConfirmStep(log: seq<Entry>, j: nat, sid: Id)
    requires j < |log| && sid in After(log, j).sessions
    ensures sid in After(log, j + 1).sessions
    ensures var r, q := After(log, j).sessions[sid], After(log, j + 1).sessions[sid];
      if Confirms(log, j, sid)
      then q.status == MatchConfirmed && q.confirmedAt == Some(log[j].at) && q.expiresAt == log[j].at + 10 * MINUTE
      else q.confirmedAt == r.confirmedAt
           && (q.status == MatchConfirmed ==> r.status == MatchConfirmed)
           && (r.status == MatchConfirmed && q.status != MatchConfirmed ==> q.status == Closed)
  {
    hide Step;
    SessionRows(After(log, j), log[j].at, log[j].event, sid);
  }

  /** On every run a session has been matched if and only if a member accepted the other's standing
      proposal at some entry, and the row says when; and it is still in its handoff if and only if
      nothing has closed it since. */
  lemma {:induction false} ConfirmedIff(log: seq<Entry>, n: nat, sid: Id)
    requires n <= |log| && Clocked(log) && sid in After(log, n).sessions
    ensures var r := After(log, n).sessions[sid];
      && (r.confirmedAt.Some? <==> exists j: nat :: j < n && Confirms(log, j, sid))
      && (forall j: nat | j < n && Confirms(log, j, sid) :: r.confirmedAt == Some(log[j].at))
      && (r.status == MatchConfirmed <==> r.confirmedAt.Some? && LastClosing(log, n, sid).None?)
  {
    hide Step, Confirms, LastClosing;
    var db, now, e := After(log, n - 1), log[n - 1].at, log[n - 1].event;
    ClosedIff(log, n, sid);
    if sid in db.sessions {
      ConfirmedIff(log, n - 1, sid);
      ClosedIff(log, n - 1, sid);
      ConfirmStep(log, n - 1, sid);
      AlwaysShaped(log, n - 1, 0);
      AlwaysShaped(log, n, 0);
      ConfirmsProposed(log, n - 1, sid);
    } else {
      SessionOpensIff(db, now, e, sid);
      forall j: nat | j < n ensures !Confirms(log, j, sid) {
        if Confirms(log, j, sid) { ConfirmsProposed(log, j, sid); SessionsStay(log, j, n - 1, sid); }
      }
    }
  }

  lemma ConfirmsProposed(log: seq<Entry>, j: nat, sid: Id)
    ensures Confirms(log, j, sid) ==> sid in After(log, j).sessions && After(log, j).sessions[sid].status == MatchProposed
  {
  }

  lemma {:induction false} SessionsStay(log: seq<Entry>, m: nat, n: nat, sid: Id)
    requires m <= n <= |log| && sid in After(log, m).sessions
    ensures sid in After(log, n).sessions
  {
    hide Step;
    if m < n {
      SessionsStay(log, m, n - 1, sid);
      SessionRows(After(log, n - 1), log[n - 1].at, log[n - 1].event, sid);
    }
  }

  /** Entry `k` activates the session: a relay's join finds it waiting. */
  predicate StartsAt(log: seq<Entry>, k: nat, sid: Id) {
    && k < |log| && sid in After(log, k).sessions && After(log, k).sessions[sid].status == AwaitingJoin
    && log[k].event == DoRelayActivate(sid)
  }

  /** On every run a session has been active if and only if some entry activated it, and the row says
      when; it is still waiting if and only if none did and nothing has closed it. */
  lemma {:induction false} ActivatedIff(log: seq<Entry>, n: nat, sid: Id)
    requires n <= |log| && Clocked(log) && sid in After(log, n).sessions
    ensures var r := After(log, n).sessions[sid];
      && (r.activeAt.Some? <==> exists k: nat :: k < n && StartsAt(log, k, sid))
      && (forall k: nat | k < n && StartsAt(log, k, sid) :: r.activeAt == Some(log[k].at))
      && (r.status == AwaitingJoin <==> r.activeAt.None? && LastClosing(log, n, sid).None?)
  {
    hide Step, StartsAt, LastClosing;
    ClosedIff(log, n, sid);
    AlwaysShaped(log, n, 0);
    if sid in After(log, n - 1).sessions {
      ActivatedIff(log, n - 1, sid);
      AlwaysShaped(log, n - 1, 0);
      StartStep(log, n - 1, sid);
    } else {
      SessionOpensIff(After(log, n - 1), log[n - 1].at, log[n - 1].event, sid);
      forall k: nat | k < n ensures !StartsAt(log, k, sid) {
        if StartsAt(log, k, sid) { StartsThere(log, k, sid); SessionsStay(log, k, n - 1, sid); }
      }
    }
  }

  lemma StartsThere(log: seq<Entry>, k: nat, sid: Id)
    requires StartsAt(log, k, sid)
    ensures k < |log| && sid in After(log, k).sessions
  {
  }

  lemma StartStep(log: seq<Entry>, k: nat, sid: Id)
    requires k < |log| && sid in After(log, k).sessions
    ensures sid in After(log, k + 1).sessions
    ensures StartsAt(log, k, sid) ==> After(log, k).sessions[sid].status == AwaitingJoin
    ensures After(log, k + 1).sessions[sid].activeAt ==
            if StartsAt(log, k, sid) then Some(log[k].at) else After(log, k).sessions[sid].activeAt
  {
    hide Step;
    SessionRows(After(log, k), log[k].at, log[k].event, sid);
  }

  /** Entry `k` proposes a match for `p`: a member in good standing, of an active session. */
  predicate Proposes(log: seq<Entry>, k: nat, sid: Id, p: Id) {
    && k < |log| && log[k].event == DoProposeMatch(p, sid) && Takes(After(log, k), p, sid)
    && After(log, k).sessions[sid].status == Active
  }

  /** Entry `k` is the other member's answer, or the end of the session. */
  predicate Settles(log: seq<Entry>, k: nat, sid: Id, p: Id) {
    && k < |log| && sid in After(log, k).sessions
    && var db, e := After(log, k), log[k].event;
       || ((e.DoAcceptMatch? || e.DoRejectMatch?) && e.session == sid && Takes(db, e.caller, sid) && e.caller != p)
       || ClosingBy(db, log[k].at, e, sid).Some?
  }

  ghost predicate OnTheTable(log: seq<Entry>, n: nat, sid: Id, p: Id) {
    exists i: nat :: i < n && Proposes(log, i, sid, p) && forall k: nat | i < k < n :: !Settles(log, k, sid, p)
  }

  predicate ProposedBy(db: Db, sid: Id, p: Id) {
    sid in db.sessions && db.sessions[sid].status == MatchProposed && db.sessions[sid].proposedBy == Some(p)
  }

  lemma ProposeStep(log: seq<Entry>, k: nat, sid: Id, p: Id)
    requires k < |log|
    ensures ProposedBy(After(log, k + 1), sid, p) <==>
            if ProposedBy(After(log, k), sid, p) then !Settles(log, k, sid, p) else Proposes(log, k, sid, p)
    ensures ProposedBy(After(log, k), sid, p) ==> !Proposes(log, k, sid, p)
  {
    hide Step;
    var db, now, e := After(log, k), log[k].at, log[k].event;
    if sid in db.sessions { SessionRows(db, now, e, sid); } else { SessionOpensIff(db, now, e, sid); }
  }

  /** On every run a match stands proposed by `p` if and only if `p` proposed it and since then the other
      member has not answered and nothing has closed the session. */
  lemma {:induction false} ProposedIff(log: seq<Entry>, n: nat, sid: Id, p: Id)
    requires n <= |log|
    ensures ProposedBy(After(log, n), sid, p) <==> OnTheTable(log, n, sid, p)
  {
    hide Step, Proposes, Settles;
    if n > 0 {
      ProposedIff(log, n - 1, sid, p);
      ProposeStep(log, n - 1, sid, p);
      if OnTheTable(log, n - 1, sid, p) {
        var i: nat :| i < n - 1 && Proposes(log, i, sid, p) && forall k: nat | i < k < n - 1 :: !Settles(log, k, sid, p);
        if !Settles(log, n - 1, sid, p) { assert OnTheTable(log, n, sid, p); }
      } else if Proposes(log, n - 1, sid, p) {
        assert OnTheTable(log, n, sid, p);
      }
    }
  }

  /** The five statuses, each told from the log alone. */
  lemma SessionStatusIff(log: seq<Entry>, n: nat, sid: Id)
    requires n <= |log| && Clocked(log) && sid in After(log, n).sessions
    ensures After(log, n).sessions[sid].status ==
            if LastClosing(log, n, sid).Some? then Closed
            else if !exists k: nat :: k < n && StartsAt(log, k, sid) then AwaitingJoin
            else if exists j: nat :: j < n && Confirms(log, j, sid) then MatchConfirmed
            else if exists p :: OnTheTable(log, n, sid, p) then MatchProposed
            else Active
  {
    hide Step, After, StartsAt, Confirms, OnTheTable, LastClosing;
    ClosedIff(log, n, sid);
    ActivatedIff(log, n, sid);
    ConfirmedIff(log, n, sid);
    AlwaysShaped(log, n, 0);
    forall p ensures ProposedBy(After(log, n), sid, p) <==> OnTheTable(log, n, sid, p) { ProposedIff(log, n, sid, p); }
    var r := After(log, n).sessions[sid];
    if r.status == MatchProposed { assert ProposedBy(After(log, n), sid, r.proposedBy.value); }
  }

  // ---------------------------------------------------------------- deleted accounts

  lemma GoneStep(db: Db, now: Time, e: Event, a: Id)
    requires Gone(Step(db, now, e), a)
    ensures Gone(db, a) || (e == DoDeleteAccount(a) && Calls(db, a))
  {
    hide Step, Offence;
    if a in db.agents { AgentRows(db, now, e, a); } else { AgentMadeIff(db, now, e, a); }
  }

  ghost predicate Withdrew(db: Db, a: Id) {
    forall i | i in db.intents && db.intents[i].agentId == a :: db.intents[i].status == IntentDeleted
  }

  /** On every run all intents of a deleted agent are deleted. */
  lemma {:induction false} NothingPosted(log: seq<Entry>, n: nat, a: Id)
    requires n <= |log| && Gone(After(log, n), a)
    ensures Withdrew(After(log, n), a)
  {
    hide Step;
    var db, now, e := After(log, n - 1), log[n - 1].at, log[n - 1].event;
    GoneStep(db, now, e, a);
    if Gone(db, a) { NothingPosted(log, n - 1, a); }
    forall i | i in After(log, n).intents && After(log, n).intents[i].agentId == a
      ensures After(log, n).intents[i].status == IntentDeleted
    {
      if i in db.intents { IntentRows(db, now, e, i); } else { IntentMadeIff(db, now, e, i); }
    }
  }

  /** A deleted intent stays deleted, and an expired one is never active again. */
  lemma {:induction false} SpentForGood(log: seq<Entry>, m: nat, n: nat, i: Id)
    requires m <= n <= |log| && i in After(log, m).intents
    ensures i in After(log, n).intents
    ensures After(log, m).intents[i].status == IntentDeleted ==> After(log, n).intents[i] == After(log, m).intents[i]
    ensures After(log, m).intents[i].status == IntentExpired ==>
            After(log, n).intents[i].status in {IntentExpired, IntentDeleted}
  {
    hide Step;
    if m < n {
      SpentForGood(log, m, n - 1, i);
      IntentRows(After(log, n - 1), log[n - 1].at, log[n - 1].event, i);
    }
  }

  /** Entry `k` opens session `sid` on a request that `a`, deleted by then, had sent before. */
  predicate OpensLate(log: seq<Entry>, k: nat, sid: Id, a: Id) {
    && k < |log| && Gone(After(log, k), a) && sid !in After(log, k).sessions
    && Introduces(After(log, k), log[k].at, log[k].event) && log[k].event.newId == sid
    && After(log, k).requests[log[k].event.request].fromAgent == a
  }

  /** On every run a session of a deleted agent is open if and only if it came after the deletion, from a
      request the agent had left pending and its target accepted all the same, and nothing has closed it
      since. */
  lemma {:induction false} DeletedMemberIff(log: seq<Entry>, n: nat, sid: Id, a: Id)
    requires n <= |log| && sid in After(log, n).sessions && Gone(After(log, n), a)
    requires a in {After(log, n).sessions[sid].agentA, After(log, n).sessions[sid].agentB}
    ensures After(log, n).sessions[sid].status != Closed <==>
            (exists k: nat :: k < n && OpensLate(log, k, sid, a)) && LastClosing(log, n, sid).None?
  {
    hide Step, OpensLate, LastClosing;
    ClosedIff(log, n, sid);
    if After(log, n).sessions[sid].status != Closed { var k := OpenedLate(log, n, sid, a); }
  }

  lemma {:induction false} OpenedLate(log: seq<Entry>, n: nat, sid: Id, a: Id) returns (k: nat)
    requires n <= |log| && sid in After(log, n).sessions && Gone(After(log, n), a)
    requires a in {After(log, n).sessions[sid].agentA, After(log, n).sessions[sid].agentB}
    requires After(log, n).sessions[sid].status != Closed
    ensures k < n && OpensLate(log, k, sid, a)
  {
    hide Step;
    var db, now, e := After(log, n - 1), log[n - 1].at, log[n - 1].event;
    GoneStep(db, now, e, a);
    if sid in db.sessions {
      SessionRows(db, now, e, sid);
      k := OpenedLate(log, n - 1, sid, a);
    } else {
      SessionOpensIff(db, now, e, sid);
      k := n - 1;
    }
  }
}
