/** The life of a session row on any run: the shape each status fixes (`models.py`), who agreed to
    a match (`matches.py`), and how long a row can stay open (`jobs.py`). */
module Lifecycle {
  import opened Basics
  import opened Rows
  import opened Maintenance
  import opened Handlers
  import opened Moves
  import opened Correspondence

  // ---------------------------------------------------------------- shape

  /** What the status column says about the other columns, `expires_at` above all. */
  predicate Shaped(r: Session, now: Time) {
    && r.agentA != r.agentB
    && r.createdAt <= now
    && (r.proposedBy.Some? <==> r.proposedAt.Some?)
    && (r.proposedBy.Some? ==> r.HasMember(r.proposedBy.value))
    && (r.activeAt.Some? ==> r.createdAt <= r.activeAt.value <= now)
    && (r.confirmedAt.Some? ==> r.activeAt.Some? && r.activeAt.value <= r.confirmedAt.value <= now)
    && (r.confirmedAt.Some? ==> r.proposedBy.Some?)
    && (r.status == Closed <==> r.closedAt.Some?)
    && (r.status == Closed <==> r.closeReason.Some?)
    && match r.status
       case AwaitingJoin =>
         r.activeAt.None? && r.proposedBy.None? && r.confirmedAt.None? && r.expiresAt == r.createdAt + REQUEST_TTL
       case Active =>
         r.activeAt.Some? && r.proposedBy.None? && r.confirmedAt.None? && r.expiresAt == r.activeAt.value + ACTIVE_WINDOW
       case MatchProposed =>
         r.activeAt.Some? && r.proposedBy.Some? && r.confirmedAt.None? && r.expiresAt == r.activeAt.value + ACTIVE_WINDOW
       case MatchConfirmed =>
         r.confirmedAt.Some? && r.expiresAt == r.confirmedAt.value + HANDOFF_WINDOW
       case Closed => r.closedAt.Some? && r.createdAt <= r.closedAt.value <= now
  }

  /** Set once, kept for good; closed is never left; the parties never change. */
  predicate Continues(r: Session, q: Session) {
    && q.agentA == r.agentA && q.agentB == r.agentB && q.requestId == r.requestId && q.createdAt == r.createdAt
    && (r.activeAt.Some? ==> q.activeAt == r.activeAt)
    && (r.confirmedAt.Some? ==> q.confirmedAt == r.confirmedAt)
    && (r.status == Closed ==> q.status == Closed)
    && (r.status == MatchConfirmed ==> q.status == MatchConfirmed || q.status == Closed)
    && (r.confirmedAt.Some? ==> q.proposedBy == r.proposedBy)
  }

  lemma MovesKeepShape(r: Session, q: Session, last: Time, now: Time, e: Event, sid: Id)
    requires last <= now && Shaped(r, last) && RowMoves(r, q, now, e, sid)
    ensures Shaped(q, now) && Continues(r, q)
  {
  }

  ghost predicate AllShaped(db: Db, now: Time) {
    forall s | s in db.sessions :: Shaped(db.sessions[s], now)
  }

  /** Every session row of every run has the shape of its status. */
  lemma {:induction false} AlwaysShaped(log: seq<Entry>, n: nat, start: Time)
    requires n <= |log| && Clocked(log)
    ensures AllShaped(After(log, n), Latest(log, n, start))
  {
    hide Step;
    if n > 0 {
      AlwaysShaped(log, n - 1, start);
      AlwaysLinked(log, n - 1);
      var db, now, e := After(log, n - 1), log[n - 1].at, log[n - 1].event;
      forall s | s in Step(db, now, e).sessions ensures Shaped(Step(db, now, e).sessions[s], now) {
        if s in db.sessions {
          StepMoves(db, now, e, s);
          MovesKeepShape(db.sessions[s], Step(db, now, e).sessions[s], Latest(log, n - 1, now), now, e, s);
        } else {
          StepCreates(db, now, e, s);
          assert RequestLinked(db, db.requests[e.request]);
        }
      }
    }
  }

  /** Between any two moments of a run a session row only ever continues: `active_at` and
      `match_confirmed_at` are written at most once and a closed row stays closed. */
  lemma {:induction false} RowsContinue(log: seq<Entry>, m: nat, n: nat, sid: Id)
    requires m <= n <= |log| && Clocked(log) && sid in After(log, m).sessions
    ensures sid in After(log, n).sessions
    ensures Continues(After(log, m).sessions[sid], After(log, n).sessions[sid])
  {
    hide Step;
    if m < n {
      RowsContinue(log, m, n - 1, sid);
      AlwaysShaped(log, n - 1, log[n - 1].at);
      var db, now, e := After(log, n - 1), log[n - 1].at, log[n - 1].event;
      StepMoves(db, now, e, sid);
      MovesKeepShape(db.sessions[sid], Step(db, now, e).sessions[sid], Latest(log, n - 1, now), now, e, sid);
    }
  }

  // ---------------------------------------------------------------- mutual consent

  /** The proposal standing at moment `n` was made at entry `i` and has stood ever since. */
  ghost predicate ProposalStands(log: seq<Entry>, i: nat, n: nat, sid: Id, p: Id)
    requires n <= |log|
  {
    && i < n
    && log[i].event == DoProposeMatch(p, sid)
    && MayMutate(After(log, i), p)
    && sid in After(log, i).sessions && After(log, i).sessions[sid].status == Active
    && forall k | i < k <= n ::
         && sid in After(log, k).sessions
         && After(log, k).sessions[sid].status == MatchProposed
         && After(log, k).sessions[sid].proposedBy == Some(p)
  }

  /** `p` proposed at entry `i`, that proposal stood until `q` accepted it at entry `j`. */
  ghost predicate Consented(log: seq<Entry>, i: nat, j: nat, sid: Id, p: Id, q: Id) {
    && i < j < |log|
    && ProposalStands(log, i, j, sid, p)
    && log[j].event == DoAcceptMatch(q, sid)
    && MayMutate(After(log, j), q)
    && p != q
  }

  /** In every run, however many rounds of proposals were rejected before, a proposed row has a
      standing proposal by the member it names, ... */
  lemma {:induction false} StandingProposal(log: seq<Entry>, n: nat, sid: Id) returns (i: nat)
    requires n <= |log| && Clocked(log) && sid in After(log, n).sessions
    requires After(log, n).sessions[sid].status == MatchProposed
    ensures After(log, n).sessions[sid].proposedBy.Some?
    ensures ProposalStands(log, i, n, sid, After(log, n).sessions[sid].proposedBy.value)
  {
    hide Step;
    AlwaysShaped(log, n, 0);
    var db, now, e := After(log, n - 1), log[n - 1].at, log[n - 1].event;
    if sid !in db.sessions {
      StepCreates(db, now, e, sid);
    } else {
      StepMoves(db, now, e, sid);
      if db.sessions[sid].status == MatchProposed {
        i := StandingProposal(log, n - 1, sid);
      } else {
        i := n - 1;
        CallerMayMutate(db, now, e, sid);
      }
    }
  }

  lemma CallerMayMutate(db: Db, now: Time, e: Event, sid: Id)
    requires sid in db.sessions && sid in Step(db, now, e).sessions
    requires e.DoProposeMatch? || e.DoAcceptMatch?
    requires db.sessions[sid].status != Step(db, now, e).sessions[sid].status
    ensures MayMutate(db, e.caller)
  {
  }

  /** ... and a confirmed row has two different members' word for it: one proposed, the other
      accepted that very proposal, and nothing came between. */
  lemma {:induction false} MutualConsent(log: seq<Entry>, n: nat, sid: Id) returns (i: nat, j: nat, p: Id, q: Id)
    requires n <= |log| && Clocked(log) && sid in After(log, n).sessions
    requires After(log, n).sessions[sid].status == MatchConfirmed
    ensures j < n && Consented(log, i, j, sid, p, q)
    ensures {p, q} == {After(log, n).sessions[sid].agentA, After(log, n).sessions[sid].agentB}
    ensures After(log, n).sessions[sid].proposedBy == Some(p)
    ensures forall k | j < k <= n ::
      sid in After(log, k).sessions && After(log, k).sessions[sid].status == MatchConfirmed
  {
    hide Step, ProposalStands, MayMutate;
    AlwaysShaped(log, n, 0);
    var db, now, e := After(log, n - 1), log[n - 1].at, log[n - 1].event;
    if sid in db.sessions && db.sessions[sid].status == MatchConfirmed {
      StepMoves(db, now, e, sid);
      i, j, p, q := MutualConsent(log, n - 1, sid);
    } else {
      i, p, q := JustConfirmed(log, n, sid);
      j := n - 1;
    }
  }

  /** The moment of confirmation. */
  lemma JustConfirmed(log: seq<Entry>, n: nat, sid: Id) returns (i: nat, p: Id, q: Id)
    requires 0 < n <= |log| && Clocked(log) && sid in After(log, n).sessions
    requires After(log, n).sessions[sid].status == MatchConfirmed
    requires sid in After(log, n - 1).sessions ==> After(log, n - 1).sessions[sid].status != MatchConfirmed
    ensures Consented(log, i, n - 1, sid, p, q)
    ensures {p, q} == {After(log, n).sessions[sid].agentA, After(log, n).sessions[sid].agentB}
    ensures After(log, n).sessions[sid].proposedBy == Some(p)
  {
    hide Step, ProposalStands, MayMutate;
    AlwaysShaped(log, n - 1, 0);
    var db, now, e := After(log, n - 1), log[n - 1].at, log[n - 1].event;
    if sid !in db.sessions {
      StepCreates(db, now, e, sid);
    } else {
      StepMoves(db, now, e, sid);
      i := StandingProposal(log, n - 1, sid);
      p, q := db.sessions[sid].proposedBy.value, e.caller;
      CallerMayMutate(db, now, e, sid);
      ProposalPrecedes(log, i, n - 1, sid, p);
    }
  }

  lemma ProposalPrecedes(log: seq<Entry>, i: nat, n: nat, sid: Id, p: Id)
    requires n <= |log| && ProposalStands(log, i, n, sid, p)
    ensures i < n
  {
  }

  // ---------------------------------------------------------------- lifetime

  /** When maintenance last ran before entry `n`, counting the start of the log as a run. */
  function LastRun(log: seq<Entry>, n: nat, start: Time): Time
    requires n <= |log|
  {
    if n == 0 then start
    else if log[n - 1].event.DoMaintenance? then log[n - 1].at
    else LastRun(log, n - 1, start)
  }

  /** Maintenance runs at most `period` apart: nothing happens later than that after the last run. */
  ghost predicate Punctual(log: seq<Entry>, start: Time, period: Time) {
    && (|log| > 0 ==> start <= log[0].at)
    && forall n | 0 <= n < |log| :: log[n].at <= LastRun(log, n, start) + period
  }

  /** No deadline of an open row had passed when maintenance last ran, and each deadline was set
      before the one before it had been missed by a whole period. */
  predicate OnTime(r: Session, run: Time, period: Time) {
    r.status != Closed ==>
      && run < r.expiresAt
      && (r.activeAt.Some? ==> r.activeAt.value < r.createdAt + REQUEST_TTL + period)
      && (r.confirmedAt.Some? ==>
            && r.activeAt.Some?
            && r.confirmedAt.value < r.activeAt.value + ACTIVE_WINDOW + period)
  }

  lemma MovesKeepTime(r: Session, q: Session, run: Time, last: Time, now: Time, e: Event, sid: Id, period: Time)
    requires Shaped(r, last) && OnTime(r, run, period) && RowMoves(r, q, now, e, sid)
    requires run <= now <= run + period
    ensures OnTime(q, run, period)
  {
  }

  ghost predicate AllOnTime(db: Db, run: Time, period: Time) {
    forall s | s in db.sessions :: OnTime(db.sessions[s], run, period)
  }

  lemma {:induction false} LastRunBounded(log: seq<Entry>, n: nat, start: Time)
    requires n <= |log| && Clocked(log) && (|log| > 0 ==> start <= log[0].at)
    ensures start <= LastRun(log, n, start) <= Latest(log, n, start)
    ensures n < |log| ==> LastRun(log, n, start) <= log[n].at
  {
    if n > 0 { LastRunBounded(log, n - 1, start); }
  }

  lemma RunSettles(db: Db, now: Time, s: Id)
    requires s in db.sessions
    ensures s in Step(db, now, DoMaintenance).sessions
    ensures Step(db, now, DoMaintenance).sessions[s] == SessionAt(db.sessions[s], now)
  {
  }

  lemma {:induction false} AlwaysOnTime(log: seq<Entry>, n: nat, start: Time, period: Time)
    requires n <= |log| && Clocked(log) && Punctual(log, start, period)
    ensures AllOnTime(After(log, n), LastRun(log, n, start), period)
  {
    hide Step;
    if n > 0 {
      AlwaysOnTime(log, n - 1, start, period);
      AlwaysShaped(log, n - 1, start);
      LastRunBounded(log, n - 1, start);
      var db, now, e := After(log, n - 1), log[n - 1].at, log[n - 1].event;
      var run := LastRun(log, n - 1, start);
      forall s | s in Step(db, now, e).sessions
        ensures OnTime(Step(db, now, e).sessions[s], LastRun(log, n, start), period)
      {
        if s in db.sessions {
          StepMoves(db, now, e, s);
          RunSettles(db, now, s);
          MovesKeepTime(db.sessions[s], Step(db, now, e).sessions[s], run, Latest(log, n - 1, start), now, e, s, period);
        } else {
          StepCreates(db, now, e, s);
        }
      }
    }
  }

  /** The longest a session can be open when maintenance runs every `period`: it can miss each of
      its three deadlines by less than one period. */
  function Lifetime(period: Time): Time {
    REQUEST_TTL + ACTIVE_WINDOW + HANDOFF_WINDOW + 3 * period
  }

  /** On every run with punctual maintenance, whatever members, relays and restarts do, a session
      row still open at time `now` is younger than that, and its phase bounds it further. */
  lemma LifetimeBound(log: seq<Entry>, start: Time, period: Time, now: Time, sid: Id)
    requires Clocked(log) && Punctual(log, start, period)
    requires Latest(log, |log|, start) <= now <= LastRun(log, |log|, start) + period
    requires sid in After(log, |log|).sessions && After(log, |log|).sessions[sid].status != Closed
    ensures var r := After(log, |log|).sessions[sid];
      && now < r.createdAt + Lifetime(period)
      && now < r.expiresAt + period
      && (r.status == AwaitingJoin ==> now < r.createdAt + REQUEST_TTL + period)
      && (r.confirmedAt.None? ==> now < r.createdAt + REQUEST_TTL + ACTIVE_WINDOW + 2 * period)
  {
    AlwaysOnTime(log, |log|, start, period);
    AlwaysShaped(log, |log|, start);
    assert OnTime(After(log, |log|).sessions[sid], LastRun(log, |log|, start), period);
  }
}
