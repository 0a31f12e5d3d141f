/** Who ends a session, and what comes of it: the monitor and the handoff window, and the closes that
    cancel the very task they run in. */
module Endings {
  import opened Basics
  import opened Rows
  import opened Handlers
  import opened Relay
  import opened RelayWorld
  import opened Delivery
  import RelayLimits

  predicate Open(w: World) { w.room.Some? && !w.room.value.closed }

  predicate InTime(log: seq<Tick>) {
    forall i, j | 0 <= i < j < |log| :: log[i].at <= log[j].at
  }

  // ---------------------------------------------------------------- when the monitor stays silent

  /** Someone other than the monitor ends the session, or the process restarts. */
  predicate Intervenes(w: World, now: Time, op: Op) {
    || op.Restart?
    || op.End?
    || (op.CapEnd? && At(w, op.w, Ending))
    || (op.Wake? && op.job in w.jobs && w.jobs[op.job].HandingOff? && Fires(w, now, op.job).Some?)
  }

  ghost predicate Undisturbed(w: World, log: seq<Tick>, m: nat, n: nat)
    requires m <= n <= |log|
  {
    forall k | m <= k < n :: !Intervenes(Run(w, log, k), log[k].at, log[k].op)
  }

  /** `now` is a moment after entry `k - 1` and before entry `k`, from `start` on and before `till`. */
  predicate Moment(log: seq<Tick>, m: nat, k: nat, n: nat, start: Time, till: Time, now: Time)
    requires m <= k <= n <= |log|
  {
    && start <= now < till && (k > m ==> log[k - 1].at <= now) && (k < n ==> now <= log[k].at)
  }

  predicate Content(w: World, now: Time) { Open(w) && MonitorVerdict(w.room.value, now).None? }

  /** Whenever the monitor wakes from `start` on and before `till`, it finds the session open and
      nothing to object to. */
  ghost predicate Spared(w: World, log: seq<Tick>, m: nat, n: nat, start: Time, till: Time)
    requires m <= n <= |log|
  {
    && Open(Run(w, log, n))
    && forall k: nat, now: Time | m <= k <= n && Moment(log, m, k, n, start, till, now) :: Content(Run(w, log, k), now)
  }

  /** When the session was last heard from: at entry `m`, then at each counted message. */
  function Heard(w: World, log: seq<Tick>, m: nat, n: nat): seq<Time>
    requires m <= n <= |log| && Run(w, log, m).room.Some?
    ensures Heard(w, log, m, n) != []
  {
    if n == m then [Run(w, log, m).room.value.lastMessageAt]
    else if Counting(Run(w, log, n - 1), log[n - 1].op).Some? then Heard(w, log, m, n - 1) + [log[n - 1].at]
    else Heard(w, log, m, n - 1)
  }

  /** Less than five minutes from each to the next, and no more than five from the last to `till`. */
  predicate Lively(times: seq<Time>, till: Time) {
    && times != [] && till - times[|times| - 1] <= INACTIVITY_WINDOW
    && forall i | 0 < i < |times| :: times[i] - times[i - 1] < INACTIVITY_WINDOW
  }

  function Last(times: seq<Time>): Time
    requires times != []
  {
    times[|times| - 1]
  }

  lemma LivelyMore(times: seq<Time>, at: Time, till: Time)
    requires times != [] && at < till
    ensures Lively(times + [at], till) <==> Lively(times, at + 1) && till - at <= INACTIVITY_WINDOW
    ensures Lively(times, till) <==> Lively(times, at + 1) && till - Last(times) <= INACTIVITY_WINDOW
  {
    var more := times + [at];
    if Lively(more, till) {
      assert more[|times|] - more[|times| - 1] < INACTIVITY_WINDOW;
      forall i | 0 < i < |times| ensures times[i] - times[i - 1] < INACTIVITY_WINDOW {
        assert more[i] - more[i - 1] < INACTIVITY_WINDOW;
      }
    }
  }

  /** One look at each moment of a stretch comes to one look at its end. */
  lemma LooksAtEnd(r: Room, till: Time)
    requires !r.closed && r.activeAt.Some?
    ensures MonitorVerdict(r, till - 1).None?
            <==> till <= r.activeAt.value + ACTIVE_WINDOW && till - r.lastMessageAt <= INACTIVITY_WINDOW
    ensures MonitorVerdict(r, till - 1).None? ==> forall now | now < till :: MonitorVerdict(r, now).None?
  {
  }

  /** A step of an open session that nobody and nothing ends. */
  lemma StepOpen(w: World, now: Time, op: Op)
    requires Sound(w) && Open(w) && w.room.value.activeAt.Some? && !Intervenes(w, now, op)
    requires MonitorVerdict(w.room.value, now).None?
    ensures Open(Do(w, now, op)) && Do(w, now, op).room.value.activeAt == w.room.value.activeAt
    ensures Do(w, now, op).room.value.lastMessageAt
            == if Counting(w, op).Some? then now else w.room.value.lastMessageAt
  {
    hide FlushOne, Route, Seat;
    match op
    case Receive(s, raw) =>
      if At(w, s, Looping) { FrameHeard(w.room.value, w.tasks[s].agent, s, raw, now); }
    case FlushStep(s) => if Flushes(w, s) { FlushQuiet(w.room.value, w.tasks[s].agent, w.tasks[s].phase.to); }
    case Join(s) => if Waits(w, s) { SeatQuiet(w.room.value, w.tasks[s].agent, s); }
    case _ =>
  }

  lemma FrameHeard(r: Room, agent: Id, s: SocketId, raw: Raw, now: Time)
    ensures var q := FrameRoom(r, agent, s, raw, now);
      q.closed == r.closed && q.activeAt == r.activeAt
      && q.lastMessageAt == if Accepts(r, raw) then now else r.lastMessageAt
  {
  }

  lemma FlushQuiet(r: Room, agent: Id, to: SocketId)
    ensures var q := FlushOne(r, agent, to);
      q.closed == r.closed && q.activeAt == r.activeAt && q.lastMessageAt == r.lastMessageAt
  {
  }

  lemma SeatQuiet(r: Room, agent: Id, s: SocketId)
    ensures var q := Seat(r, agent, s);
      q.closed == r.closed && q.activeAt == r.activeAt && q.lastMessageAt == r.lastMessageAt
  {
  }

  /** As long as it is spared the room says when the session was last heard from. */
  lemma {:induction false} HeardSoFar(w: World, log: seq<Tick>, m: nat, n: nat, start: Time, till: Time)
    requires m <= n <= |log| && Fresh(w) && InTime(log) && Undisturbed(w, log, m, n)
    requires Open(Run(w, log, m)) && Run(w, log, m).room.value.activeAt.Some?
    requires forall k | m <= k < n :: start <= log[k].at < till
    requires Spared(w, log, m, n, start, till) && start < till
    ensures Run(w, log, n).room.value.lastMessageAt == Last(Heard(w, log, m, n))
    ensures Run(w, log, n).room.value.activeAt == Run(w, log, m).room.value.activeAt
  {
    hide Do, Sound, Fires;
    if n > m {
      var at := log[n - 1].at;
      SparedBefore(w, log, m, n, start, till);
      HeardSoFar(w, log, m, n - 1, start, at + 1);
      AlwaysSound(w, log, n - 1);
      assert Moment(log, m, n - 1, n, start, till, at);
      StepOpen(Run(w, log, n - 1), at, log[n - 1].op);
    }
  }

  /** What was spared to the end was spared up to and including the last entry. */
  lemma SparedBefore(w: World, log: seq<Tick>, m: nat, n: nat, start: Time, till: Time)
    requires m < n <= |log| && InTime(log) && start <= log[n - 1].at < till
    requires Spared(w, log, m, n, start, till)
    ensures Spared(w, log, m, n - 1, start, log[n - 1].at + 1)
  {
    hide Do, MonitorVerdict;
    var at := log[n - 1].at;
    assert m < n - 1 ==> log[n - 2].at <= at;
    assert Moment(log, m, n - 1, n, start, till, at);
    forall k: nat, now: Time | m <= k <= n - 1 && Moment(log, m, k, n - 1, start, at + 1, now)
      ensures Content(Run(w, log, k), now)
    {
      assert Moment(log, m, k, n, start, till, now);
    }
  }

  /** The converse, with the last stretch put on. */
  lemma SparedAfter(w: World, log: seq<Tick>, m: nat, n: nat, start: Time, till: Time)
    requires m < n <= |log| && InTime(log) && start <= log[n - 1].at < till
    requires Spared(w, log, m, n - 1, start, log[n - 1].at + 1)
    requires Open(Run(w, log, n)) && forall now | now < till :: MonitorVerdict(Run(w, log, n).room.value, now).None?
    ensures Spared(w, log, m, n, start, till)
  {
    hide Run, MonitorVerdict;
    forall k: nat, now: Time | m <= k <= n && Moment(log, m, k, n, start, till, now)
      ensures Content(Run(w, log, k), now)
    {
      if k < n { assert Moment(log, m, k, n - 1, start, log[n - 1].at + 1, now); }
    }
  }

  /** Of any stretch of any run in which nobody else ends the session: the monitor leaves it alone, at
      whatever moments it wakes, if and only if the stretch ends within thirty minutes of activation and
      the members have not been silent for five minutes at any point of it. */
  lemma {:induction false} SparedIff(w: World, log: seq<Tick>, m: nat, n: nat, start: Time, till: Time)
    requires m <= n <= |log| && Fresh(w) && InTime(log) && Undisturbed(w, log, m, n)
    requires Open(Run(w, log, m)) && Run(w, log, m).room.value.activeAt.Some?
    requires start < till && forall k | m <= k < n :: start <= log[k].at < till
    ensures Spared(w, log, m, n, start, till) <==>
      till <= Run(w, log, m).room.value.activeAt.value + ACTIVE_WINDOW && Lively(Heard(w, log, m, n), till)
  {
    hide Do, Sound, Fires, MonitorVerdict;
    if n == m {
      SparedStill(w, log, m, start, till);
    } else {
      var at := log[n - 1].at;
      SparedIff(w, log, m, n - 1, start, at + 1);
      AlwaysSound(w, log, n - 1);
      LivelyMore(Heard(w, log, m, n - 1), at, till);
      if Spared(w, log, m, n, start, till) {
        SparedBefore(w, log, m, n, start, till);
        HeardSoFar(w, log, m, n, start, till);
        assert Moment(log, m, n, n, start, till, till - 1);
        LooksAtEnd(Run(w, log, n).room.value, till);
      }
      if Spared(w, log, m, n - 1, start, at + 1) {
        HeardSoFar(w, log, m, n - 1, start, at + 1);
        assert Moment(log, m, n - 1, n - 1, start, at + 1, at);
        StepOpen(Run(w, log, n - 1), at, log[n - 1].op);
        LooksAtEnd(Run(w, log, n).room.value, till);
        if MonitorVerdict(Run(w, log, n).room.value, till - 1).None? {
          SparedAfter(w, log, m, n, start, till);
        }
      }
    }
  }

  lemma SparedStill(w: World, log: seq<Tick>, m: nat, start: Time, till: Time)
    requires m <= |log| && Open(Run(w, log, m)) && Run(w, log, m).room.value.activeAt.Some? && start < till
    ensures Spared(w, log, m, m, start, till) <==>
      till <= Run(w, log, m).room.value.activeAt.value + ACTIVE_WINDOW && Lively(Heard(w, log, m, m), till)
  {
    hide Run, MonitorVerdict;
    LooksAtEnd(Run(w, log, m).room.value, till);
    assert Moment(log, m, m, m, start, till, till - 1);
  }

  /** Section 7.4 of PROTOCOL.md grants ten minutes after a match "regardless of the 30-minute cap".
      The monitor knows nothing of matches. On every run it spares the whole of the handoff window if
      and only if the match was confirmed within twenty minutes of activation and the members go on
      exchanging messages all through the window, never five minutes apart. A pair that falls silent
      after its match, or says no more than one thing, is never spared. */
  lemma {:induction false} HandoffSparedIff(w: World, log: seq<Tick>, m: nat, n: nat, confirmed: Time)
    requires m <= n <= |log| && Fresh(w) && InTime(log) && Undisturbed(w, log, m, n)
    requires Open(Run(w, log, m)) && Run(w, log, m).room.value.activeAt.Some?
    requires forall k | m <= k < n :: confirmed <= log[k].at < confirmed + HANDOFF_WINDOW
    ensures Spared(w, log, m, n, confirmed, confirmed + HANDOFF_WINDOW) <==>
      && confirmed <= Run(w, log, m).room.value.activeAt.value + ACTIVE_WINDOW - HANDOFF_WINDOW
      && Lively(Heard(w, log, m, n), confirmed + HANDOFF_WINDOW)
    ensures Run(w, log, m).room.value.lastMessageAt <= confirmed && |Heard(w, log, m, n)| <= 2 ==>
      !Spared(w, log, m, n, confirmed, confirmed + HANDOFF_WINDOW)
  {
    SparedIff(w, log, m, n, confirmed, confirmed + HANDOFF_WINDOW);
    HeardFirst(w, log, m, n);
  }

  lemma {:induction false} HeardFirst(w: World, log: seq<Tick>, m: nat, n: nat)
    requires m <= n <= |log| && Run(w, log, m).room.Some?
    ensures Heard(w, log, m, n)[0] == Run(w, log, m).room.value.lastMessageAt
  {
    hide Run;
    if n > m { HeardFirst(w, log, m, n - 1); }
  }

  // ---------------------------------------------------------------- which closes reach the row

  predicate OnState(w: World, job: JobId) {
    w.room.Some? && (w.room.value.monitor == Some(job) || w.room.value.handoff == Some(job))
  }

  /** Background tasks are numbered; the monitor is the state's; whatever is registered was started. */
  ghost predicate JobsSound(w: World) {
    && (forall j | j in w.jobs :: j < w.spawned)
    && (forall j | j in w.jobs && w.jobs[j].Monitoring? :: w.room.Some? && w.room.value.monitor == Some(j))
    && (w.room.Some? && w.room.value.monitor.Some? ==>
          var j := w.room.value.monitor.value; j < w.spawned && (j in w.jobs ==> w.jobs[j].Monitoring?))
    && (w.room.Some? && w.room.value.handoff.Some? ==>
          var j := w.room.value.handoff.value; j < w.spawned && (j in w.jobs ==> !w.jobs[j].Monitoring?))
    && (w.room.Some? && w.room.value.monitor.Some? ==> w.room.value.activeAt.Some?)
  }

  lemma JobsAside(w: World, v: World)
    requires JobsSound(w) && v.jobs == w.jobs && v.spawned == w.spawned && v.room.Some? == w.room.Some?
    requires w.room.Some? ==>
      && v.room.value.monitor == w.room.value.monitor && v.room.value.handoff == w.room.value.handoff
      && v.room.value.activeAt == w.room.value.activeAt
    ensures JobsSound(v)
  {
  }

  lemma JoinJobs(w: World, now: Time, s: SocketId)
    requires JobsSound(w) && Waits(w, s)
    ensures JobsSound(DoJoin(w, s, now))
  {
  }

  lemma ScheduleJobs(w: World, now: Time)
    requires JobsSound(w)
    ensures JobsSound(DoSchedule(w, now))
  {
  }

  lemma EndRegisters(r: Room, reason: CloseReason, c: Caller)
    ensures var q := EndRoom(r, reason, c);
      q.monitor == r.monitor && q.handoff == r.handoff && q.activeAt == r.activeAt
  {
  }

  lemma EndJobs(w: World, reason: CloseReason, c: Caller, now: Time)
    requires JobsSound(w)
    ensures JobsSound(DoEnd(w, reason, c, now))
  {
    hide EndRoom, CutsShort;
    if w.room.Some? { EndRegisters(w.room.value, reason, c); }
  }

  lemma ThroughJobs(w: World, job: JobId)
    requires JobsSound(w) && job in w.jobs
    ensures JobsSound(Through(w, job))
  {
  }

  /** Nothing else the relay does concerns background tasks. */
  predicate Plain(op: Op) { !(op.Join? || op.Schedule? || op.End? || op.CapEnd? || op.Wake? || op.Restart?) }

  lemma PlainStep(w: World, now: Time, op: Op)
    requires Plain(op)
    ensures var v := Do(w, now, op);
      && v.jobs == w.jobs && v.spawned == w.spawned && v.room.Some? == w.room.Some?
      && (w.room.Some? ==>
            && v.room.value.monitor == w.room.value.monitor && v.room.value.handoff == w.room.value.handoff
            && v.room.value.activeAt == w.room.value.activeAt && v.room.value.closed == w.room.value.closed)
  {
    hide Route;
    if op.Receive? && At(w, op.w, Looping) && w.room.Some? {
      FrameJobs(w.room.value, w.tasks[op.w].agent, op.w, op.raw, now);
    }
  }

  lemma FrameJobs(r: Room, agent: Id, s: SocketId, raw: Raw, now: Time)
    ensures var q := FrameRoom(r, agent, s, raw, now);
      q.monitor == r.monitor && q.handoff == r.handoff && q.activeAt == r.activeAt && q.closed == r.closed
  {
    hide Route, Stamped;
    if Accepts(r, raw) {
      RouteJobs(r.(count := r.count + 1, lastMessageAt := now), agent, s, Stamped(r, agent, raw));
    }
  }

  lemma RouteJobs(r: Room, agent: Id, s: SocketId, e: Envelope)
    ensures var q := Route(r, agent, s, e);
      q.monitor == r.monitor && q.handoff == r.handoff && q.activeAt == r.activeAt && q.closed == r.closed
  {
  }

  lemma StepJobs(w: World, now: Time, op: Op)
    requires JobsSound(w)
    ensures JobsSound(Do(w, now, op))
  {
    hide JobsSound, DoJoin, DoEnd, DoSchedule, Through, Fires;
    if Plain(op) {
      PlainStep(w, now, op);
      JobsAside(w, Do(w, now, op));
    } else {
      match op
      case Join(s) => if Waits(w, s) { JoinJobs(w, now, s); }
      case Schedule => ScheduleJobs(w, now);
      case End(reason) => EndJobs(w, reason, Foreground, now);
      case CapEnd(s) =>
        if At(w, s, Ending) && w.room.Some? {
          JobsAside(w, Moved(w, s, Looping));
          EndJobs(Moved(w, s, Looping), MessageCapReached, Foreground, now);
        }
      case Wake(job) => if job in w.jobs { WakeJobs(w, now, job); }
      case Restart => NoJobs(Do(w, now, Restart));
    }
  }

  lemma WakeJobs(w: World, now: Time, job: JobId)
    requires JobsSound(w) && job in w.jobs
    ensures JobsSound(DoWake(w, job, now))
  {
    hide JobsSound, DoEnd, Through, Fires;
    ThroughJobs(w, job);
    if Fires(w, now, job).Some? {
      EndJobs(Through(w, job), Fires(w, now, job).value, Background(job), now);
    }
  }

  lemma NoJobs(w: World)
    requires w.room.None? && w.jobs == map[]
    ensures JobsSound(w)
  {
  }

  lemma {:induction false} AlwaysJobsSound(w: World, log: seq<Tick>, n: nat)
    requires n <= |log| && Fresh(w)
    ensures JobsSound(Run(w, log, n))
  {
    hide Do, JobsSound;
    if n > 0 {
      AlwaysJobsSound(w, log, n - 1);
      StepJobs(Run(w, log, n - 1), log[n - 1].at, log[n - 1].op);
    } else {
      NoJobs(w);
    }
  }

  /** A handoff task was started by this step or was one before it; in the second case the step leaves
      its registration alone, or cancels it. */
  lemma StepHandoff(w: World, now: Time, op: Op, job: JobId)
    requires JobsSound(w) && job in Do(w, now, op).jobs && Do(w, now, op).jobs[job].HandingOff?
    ensures job == w.spawned ==> op.Schedule? && (w.room.None? <==> !OnState(Do(w, now, op), job))
    ensures job != w.spawned ==>
      && job in w.jobs && w.jobs[job].HandingOff?
      && (OnState(Do(w, now, op), job) <==> OnState(w, job))
  {
    if Plain(op) {
      PlainStep(w, now, op);
    } else {
      match op
      case Join(s) => if Waits(w, s) { JoinHandoff(w, now, s, job); }
      case Schedule => ScheduleHandoff(w, now, job);
      case End(reason) => EndHandoff(w, reason, Foreground, now, job);
      case CapEnd(s) =>
        if At(w, s, Ending) && w.room.Some? { EndHandoff(Moved(w, s, Looping), MessageCapReached, Foreground, now, job); }
      case Wake(j) => WakeHandoff(w, now, j, job);
      case Restart =>
    }
  }

  lemma JoinHandoff(w: World, now: Time, s: SocketId, job: JobId)
    requires JobsSound(w) && Waits(w, s) && job in DoJoin(w, s, now).jobs && DoJoin(w, s, now).jobs[job].HandingOff?
    ensures job in w.jobs && job < w.spawned && w.jobs[job].HandingOff?
    ensures OnState(DoJoin(w, s, now), job) <==> OnState(w, job)
  {
  }

  lemma ScheduleHandoff(w: World, now: Time, job: JobId)
    requires JobsSound(w) && job in DoSchedule(w, now).jobs && DoSchedule(w, now).jobs[job].HandingOff?
    ensures job == w.spawned ==> (w.room.None? <==> !OnState(DoSchedule(w, now), job))
    ensures job != w.spawned ==>
      job in w.jobs && w.jobs[job].HandingOff? && (OnState(DoSchedule(w, now), job) <==> OnState(w, job))
  {
  }

  lemma EndHandoff(w: World, reason: CloseReason, c: Caller, now: Time, job: JobId)
    requires forall j | j in w.jobs :: j < w.spawned
    requires job in DoEnd(w, reason, c, now).jobs && DoEnd(w, reason, c, now).jobs[job].HandingOff?
    ensures job in w.jobs && job < w.spawned && w.jobs[job].HandingOff?
    ensures OnState(DoEnd(w, reason, c, now), job) <==> OnState(w, job)
  {
    hide EndRoom, CutsShort;
    if w.room.Some? { EndRegisters(w.room.value, reason, c); }
  }

  lemma WakeHandoff(w: World, now: Time, j: JobId, job: JobId)
    requires JobsSound(w) && job in DoWake(w, j, now).jobs && DoWake(w, j, now).jobs[job].HandingOff?
    ensures job in w.jobs && job < w.spawned && w.jobs[job].HandingOff?
    ensures OnState(DoWake(w, j, now), job) <==> OnState(w, job)
  {
    hide DoEnd, Fires;
    if j in w.jobs && Fires(w, now, j).Some? {
      EndHandoff(Through(w, j), Fires(w, now, j).value, Background(j), now, job);
    }
  }

  /** Every handoff task that may still act was scheduled at some entry, and it is registered on the
      state exactly if there was a state then. */
  lemma {:induction false} HandoffTraced(w: World, log: seq<Tick>, n: nat, job: JobId) returns (i: nat)
    requires n <= |log| && Fresh(w) && job in Run(w, log, n).jobs && Run(w, log, n).jobs[job].HandingOff?
    ensures i < n && log[i].op.Schedule? && Run(w, log, i).spawned == job
    ensures Run(w, log, i).room.None? <==> !OnState(Run(w, log, n), job)
  {
    hide Do, JobsSound, OnState;
    AlwaysJobsSound(w, log, n - 1);
    StepHandoff(Run(w, log, n - 1), log[n - 1].at, log[n - 1].op, job);
    if job == Run(w, log, n - 1).spawned {
      i := n - 1;
    } else {
      i := HandoffTraced(w, log, n - 1, job);
    }
  }

  lemma SpawnStep(w: World, now: Time, op: Op)
    ensures w.spawned <= Do(w, now, op).spawned
    ensures op.Schedule? ==> w.spawned < Do(w, now, op).spawned
  {
    if Plain(op) { PlainStep(w, now, op); }
  }

  lemma {:induction false} SpawnedGrows(w: World, log: seq<Tick>, i: nat, n: nat)
    requires i <= n <= |log|
    ensures Run(w, log, i).spawned <= Run(w, log, n).spawned
    ensures i < n && log[i].op.Schedule? ==> Run(w, log, i).spawned < Run(w, log, n).spawned
  {
    hide Do;
    if i < n {
      SpawnedGrows(w, log, i, n - 1);
      SpawnStep(Run(w, log, n - 1), log[n - 1].at, log[n - 1].op);
    }
  }

  /** `schedule_handoff_close` at entry `i` started task `job` in a process that had no state for the
      session, so that the task went into `_handoff_tasks` and not onto a state. */
  ghost predicate ScheduledLoose(w: World, log: seq<Tick>, i: nat, job: JobId) {
    i < |log| && log[i].op.Schedule? && Run(w, log, i).spawned == job && Run(w, log, i).room.None?
  }

  /** Entry `n` is a call of `end_session` by a request or websocket handler, or by a handoff task that
      was scheduled when the process had no state for the session. */
  ghost predicate CallerSurvives(w: World, log: seq<Tick>, n: nat)
    requires n < |log|
  {
    || log[n].op.End?
    || log[n].op.CapEnd?
    || (log[n].op.Wake? && log[n].op.job in Run(w, log, n).jobs && Run(w, log, n).jobs[log[n].op.job].HandingOff?
        && exists i: nat :: i < n && ScheduledLoose(w, log, i, log[n].op.job))
  }

  predicate Halted(w: World) { w.room.Some? && w.room.value.closed && w.row.status != Closed }

  lemma {:induction false} LooseIff(w: World, log: seq<Tick>, n: nat, job: JobId)
    requires n <= |log| && Fresh(w) && job in Run(w, log, n).jobs && Run(w, log, n).jobs[job].HandingOff?
    ensures (exists i: nat :: i < n && ScheduledLoose(w, log, i, job)) <==> !OnState(Run(w, log, n), job)
  {
    hide Do, OnState;
    var i := HandoffTraced(w, log, n, job);
    assert Run(w, log, i).room.None? ==> ScheduledLoose(w, log, i, job);
    forall k: nat | k < n && ScheduledLoose(w, log, k, job) ensures k == i {
      if k < i { SpawnedGrows(w, log, k, i); }
      if i < k { SpawnedGrows(w, log, i, k); }
    }
  }

  lemma StepCloses(w: World, now: Time, op: Op)
    requires Open(w) && w.row.status != Closed && JobsSound(w) && !Open(Do(w, now, op)) && !op.Restart?
    ensures Do(w, now, op).room.Some? && Do(w, now, op).room.value.closed
    ensures op.End? || op.CapEnd? || (op.Wake? && op.job in w.jobs && !w.jobs[op.job].Unwinding?)
    ensures Do(w, now, op).row.status == Closed <==>
      op.End? || op.CapEnd? || (op.Wake? && w.jobs[op.job].HandingOff? && !OnState(w, op.job))
  {
    hide JoinRoom;
    if Plain(op) {
      PlainStep(w, now, op);
    } else if op.Join? && Waits(w, op.w) {
      JoinOpen(w.room.value, w.tasks[op.w].agent, op.w, now, w.spawned);
    }
  }

  lemma JoinOpen(r: Room, agent: Id, s: SocketId, now: Time, job: JobId)
    ensures JoinRoom(r, agent, s, now, job).closed == r.closed
  {
  }

  /** On every run, whatever was scheduled, cancelled, joined and restarted before: the entry that ends
      an open session of this process closes its row if and only if its caller is a handler, or a
      handoff task scheduled while the process had no state for the session. The monitor's closes and
      all other handoff tasks' cancel their own caller: memory says closed, the row stays open. */
  lemma {:induction false} CloseReachesRowIff(w: World, log: seq<Tick>, n: nat)
    requires n < |log| && Fresh(w) && !log[n].op.Restart?
    requires Open(Run(w, log, n)) && !Open(Run(w, log, n + 1)) && Run(w, log, n).row.status != Closed
    ensures Run(w, log, n + 1).row.status == Closed <==> CallerSurvives(w, log, n)
    ensures Halted(Run(w, log, n + 1)) <==> !CallerSurvives(w, log, n)
  {
    hide Do, JobsSound, OnState, ScheduledLoose;
    var v, op := Run(w, log, n), log[n].op;
    AlwaysJobsSound(w, log, n);
    StepCloses(v, log[n].at, op);
    if op.Wake? && v.jobs[op.job].HandingOff? { LooseIff(w, log, n, op.job); }
  }

  lemma StepHalted(w: World, now: Time, op: Op)
    requires Halted(w) && !op.Restart? && !op.Outside?
    ensures Halted(Do(w, now, op))
  {
    hide Route;
    if op.Receive? && At(w, op.w, Looping) {
      FrameJobs(w.room.value, w.tasks[op.w].agent, op.w, op.raw, now);
    }
  }

  /** A close cut short is never made good by the process it happened in, whoever calls
      `end_session` again: until a restart the row can only be closed by somebody else, which is what
      `run_maintenance` is there for. */
  lemma {:induction false} CutShortStaysOpen(w: World, log: seq<Tick>, m: nat, n: nat)
    requires m <= n <= |log| && Halted(Run(w, log, m))
    requires forall k | m <= k < n :: !log[k].op.Restart? && !log[k].op.Outside?
    ensures Halted(Run(w, log, n))
  {
    hide Do, Halted;
    if m < n {
      CutShortStaysOpen(w, log, m, n - 1);
      StepHalted(Run(w, log, n - 1), log[n - 1].at, log[n - 1].op);
    }
  }

  // ---------------------------------------------------------------- a handoff cut short

  /** Both members connect and are matched after one minute; they say nothing, and at six the monitor
      looks. */
  function Silence(w: World): seq<Tick> {
    var row := ActivatedRow(w.row, 0);
    var proposed := row.(status := MatchProposed, proposedBy := Some(row.agentA), proposedAt := Some(MINUTE));
    [Tick(0, Hello(0, row.agentA, true)), Tick(0, Hello(1, row.agentB, true)), Tick(0, Join(0)), Tick(0, Join(1)),
     Tick(MINUTE, Outside(proposed)),
     Tick(MINUTE, Outside(proposed.(status := MatchConfirmed, confirmedAt := Some(MINUTE),
                                    expiresAt := MINUTE + HANDOFF_WINDOW))),
     Tick(MINUTE, Schedule), Tick(6 * MINUTE, Wake(w.spawned))]
  }

  /** Active since time 0, silent since, watched by monitor `job`. */
  predicate Watched(w: World, job: JobId) {
    && Open(w) && w.room.value.activeAt == Some(0) && w.room.value.lastMessageAt == 0
    && w.room.value.monitor == Some(job) && job in w.jobs && w.jobs[job].Monitoring? && w.loose.None?
    && w.room.value.handoff.None? && job < w.spawned
  }

  lemma BothJoin(w: World, v: World)
    requires Fresh(w)
    requires v == w.(tasks := map[0 := Task(w.row.agentA, Authed(0)), 1 := Task(w.row.agentB, Authed(0))])
    ensures var u := Do(Do(v, 0, Join(0)), 0, Join(1)); Watched(u, w.spawned) && u.row == ActivatedRow(w.row, 0)
  {
    var u := Do(v, 0, Join(0));
    assert u == DoJoin(v, 0, 0);
    assert Do(u, 0, Join(1)) == DoJoin(u, 1, 0);
  }

  lemma MatchedThenCut(u: World, w: World)
    requires Watched(u, w.spawned) && u.row == ActivatedRow(w.row, 0) && w.row.status == AwaitingJoin
    ensures var log := Silence(w);
            var matched := Do(Do(Do(u, MINUTE, log[4].op), MINUTE, log[5].op), MINUTE, Schedule);
            var cut := Do(matched, 6 * MINUTE, Wake(w.spawned));
      && Open(matched) && matched.row.status == MatchConfirmed && matched.row.confirmedAt == Some(MINUTE)
      && Halted(cut) && cut.row == matched.row
  {
  }

  /** It happens: on this run, from any fresh session, the monitor ends a session five minutes into a
      handoff window of ten. Memory says closed, and the row still says `match_confirmed`. */
  lemma {:induction false} HandoffCutShort(w: World)
    requires Fresh(w)
    ensures var log := Silence(w);
      && |log| == 8 && InTime(log)
      && Open(Run(w, log, 7)) && Run(w, log, 7).row.status == MatchConfirmed
      && Run(w, log, 7).row.confirmedAt == Some(MINUTE) && log[7].at < MINUTE + HANDOFF_WINDOW
      && Halted(Run(w, log, 8)) && Run(w, log, 8).row == Run(w, log, 7).row
  {
    hide Do, Watched, Halted, Open, Sound;
    var log := Silence(w);
    assert Run(w, log, 0) == w;
    RelayLimits.Next(w, log, 0); RelayLimits.Next(w, log, 1); RelayLimits.Next(w, log, 2); RelayLimits.Next(w, log, 3);
    RelayLimits.Next(w, log, 4); RelayLimits.Next(w, log, 5); RelayLimits.Next(w, log, 6); RelayLimits.Next(w, log, 7);
    AlwaysSound(w, log, 0);
    hide Run;
    RelayLimits.Arrive(w);
    BothJoin(w, Run(w, log, 2));
    MatchedThenCut(Run(w, log, 4), w);
  }

  // ---------------------------------------------------------------- what the gauge counts

  predicate ClosedNow(w: World) { w.room.Some? && w.room.value.closed }

  /** A join that finds or makes both seats taken, in a state not yet activated. */
  predicate Activation(w: World, now: Time, op: Op) {
    op.Join? && Waits(w, op.w) && Activates(RoomFor(w, op.w, now), w.tasks[op.w].agent, op.w)
  }

  predicate OnGauge(w: World) { w.room.Some? && w.room.value.counted }

  predicate WasActivated(w: World) { w.room.Some? && w.room.value.activeAt.Some? }

  lemma ActivationStep(w: World, now: Time, op: Op)
    requires Activation(w, now, op)
    ensures var v := Do(w, now, op);
      && WasActivated(v) && v.room.value.activeAt == Some(now) && OnGauge(v) && (ClosedNow(v) <==> ClosedNow(w))
  {
  }

  lemma OtherStep(w: World, now: Time, op: Op)
    requires !Activation(w, now, op) && !op.Restart? && WasActivated(Do(w, now, op))
    ensures var v := Do(w, now, op);
      && WasActivated(w) && v.room.value.activeAt == w.room.value.activeAt
      && (Open(v) ==> Open(w) && (OnGauge(v) <==> OnGauge(w)))
      && (ClosedNow(v) ==> (OnGauge(v) <==> OnGauge(w) && ClosedNow(w)))
      && (ClosedNow(w) ==> ClosedNow(v))
  {
    hide MonitorVerdict, FrameRoom, FlushOne;
    match op
    case Receive(s, raw) =>
      if At(w, s, Looping) && w.room.Some? { FrameCounted(w.room.value, w.tasks[s].agent, s, raw, now); }
    case FlushStep(s) =>
      if Flushes(w, s) && w.room.Some? { FlushCounted(w.room.value, w.tasks[s].agent, w.tasks[s].phase.to); }
    case _ =>
  }

  lemma FrameCounted(r: Room, agent: Id, s: SocketId, raw: Raw, now: Time)
    ensures var q := FrameRoom(r, agent, s, raw, now);
      q.counted == r.counted && q.closed == r.closed && q.activeAt == r.activeAt
  {
  }

  lemma FlushCounted(r: Room, agent: Id, to: SocketId)
    ensures var q := FlushOne(r, agent, to);
      q.counted == r.counted && q.closed == r.closed && q.activeAt == r.activeAt
  {
  }

  /** On every run an activated state was activated by one entry of its process, and it counts towards
      the gauge if and only if it is open, or had been closed before that entry. */
  lemma {:induction false} CountedIff(w: World, log: seq<Tick>, n: nat) returns (k: nat)
    requires n <= |log| && Fresh(w) && WasActivated(Run(w, log, n))
    ensures k < n && Activation(Run(w, log, k), log[k].at, log[k].op)
    ensures forall j | k < j < n :: !log[j].op.Restart? && !Activation(Run(w, log, j), log[j].at, log[j].op)
    ensures Run(w, log, n).room.value.activeAt == Some(log[k].at)
    ensures ClosedNow(Run(w, log, k)) ==> ClosedNow(Run(w, log, n))
    ensures OnGauge(Run(w, log, n)) <==> Open(Run(w, log, n)) || ClosedNow(Run(w, log, k))
  {
    hide Do, Activation;
    var v, at, op := Run(w, log, n - 1), log[n - 1].at, log[n - 1].op;
    if op.Restart? {
      Restarted(v, at);
    } else if Activation(v, at, op) {
      k := n - 1;
      ActivationStep(v, at, op);
    } else {
      OtherStep(v, at, op);
      k := CountedIff(w, log, n - 1);
    }
  }

  /** The first member connects and the session is ended; then both, let in before that, join. */
  function Latecomers(w: World): seq<Tick> {
    [Tick(0, Hello(0, w.row.agentA, true)), Tick(0, Hello(1, w.row.agentB, true)), Tick(0, Hello(2, w.row.agentA, true)),
     Tick(0, Join(0)), Tick(0, End(EndedByAgent)), Tick(0, Join(1)), Tick(0, Join(2))]
  }

  lemma ThreeArrive(w: World)
    requires Fresh(w)
    ensures Do(Do(Do(w, 0, Hello(0, w.row.agentA, true)), 0, Hello(1, w.row.agentB, true)), 0, Hello(2, w.row.agentA, true))
            == w.(tasks := map[0 := Task(w.row.agentA, Authed(0)), 1 := Task(w.row.agentB, Authed(0)),
                               2 := Task(w.row.agentA, Authed(0))])
  {
  }

  lemma EndedEarly(w: World, v: World)
    requires Fresh(w)
    requires v == w.(tasks := map[0 := Task(w.row.agentA, Authed(0)), 1 := Task(w.row.agentB, Authed(0)),
                                  2 := Task(w.row.agentA, Authed(0))])
    ensures var u := Do(Do(v, 0, Join(0)), 0, End(EndedByAgent));
      && ClosedNow(u) && u.room.value.sockets == map[] && u.room.value.activeAt.None?
      && u.room.value.a == w.row.agentA && u.room.value.b == w.row.agentB
      && u.tasks.Keys == {0, 1, 2}
      && u.tasks[1] == Task(w.row.agentB, Authed(0)) && u.tasks[2] == Task(w.row.agentA, Authed(0))
  {
    assert Do(v, 0, Join(0)) == DoJoin(v, 0, 0);
  }

  lemma SecondJoinsLate(u: World)
    requires ClosedNow(u) && u.room.value.sockets == map[] && u.room.value.activeAt.None?
    requires u.room.value.a != u.room.value.b && 1 in u.tasks && u.tasks[1] == Task(u.room.value.b, Authed(0))
    ensures var v := Do(u, 0, Join(1));
      && ClosedNow(v) && v.room.value.activeAt.None? && v.room.value.sockets == map[u.room.value.b := 1]
      && v.room.value.a == u.room.value.a && v.room.value.b == u.room.value.b
      && v.tasks.Keys == u.tasks.Keys && (forall x | x in u.tasks && x != 1 :: v.tasks[x] == u.tasks[x])
  {
    assert Do(u, 0, Join(1)) == DoJoin(u, 1, 0);
  }

  lemma FirstJoinsLate(v: World)
    requires ClosedNow(v) && v.room.value.activeAt.None? && v.room.value.b in v.room.value.sockets
    requires 2 in v.tasks && v.tasks[2] == Task(v.room.value.a, Authed(0))
    ensures ClosedNow(Do(v, 0, Join(2))) && OnGauge(Do(v, 0, Join(2)))
  {
    assert Do(v, 0, Join(2)) == DoJoin(v, 2, 0);
  }

  lemma JoinedLate(u: World)
    requires ClosedNow(u) && u.room.value.sockets == map[] && u.room.value.activeAt.None?
    requires u.tasks.Keys == {0, 1, 2} && u.room.value.a != u.room.value.b
    requires u.tasks[1] == Task(u.room.value.b, Authed(0)) && u.tasks[2] == Task(u.room.value.a, Authed(0))
    ensures var last := Do(Do(u, 0, Join(1)), 0, Join(2)); ClosedNow(last) && OnGauge(last)
  {
    hide Do;
    SecondJoinsLate(u);
    FirstJoinsLate(Do(u, 0, Join(1)));
  }

  /** So the gauge is not the number of open active sessions: on this run, from any fresh session, a
      closed one is counted, and no later close of it changes that. */
  lemma {:induction false} ClosedAndCounted(w: World)
    requires Fresh(w)
    ensures var log := Latecomers(w);
      && |log| == 7 && ClosedNow(Run(w, log, 7)) && OnGauge(Run(w, log, 7))
      && forall now, reason, c :: OnGauge(DoEnd(Run(w, log, 7), reason, c, now))
  {
    hide Do;
    var log := Latecomers(w);
    assert Run(w, log, 0) == w;
    RelayLimits.Next(w, log, 0); RelayLimits.Next(w, log, 1); RelayLimits.Next(w, log, 2); RelayLimits.Next(w, log, 3);
    RelayLimits.Next(w, log, 4); RelayLimits.Next(w, log, 5); RelayLimits.Next(w, log, 6);
    hide Run;
    ThreeArrive(w);
    EndedEarly(w, Run(w, log, 3));
    JoinedLate(Run(w, log, 5));
  }
}
