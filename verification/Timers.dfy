/** The background tasks of a session on any run, told from the log alone: when a task is started, what it
    does when it wakes, and what puts an end to it. */
module Timers {
  import opened Basics
  import opened Rows
  import opened Relay
  import opened RelayWorld
  import opened Endings
  import opened Frames

  /** The entry ends the open session of this process. */
  predicate EndsOpen(w: World, now: Time, op: Op) { Open(w) && !op.Restart? && !Open(Do(w, now, op)) }

  // ---------------------------------------------------------------- handoff tasks

  predicate IsHandoff(w: World, job: JobId, due: Time) { job in w.jobs && w.jobs[job] == HandingOff(due) }

  /** `schedule_handoff_close` starts task `job`, due ten minutes from now. */
  predicate Schedules(w: World, now: Time, op: Op, job: JobId, due: Time) {
    op.Schedule? && w.spawned == job && due == now + 10 * MINUTE
  }

  /** What puts an end to handoff task `job`: a restart; its own waking when it is due; a later schedule that
      finds it registered where the new task goes; the end of the session, if it is registered on the state. */
  predicate Drops(w: World, now: Time, op: Op, job: JobId, due: Time) {
    || op.Restart?
    || (op == Wake(job) && due <= now)
    || (op.Schedule? && if w.room.None? then w.loose == Some(job) else w.room.value.handoff == Some(job))
    || (EndsOpen(w, now, op) && w.room.value.handoff == Some(job))
  }

  lemma EndDrops(w: World, reason: CloseReason, c: Caller, now: Time, job: JobId, due: Time)
    requires w.room.Some? && IsHandoff(w, job, due) ==> w.room.value.monitor != Some(job)
    ensures var v := DoEnd(w, reason, c, now);
      && !Open(v)
      && (IsHandoff(v, job, due) <==> IsHandoff(w, job, due) && !(Open(w) && w.room.value.handoff == Some(job)))
  {
    hide Dismissed, CutsShort;
    if w.room.Some? { DismissedKeeps(w.room.value.(closed := true, counted := false), reason); }
  }

  lemma JoinStays(w: World, now: Time, s: SocketId, job: JobId, due: Time)
    requires JobsSound(w) && Waits(w, s)
    ensures Open(w) ==> Open(DoJoin(w, s, now))
    ensures IsHandoff(DoJoin(w, s, now), job, due) <==> IsHandoff(w, job, due)
  {
    JoinOpen(RoomFor(w, s, now), w.tasks[s].agent, s, now, w.spawned);
  }

  lemma HandoffStep(w: World, now: Time, op: Op, job: JobId, due: Time)
    requires JobsSound(w)
    ensures IsHandoff(Do(w, now, op), job, due) <==>
            Schedules(w, now, op, job, due) || (IsHandoff(w, job, due) && !Drops(w, now, op, job, due))
    ensures Schedules(w, now, op, job, due) ==> !IsHandoff(w, job, due)
  {
    if Plain(op) {
      PlainStep(w, now, op);
    } else {
      hide DoEnd, DoJoin, MonitorVerdict;
      match op
      case Join(s) => if Waits(w, s) { JoinStays(w, now, s, job, due); }
      case Schedule =>
      case End(reason) => EndDrops(w, reason, Foreground, now, job, due);
      case CapEnd(s) =>
        if At(w, s, Ending) && w.room.Some? { EndDrops(Moved(w, s, Looping), MessageCapReached, Foreground, now, job, due); }
      case Wake(j) => WakeDrops(w, now, j, job, due);
      case Restart =>
    }
  }

  lemma WakeDrops(w: World, now: Time, j: JobId, job: JobId, due: Time)
    requires JobsSound(w)
    ensures IsHandoff(DoWake(w, j, now), job, due) <==> IsHandoff(w, job, due) && !Drops(w, now, Wake(j), job, due)
  {
    hide DoEnd, MonitorVerdict;
    if j in w.jobs && Fires(w, now, j).Some? {
      EndDrops(Through(w, j), Fires(w, now, j).value, Background(j), now, job, due);
    }
  }

  predicate ScheduledAt(w: World, log: seq<Tick>, i: nat, job: JobId, due: Time) {
    i < |log| && Schedules(Run(w, log, i), log[i].at, log[i].op, job, due)
  }

  predicate DroppedAt(w: World, log: seq<Tick>, k: nat, job: JobId, due: Time) {
    k < |log| && Drops(Run(w, log, k), log[k].at, log[k].op, job, due)
  }

  ghost predicate Stands(w: World, log: seq<Tick>, n: nat, job: JobId, due: Time) {
    exists i: nat :: i < n && ScheduledAt(w, log, i, job, due) && forall k: nat | i < k < n :: !DroppedAt(w, log, k, job, due)
  }

  lemma HandoffNext(w: World, log: seq<Tick>, n: nat, job: JobId, due: Time)
    requires n < |log| && Fresh(w)
    ensures IsHandoff(Run(w, log, n + 1), job, due) <==>
            ScheduledAt(w, log, n, job, due) || (IsHandoff(Run(w, log, n), job, due) && !DroppedAt(w, log, n, job, due))
  {
    hide Do, JobsSound, Drops, Schedules;
    AlwaysJobsSound(w, log, n);
    HandoffStep(Run(w, log, n), log[n].at, log[n].op, job, due);
  }

  /** On every run a handoff task is waiting if and only if some entry scheduled it, ten minutes before it is
      due, and nothing has put an end to it since. */
  lemma {:induction false} HandoffIff(w: World, log: seq<Tick>, n: nat, job: JobId, due: Time)
    requires n <= |log| && Fresh(w)
    ensures IsHandoff(Run(w, log, n), job, due) <==> Stands(w, log, n, job, due)
  {
    hide Run, ScheduledAt, DroppedAt;
    if n == 0 {
      StartsIdle(w, log, job, due);
    } else {
      HandoffIff(w, log, n - 1, job, due);
      HandoffNext(w, log, n - 1, job, due);
      if ScheduledAt(w, log, n - 1, job, due) {
        assert Stands(w, log, n, job, due);
      } else if Stands(w, log, n - 1, job, due) && !DroppedAt(w, log, n - 1, job, due) {
        var i: nat :| i < n - 1 && ScheduledAt(w, log, i, job, due)
                      && forall k: nat | i < k < n - 1 :: !DroppedAt(w, log, k, job, due);
        assert Stands(w, log, n, job, due);
      }
    }
  }

  lemma StartsIdle(w: World, log: seq<Tick>, job: JobId, due: Time)
    requires Fresh(w)
    ensures !IsHandoff(Run(w, log, 0), job, due) && Run(w, log, 0).loose.None?
  {
  }

  /** What a waiting handoff task does when it wakes, on every run: nothing before it is due, and then it closes
      what is open with `handoff_complete`: the row alone where the process has no state; memory and row where it
      has one; and memory alone where the task is registered on that state, because it cancels itself. */
  lemma HandoffWakes(w: World, log: seq<Tick>, n: nat, job: JobId, due: Time)
    requires n < |log| && Fresh(w) && log[n].op == Wake(job) && IsHandoff(Run(w, log, n), job, due)
    ensures var u, v, now := Run(w, log, n), Run(w, log, n + 1), log[n].at;
            var ended := u.row.(status := Closed, closedAt := Some(now), closeReason := Some(HandoffComplete));
      if now < due then v == u
      else
        && job !in v.jobs
        && (u.room.None? ==> v.room.None? && v.row == ended)
        && (u.room.Some? ==> v.room.Some? && v.room.value.closed)
        && (u.room.Some? && u.room.value.closed ==> v.room == u.room && v.row == u.row)
        && (Open(u) && u.room.value.handoff == Some(job) ==> v.row == u.row)
        && (Open(u) && u.room.value.handoff != Some(job) ==> v.row == ended.(messageCount := u.room.value.count))
  {
    AlwaysJobsSound(w, log, n);
    var u := Run(w, log, n);
    assert Run(w, log, n + 1) == Do(u, log[n].at, Wake(job));
    hide Run, Dismissed;
    if u.room.Some? { DismissedKeeps(u.room.value.(closed := true, counted := false), HandoffComplete); }
  }

  // ---------------------------------------------------------------- the table of handoff tasks

  /** A schedule without a state puts its task into `_handoff_tasks`. */
  predicate Enters(w: World, op: Op, job: JobId) { op.Schedule? && w.room.None? && w.spawned == job }

  /** The entry of the session there is overwritten by the next such schedule, forgotten by a restart, and
      cleared by whatever handoff task comes to its end, due or cancelled, its own or another. */
  predicate Clears(w: World, now: Time, op: Op) {
    || op.Restart?
    || (op.Schedule? && w.room.None?)
    || (op.Wake? && op.job in w.jobs && (w.jobs[op.job].Unwinding? || (w.jobs[op.job].HandingOff? && w.jobs[op.job].due <= now)))
  }

  lemma LooseStep(w: World, now: Time, op: Op, job: JobId)
    ensures Do(w, now, op).loose == Some(job) <==>
            Enters(w, op, job) || (w.loose == Some(job) && !Clears(w, now, op))
  {
    hide MonitorVerdict, EndRoom, FrameRoom, FlushOne, JoinRoom, CutsShort;
  }

  predicate EnteredAt(w: World, log: seq<Tick>, i: nat, job: JobId) {
    i < |log| && Enters(Run(w, log, i), log[i].op, job)
  }

  predicate ClearedAt(w: World, log: seq<Tick>, k: nat) { k < |log| && Clears(Run(w, log, k), log[k].at, log[k].op) }

  ghost predicate InTable(w: World, log: seq<Tick>, n: nat, job: JobId) {
    exists i: nat :: i < n && EnteredAt(w, log, i, job) && forall k: nat | i < k < n :: !ClearedAt(w, log, k)
  }

  lemma LooseNext(w: World, log: seq<Tick>, n: nat, job: JobId)
    requires n < |log|
    ensures Run(w, log, n + 1).loose == Some(job) <==>
            EnteredAt(w, log, n, job) || (Run(w, log, n).loose == Some(job) && !ClearedAt(w, log, n))
  {
    hide Do, Enters, Clears;
    LooseStep(Run(w, log, n), log[n].at, log[n].op, job);
  }

  /** On every run `_handoff_tasks` has task `job` if and only if an entry put it there and none has cleared
      it since. */
  lemma {:induction false} LooseIffEntered(w: World, log: seq<Tick>, n: nat, job: JobId)
    requires n <= |log| && Fresh(w)
    ensures Run(w, log, n).loose == Some(job) <==> InTable(w, log, n, job)
  {
    hide Run, EnteredAt, ClearedAt;
    if n == 0 {
      StartsIdle(w, log, job, 0);
    } else {
      LooseIffEntered(w, log, n - 1, job);
      LooseNext(w, log, n - 1, job);
      if EnteredAt(w, log, n - 1, job) {
        assert InTable(w, log, n, job);
      } else if InTable(w, log, n - 1, job) && !ClearedAt(w, log, n - 1) {
        var i: nat :| i < n - 1 && EnteredAt(w, log, i, job) && forall k: nat | i < k < n - 1 :: !ClearedAt(w, log, k);
        assert InTable(w, log, n, job);
      }
    }
  }

  /** Three schedules in a process without a state; the first task, cancelled by the second schedule, comes to
      its end before the third. */
  function Thrice(job: JobId, t: Time): seq<Tick> {
    [Tick(t, Schedule), Tick(t, Schedule), Tick(t, Wake(job)), Tick(t, Schedule)]
  }

  /** A cancelled task clears the entry of the one that replaced it, so that the third schedule does not
      find the second task: two of them wait for the same session. */
  lemma TwoTasksWait(w: World, t: Time)
    requires Fresh(w)
    ensures var v, job := Run(w, Thrice(w.spawned, t), 4), w.spawned;
      IsHandoff(v, job + 1, t + 10 * MINUTE) && IsHandoff(v, job + 2, t + 10 * MINUTE) && v.loose == Some(job + 2)
  {
    var log, job := Thrice(w.spawned, t), w.spawned;
    assert Run(w, log, 0) == w;
    var u1 := Do(w, t, Schedule);
    assert Run(w, log, 1) == u1 && u1.jobs == map[job := HandingOff(t + HANDOFF_WINDOW)];
    var u2 := Do(u1, t, Schedule);
    assert Run(w, log, 2) == u2 && u2.jobs[job] == Unwinding && u2.loose == Some(job + 1);
    var u3 := Do(u2, t, Wake(job));
    assert Run(w, log, 3) == u3 && u3.loose.None?;
    assert Run(w, log, 4) == Do(u3, t, Schedule);
  }

  // ---------------------------------------------------------------- the monitor

  predicate IsMonitor(w: World, job: JobId) { job in w.jobs && w.jobs[job].Monitoring? }

  /** A member joins while the other is seated, for the first time in this process. */
  predicate Wakens(w: World, op: Op) {
    && op.Join? && Waits(w, op.w) && w.room.Some? && w.room.value.activeAt.None?
    && (if w.tasks[op.w].agent == w.row.agentA then w.row.agentB else w.row.agentA) in w.room.value.sockets
  }

  /** Both seats are then taken, which is what the state asks for. */
  lemma WakensIff(w: World, now: Time, s: SocketId)
    requires Sound(w) && Waits(w, s)
    ensures Activates(RoomFor(w, s, now), w.tasks[s].agent, s) <==> Wakens(w, Join(s))
  {
    if w.room.Some? { SeatedThere(w); }
  }

  lemma SeatedThere(w: World)
    requires Sound(w) && w.room.Some?
    ensures w.room.value.a == w.row.agentA && w.room.value.b == w.row.agentB && w.row.agentA != w.row.agentB
  {
  }

  /** What puts an end to the monitor: a restart, the end of the session, or waking in a closed one. */
  predicate Stills(w: World, now: Time, op: Op, job: JobId) {
    op.Restart? || EndsOpen(w, now, op) || (op == Wake(job) && w.room.Some? && w.room.value.closed)
  }

  lemma MonitorStep(w: World, now: Time, op: Op, job: JobId)
    requires JobsSound(w) && Sound(w)
    ensures IsMonitor(Do(w, now, op), job) <==>
            (Wakens(w, op) && w.spawned == job) || (IsMonitor(w, job) && !Stills(w, now, op, job))
  {
    if Plain(op) {
      PlainStep(w, now, op);
    } else {
      hide MonitorVerdict, DoEnd, JoinRoom, Sound;
      match op
      case Join(s) => if Waits(w, s) { JoinMonitor(w, now, s, job); }
      case Schedule =>
      case End(reason) => EndMonitor(w, reason, Foreground, now, job);
      case CapEnd(s) =>
        if At(w, s, Ending) && w.room.Some? { EndMonitor(Moved(w, s, Looping), MessageCapReached, Foreground, now, job); }
      case Wake(j) =>
        if j in w.jobs && Fires(w, now, j).Some? {
          EndMonitor(Through(w, j), Fires(w, now, j).value, Background(j), now, job);
        }
      case Restart =>
    }
  }

  lemma JoinMonitor(w: World, now: Time, s: SocketId, job: JobId)
    requires JobsSound(w) && Sound(w) && Waits(w, s)
    ensures Open(w) ==> Open(DoJoin(w, s, now))
    ensures IsMonitor(DoJoin(w, s, now), job) <==>
            (Wakens(w, Join(s)) && w.spawned == job) || IsMonitor(w, job)
  {
    hide Sound, Activates;
    WakensIff(w, now, s);
  }

  lemma EndMonitor(w: World, reason: CloseReason, c: Caller, now: Time, job: JobId)
    requires IsMonitor(w, job) ==> w.room.Some? && w.room.value.monitor == Some(job)
    ensures !Open(DoEnd(w, reason, c, now))
    ensures IsMonitor(DoEnd(w, reason, c, now), job) <==> IsMonitor(w, job) && !Open(w)
  {
    hide Dismissed, CutsShort;
    if w.room.Some? { DismissedKeeps(w.room.value.(closed := true, counted := false), reason); }
  }

  predicate WakenedAt(w: World, log: seq<Tick>, i: nat, job: JobId) {
    i < |log| && Wakens(Run(w, log, i), log[i].op) && Run(w, log, i).spawned == job
  }

  predicate StilledAt(w: World, log: seq<Tick>, k: nat, job: JobId) {
    k < |log| && Stills(Run(w, log, k), log[k].at, log[k].op, job)
  }

  ghost predicate Watches(w: World, log: seq<Tick>, n: nat, job: JobId) {
    exists i: nat :: i < n && WakenedAt(w, log, i, job) && forall k: nat | i < k < n :: !StilledAt(w, log, k, job)
  }

  lemma MonitorNext(w: World, log: seq<Tick>, n: nat, job: JobId)
    requires n < |log| && Fresh(w)
    ensures IsMonitor(Run(w, log, n + 1), job) <==>
            WakenedAt(w, log, n, job) || (IsMonitor(Run(w, log, n), job) && !StilledAt(w, log, n, job))
  {
    hide Do, JobsSound, Sound, Wakens, Stills;
    AlwaysJobsSound(w, log, n);
    AlwaysSound(w, log, n);
    MonitorStep(Run(w, log, n), log[n].at, log[n].op, job);
  }

  /** On every run a monitor task is watching if and only if some join made the session active, and since then
      the process has not restarted, the session has not ended, and the task has not found it closed. */
  lemma {:induction false} MonitorIff(w: World, log: seq<Tick>, n: nat, job: JobId)
    requires n <= |log| && Fresh(w)
    ensures IsMonitor(Run(w, log, n), job) <==> Watches(w, log, n, job)
  {
    hide Run, WakenedAt, StilledAt;
    if n == 0 {
      StartsUnwatched(w, log, job);
    } else {
      MonitorIff(w, log, n - 1, job);
      MonitorNext(w, log, n - 1, job);
      if WakenedAt(w, log, n - 1, job) {
        assert Watches(w, log, n, job);
      } else if Watches(w, log, n - 1, job) && !StilledAt(w, log, n - 1, job) {
        var i: nat :| i < n - 1 && WakenedAt(w, log, i, job) && forall k: nat | i < k < n - 1 :: !StilledAt(w, log, k, job);
        assert Watches(w, log, n, job);
      }
    }
  }

  lemma StartsUnwatched(w: World, log: seq<Tick>, job: JobId)
    requires Fresh(w)
    ensures !IsMonitor(Run(w, log, 0), job)
  {
  }

  /** When this process last heard from the session: it made the state, the second member joined, or a message
      was counted. */
  function LastHeard(w: World, log: seq<Tick>, n: nat): Time
    requires n <= |log|
  {
    if n == 0 then 0
    else
      var u, at, op := Run(w, log, n - 1), log[n - 1].at, log[n - 1].op;
      if u.room.None? || Wakens(u, op) || Says(u, op) then at else LastHeard(w, log, n - 1)
  }

  lemma EndQuiet(w: World, reason: CloseReason, c: Caller, now: Time)
    ensures var v := DoEnd(w, reason, c, now);
      && v.room.Some? == w.room.Some?
      && (w.room.Some? ==> v.room.value.lastMessageAt == w.room.value.lastMessageAt
                           && v.room.value.activeAt == w.room.value.activeAt)
  {
    hide CutsShort, Dismissed;
    if w.room.Some? { DismissedKeeps(w.room.value.(closed := true, counted := false), reason); }
  }

  lemma HeardStep(w: World, now: Time, op: Op)
    requires Sound(w) && Do(w, now, op).room.Some?
    ensures Do(w, now, op).room.value.lastMessageAt ==
            if w.room.None? || Wakens(w, op) || Says(w, op) then now else w.room.value.lastMessageAt
    ensures Do(w, now, op).room.value.activeAt ==
            if Wakens(w, op) then Some(now) else if w.room.None? then None else w.room.value.activeAt
  {
    hide FlushOne, Route, Seat, MonitorVerdict, Sound, Activates, DoEnd, FrameRoom;
    match op
    case End(reason) => EndQuiet(w, reason, Foreground, now);
    case CapEnd(s) =>
      if At(w, s, Ending) && w.room.Some? { EndQuiet(Moved(w, s, Looping), MessageCapReached, Foreground, now); }
    case Wake(job) =>
      if job in w.jobs && Fires(w, now, job).Some? {
        EndQuiet(Through(w, job), Fires(w, now, job).value, Background(job), now);
      }
    case Receive(s, raw) =>
      NoStateNoFrames(w, s);
      if At(w, s, Looping) { FrameHeard(w.room.value, w.tasks[s].agent, s, raw, now); }
    case FlushStep(s) => if Flushes(w, s) && w.room.Some? { FlushQuiet(w.room.value, w.tasks[s].agent, w.tasks[s].phase.to); }
    case Join(s) => if Waits(w, s) { SeatQuiet(RoomFor(w, s, now), w.tasks[s].agent, s); WakensIff(w, now, s); }
    case _ =>
  }

  lemma NoStateNoFrames(w: World, s: SocketId)
    requires Sound(w)
    ensures At(w, s, Looping) ==> w.room.Some?
  {
  }

  /** The activation time told from the log. */
  function ActiveSince(w: World, log: seq<Tick>, n: nat): Option<Time>
    requires n <= |log|
  {
    if n == 0 then None
    else
      var u, at, op := Run(w, log, n - 1), log[n - 1].at, log[n - 1].op;
      if Wakens(u, op) then Some(at) else if u.room.None? then None else ActiveSince(w, log, n - 1)
  }

  lemma {:induction false} ClockTold(w: World, log: seq<Tick>, n: nat)
    requires n <= |log| && Fresh(w) && Run(w, log, n).room.Some?
    ensures Run(w, log, n).room.value.lastMessageAt == LastHeard(w, log, n)
    ensures Run(w, log, n).room.value.activeAt == ActiveSince(w, log, n)
  {
    hide Do, Sound, Wakens, Says;
    var u, at, op := Run(w, log, n - 1), log[n - 1].at, log[n - 1].op;
    AlwaysSound(w, log, n - 1);
    HeardStep(u, at, op);
    if u.room.Some? { ClockTold(w, log, n - 1); }
  }

  /** On every run the monitor that wakes in an open session ends it, on the grounds of the time limit from
      thirty minutes after the second member joined, before that on the grounds of silence from five minutes
      after the session was last heard from, and otherwise does nothing; either way it writes no row. */
  lemma MonitorWakes(w: World, log: seq<Tick>, n: nat, job: JobId)
    requires n < |log| && Fresh(w) && Open(Run(w, log, n)) && log[n].op == Wake(job) && IsMonitor(Run(w, log, n), job)
    ensures var u, v, now := Run(w, log, n), Run(w, log, n + 1), log[n].at;
            var since, heard := ActiveSince(w, log, n), LastHeard(w, log, n);
      && MonitorVerdict(u.room.value, now) ==
           (if since.Some? && since.value + 30 * MINUTE <= now then Some(TimeLimitReached)
            else if heard + 5 * MINUTE <= now then Some(Inactivity) else None)
      && (if MonitorVerdict(u.room.value, now).None? then v == u
          else v.row == u.row && v.room.Some? && v.room.value.closed && v.room.value.wire == u.room.value.wire)
  {
    AlwaysJobsSound(w, log, n);
    ClockTold(w, log, n);
    hide Dismissed;
  }

  // ---------------------------------------------------------------- ready

  predicate Readied(t: Task) { !t.phase.Authed? && !t.phase.Greeting? }

  predicate NoReady(added: seq<Handed>) { forall k | 0 <= k < |added| :: !added[k].frame.Ready? }

  lemma OthersSayNotReady(w: World, now: Time, op: Op)
    requires w.room.Some? && !op.Restart? && !(op.Greet? && At(w, op.w, Greeting))
    ensures Do(w, now, op).room.Some? && w.room.value.wire <= Do(w, now, op).room.value.wire
    ensures NoReady(Added(w, Do(w, now, op)))
  {
    hide FlushOne, Seat, DoEnd, MonitorVerdict, FrameRoom;
    match op
    case Receive(s, raw) => if At(w, s, Looping) { FrameNotReady(w.room.value, w.tasks[s].agent, s, raw, now); }
    case FlushStep(s) => if Flushes(w, s) { FlushNotReady(w.room.value, w.tasks[s].agent, w.tasks[s].phase.to); }
    case Join(s) => if Waits(w, s) { SeatNotReady(w.room.value, w.tasks[s].agent, s); }
    case End(reason) => EndNotReady(w, reason, Foreground, now);
    case CapEnd(s) => if At(w, s, Ending) { EndNotReady(Moved(w, s, Looping), MessageCapReached, Foreground, now); }
    case Wake(job) =>
      if job in w.jobs && Fires(w, now, job).Some? {
        EndNotReady(Through(w, job), Fires(w, now, job).value, Background(job), now);
      }
    case _ =>
  }

  lemma FrameNotReady(r: Room, agent: Id, s: SocketId, raw: Raw, now: Time)
    ensures var wire := FrameRoom(r, agent, s, raw, now).wire; r.wire <= wire && NoReady(wire[|r.wire|..])
  {
  }

  lemma FlushNotReady(r: Room, agent: Id, to: SocketId)
    ensures var wire := FlushOne(r, agent, to).wire; r.wire <= wire && NoReady(wire[|r.wire|..])
  {
  }

  lemma SeatNotReady(r: Room, agent: Id, s: SocketId)
    ensures var wire := Seat(r, agent, s).wire; r.wire <= wire && NoReady(wire[|r.wire|..])
  {
  }

  lemma EndNotReady(w: World, reason: CloseReason, c: Caller, now: Time)
    requires w.room.Some?
    ensures DoEnd(w, reason, c, now).room.Some? && w.room.value.wire <= DoEnd(w, reason, c, now).room.value.wire
    ensures NoReady(Added(w, DoEnd(w, reason, c, now)))
  {
    hide Dismissed;
    var r := w.room.value.(closed := true, counted := false);
    DismissedWire(r, reason);
    assert NoReady(Farewell(r, r.a, reason) + Farewell(r, r.b, reason));
  }

  /** Where on the wire `s` is told that it is ready. */
  function ReadyAt(wire: seq<Handed>, s: SocketId): set<nat> {
    set k: nat | k < |wire| && wire[k] == Handed(s, Ready)
  }

  lemma StepReady(w: World, now: Time, op: Op, s: SocketId)
    requires w.room.Some? && !op.Restart?
    ensures var v := Do(w, now, op);
      && v.room.Some? && w.room.value.wire <= v.room.value.wire
      && (s in v.tasks && Readied(v.tasks[s]) <==> (s in w.tasks && Readied(w.tasks[s])) || (op == Greet(s) && At(w, s, Greeting)))
      && ReadyAt(v.room.value.wire, s) == ReadyAt(w.room.value.wire, s)
           + (if op == Greet(s) && At(w, s, Greeting) then {|w.room.value.wire|} else {})
  {
    if op.Greet? && At(w, op.w, Greeting) {
    } else {
      OthersReady(w, now, op, s);
      hide Do;
      OthersSayNotReady(w, now, op);
      var before, after := w.room.value.wire, Do(w, now, op).room.value.wire;
      forall k: nat | |before| <= k < |after| ensures after[k] != Handed(s, Ready) {
        assert Added(w, Do(w, now, op))[k - |before|] == after[k];
      }
    }
  }

  lemma OthersReady(w: World, now: Time, op: Op, s: SocketId)
    requires w.room.Some? && !op.Restart? && !(op.Greet? && At(w, op.w, Greeting))
    ensures var v := Do(w, now, op);
      s in v.tasks && Readied(v.tasks[s]) <==> s in w.tasks && Readied(w.tasks[s])
  {
    hide MonitorVerdict, EndRoom, FrameRoom, FlushOne, JoinRoom, CutsShort;
  }

  /** On every run a socket whose handler has come past its greeting was told once that it is ready, and a
      socket whose handler has not was not told. */
  lemma {:induction false} ReadyOnce(w: World, log: seq<Tick>, n: nat, s: SocketId)
    requires n <= |log| && Fresh(w)
    ensures var v := Run(w, log, n);
      v.room.Some? ==> |ReadyAt(v.room.value.wire, s)| == if s in v.tasks && Readied(v.tasks[s]) then 1 else 0
  {
    hide Do, Sound, Readied;
    if n > 0 {
      ReadyOnce(w, log, n - 1, s);
      var u, at, op := Run(w, log, n - 1), log[n - 1].at, log[n - 1].op;
      AlwaysSound(w, log, n - 1);
      if op.Restart? {
        RestartForgets(u, at);
      } else if u.room.Some? {
        GreetingIsNotReady(u, op);
        StepReady(u, at, op, s);
      } else if Do(u, at, op).room.Some? {
        FirstIsNotReady(u, at, op, s);
      }
    }
  }

  lemma RestartForgets(w: World, now: Time)
    ensures Do(w, now, Restart).room.None?
  {
  }

  lemma GreetingIsNotReady(w: World, op: Op)
    ensures op.Greet? && At(w, op.w, Greeting) ==> !Readied(w.tasks[op.w])
  {
  }

  lemma FirstIsNotReady(w: World, now: Time, op: Op, s: SocketId)
    requires Sound(w) && w.room.None? && Do(w, now, op).room.Some?
    ensures var v := Do(w, now, op); ReadyAt(v.room.value.wire, s) == {} && !(s in v.tasks && Readied(v.tasks[s]))
  {
  }
}
