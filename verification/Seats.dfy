/** Who holds a member's seat, and when a session becomes active. */
module Seats {
  import opened Basics
  import opened Rows
  import opened Relay
  import opened RelayWorld
  import opened Delivery
  import RelayLimits

  // ---------------------------------------------------------------- latest join wins

  /** This op seats socket `s` for `agent`. */
  predicate Seating(w: World, op: Op, agent: Id, s: SocketId) {
    op == Join(s) && Waits(w, s) && w.tasks[s].agent == agent
  }

  /** This op calls `end_session` and is not cut short by it. */
  predicate Ends(w: World, now: Time, op: Op)
    requires w.room.Some?
  {
    || op.End?
    || (op.CapEnd? && At(w, op.w, Ending))
    || (op.Wake? && Fires(w, now, op.job).Some? && !CutsShort(w.room.value, Background(op.job)))
  }

  /** This op ends whatever claim socket `s` had to the seat of `agent`: another socket of the agent
      joins, this very socket disconnects, the session's first close runs to its end, or the process
      restarts. A close of a session that is closed already does nothing, nor does one cut short. */
  predicate Unseating(w: World, now: Time, op: Op, agent: Id, s: SocketId) {
    || op.Restart?
    || (op.Leave? && op.w == s && At(w, s, Looping) && w.room.Some?)
    || (op.Join? && op.w != s && Waits(w, op.w) && w.tasks[op.w].agent == agent)
    || (w.room.Some? && !w.room.value.closed && Ends(w, now, op))
  }

  /** `s` joined for `agent` at entry `i`, and nothing up to `n` has ended its claim. */
  ghost predicate HoldsSeat(w: World, log: seq<Tick>, i: nat, n: nat, agent: Id, s: SocketId)
    requires n <= |log|
  {
    && i < n && Seating(Run(w, log, i), log[i].op, agent, s)
    && forall k | i < k < n :: !Unseating(Run(w, log, k), log[k].at, log[k].op, agent, s)
  }

  predicate Registered(w: World, agent: Id, s: SocketId) {
    w.room.Some? && agent in w.room.value.sockets && w.room.value.sockets[agent] == s
  }

  lemma StepSeat(w: World, now: Time, op: Op, agent: Id, s: SocketId)
    requires Sound(w)
    ensures Registered(Do(w, now, op), agent, s) <==>
              Seating(w, op, agent, s) || (Registered(w, agent, s) && !Unseating(w, now, op, agent, s))
  {
    hide Held, Counted, DoEnd, MonitorVerdict, FrameRoom, FlushOne;
    match op
    case End(reason) => EndSeat(w, reason, Foreground, now, agent, s);
    case CapEnd(x) =>
      if At(w, x, Ending) && w.room.Some? { EndSeat(Moved(w, x, Looping), MessageCapReached, Foreground, now, agent, s); }
    case Wake(job) =>
      if job in w.jobs && Fires(w, now, job).Some? {
        EndSeat(Through(w, job), Fires(w, now, job).value, Background(job), now, agent, s);
      }
    case Leave(x) =>
      if At(w, x, Looping) && w.room.Some? { LeaveSeat(w, x, agent, s); }
    case Join(x) => if Waits(w, x) { JoinSeat(w, x, now, agent, s); }
    case Receive(x, raw) =>
      if At(w, x, Looping) && w.room.Some? { FrameSeats(w.room.value, w.tasks[x].agent, x, raw, now); }
    case FlushStep(x) =>
      if Flushes(w, x) && w.room.Some? { FlushSeats(w.room.value, w.tasks[x].agent, w.tasks[x].phase.to); }
    case _ =>
  }

  lemma DismissedShuts(r: Room, reason: CloseReason)
    ensures r.wire <= Dismissed(r, reason).wire && Dismissed(r, reason).sockets == map[]
    ensures forall x | x in r.sockets && (x == r.a || x == r.b) :: Handed(r.sockets[x], Shut) in Dismissed(r, reason).wire
  {
    var first, wire := Farewell(r, r.a, reason), Dismissed(r, reason).wire;
    if r.a in r.sockets { assert wire[|r.wire| + 1] == Handed(r.sockets[r.a], Shut); }
    if r.b in r.sockets { assert wire[|r.wire| + |first| + 1] == Handed(r.sockets[r.b], Shut); }
  }

  lemma EndSeat(w: World, reason: CloseReason, c: Caller, now: Time, agent: Id, s: SocketId)
    ensures w.room.Some? ==>
      && DoEnd(w, reason, c, now).room.Some? && w.room.value.wire <= DoEnd(w, reason, c, now).room.value.wire
      && (Registered(w, agent, s) && !Registered(DoEnd(w, reason, c, now), agent, s) && SeatsHeld(w.room.value) ==>
            IsShut(DoEnd(w, reason, c, now), s))
    ensures Registered(DoEnd(w, reason, c, now), agent, s) <==>
      Registered(w, agent, s) && (w.room.value.closed || CutsShort(w.room.value, c))
  {
    hide Dismissed, Stopped;
    if w.room.Some? { DismissedShuts(w.room.value.(closed := true, counted := false), reason); }
  }

  lemma JoinSeat(w: World, x: SocketId, now: Time, agent: Id, s: SocketId)
    requires Sound(w) && Waits(w, x)
    ensures Registered(DoJoin(w, x, now), agent, s) <==>
              if w.tasks[x].agent == agent then x == s else Registered(w, agent, s)
  {
  }

  lemma LeaveSeat(w: World, x: SocketId, agent: Id, s: SocketId)
    requires Sound(w) && At(w, x, Looping) && w.room.Some?
    ensures Registered(Do(w, 0, Leave(x)), agent, s) <==> Registered(w, agent, s) && x != s
  {
    if Registered(w, agent, s) { assert Belongs(w.tasks, s, agent); }
  }

  /** On every run the registered socket of a member is the one that joined last, unless that very
      socket has disconnected or the session has ended since; the late disconnect of a superseded
      socket is not among the ways to lose the seat. */
  lemma {:induction false} LatestJoinWins(w: World, log: seq<Tick>, n: nat, agent: Id, s: SocketId)
    requires n <= |log| && Fresh(w)
    ensures Registered(Run(w, log, n), agent, s) <==> exists i :: HoldsSeat(w, log, i, n, agent, s)
  {
    hide Do, Sound;
    if n > 0 {
      LatestJoinWins(w, log, n - 1, agent, s);
      AlwaysSound(w, log, n - 1);
      var v, op := Run(w, log, n - 1), log[n - 1].op;
      StepSeat(v, log[n - 1].at, op, agent, s);
      if Seating(v, op, agent, s) {
        assert HoldsSeat(w, log, n - 1, n, agent, s);
      } else if Registered(v, agent, s) && !Unseating(v, log[n - 1].at, op, agent, s) {
        var i :| HoldsSeat(w, log, i, n - 1, agent, s);
        assert HoldsSeat(w, log, i, n, agent, s);
      }
      forall i: nat | HoldsSeat(w, log, i, n, agent, s) ensures Registered(Run(w, log, n), agent, s) {
        if i < n - 1 { assert HoldsSeat(w, log, i, n - 1, agent, s); }
      }
    }
  }

  predicate IsShut(w: World, s: SocketId) { w.room.Some? && Handed(s, Shut) in w.room.value.wire }

  predicate SeatsHeld(r: Room) { r.sockets.Keys <= {r.a, r.b} }

  lemma SoundSeats(w: World)
    requires Sound(w) && w.room.Some?
    ensures SeatsHeld(w.room.value)
  {
  }

  lemma SeatShuts(r: Room, agent: Id, x: SocketId)
    ensures r.wire <= Seat(r, agent, x).wire
    ensures agent in r.sockets && r.sockets[agent] != x ==> Handed(r.sockets[agent], Shut) in Seat(r, agent, x).wire
  {
    if agent in r.sockets && r.sockets[agent] != x {
      assert Seat(r, agent, x).wire[|r.wire|] == Handed(r.sockets[agent], Shut);
    }
  }

  lemma StepShut(w: World, now: Time, op: Op, agent: Id, s: SocketId)
    requires Sound(w) && w.room.Some? && !op.Restart?
    ensures Do(w, now, op).room.Some? && w.room.value.wire <= Do(w, now, op).room.value.wire
    ensures Registered(w, agent, s) && !Registered(Do(w, now, op), agent, s) ==>
              IsShut(Do(w, now, op), s) || (op == Leave(s) && At(w, s, Looping))
  {
    hide FrameRoom, FlushOne, Seat, Held, Counted, DoEnd, MonitorVerdict;
    SoundSeats(w);
    match op
    case Join(x) =>
      if Waits(w, x) {
        SeatShuts(w.room.value, w.tasks[x].agent, x);
        JoinSeat(w, x, now, agent, s);
      }
    case End(reason) => EndSeat(w, reason, Foreground, now, agent, s);
    case CapEnd(x) =>
      if At(w, x, Ending) { EndSeat(Moved(w, x, Looping), MessageCapReached, Foreground, now, agent, s); }
    case Wake(job) =>
      if job in w.jobs && Fires(w, now, job).Some? {
        EndSeat(Through(w, job), Fires(w, now, job).value, Background(job), now, agent, s);
      }
    case Receive(x, raw) =>
      if At(w, x, Looping) { FrameSeats(w.room.value, w.tasks[x].agent, x, raw, now); }
    case FlushStep(x) => if Flushes(w, x) { FlushSeats(w.room.value, w.tasks[x].agent, w.tasks[x].phase.to); }
    case Leave(x) => if At(w, x, Looping) { LeaveSeat(w, x, agent, s); }
    case _ =>
  }

  lemma FrameSeats(r: Room, agent: Id, x: SocketId, raw: Raw, now: Time)
    ensures FrameRoom(r, agent, x, raw, now).sockets == r.sockets && r.wire <= FrameRoom(r, agent, x, raw, now).wire
  {
  }

  lemma FlushSeats(r: Room, agent: Id, to: SocketId)
    ensures FlushOne(r, agent, to).sockets == r.sockets && r.wire <= FlushOne(r, agent, to).wire
  {
  }

  /** A socket that has lost its seat, to a later one of the same member or to the end of the session,
      has been shut by the server, unless it had left by itself. */
  lemma {:induction false} LostSeatIsShut(w: World, log: seq<Tick>, m: nat, n: nat, agent: Id, s: SocketId)
    requires m <= n <= |log| && Fresh(w) && NoRestart(log, m, n) && Registered(Run(w, log, m), agent, s)
    ensures Run(w, log, n).room.Some?
    ensures || Registered(Run(w, log, n), agent, s)
            || IsShut(Run(w, log, n), s)
            || exists k :: m <= k < n && log[k].op == Leave(s) && At(Run(w, log, k), s, Looping)
  {
    hide Do, Sound;
    if m < n {
      LostSeatIsShut(w, log, m, n - 1, agent, s);
      AlwaysSound(w, log, n - 1);
      StepShut(Run(w, log, n - 1), log[n - 1].at, log[n - 1].op, agent, s);
    }
  }

  /** The new socket keeps the seat when the old one's disconnect comes late. */
  lemma {:induction false} LateDisconnect(w: World, now: Time, stale: SocketId, agent: Id, s: SocketId)
    requires Sound(w) && Registered(w, agent, s) && stale != s
    ensures Registered(Do(w, now, Leave(stale)), agent, s)
  {
    StepSeat(w, now, Leave(stale), agent, s);
  }

  // ---------------------------------------------------------------- activation

  /** A row leaves `awaiting_join` for `active` only at a join that leaves both members seated, and
      takes its deadline from that moment. */
  lemma ActivationNeedsBoth(w: World, now: Time, op: Op)
    requires Sound(w) && w.row.status == AwaitingJoin && Do(w, now, op).row.status == Active
    ensures op.Join? && Do(w, now, op).room.Some? && Do(w, now, op).room.value.Full()
    ensures Do(w, now, op).row == w.row.(status := Active, activeAt := Some(now), expiresAt := now + ACTIVE_WINDOW)
    ensures w.room.Some? ==> w.room.value.activeAt.None?
  {
  }

  lemma StepActiveAt(w: World, now: Time, op: Op)
    requires Sound(w) && !op.Restart? && w.room.Some?
    ensures Do(w, now, op).room.Some?
    ensures w.room.value.activeAt.Some? ==> Do(w, now, op).room.value.activeAt == w.room.value.activeAt
  {
    if op.Receive? && At(w, op.w, Looping) {
      FrameCount(w.room.value, w.tasks[op.w].agent, op.w, op.raw, now);
    }
  }

  predicate NoRestart(log: seq<Tick>, m: nat, n: nat)
    requires m <= n <= |log|
  {
    forall k | m <= k < n :: !log[k].op.Restart?
  }

  /** Within a process a session is activated at most once, and its thirty minutes are never
      restarted by a reconnect. */
  lemma {:induction false} ActivatedOnce(w: World, log: seq<Tick>, m: nat, n: nat)
    requires m <= n <= |log| && Fresh(w) && NoRestart(log, m, n)
    requires Run(w, log, m).room.Some? && Run(w, log, m).room.value.activeAt.Some?
    ensures Run(w, log, n).room.Some?
    ensures Run(w, log, n).room.value.activeAt == Run(w, log, m).room.value.activeAt
  {
    hide Do, Sound;
    if m < n {
      ActivatedOnce(w, log, m, n - 1);
      AlwaysSound(w, log, n - 1);
      StepActiveAt(Run(w, log, n - 1), log[n - 1].at, log[n - 1].op);
    }
  }

  // ---------------------------------------------------------------- who reads what

  ghost predicate KeysHeld(w: World) { w.room.Some? ==> w.room.value.pubkeys == w.keys }

  lemma StepKeys(w: World, now: Time, op: Op)
    requires KeysHeld(w)
    ensures Do(w, now, op).keys == w.keys && KeysHeld(Do(w, now, op))
  {
    hide MonitorVerdict, FrameRoom, FlushOne;
    if op.Receive? && At(w, op.w, Looping) && w.room.Some? {
      FrameKeys(w.room.value, w.tasks[op.w].agent, op.w, op.raw, now);
    } else if op.FlushStep? && Flushes(w, op.w) && w.room.Some? {
      FlushKeys(w.room.value, w.tasks[op.w].agent, w.tasks[op.w].phase.to);
    }
  }

  lemma FrameKeys(r: Room, agent: Id, s: SocketId, raw: Raw, now: Time)
    ensures FrameRoom(r, agent, s, raw, now).pubkeys == r.pubkeys
  {
  }

  lemma FlushKeys(r: Room, agent: Id, to: SocketId)
    ensures FlushOne(r, agent, to).pubkeys == r.pubkeys
  {
  }

  /** The keys a state works with are the ones loaded when it was made, and those never change. */
  lemma {:induction false} AlwaysKeysHeld(w: World, log: seq<Tick>, n: nat)
    requires n <= |log| && Fresh(w)
    ensures Run(w, log, n).keys == w.keys && KeysHeld(Run(w, log, n))
  {
    hide Do;
    if n > 0 {
      AlwaysKeysHeld(w, log, n - 1);
      StepKeys(Run(w, log, n - 1), log[n - 1].at, log[n - 1].op);
    }
  }

  /** On every run a relayed message is only ever given to a socket its counterparty joined with, and
      bears its sender's key, whatever the frame claimed; and no more than ten messages of
      a member are held, none of them while the counterparty is seated and has caught up. */
  lemma {:induction false} MessagesArePrivate(w: World, log: seq<Tick>, n: nat, i: nat)
    requires n <= |log| && Fresh(w) && Run(w, log, n).room.Some?
    ensures var v := Run(w, log, n); var r := v.room.value;
      && (i < |r.wire| && r.wire[i].frame.Relayed? ==>
            var e := r.wire[i].frame.envelope;
            && r.wire[i].socket in v.tasks
            && v.tasks[r.wire[i].socket].agent == r.Peer(e.sender) != e.sender
            && e.sender in w.keys && e.from == w.keys[e.sender])
      && (forall x | x in {r.a, r.b} :: |r.Buffer(x)| <= BUFFER_LIMIT)
      && (forall x | x in {r.a, r.b} && r.Buffer(x) != [] && r.Peer(x) in r.sockets :: FlushPending(v.tasks, r.Peer(x)))
  {
    hide Do;
    AlwaysKeysHeld(w, log, n);
    RelayLimits.PartiesStay(w, log, n);
    AlwaysSound(w, log, n);
    var v := Run(w, log, n);
    var r := v.room.value;
    if i < |r.wire| { assert HandedSound(v.tasks, r, r.wire[i]); }
    forall x | x in {r.a, r.b} ensures |r.Buffer(x)| <= BUFFER_LIMIT {
      if x in r.buffers { assert QueueSound(r, x, r.buffers[x]); }
    }
  }
}
