/** `SessionState` and `SessionManager` of `relay.py`, in place. Each method is one section that runs
    without giving way, proved against its value in module `Relay` and against the write it makes to
    the tables. A new manager is a restarted process. */
module SessionManagers {
  import opened Basics
  import opened Rows
  import opened Relay
  import Handlers
  import Database

  class SessionState {
    const sessionId: Id
    const a: Id
    const b: Id
    const pubkeys: map<Id, string>
    var sockets: map<Id, SocketId>
    var buffers: map<Id, seq<Envelope>>
    var messageCount: nat
    var activeAt: Option<Time>
    var lastMessageAt: Time
    var closed: bool
    var activeMetricCounted: bool
    var monitorTask: Option<JobId>
    var handoffTask: Option<JobId>
    var wire: seq<Handed>        // what the session's sockets have been given to send, and their closing

    function View(): Room
      reads this
    {
      Room(a, b, pubkeys, sockets, buffers, messageCount, activeAt, lastMessageAt, closed,
           activeMetricCounted, monitorTask, handoffTask, wire)
    }

    constructor (sid: Id, a: Id, b: Id, pubkeys: map<Id, string>, count: nat, now: Time)
      ensures View() == NewRoom(a, b, count, pubkeys, now) && sessionId == sid
    {
      this.sessionId, this.a, this.b, this.pubkeys := sid, a, b, pubkeys;
      sockets, buffers, messageCount := map[], map[], count;
      activeAt, lastMessageAt, closed, activeMetricCounted := None, now, false, false;
      monitorTask, handoffTask, wire := None, None, [];
    }

    /** The newest socket of an agent takes the seat; the one before is shut. */
    method TakeSeat(agent: Id, w: SocketId)
      modifies this
      ensures View() == Seat(old(View()), agent, w)
    {
      if agent in sockets && sockets[agent] != w {
        Send(sockets[agent], Shut);
      }
      sockets := sockets[agent := w];
      if agent !in buffers {
        buffers := buffers[agent := []];
      }
    }

    /** The last loop of `end_session`: every seated socket is told and shut. */
    method SayFarewell(reason: CloseReason)
      modifies this`wire, this`sockets
      ensures View() == Dismissed(old(View()), reason)
    {
      if a in sockets { Part(sockets[a], reason); }
      if b in sockets { Part(sockets[b], reason); }
      sockets := map[];
    }

    method Part(w: SocketId, reason: CloseReason)
      modifies this`wire
      ensures View() == old(View()).(wire := old(wire) + [Handed(w, SessionEnded(reason)), Handed(w, Shut)])
    {
      Send(w, SessionEnded(reason));
      Send(w, Shut);
    }

    /** `websocket.send_json(frame)`, or `websocket.close()`. */
    method Send(w: SocketId, f: Frame)
      modifies this`wire
      ensures View() == old(View()).Send(w, f)
    {
      wire := wire + [Handed(w, f)];
    }
  }

  /** The per-session locks. They are not re-entrant: a coroutine that took one twice would never get
      on, so `Acquire` asks that its caller does not hold it. */
  class Locks {
    var held: set<Id>

    constructor ()
      ensures held == {}
    {
      held := {};
    }

    method Acquire(sid: Id)
      requires sid !in held
      modifies this
      ensures held == old(held) + {sid}
    {
      held := held + {sid};
    }

    method Release(sid: Id)
      requires sid in held
      modifies this
      ensures held == old(held) - {sid}
    {
      held := held - {sid};
    }
  }

  /** The event loop, as far as its background tasks go. */
  class EventLoop {
    var jobs: Jobs
    var spawned: JobId

    constructor ()
      ensures jobs == map[] && spawned == 0
    {
      jobs, spawned := map[], 0;
    }

    /** `asyncio.create_task`. */
    method Spawn(task: Job) returns (job: JobId)
      modifies this
      ensures job == old(spawned) && spawned == job + 1 && jobs == old(jobs)[job := task]
    {
      job := spawned;
      jobs := jobs[job := task];
      spawned := spawned + 1;
    }

    /** `task.cancel()`, where there is a task. */
    method Cancel(job: Option<JobId>)
      modifies this`jobs
      ensures jobs == Stopped(old(jobs), job)
    {
      if job.Some? && job.value in jobs {
        if jobs[job.value].Monitoring? {
          jobs := jobs - {job.value};
        } else {
          jobs := jobs[job.value := Unwinding];
        }
      }
    }

    /** The task has returned. */
    method Finish(job: JobId)
      modifies this`jobs
      ensures jobs == old(jobs) - {job}
    {
      jobs := jobs - {job};
    }
  }

  class SessionManager {
    const tables: Database.Tables
    const locks: Locks
    const loop: EventLoop
    var handoffTasks: map<Id, JobId>
    var states: map<Id, SessionState>
    var activeSessions: int      // the gauge

    ghost function CountedSessions(): set<Id>
      reads this, set s | s in states :: states[s]
    {
      set s | s in states && states[s].activeMetricCounted
    }

    /** The gauge is the number of states whose flag is set. */
    ghost predicate Valid()
      reads this, set s | s in states :: states[s]
    {
      && (forall s | s in states :: states[s].sessionId == s && states[s].a != states[s].b
            && (states[s].activeMetricCounted ==> states[s].activeAt.Some?))
      && activeSessions == |CountedSessions()|
    }

    constructor (tables: Database.Tables)
      ensures Valid() && this.tables == tables && fresh(locks) && locks.held == {}
      ensures fresh(loop) && loop.jobs == map[] && handoffTasks == map[]
      ensures states == map[] && activeSessions == 0
    {
      this.tables := tables;
      locks := new Locks();
      loop := new EventLoop();
      states, activeSessions, handoffTasks := map[], 0, map[];
      new;
      assert CountedSessions() == {};
    }

    /** `_load_pubkeys`. */
    function Pubkeys(a: Id, b: Id): map<Id, string>
      reads tables
    {
      map x | x in {a, b} && x in tables.agents :: tables.agents[x].pubkey
    }

    /** The state of the session in this process, made on first use. */
    method StateFor(sid: Id, a: Id, b: Id, seen: nat, now: Time) returns (state: SessionState)
      requires Valid() && a != b
      modifies this`states
      ensures Valid() && states == old(states)[sid := state] && Knows(state) && state.sessionId == sid
      ensures sid in old(states) ==> state == old(states)[sid]
      ensures sid !in old(states) ==> fresh(state) && state.View() == NewRoom(a, b, seen, Pubkeys(a, b), now)
    {
      if sid in states {
        state := states[sid];
      } else {
        state := new SessionState(sid, a, b, Pubkeys(a, b), seen, now);
        ghost var counted := CountedSessions();
        states := states[sid := state];
        assert CountedSessions() == counted;
      }
    }

    /** Setting one flag moves the gauge by one. */
    method CountActive(state: SessionState)
      requires Valid() && Knows(state)
      requires !state.activeMetricCounted && state.activeAt.Some?
      modifies this`activeSessions, state`activeMetricCounted
      ensures Valid() && state.activeMetricCounted && activeSessions == old(activeSessions) + 1
    {
      ghost var counted := CountedSessions();
      activeSessions := activeSessions + 1;
      state.activeMetricCounted := true;
      assert CountedSessions() == counted + {state.sessionId};
    }

    /** Clearing it moves the gauge back. */
    method CountEnded(state: SessionState)
      requires Valid() && Knows(state)
      modifies this`activeSessions, state`activeMetricCounted
      ensures Valid() && !state.activeMetricCounted
      ensures activeSessions == old(activeSessions) - if old(state.activeMetricCounted) then 1 else 0
    {
      ghost var counted := CountedSessions();
      if state.activeMetricCounted {
        activeSessions := activeSessions - 1;
        state.activeMetricCounted := false;
        assert CountedSessions() == counted - {state.sessionId};
      }
    }

    /** `_join`. `seen` is the count on the row the hello was authenticated against. */
    method Join(w: SocketId, sid: Id, a: Id, b: Id, seen: nat, agent: Id, now: Time)
      returns (state: SessionState, ghost before: Room)
      requires Valid() && sid !in locks.held && a != b
      modifies this`states, this`activeSessions, locks, loop, tables, if sid in states then {states[sid]} else {}
      ensures Valid() && locks.held == old(locks.held) && states == old(states)[sid := state]
      ensures Knows(state) && state.sessionId == sid
      ensures sid in old(states) ==> state == old(states)[sid] && before == old(states[sid].View())
      ensures sid !in old(states) ==> fresh(state) && before == NewRoom(a, b, seen, old(Pubkeys(a, b)), now)
      ensures state.View() == JoinRoom(before, agent, w, now, old(loop.spawned))
      ensures tables.View() == if Activates(before, agent, w) then Handlers.RelayActivate(old(tables.View()), now, sid)
                               else old(tables.View())
      ensures activeSessions == old(activeSessions) + if Activates(before, agent, w) then 1 else 0
      ensures loop.jobs == if Activates(before, agent, w) then old(loop.jobs)[old(loop.spawned) := Monitoring]
                           else old(loop.jobs)
    {
      hide JoinRoom, Activates, NewRoom, Handlers.RelayActivate;
      locks.Acquire(sid);
      state := StateFor(sid, a, b, seen, now);
      before := state.View();
      Admit(state, agent, w, now);
      locks.Release(sid);
      assert locks.held == old(locks.held);
    }

    predicate Knows(state: SessionState)
      reads this
    {
      state.sessionId in states && states[state.sessionId] == state
    }

    method Admit(state: SessionState, agent: Id, w: SocketId, now: Time)
      requires Valid() && Knows(state)
      modifies this`activeSessions, loop, state, tables
      ensures Valid()
      ensures state.View() == JoinRoom(old(state.View()), agent, w, now, old(loop.spawned))
      ensures tables.View() == if Activates(old(state.View()), agent, w)
                               then Handlers.RelayActivate(old(tables.View()), now, state.sessionId)
                               else old(tables.View())
      ensures activeSessions == old(activeSessions) + if Activates(old(state.View()), agent, w) then 1 else 0
      ensures loop.jobs == if Activates(old(state.View()), agent, w) then old(loop.jobs)[old(loop.spawned) := Monitoring]
                           else old(loop.jobs)
    {
      ghost var counted := CountedSessions();
      state.TakeSeat(agent, w);
      assert CountedSessions() == counted;
      if state.a in state.sockets && state.b in state.sockets && state.activeAt.None? {
        Activate(state, now);
      }
    }

    method Activate(state: SessionState, now: Time)
      requires Valid() && Knows(state) && state.activeAt.None?
      modifies this`activeSessions, loop, state, tables
      ensures Valid() && activeSessions == old(activeSessions) + 1
      ensures state.View() == old(state.View()).(activeAt := Some(now), lastMessageAt := now, counted := true,
                                                 monitor := Some(old(loop.spawned)))
      ensures tables.View() == Handlers.RelayActivate(old(tables.View()), now, state.sessionId)
      ensures loop.jobs == old(loop.jobs)[old(loop.spawned) := Monitoring]
    {
      ghost var counted := CountedSessions();
      state.activeAt := Some(now);
      state.lastMessageAt := now;
      tables.SetSessionActive(now, state.sessionId);
      assert CountedSessions() == counted;
      CountActive(state);
      StartMonitor(state);
    }

    method StartMonitor(state: SessionState)
      requires Valid() && Knows(state)
      modifies loop, state`monitorTask
      ensures Valid() && state.View() == old(state.View()).(monitor := Some(old(loop.spawned)))
      ensures loop.jobs == old(loop.jobs)[old(loop.spawned) := Monitoring]
    {
      ghost var counted := CountedSessions();
      var job := loop.Spawn(Monitoring);
      state.monitorTask := Some(job);
      assert CountedSessions() == counted;
    }

    /** `_flush_for_joined_agent`, when nothing comes between its turns: the socket is looked up once,
        and the oldest held message goes first. */
    method FlushForJoinedAgent(state: SessionState, agent: Id)
      requires Valid() && Knows(state)
      modifies state`wire, state`buffers
      ensures Valid()
      ensures state.View() == if agent in old(state.sockets) then FlushAll(old(state.View()), agent, old(state.sockets[agent]))
                              else old(state.View())
    {
      if agent !in state.sockets { return; }
      ghost var counted := CountedSessions();
      var to := state.sockets[agent];
      var sender := if agent == state.a then state.b else state.a;
      while sender in state.buffers && state.buffers[sender] != []
        invariant FlushAll(state.View(), agent, to) == FlushAll(old(state.View()), agent, to)
        decreases |state.View().Buffer(sender)|
      {
        var next := state.buffers[sender][0];
        state.buffers := state.buffers[sender := state.buffers[sender][1..]];
        state.Send(to, Relayed(next));
      }
      assert CountedSessions() == counted;
    }

    /** An accepted message on its way to the other members: there is exactly one. */
    method Forward(state: SessionState, agent: Id, w: SocketId, e: Envelope)
      requires state.a != state.b && (agent == state.a || agent == state.b)
      modifies state`wire, state`buffers
      ensures state.View() == Route(old(state.View()), agent, w, e)
    {
      var recipients := {state.a, state.b} - {agent};
      ghost var peer := state.View().Peer(agent);
      assert recipients == {peer};
      while recipients != {}
        invariant recipients <= {peer}
        invariant state.View() == if recipients == {} then Route(old(state.View()), agent, w, e) else old(state.View())
        decreases recipients
      {
        var recipient :| recipient in recipients;
        recipients := recipients - {recipient};
        if recipient in state.sockets {
          state.Send(state.sockets[recipient], Relayed(e));
        } else {
          if agent !in state.buffers { state.buffers := state.buffers[agent := []]; }
          if |state.buffers[agent]| >= BUFFER_LIMIT {
            state.Send(w, ErrorFrame("buffer_full"));
          } else {
            state.buffers := state.buffers[agent := state.buffers[agent] + [e]];
          }
        }
      }
    }

    /** `_handle_frame` as far as the release of the lock. */
    method TakeFrame(state: SessionState, agent: Id, w: SocketId, raw: Raw, now: Time) returns (shouldEnd: bool)
      requires Knows(state) && Valid() && state.sessionId !in locks.held
      requires agent == state.a || agent == state.b
      modifies locks, tables`sessions, state`wire, state`buffers, state`messageCount, state`lastMessageAt
      ensures Valid() && locks.held == old(locks.held)
      ensures shouldEnd == HitsCap(old(state.View()), raw)
      ensures state.View() == FrameRoom(old(state.View()), agent, w, raw, now)
      ensures tables.View() == if PersistsCount(old(state.View()), raw)
                               then Handlers.RelayCount(old(tables.View()), state.sessionId, old(state.messageCount) + 1)
                               else old(tables.View())
    {
      hide Route;
      ghost var counted := CountedSessions();
      var bad := Malformed(raw);
      if bad.Some? {
        state.Send(w, ErrorFrame(bad.value));
        shouldEnd := false;
      } else {
        locks.Acquire(state.sessionId);
        shouldEnd := TakeMessage(state, agent, w, raw, now);
        locks.Release(state.sessionId);
        assert locks.held == old(locks.held);
      }
      assert CountedSessions() == counted;
    }

    /** The section `_handle_frame` runs under the lock. */
    method TakeMessage(state: SessionState, agent: Id, w: SocketId, raw: Raw, now: Time) returns (shouldEnd: bool)
      requires Malformed(raw).None? && state.a != state.b && (agent == state.a || agent == state.b)
      modifies tables`sessions, state`wire, state`buffers, state`messageCount, state`lastMessageAt
      ensures shouldEnd == HitsCap(old(state.View()), raw)
      ensures state.View() == FrameRoom(old(state.View()), agent, w, raw, now)
      ensures tables.View() == if PersistsCount(old(state.View()), raw)
                               then Handlers.RelayCount(old(tables.View()), state.sessionId, old(state.messageCount) + 1)
                               else old(tables.View())
    {
      hide Route;
      shouldEnd := false;
      if state.closed {
        state.Send(w, ErrorFrame("session_closed"));
      } else if state.messageCount >= MESSAGE_CAP {
        shouldEnd := true;
      } else {
        AcceptMessage(state, agent, w, raw, now);
      }
    }

    /** Count it, persist the count every tenth time, send it on. */
    method AcceptMessage(state: SessionState, agent: Id, w: SocketId, raw: Raw, now: Time)
      requires Accepts(state.View(), raw) && state.a != state.b && (agent == state.a || agent == state.b)
      modifies tables`sessions, state`wire, state`buffers, state`messageCount, state`lastMessageAt
      ensures state.View() == FrameRoom(old(state.View()), agent, w, raw, now)
      ensures tables.View() == if PersistsCount(old(state.View()), raw)
                               then Handlers.RelayCount(old(tables.View()), state.sessionId, old(state.messageCount) + 1)
                               else old(tables.View())
    {
      hide Route;
      var envelope := Stamped(state.View(), agent, raw);
      state.messageCount := state.messageCount + 1;
      state.lastMessageAt := now;
      if state.messageCount % PERSIST_EVERY == 0 {
        tables.PersistMessageCount(state.sessionId, state.messageCount);
      }
      Forward(state, agent, w, envelope);
    }

    /** `_handle_frame`: the lock is free again before the session is ended. */
    method HandleFrame(state: SessionState, agent: Id, w: SocketId, raw: Raw, now: Time)
      requires Knows(state) && Valid() && state.sessionId !in locks.held
      requires agent == state.a || agent == state.b
      modifies this`activeSessions, locks, loop, tables, state
      ensures Valid() && locks.held == old(locks.held)
      ensures !HitsCap(old(state.View()), raw) ==>
        && state.View() == FrameRoom(old(state.View()), agent, w, raw, now)
        && activeSessions == old(activeSessions) && loop.jobs == old(loop.jobs)
        && tables.View() == if PersistsCount(old(state.View()), raw)
                            then Handlers.RelayCount(old(tables.View()), state.sessionId, old(state.messageCount) + 1)
                            else old(tables.View())
      ensures HitsCap(old(state.View()), raw) ==>
        && state.View() == EndRoom(old(state.View()), MessageCapReached, Foreground)
        && loop.jobs == EndedJobs(old(loop.jobs), old(state.View()))
        && tables.View() == Handlers.RelayClose(old(tables.View()), now, state.sessionId, MessageCapReached,
                                                Some(old(state.messageCount)))
    {
      var shouldEnd := TakeFrame(state, agent, w, raw, now);
      if shouldEnd {
        EndSession(state.sessionId, MessageCapReached, Foreground, now);
      }
    }

    /** `_disconnect`: a socket gives up the seat only if it is the one that has it. */
    method Disconnect(state: SessionState, agent: Id, w: SocketId)
      requires Valid() && Knows(state) && state.sessionId !in locks.held
      modifies locks, state`sockets
      ensures Valid() && locks.held == old(locks.held) && state.View() == LeaveRoom(old(state.View()), agent, w)
    {
      ghost var counted := CountedSessions();
      locks.Acquire(state.sessionId);
      if agent in state.sockets && state.sockets[agent] == w {
        state.sockets := state.sockets - {agent};
      }
      locks.Release(state.sessionId);
      assert locks.held == old(locks.held);
      assert CountedSessions() == counted;
    }

    /** The background tasks after the first close of a session: those registered on it are cancelled. */
    static function EndedJobs(jobs: Jobs, r: Room): Jobs {
      if r.closed then jobs else Stopped(Stopped(jobs, r.monitor), r.handoff)
    }

    /** `end_session`. What becomes of it depends on who calls: see `CutsShort`. */
    method EndSession(sid: Id, reason: CloseReason, c: Caller, now: Time)
      requires Valid() && sid !in locks.held
      modifies this`activeSessions, locks, loop`jobs, tables, if sid in states then {states[sid]} else {}
      ensures Valid() && locks.held == old(locks.held)
      ensures sid in states ==>
        && states[sid].View() == EndRoom(old(states[sid].View()), reason, c)
        && activeSessions == old(activeSessions) - (if old(!states[sid].closed && states[sid].activeMetricCounted) then 1 else 0)
        && loop.jobs == EndedJobs(old(loop.jobs), old(states[sid].View()))
        && tables.View() == if old(states[sid].closed) || CutsShort(old(states[sid].View()), c) then old(tables.View())
                            else Handlers.RelayClose(old(tables.View()), now, sid, reason, Some(old(states[sid].messageCount)))
      ensures sid !in states ==>
        && activeSessions == old(activeSessions) && loop.jobs == old(loop.jobs)
        && tables.View() == Handlers.RelayClose(old(tables.View()), now, sid, reason, None)
    {
      if sid in states {
        locks.Acquire(sid);
        CloseState(states[sid], reason, c, now);
        locks.Release(sid);
        assert locks.held == old(locks.held);
      } else {
        tables.PersistClosed(now, sid, reason, None);
      }
    }

    /** The section `end_session` runs under the lock. */
    method CloseState(state: SessionState, reason: CloseReason, c: Caller, now: Time)
      requires Valid() && Knows(state)
      modifies this`activeSessions, loop`jobs, tables, state
      ensures Valid()
      ensures state.View() == EndRoom(old(state.View()), reason, c)
      ensures activeSessions == old(activeSessions) - (if old(!state.closed && state.activeMetricCounted) then 1 else 0)
      ensures loop.jobs == EndedJobs(old(loop.jobs), old(state.View()))
      ensures tables.View() == if old(state.closed) || CutsShort(old(state.View()), c) then old(tables.View())
                               else Handlers.RelayClose(old(tables.View()), now, state.sessionId, reason, Some(old(state.messageCount)))
    {
      hide Dismissed, Stopped, Handlers.RelayClose;
      if state.closed { return; }
      MarkClosed(state);
      var cutShort := CancelTasks(state, c);
      if cutShort { return; }
      Conclude(state, reason, now);
    }

    /** What `end_session` does last: the row, then the members. */
    method Conclude(state: SessionState, reason: CloseReason, now: Time)
      requires Valid() && Knows(state)
      modifies tables, state`wire, state`sockets
      ensures Valid() && state.View() == Dismissed(old(state.View()), reason)
      ensures tables.View()
              == Handlers.RelayClose(old(tables.View()), now, state.sessionId, reason, Some(state.messageCount))
    {
      hide Dismissed, Handlers.RelayClose;
      ghost var counted := CountedSessions();
      tables.PersistClosed(now, state.sessionId, reason, Some(state.messageCount));
      assert CountedSessions() == counted;
      Dismiss(state, reason);
    }

    /** Cancels what is registered on the state, and says whether that was the caller. */
    method CancelTasks(state: SessionState, c: Caller) returns (cutShort: bool)
      requires Valid()
      modifies loop`jobs
      ensures Valid() && loop.jobs == Stopped(Stopped(old(loop.jobs), state.monitorTask), state.handoffTask)
      ensures cutShort == CutsShort(state.View(), c)
    {
      hide Stopped;
      ghost var counted := CountedSessions();
      loop.Cancel(state.monitorTask);
      loop.Cancel(state.handoffTask);
      assert CountedSessions() == counted;
      cutShort := c.Background? && (state.monitorTask == Some(c.job) || state.handoffTask == Some(c.job));
    }

    method MarkClosed(state: SessionState)
      requires Valid() && Knows(state)
      modifies this`activeSessions, state`closed, state`activeMetricCounted
      ensures Valid() && state.closed && !state.activeMetricCounted
      ensures activeSessions == old(activeSessions) - (if old(state.activeMetricCounted) then 1 else 0)
    {
      ghost var counted := CountedSessions();
      state.closed := true;
      assert CountedSessions() == counted;
      CountEnded(state);
    }

    method Dismiss(state: SessionState, reason: CloseReason)
      requires Valid() && Knows(state)
      modifies state`wire, state`sockets
      ensures Valid()
      ensures state.View() == Dismissed(old(state.View()), reason)
    {
      ghost var counted := CountedSessions();
      state.SayFarewell(reason);
      assert CountedSessions() == counted;
    }

    /** `schedule_handoff_close`: the new task is registered where the old one was. */
    method ScheduleHandoffClose(sid: Id, now: Time)
      requires Valid()
      modifies this`handoffTasks, loop, if sid in states then {states[sid]} else {}
      ensures Valid() && loop.spawned == old(loop.spawned) + 1
      ensures sid !in states ==>
        && loop.jobs == Stopped(old(loop.jobs), if sid in old(handoffTasks) then Some(old(handoffTasks[sid])) else None)[
                          old(loop.spawned) := HandingOff(now + HANDOFF_WINDOW)]
        && handoffTasks == old(handoffTasks)[sid := old(loop.spawned)]
      ensures sid in states ==>
        && loop.jobs == Stopped(old(loop.jobs), old(states[sid].handoffTask))[
                          old(loop.spawned) := HandingOff(now + HANDOFF_WINDOW)]
        && states[sid].View() == old(states[sid].View()).(handoff := Some(old(loop.spawned)))
        && handoffTasks == old(handoffTasks)
    {
      ghost var counted := CountedSessions();
      if sid !in states {
        if sid in handoffTasks { loop.Cancel(Some(handoffTasks[sid])); }
        var job := loop.Spawn(HandingOff(now + HANDOFF_WINDOW));
        handoffTasks := handoffTasks[sid := job];
        assert CountedSessions() == counted;
      } else {
        loop.Cancel(states[sid].handoffTask);
        var job := loop.Spawn(HandingOff(now + HANDOFF_WINDOW));
        states[sid].handoffTask := Some(job);
        assert CountedSessions() == counted;
      }
    }

    /** `_close_after_handoff` once its ten minutes are over. Its `finally` clears the session's entry,
        whosever it is. */
    method CloseAfterHandoff(job: JobId, sid: Id, now: Time)
      requires Valid() && sid !in locks.held && job in loop.jobs && loop.jobs[job].HandingOff?
      modifies this`activeSessions, this`handoffTasks, locks, loop`jobs, tables, if sid in states then {states[sid]} else {}
      ensures Valid() && locks.held == old(locks.held) && handoffTasks == old(handoffTasks) - {sid}
      ensures sid in states ==>
        && states[sid].View() == EndRoom(old(states[sid].View()), HandoffComplete, Background(job))
        && loop.jobs == EndedJobs(old(loop.jobs) - {job}, old(states[sid].View()))
        && tables.View() == if old(states[sid].closed) || CutsShort(old(states[sid].View()), Background(job)) then old(tables.View())
                            else Handlers.RelayClose(old(tables.View()), now, sid, HandoffComplete, Some(old(states[sid].messageCount)))
      ensures sid !in states ==>
        loop.jobs == old(loop.jobs) - {job}
        && tables.View() == Handlers.RelayClose(old(tables.View()), now, sid, HandoffComplete, None)
    {
      hide Stopped, EndRoom, Handlers.RelayClose;
      EndSession(sid, HandoffComplete, Background(job), now);
      Unwind(job, sid);
      if sid in states { EndedThenThrough(old(loop.jobs), old(states[sid].View()), job); }
    }

    /** The `finally` of a handoff task, cancelled or not. */
    method Unwind(job: JobId, sid: Id)
      requires Valid()
      modifies this`handoffTasks, loop`jobs
      ensures Valid() && loop.jobs == old(loop.jobs) - {job} && handoffTasks == old(handoffTasks) - {sid}
    {
      ghost var counted := CountedSessions();
      handoffTasks := handoffTasks - {sid};
      loop.Finish(job);
      assert CountedSessions() == counted;
    }

    /** It makes no difference whether the task that closes counts as through before or after. */
    static lemma EndedThenThrough(jobs: Jobs, r: Room, job: JobId)
      ensures EndedJobs(jobs, r) - {job} == EndedJobs(jobs - {job}, r)
    {
      StoppedThenThrough(jobs, r.monitor, job);
      StoppedThenThrough(Stopped(jobs, r.monitor), r.handoff, job);
    }

    static lemma StoppedThenThrough(jobs: Jobs, which: Option<JobId>, job: JobId)
      ensures Stopped(jobs, which) - {job} == Stopped(jobs - {job}, which)
    {
    }

    /** One wake-up of `_monitor_limits`, and whether the monitor goes on. It is registered on the state
        it watches, so its own call to `end_session` cancels it and no row is written. */
    method MonitorWake(state: SessionState, job: JobId, now: Time) returns (again: bool)
      requires Valid() && Knows(state) && state.sessionId !in locks.held && state.monitorTask == Some(job)
      modifies this`activeSessions, locks, loop`jobs, tables, state
      ensures Valid() && locks.held == old(locks.held) && tables.View() == old(tables.View())
      ensures again == (!old(state.closed) && MonitorVerdict(old(state.View()), now).None?)
      ensures state.View() == if MonitorVerdict(old(state.View()), now).Some?
                              then EndRoom(old(state.View()), MonitorVerdict(old(state.View()), now).value, Background(job))
                              else old(state.View())
      ensures loop.jobs == if again then old(loop.jobs) else EndedJobs(old(loop.jobs) - {job}, old(state.View()))
    {
      EndedThenThrough(loop.jobs, state.View(), job);
      if state.closed {
        loop.Finish(job);
        return false;
      }
      if state.activeAt.Some? && now - state.activeAt.value >= ACTIVE_WINDOW {
        EndSession(state.sessionId, TimeLimitReached, Background(job), now);
        loop.Finish(job);
        return false;
      }
      if now - state.lastMessageAt >= INACTIVITY_WINDOW {
        EndSession(state.sessionId, Inactivity, Background(job), now);
        loop.Finish(job);
        return false;
      }
      return true;
    }
  }
}
