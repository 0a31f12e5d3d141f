/** One session's relay under every interleaving: the websocket handlers of both members, closes from
    elsewhere, other writers of the row, and restarts of the process. */
module RelayWorld {
  import opened Basics
  import opened Rows
  import opened Handlers
  import opened Moves
  import opened Relay

  /** How far the coroutine `handle_websocket` of one socket has come. Between any two of these
      points other coroutines may run. */
  datatype Phase =
    | Authed(seen: nat)       // hello accepted; `seen` is the row's message count it carries along
    | Greeting                // joined, about to send `ready`
    | Starting                // about to look up the socket to flush to
    | Flushing(to: SocketId)  // in the flush loop
    | Looping                 // receiving frames
    | Ending                  // saw the cap, has released the lock, about to end the session
    | Gone

  datatype Task = Task(agent: Id, phase: Phase)

  /** `loose` is the session's entry in `_handoff_tasks`; `spawned` numbers the background tasks. */
  datatype World = World(row: Session, keys: map<Id, string>, room: Option<Room>, tasks: map<SocketId, Task>,
                         jobs: Jobs, loose: Option<JobId>, spawned: JobId)

  datatype Op =
    | Hello(w: SocketId, agent: Id, admitted: bool)
    | Join(w: SocketId)
    | Greet(w: SocketId)
    | StartFlush(w: SocketId)
    | FlushStep(w: SocketId)
    | Receive(w: SocketId, raw: Raw)
    | CapEnd(w: SocketId)
    | Leave(w: SocketId)
    | End(reason: CloseReason)
    | Schedule
    | Wake(job: JobId)
    | Outside(row: Session)
    | Restart

  predicate At(w: World, s: SocketId, p: Phase) { s in w.tasks && w.tasks[s].phase == p }

  predicate Flushes(w: World, s: SocketId) { s in w.tasks && w.tasks[s].phase.Flushing? }

  predicate Waits(w: World, s: SocketId) { s in w.tasks && w.tasks[s].phase.Authed? }

  function Moved(w: World, s: SocketId, p: Phase): World
    requires s in w.tasks
  {
    w.(tasks := w.tasks[s := w.tasks[s].(phase := p)])
  }

  /** What the rest of the server may do to the row: close it, or move it among the open statuses
      past `awaiting_join`. */
  predicate OutsideMay(r: Session, q: Session) {
    && q.agentA == r.agentA && q.agentB == r.agentB && q.messageCount == r.messageCount
    && (r.status == Closed ==> q == r)
    && (q.status == AwaitingJoin <==> r.status == AwaitingJoin && q.status != Closed)
  }

  /** That is all the other steps do to it. */
  lemma OutsideCovers(r: Session, q: Session, now: Time, e: Event, sid: Id)
    requires RowMoves(r, q, now, e, sid) && !e.DoRelayActivate? && !e.DoRelayCount? && !e.DoRelayClose?
    ensures OutsideMay(r, q)
  {
  }

  /** `_authenticate_hello`, the signature, clock and agent checks being `admitted`. */
  predicate Authenticates(w: World, agent: Id, admitted: bool) {
    admitted && w.row.HasMember(agent) && w.row.status != Closed
  }

  function RoomFor(w: World, s: SocketId, now: Time): Room
    requires Waits(w, s)
  {
    if w.room.Some? then w.room.value
    else NewRoom(w.row.agentA, w.row.agentB, w.tasks[s].phase.seen, w.keys, now)
  }

  function DoJoin(w: World, s: SocketId, now: Time): World
    requires Waits(w, s)
  {
    var r, agent := RoomFor(w, s, now), w.tasks[s].agent;
    var joined := Moved(w, s, Greeting).(room := Some(JoinRoom(r, agent, s, now, w.spawned)));
    if Activates(r, agent, s)
    then joined.(row := ActivatedRow(w.row, now), jobs := w.jobs[w.spawned := Monitoring], spawned := w.spawned + 1)
    else joined
  }

  function DoReceive(w: World, s: SocketId, raw: Raw, now: Time): World
    requires At(w, s, Looping) && w.room.Some?
  {
    var r, agent := w.room.value, w.tasks[s].agent;
    Moved(w, s, if HitsCap(r, raw) then Ending else Looping).(
      room := Some(FrameRoom(r, agent, s, raw, now)),
      row := if PersistsCount(r, raw) then w.row.(messageCount := r.count + 1) else w.row)
  }

  function DoEnd(w: World, reason: CloseReason, c: Caller, now: Time): World {
    if w.room.None? then w.(row := ClosedRow(w.row, now, reason, None))
    else if w.room.value.closed then w
    else
      var r := w.room.value;
      w.(room := Some(EndRoom(r, reason, c)),
         row := if CutsShort(r, c) then w.row else ClosedRow(w.row, now, reason, Some(r.count)),
         jobs := Stopped(Stopped(w.jobs, r.monitor), r.handoff))
  }

  /** `schedule_handoff_close`: with a state of this process the new task is registered on it, without
      one in `_handoff_tasks`; the one registered there before is cancelled. */
  function DoSchedule(w: World, now: Time): World {
    var job, task := w.spawned, HandingOff(now + HANDOFF_WINDOW);
    if w.room.None?
    then w.(jobs := Stopped(w.jobs, w.loose)[job := task], loose := Some(job), spawned := job + 1)
    else w.(jobs := Stopped(w.jobs, w.room.value.handoff)[job := task], spawned := job + 1,
            room := Some(w.room.value.(handoff := Some(job))))
  }

  /** Why a background task that wakes now calls `end_session`, if it does. */
  function Fires(w: World, now: Time, job: JobId): Option<CloseReason> {
    if job !in w.jobs then None
    else match w.jobs[job]
      case Monitoring => if w.room.Some? then MonitorVerdict(w.room.value, now) else None
      case HandingOff(due) => if due <= now then Some(HandoffComplete) else None
      case Unwinding => None
  }

  /** A task that is through. The last thing any handoff task does is to clear the session's entry in
      `_handoff_tasks`, whosever it is. */
  function Through(w: World, job: JobId): World
    requires job in w.jobs
  {
    w.(jobs := w.jobs - {job}, loose := if w.jobs[job].Monitoring? then w.loose else None)
  }

  /** One wake-up of a background task. */
  function DoWake(w: World, job: JobId, now: Time): World {
    if job !in w.jobs then w
    else if Fires(w, now, job).Some? then DoEnd(Through(w, job), Fires(w, now, job).value, Background(job), now)
    else if w.jobs[job].Unwinding? || (w.room.Some? && w.room.value.closed && w.jobs[job].Monitoring?)
    then Through(w, job)
    else w
  }

  /** One uninterrupted stretch of one coroutine; an op that is not enabled changes nothing. */
  function Do(w: World, now: Time, op: Op): World {
    match op
    case Hello(s, agent, admitted) =>
      if s in w.tasks || !Authenticates(w, agent, admitted) then w
      else w.(tasks := w.tasks[s := Task(agent, Authed(w.row.messageCount))])
    case Join(s) => if Waits(w, s) then DoJoin(w, s, now) else w
    case Greet(s) =>
      if At(w, s, Greeting) && w.room.Some?
      then Moved(w, s, Starting).(room := Some(w.room.value.Send(s, Ready))) else w
    case StartFlush(s) =>
      if At(w, s, Starting) && w.room.Some?
      then Moved(w, s, if w.tasks[s].agent in w.room.value.sockets
                       then Flushing(w.room.value.sockets[w.tasks[s].agent]) else Looping) else w
    case FlushStep(s) =>
      if Flushes(w, s) && w.room.Some? then
        if w.room.value.Buffer(w.room.value.Peer(w.tasks[s].agent)) == [] then Moved(w, s, Looping)
        else w.(room := Some(FlushOne(w.room.value, w.tasks[s].agent, w.tasks[s].phase.to)))
      else w
    case Receive(s, raw) => if At(w, s, Looping) && w.room.Some? then DoReceive(w, s, raw, now) else w
    case CapEnd(s) =>
      if At(w, s, Ending) && w.room.Some?
      then DoEnd(Moved(w, s, Looping), MessageCapReached, Foreground, now) else w
    case Leave(s) =>
      if At(w, s, Looping) && w.room.Some?
      then Moved(w, s, Gone).(room := Some(LeaveRoom(w.room.value, w.tasks[s].agent, s))) else w
    case End(reason) => DoEnd(w, reason, Foreground, now)
    case Schedule => DoSchedule(w, now)
    case Wake(job) => DoWake(w, job, now)
    case Outside(row) => if OutsideMay(w.row, row) then w.(row := row) else w
    case Restart => w.(room := None, tasks := map[], jobs := map[], loose := None)
  }

  datatype Tick = Tick(at: Time, op: Op)

  /** A session row as `accept_connection_request` leaves it; `keys` are the members' public keys. */
  predicate Fresh(w: World) {
    && w.keys.Keys == {w.row.agentA, w.row.agentB}
    && w.room.None? && w.tasks == map[] && w.row.agentA != w.row.agentB
    && w.row.status == AwaitingJoin && w.row.messageCount == 0 && w.jobs == map[] && w.loose.None?
  }

  function Run(w: World, log: seq<Tick>, n: nat): World
    requires n <= |log|
  {
    if n == 0 then w else Do(Run(w, log, n - 1), log[n - 1].at, log[n - 1].op)
  }

  // ---------------------------------------------------------------- what every run keeps

  type Tasks = map<SocketId, Task>

  predicate Joined(t: Task) { !t.phase.Authed? }

  predicate Unfinished(t: Task) { t.phase.Greeting? || t.phase.Starting? || t.phase.Flushing? }

  /** Socket `s` was joined by `x`. */
  predicate Belongs(t: Tasks, s: SocketId, x: Id) { s in t && Joined(t[s]) && t[s].agent == x }

  /** Some handler of `agent` has joined and not yet come to the end of its flush. */
  ghost predicate FlushPending(t: Tasks, agent: Id) {
    exists s :: s in t && t[s].agent == agent && Unfinished(t[s])
  }

  /** A registered socket belongs to the member it is registered for. */
  ghost predicate SeatsSound(t: Tasks, r: Room) {
    forall x | x in r.sockets :: r.Member(x) && Belongs(t, r.sockets[x], x)
  }

  /** The envelope names its sender by the sender's own key, whatever the frame claimed. */
  predicate Honest(r: Room, e: Envelope) {
    r.Member(e.sender) && (e.sender in r.pubkeys ==> e.from == r.pubkeys[e.sender])
  }

  /** A relayed message is on a socket of the member who did not send it. */
  predicate HandedSound(t: Tasks, r: Room, h: Handed) {
    h.socket in t
    && (h.frame.Relayed? ==> Honest(r, h.frame.envelope) && Belongs(t, h.socket, r.Peer(h.frame.envelope.sender)))
  }

  ghost predicate WireSound(t: Tasks, r: Room) {
    forall i | 0 <= i < |r.wire| :: HandedSound(t, r, r.wire[i])
  }

  predicate QueueSound(r: Room, x: Id, q: seq<Envelope>) {
    && r.Member(x) && |q| <= BUFFER_LIMIT
    && forall i | 0 <= i < |q| :: q[i].sender == x && Honest(r, q[i])
  }

  ghost predicate BuffersSound(r: Room) {
    forall x | x in r.buffers :: QueueSound(r, x, r.buffers[x])
  }

  /** Messages are held back only while the counterparty is away or still catching up. */
  ghost predicate Drains(t: Tasks, r: Room, x: Id) {
    r.Buffer(x) != [] && r.Peer(x) in r.sockets ==> FlushPending(t, r.Peer(x))
  }

  ghost predicate Held(t: Tasks, r: Room) {
    && r.a != r.b && SeatsSound(t, r) && WireSound(t, r) && BuffersSound(r)
    && Drains(t, r, r.a) && Drains(t, r, r.b)
  }

  /** The persisted count is the last multiple of ten, until a close writes the exact one. */
  predicate Counted(row: Session, r: Room) {
    && r.a == row.agentA && r.b == row.agentB && r.count <= MESSAGE_CAP
    && row.messageCount <= r.count < row.messageCount + PERSIST_EVERY
    && (!r.closed || row.status != Closed ==> row.messageCount == r.count - r.count % PERSIST_EVERY)
    && (r.counted ==> r.activeAt.Some?)
    && (!r.closed ==> (r.counted <==> r.activeAt.Some?))
  }

  predicate TaskSound(row: Session, room: Option<Room>, t: Tasks, s: SocketId)
    requires s in t
  {
    && row.HasMember(t[s].agent)
    && (room.None? ==> t[s].phase == Authed(row.messageCount) && row.messageCount % PERSIST_EVERY == 0)
    && (t[s].phase.Flushing? ==> Belongs(t, t[s].phase.to, t[s].agent))
  }

  ghost predicate Sound(w: World) {
    && w.row.agentA != w.row.agentB && w.row.messageCount <= MESSAGE_CAP
    && (w.row.status != Closed ==> w.row.messageCount % PERSIST_EVERY == 0)
    && (forall s | s in w.tasks :: TaskSound(w.row, w.room, w.tasks, s))
    && (w.room.Some? ==> Held(w.tasks, w.room.value) && Counted(w.row, w.room.value))
  }

  // ---------------------------------------------------------------- sections, one by one

  /** Handlers move on; none changes its agent or un-joins. */
  ghost predicate Grows(t: Tasks, u: Tasks) {
    forall s | s in t :: s in u && u[s].agent == t[s].agent && (Joined(t[s]) ==> Joined(u[s]))
  }

  lemma HeldGrows(t: Tasks, u: Tasks, r: Room)
    requires Held(t, r) && Grows(t, u)
    ensures SeatsSound(u, r) && WireSound(u, r)
  {
  }

  lemma HeldSend(t: Tasks, r: Room, s: SocketId, f: Frame)
    requires Held(t, r) && HandedSound(t, r, Handed(s, f))
    ensures Held(t, r.Send(s, f))
  {
  }

  lemma HeldDirect(t: Tasks, r: Room, agent: Id, e: Envelope)
    requires Held(t, r) && e.sender == agent && Honest(r, e) && r.Peer(agent) in r.sockets
    ensures Held(t, r.Send(r.sockets[r.Peer(agent)], Relayed(e)))
  {
    HeldSend(t, r, r.sockets[r.Peer(agent)], Relayed(e));
  }

  lemma HeldQueue(t: Tasks, r: Room, agent: Id, q: seq<Envelope>)
    requires Held(t, r) && QueueSound(r, agent, q)
    requires r.Peer(agent) !in r.sockets || (r.Buffer(agent) == [] ==> q == [])
    ensures Held(t, r.(buffers := r.buffers[agent := q]))
  {
  }

  lemma HeldRoute(t: Tasks, r: Room, agent: Id, s: SocketId, e: Envelope)
    requires Held(t, r) && s in t && e.sender == agent && Honest(r, e)
    ensures Held(t, Route(r, agent, s, e))
  {
    match FateOf(r, agent)
    case Direct(_) => HeldDirect(t, r, agent, e);
    case Buffered =>
      assert agent in r.buffers ==> QueueSound(r, agent, r.buffers[agent]);
      HeldQueue(t, r, agent, r.Buffer(agent) + [e]);
    case Dropped =>
      assert agent in r.buffers ==> QueueSound(r, agent, r.buffers[agent]);
      HeldQueue(t, r, agent, r.Buffer(agent));
      HeldSend(t, r.(buffers := r.buffers[agent := r.Buffer(agent)]), s, ErrorFrame("buffer_full"));
  }

  lemma HeldFlush(t: Tasks, r: Room, agent: Id, to: SocketId)
    requires Held(t, r) && r.Member(agent) && Belongs(t, to, agent)
    ensures Held(t, FlushOne(r, agent, to))
  {
    var sender := r.Peer(agent);
    if r.Buffer(sender) != [] {
      assert QueueSound(r, sender, r.buffers[sender]);
      HeldQueue(t, r, sender, r.Buffer(sender)[1..]);
      HeldSend(t, r.(buffers := r.buffers[sender := r.Buffer(sender)[1..]]), to, Relayed(r.Buffer(sender)[0]));
    }
  }

  /** None of this speaks of counters and clocks. */
  lemma HeldAside(t: Tasks, r: Room, q: Room)
    requires Held(t, r)
    requires q == r.(count := q.count, lastMessageAt := q.lastMessageAt, activeAt := q.activeAt, counted := q.counted,
                     closed := q.closed, monitor := q.monitor, handoff := q.handoff)
    ensures Held(t, q)
  {
    forall x | x in q.buffers ensures QueueSound(q, x, q.buffers[x]) {
      assert QueueSound(r, x, r.buffers[x]);
    }
    forall i | 0 <= i < |q.wire| ensures HandedSound(t, q, q.wire[i]) {
      assert HandedSound(t, r, r.wire[i]);
    }
  }

  lemma HeldFrame(t: Tasks, r: Room, agent: Id, s: SocketId, raw: Raw, now: Time)
    requires Held(t, r) && r.Member(agent) && s in t
    ensures Held(t, FrameRoom(r, agent, s, raw, now))
  {
    hide Held, HandedSound;
    assert forall code :: HandedSound(t, r, Handed(s, ErrorFrame(code))) by { NoHarm(t, r, s); }
    if Malformed(raw).Some? {
      HeldSend(t, r, s, ErrorFrame(Malformed(raw).value));
    } else if r.closed {
      HeldSend(t, r, s, ErrorFrame("session_closed"));
    } else if r.count < MESSAGE_CAP {
      var q := r.(count := r.count + 1, lastMessageAt := now);
      HeldAside(t, r, q);
      HeldRoute(t, q, agent, s, Stamped(r, agent, raw));
    }
  }

  lemma HeldUnseat(t: Tasks, r: Room, agent: Id, s: SocketId)
    requires Held(t, r)
    ensures Held(t, LeaveRoom(r, agent, s))
  {
  }

  lemma HeldFarewell(t: Tasks, r: Room, x: Id, reason: CloseReason)
    requires Held(t, r)
    ensures Held(t, r.(wire := r.wire + Farewell(r, x, reason)))
  {
    if x in r.sockets {
      var s := r.sockets[x];
      HeldSend(t, r, s, SessionEnded(reason));
      HeldSend(t, r.Send(s, SessionEnded(reason)), s, Shut);
      assert r.wire + [Handed(s, SessionEnded(reason))] + [Handed(s, Shut)] == r.wire + Farewell(r, x, reason);
    } else {
      assert r.wire + [] == r.wire;
    }
  }

  lemma HeldCleared(t: Tasks, r: Room)
    requires Held(t, r)
    ensures Held(t, r.(sockets := map[]))
  {
  }

  lemma HeldEnd(t: Tasks, r: Room, reason: CloseReason, c: Caller)
    requires Held(t, r)
    ensures Held(t, EndRoom(r, reason, c))
  {
    hide Held;
    var q := r.(closed := true, counted := false);
    HeldAside(t, r, q);
    HeldFarewell(t, q, q.a, reason);
    var told := q.(wire := q.wire + Farewell(q, q.a, reason));
    HeldFarewell(t, told, q.b, reason);
    HeldCleared(t, told.(wire := told.wire + Farewell(told, q.b, reason)));
  }

  lemma NoHarm(t: Tasks, r: Room, s: SocketId)
    requires s in t
    ensures forall code :: HandedSound(t, r, Handed(s, ErrorFrame(code)))
  {
  }

  lemma PendingStays(t: Tasks, u: Tasks, s: SocketId, x: Id)
    requires FlushPending(t, x) && (s in t ==> !Unfinished(t[s]))
    requires forall y | y in t && y != s :: y in u && u[y] == t[y]
    ensures FlushPending(u, x)
  {
    var y :| y in t && t[y].agent == x && Unfinished(t[y]);
    assert y in u && u[y] == t[y];
  }

  lemma HeldSupersede(t: Tasks, r: Room, agent: Id, s: SocketId)
    requires Held(t, r)
    ensures Held(t, Supersede(r, agent, s))
  {
    if agent in r.sockets && r.sockets[agent] != s {
      assert Belongs(t, r.sockets[agent], agent);
      HeldSend(t, r, r.sockets[agent], Shut);
    }
  }

  /** Whoever takes a seat comes with a flush to do. */
  lemma HeldSeat(t: Tasks, u: Tasks, r: Room, agent: Id, s: SocketId)
    requires Held(t, r) && Grows(t, u) && r.Member(agent) && Belongs(u, s, agent) && Unfinished(u[s])
    requires forall y | y in t && y != s :: u[y] == t[y]
    requires s in t ==> !Unfinished(t[s])
    ensures Held(u, Seat(r, agent, s))
  {
    hide Held;
    HeldSupersede(t, r, agent, s);
    HeldPlace(t, u, Supersede(r, agent, s), agent, s);
  }

  lemma HeldPlace(t: Tasks, u: Tasks, r: Room, agent: Id, s: SocketId)
    requires Held(t, r) && Grows(t, u) && r.Member(agent) && Belongs(u, s, agent) && Unfinished(u[s])
    requires forall y | y in t && y != s :: u[y] == t[y]
    requires s in t ==> !Unfinished(t[s])
    ensures Held(u, r.(sockets := r.sockets[agent := s],
                       buffers := if agent in r.buffers then r.buffers else r.buffers[agent := []]))
  {
    HeldGrows(t, u, r);
    var q := r.(sockets := r.sockets[agent := s],
                buffers := if agent in r.buffers then r.buffers else r.buffers[agent := []]);
    assert FlushPending(u, agent);
    forall x | x == r.a || x == r.b ensures Drains(u, q, x) {
      assert q.Buffer(x) == r.Buffer(x);
      if r.Peer(x) != agent && FlushPending(t, r.Peer(x)) {
        PendingStays(t, u, s, r.Peer(x));
      }
    }
    forall x | x in q.buffers ensures QueueSound(q, x, q.buffers[x]) {
      if x in r.buffers { assert QueueSound(r, x, r.buffers[x]); }
    }
    forall i | 0 <= i < |q.wire| ensures HandedSound(u, q, q.wire[i]) {
      assert HandedSound(u, r, r.wire[i]);
    }
  }

  lemma HeldJoin(t: Tasks, u: Tasks, r: Room, agent: Id, s: SocketId, now: Time, job: JobId)
    requires Held(t, r) && Grows(t, u) && r.Member(agent) && Belongs(u, s, agent) && Unfinished(u[s])
    requires forall y | y in t && y != s :: u[y] == t[y]
    requires s in t ==> !Unfinished(t[s])
    ensures Held(u, JoinRoom(r, agent, s, now, job))
  {
    hide Held;
    HeldSeat(t, u, r, agent, s);
    HeldAside(u, Seat(r, agent, s), JoinRoom(r, agent, s, now, job));
  }

  /** A handler may finish once nothing is held for its agent, or its agent has no seat. */
  lemma HeldPhase(t: Tasks, r: Room, s: SocketId, p: Phase)
    requires Held(t, r) && s in t && r.Member(t[s].agent) && (Joined(t[s]) ==> !p.Authed?)
    requires Unfinished(t[s]) && !Unfinished(t[s].(phase := p)) ==>
               t[s].agent !in r.sockets || r.Buffer(r.Peer(t[s].agent)) == []
    ensures Held(t[s := t[s].(phase := p)], r)
  {
    var u := t[s := t[s].(phase := p)];
    HeldGrows(t, u, r);
    forall x | x == r.a || x == r.b ensures Drains(u, r, x) {
      if FlushPending(t, r.Peer(x)) {
        var y :| y in t && t[y].agent == r.Peer(x) && Unfinished(t[y]);
        assert y in u && (y != s ==> u[y] == t[y]);
        if y == s && !Unfinished(u[s]) { assert r.Peer(r.Peer(x)) == x; }
      }
    }
  }

  // ---------------------------------------------------------------- every op keeps it

  ghost predicate TasksSound(w: World) {
    forall s | s in w.tasks :: TaskSound(w.row, w.room, w.tasks, s)
  }

  /** Handlers stay sound when rooms stay, parties stay, and one handler moves to a sound place. */
  lemma TasksMove(w: World, v: World, s: SocketId)
    requires TasksSound(w) && Grows(w.tasks, v.tasks)
    requires v.row.agentA == w.row.agentA && v.row.agentB == w.row.agentB && (v.room.None? ==> w.room.None?)
    requires v.room.None? ==> v.row.messageCount == w.row.messageCount
    requires forall y | y in v.tasks && y != s :: y in w.tasks && v.tasks[y] == w.tasks[y]
    requires s in v.tasks ==> TaskSound(v.row, v.room, v.tasks, s)
    ensures TasksSound(v)
  {
    forall y | y in v.tasks ensures TaskSound(v.row, v.room, v.tasks, y) {
      if y != s { assert TaskSound(w.row, w.room, w.tasks, y); }
    }
  }

  lemma KeepsHello(w: World, now: Time, s: SocketId, agent: Id, admitted: bool)
    requires Sound(w)
    ensures Sound(Do(w, now, Hello(s, agent, admitted)))
  {
    var v := Do(w, now, Hello(s, agent, admitted));
    if v != w {
      TasksMove(w, v, s);
      if w.room.Some? {
        HeldNewcomer(w.tasks, v.tasks, w.room.value, s);
      }
    }
  }

  lemma HeldNewcomer(t: Tasks, u: Tasks, r: Room, s: SocketId)
    requires Held(t, r) && s !in t && s in u && u == t[s := u[s]]
    ensures Held(u, r)
  {
    HeldGrows(t, u, r);
    forall x | x == r.a || x == r.b ensures Drains(u, r, x) {
      if FlushPending(t, r.Peer(x)) { PendingStays(t, u, s, r.Peer(x)); }
    }
  }

  lemma CountedJoin(row: Session, r: Room, agent: Id, s: SocketId, now: Time, job: JobId)
    requires Counted(row, r)
    ensures Counted(if Activates(r, agent, s) then ActivatedRow(row, now) else row, JoinRoom(r, agent, s, now, job))
  {
  }

  lemma RoomForSound(w: World, s: SocketId, now: Time)
    requires Sound(w) && Waits(w, s)
    ensures Held(w.tasks, RoomFor(w, s, now)) && Counted(w.row, RoomFor(w, s, now))
  {
    assert TaskSound(w.row, w.room, w.tasks, s);
  }

  lemma KeepsJoin(w: World, now: Time, s: SocketId)
    requires Sound(w) && Waits(w, s)
    ensures Sound(DoJoin(w, s, now))
  {
    hide Held, Counted, JoinRoom, Activates, RoomFor;
    var v, r, agent := DoJoin(w, s, now), RoomFor(w, s, now), w.tasks[s].agent;
    assert TaskSound(w.row, w.room, w.tasks, s);
    RoomForSound(w, s, now);
    RoomForParties(w, s, now);
    TasksMove(w.(room := Some(r)), v, s);
    HeldJoin(w.tasks, v.tasks, r, agent, s, now, w.spawned);
    CountedJoin(w.row, r, agent, s, now, w.spawned);
  }

  lemma RoomForParties(w: World, s: SocketId, now: Time)
    requires Sound(w) && Waits(w, s)
    ensures RoomFor(w, s, now).a == w.row.agentA && RoomFor(w, s, now).b == w.row.agentB
  {
  }

  lemma KeepsGreet(w: World, s: SocketId)
    requires Sound(w) && At(w, s, Greeting) && w.room.Some?
    ensures Sound(Do(w, 0, Greet(s)))
  {
    var v := Do(w, 0, Greet(s));
    assert TaskSound(w.row, w.room, w.tasks, s);
    TasksMove(w, v, s);
    HeldPhase(w.tasks, w.room.value, s, Starting);
    HeldSend(v.tasks, w.room.value, s, Ready);
  }

  lemma KeepsStartFlush(w: World, s: SocketId)
    requires Sound(w) && At(w, s, Starting) && w.room.Some?
    ensures Sound(Do(w, 0, StartFlush(s)))
  {
    var v := Do(w, 0, StartFlush(s));
    assert TaskSound(w.row, w.room, w.tasks, s);
    HeldPhase(w.tasks, w.room.value, s, v.tasks[s].phase);
    TasksMove(w, v, s);
  }

  lemma KeepsFlushStep(w: World, s: SocketId)
    requires Sound(w) && Flushes(w, s) && w.room.Some?
    ensures Sound(Do(w, 0, FlushStep(s)))
  {
    var v, r, agent := Do(w, 0, FlushStep(s)), w.room.value, w.tasks[s].agent;
    assert TaskSound(w.row, w.room, w.tasks, s);
    if r.Buffer(r.Peer(agent)) == [] {
      HeldPhase(w.tasks, r, s, Looping);
    } else {
      HeldFlush(w.tasks, r, agent, w.tasks[s].phase.to);
    }
    TasksMove(w, v, s);
  }

  lemma KeepsReceive(w: World, now: Time, s: SocketId, raw: Raw)
    requires Sound(w) && At(w, s, Looping) && w.room.Some?
    ensures Sound(DoReceive(w, s, raw, now))
  {
    var v, r, agent := DoReceive(w, s, raw, now), w.room.value, w.tasks[s].agent;
    assert TaskSound(w.row, w.room, w.tasks, s);
    HeldPhase(w.tasks, r, s, v.tasks[s].phase);
    HeldFrame(v.tasks, r, agent, s, raw, now);
    TasksMove(w, v, s);
    CountedFrame(w.row, r, agent, s, raw, now);
  }

  /** The count moves by one, and every tenth reaches the row. */
  lemma CountedFrame(row: Session, r: Room, agent: Id, s: SocketId, raw: Raw, now: Time)
    requires Counted(row, r)
    ensures Counted(if PersistsCount(r, raw) then row.(messageCount := r.count + 1) else row, FrameRoom(r, agent, s, raw, now))
    ensures FrameRoom(r, agent, s, raw, now).count == r.count + if Accepts(r, raw) then 1 else 0
    ensures FrameRoom(r, agent, s, raw, now).closed == r.closed
  {
  }

  lemma CountedEnd(row: Session, r: Room, now: Time, reason: CloseReason, c: Caller)
    requires Counted(row, r)
    ensures Counted(if r.closed || CutsShort(r, c) then row else ClosedRow(row, now, reason, Some(r.count)),
                    EndRoom(r, reason, c))
  {
  }

  lemma KeepsEnd(w: World, now: Time, reason: CloseReason, c: Caller)
    requires Sound(w)
    ensures Sound(DoEnd(w, reason, c, now))
  {
    hide Held, Counted, EndRoom, CutsShort;
    var v := DoEnd(w, reason, c, now);
    forall s | s in v.tasks ensures TaskSound(v.row, v.room, v.tasks, s) {
      assert TaskSound(w.row, w.room, w.tasks, s);
    }
    if w.room.Some? && !w.room.value.closed {
      HeldEnd(w.tasks, w.room.value, reason, c);
      CountedEnd(w.row, w.room.value, now, reason, c);
      CountBound(w.row, w.room.value);
    }
  }

  lemma CountBound(row: Session, r: Room)
    requires Counted(row, r)
    ensures r.count <= MESSAGE_CAP
  {
  }

  lemma KeepsCapEnd(w: World, now: Time, s: SocketId)
    requires Sound(w) && At(w, s, Ending) && w.room.Some?
    ensures Sound(Do(w, now, CapEnd(s)))
  {
    assert TaskSound(w.row, w.room, w.tasks, s);
    HeldPhase(w.tasks, w.room.value, s, Looping);
    TasksMove(w, Moved(w, s, Looping), s);
    KeepsEnd(Moved(w, s, Looping), now, MessageCapReached, Foreground);
  }

  lemma KeepsLeave(w: World, s: SocketId)
    requires Sound(w) && At(w, s, Looping) && w.room.Some?
    ensures Sound(Do(w, 0, Leave(s)))
  {
    var v := Do(w, 0, Leave(s));
    assert TaskSound(w.row, w.room, w.tasks, s);
    HeldPhase(w.tasks, w.room.value, s, Gone);
    HeldUnseat(v.tasks, w.room.value, w.tasks[s].agent, s);
    TasksMove(w, v, s);
  }

  lemma KeepsOutside(w: World, row: Session)
    requires Sound(w) && OutsideMay(w.row, row)
    ensures Sound(w.(row := row))
  {
    forall s | s in w.tasks ensures TaskSound(row, w.room, w.tasks, s) {
      assert TaskSound(w.row, w.room, w.tasks, s);
    }
  }

  lemma DoKeepsSound(w: World, now: Time, op: Op)
    requires Sound(w)
    ensures Sound(Do(w, now, op))
  {
    hide Sound;
    match op
    case Hello(s, agent, admitted) => KeepsHello(w, now, s, agent, admitted);
    case Join(s) => if Waits(w, s) { KeepsJoin(w, now, s); }
    case Greet(s) => if At(w, s, Greeting) && w.room.Some? { KeepsGreet(w, s); }
    case StartFlush(s) => if At(w, s, Starting) && w.room.Some? { KeepsStartFlush(w, s); }
    case FlushStep(s) => if Flushes(w, s) && w.room.Some? { KeepsFlushStep(w, s); }
    case Receive(s, raw) => if At(w, s, Looping) && w.room.Some? { KeepsReceive(w, now, s, raw); }
    case CapEnd(s) => if At(w, s, Ending) && w.room.Some? { KeepsCapEnd(w, now, s); }
    case Leave(s) => if At(w, s, Looping) && w.room.Some? { KeepsLeave(w, s); }
    case End(reason) => KeepsEnd(w, now, reason, Foreground);
    case Schedule => KeepsSchedule(w, now);
    case Wake(job) => KeepsWake(w, now, job);
    case Outside(row) => if OutsideMay(w.row, row) { KeepsOutside(w, row); }
    case Restart => KeepsRestart(w, now);
  }

  lemma KeepsSchedule(w: World, now: Time)
    requires Sound(w)
    ensures Sound(Do(w, now, Schedule))
  {
    if w.room.Some? {
      HeldAside(w.tasks, w.room.value, w.room.value.(handoff := Some(w.spawned)));
    }
  }

  /** Nothing here speaks of background tasks. */
  lemma SoundAside(w: World, v: World)
    requires Sound(w) && v == w.(jobs := v.jobs, loose := v.loose, spawned := v.spawned)
    ensures Sound(v)
  {
  }

  lemma KeepsWake(w: World, now: Time, job: JobId)
    requires Sound(w)
    ensures Sound(Do(w, now, Wake(job)))
  {
    hide Sound, DoEnd;
    if job in w.jobs {
      SoundAside(w, Through(w, job));
      if Fires(w, now, job).Some? {
        KeepsEnd(Through(w, job), now, Fires(w, now, job).value, Background(job));
      }
    }
  }

  lemma KeepsRestart(w: World, now: Time)
    requires Sound(w)
    ensures Sound(Do(w, now, Restart))
  {
  }

  /** Every interleaving, with any number of reconnects, closes and restarts, keeps it. */
  lemma {:induction false} AlwaysSound(w: World, log: seq<Tick>, n: nat)
    requires n <= |log| && Fresh(w)
    ensures Sound(Run(w, log, n))
  {
    if n > 0 {
      AlwaysSound(w, log, n - 1);
      DoKeepsSound(Run(w, log, n - 1), log[n - 1].at, log[n - 1].op);
    }
  }
}
