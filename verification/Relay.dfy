/** The in-memory half of one session: `SessionState` of `relay.py` as a value, and what each section
    of `SessionManager` that runs without giving way does to it. The class `SessionManager` performs
    these in place; module `RelayWorld` lets them interleave. */
module Relay {
  import opened Basics
  import opened Rows

  const MESSAGE_CAP: nat := 50
  const BUFFER_LIMIT: nat := 10
  const PERSIST_EVERY: nat := 10
  const INACTIVITY_WINDOW: Time := 5 * MINUTE

  type SocketId = nat
  type JobId = nat

  /** `serial` numbers the counted messages of a process; it is not part of the JSON. */
  datatype Envelope = Envelope(serial: nat, sender: Id, from: string, body: string)

  datatype Frame =
    | Ready
    | Relayed(envelope: Envelope)
    | SessionEnded(reason: CloseReason)
    | ErrorFrame(code: string)
    | Shut

  /** A frame given to a socket to send, or its closing by the server. */
  datatype Handed = Handed(socket: SocketId, frame: Frame)

  /** A received frame, already classified by the checks that come before the lock. */
  datatype Raw = TooLarge | BadJson | UnsupportedType | SessionMismatch | Message(claimed: string, body: string)

  datatype Room = Room(a: Id, b: Id, pubkeys: map<Id, string>, sockets: map<Id, SocketId>,
                       buffers: map<Id, seq<Envelope>>, count: nat, activeAt: Option<Time>,
                       lastMessageAt: Time, closed: bool, counted: bool,
                       monitor: Option<JobId>, handoff: Option<JobId>, wire: seq<Handed>) {
    predicate Member(x: Id) { x == a || x == b }

    function Peer(x: Id): Id { if x == a then b else a }

    function Buffer(x: Id): seq<Envelope> { if x in buffers then buffers[x] else [] }

    predicate Full() { a in sockets && b in sockets }

    function Send(w: SocketId, f: Frame): Room { this.(wire := wire + [Handed(w, f)]) }
  }

  /** The state `_join` builds when the process has none for the session: `active_at` is not restored
      from the row, `message_count` is. */
  function NewRoom(a: Id, b: Id, count: nat, pubkeys: map<Id, string>, now: Time): Room {
    Room(a, b, pubkeys, map[], map[], count, None, now, false, false, None, None, [])
  }

  function Supersede(r: Room, agent: Id, w: SocketId): Room {
    if agent in r.sockets && r.sockets[agent] != w then r.Send(r.sockets[agent], Shut) else r
  }

  /** The first half of `_join`: the newest socket of an agent replaces, and shuts, the one before. */
  function Seat(r: Room, agent: Id, w: SocketId): Room {
    Supersede(r, agent, w).(
      sockets := r.sockets[agent := w],
      buffers := if agent in r.buffers then r.buffers else r.buffers[agent := []])
  }

  predicate Activates(r: Room, agent: Id, w: SocketId) {
    Seat(r, agent, w).Full() && r.activeAt.None?
  }

  /** `job` is the monitor task that an activation starts. */
  function JoinRoom(r: Room, agent: Id, w: SocketId, now: Time, job: JobId): Room {
    if Activates(r, agent, w)
    then Seat(r, agent, w).(activeAt := Some(now), lastMessageAt := now, counted := true, monitor := Some(job))
    else Seat(r, agent, w)
  }

  /** The checks of `_handle_frame` before the lock. */
  function Malformed(raw: Raw): Option<string> {
    match raw
    case TooLarge => Some("message_too_large")
    case BadJson => Some("bad_json")
    case UnsupportedType => Some("unsupported_type")
    case SessionMismatch => Some("session_mismatch")
    case Message(_, _) => None
  }

  predicate Accepts(r: Room, raw: Raw) { raw.Message? && !r.closed && r.count < MESSAGE_CAP }

  predicate HitsCap(r: Room, raw: Raw) { raw.Message? && !r.closed && r.count >= MESSAGE_CAP }

  /** The message that gets number `count + 1`; its `from` is the sender's registered key. */
  function Stamped(r: Room, agent: Id, raw: Raw): Envelope
    requires raw.Message?
  {
    Envelope(r.count + 1, agent, if agent in r.pubkeys then r.pubkeys[agent] else raw.claimed, raw.body)
  }

  predicate PersistsCount(r: Room, raw: Raw) { Accepts(r, raw) && (r.count + 1) % PERSIST_EVERY == 0 }

  /** Where an accepted message goes: straight to the counterparty's socket, into the sender's buffer
      while the counterparty is away, or nowhere when that buffer is full. */
  datatype Fate = Direct(to: SocketId) | Buffered | Dropped

  function FateOf(r: Room, agent: Id): Fate {
    if r.Peer(agent) in r.sockets then Direct(r.sockets[r.Peer(agent)])
    else if |r.Buffer(agent)| >= BUFFER_LIMIT then Dropped
    else Buffered
  }

  function Route(r: Room, agent: Id, w: SocketId, e: Envelope): Room {
    match FateOf(r, agent)
    case Direct(to) => r.Send(to, Relayed(e))
    case Buffered => r.(buffers := r.buffers[agent := r.Buffer(agent) + [e]])
    case Dropped =>
      r.(buffers := r.buffers[agent := r.Buffer(agent)]).Send(w, ErrorFrame("buffer_full"))
  }

  /** `_handle_frame` up to the release of the lock. */
  function FrameRoom(r: Room, agent: Id, w: SocketId, raw: Raw, now: Time): Room {
    if Malformed(raw).Some? then r.Send(w, ErrorFrame(Malformed(raw).value))
    else if r.closed then r.Send(w, ErrorFrame("session_closed"))
    else if r.count >= MESSAGE_CAP then r
    else Route(r.(count := r.count + 1, lastMessageAt := now), agent, w, Stamped(r, agent, raw))
  }

  /** One turn of the flush loop: the oldest message buffered for `agent` goes to socket `to`. */
  function FlushOne(r: Room, agent: Id, to: SocketId): Room {
    var sender := r.Peer(agent);
    if r.Buffer(sender) == [] then r
    else r.(buffers := r.buffers[sender := r.Buffer(sender)[1..]]).Send(to, Relayed(r.Buffer(sender)[0]))
  }

  /** The whole loop, when nothing comes between its turns. */
  function FlushAll(r: Room, agent: Id, to: SocketId): Room
    decreases |r.Buffer(r.Peer(agent))|
  {
    if r.Buffer(r.Peer(agent)) == [] then r else FlushAll(FlushOne(r, agent, to), agent, to)
  }

  /** It hands over everything held for the agent, oldest first, and touches nothing else. */
  lemma {:induction false} FlushHandsOver(r: Room, agent: Id, to: SocketId)
    ensures var held, q := r.Buffer(r.Peer(agent)), FlushAll(r, agent, to);
      && q.wire == r.wire + seq(|held|, i requires 0 <= i < |held| => Handed(to, Relayed(held[i])))
      && q.Buffer(r.Peer(agent)) == []
      && (forall x | x != r.Peer(agent) :: q.Buffer(x) == r.Buffer(x))
      && q == r.(buffers := q.buffers, wire := q.wire)
    decreases |r.Buffer(r.Peer(agent))|
  {
    if r.Buffer(r.Peer(agent)) == [] {
      assert r.wire + [] == r.wire;
    } else {
      FlushHandsOver(FlushOne(r, agent, to), agent, to);
    }
  }

  function LeaveRoom(r: Room, agent: Id, w: SocketId): Room {
    if agent in r.sockets && r.sockets[agent] == w then r.(sockets := r.sockets - {agent}) else r
  }

  function Farewell(r: Room, x: Id, reason: CloseReason): seq<Handed> {
    if x in r.sockets then [Handed(r.sockets[x], SessionEnded(reason)), Handed(r.sockets[x], Shut)] else []
  }

  /** Every seated socket is told and then shut, and the seats are cleared. */
  function Dismissed(r: Room, reason: CloseReason): Room {
    r.(wire := r.wire + Farewell(r, r.a, reason) + Farewell(r, r.b, reason), sockets := map[])
  }

  /** Who calls `end_session`: a request or websocket handler, or one of the event loop's own tasks. */
  datatype Caller = Foreground | Background(job: JobId)

  /** The close cancels the tasks registered on the state; if its caller is one of them, nothing after
      its next wait happens. */
  predicate CutsShort(r: Room, c: Caller) {
    c.Background? && (r.monitor == Some(c.job) || r.handoff == Some(c.job))
  }

  /** `end_session` on a state of this process. Cut short, it writes no row, tells nobody and shuts no
      socket. */
  function EndRoom(r: Room, reason: CloseReason, c: Caller): Room {
    if r.closed then r
    else if CutsShort(r, c) then r.(closed := true, counted := false)
    else Dismissed(r.(closed := true, counted := false), reason)
  }

  /** A background task of the event loop that will act on the session. A cancelled handoff task still
      has its `finally` to run. */
  datatype Job = Monitoring | HandingOff(due: Time) | Unwinding

  type Jobs = map<JobId, Job>

  /** `task.cancel()`, where the task is set. */
  function Stopped(jobs: Jobs, job: Option<JobId>): Jobs {
    if job.None? || job.value !in jobs then jobs
    else if jobs[job.value].Monitoring? then jobs - {job.value}
    else jobs[job.value := Unwinding]
  }

  /** What one wake-up of `_monitor_limits` decides, the wall clock first. */
  function MonitorVerdict(r: Room, now: Time): Option<CloseReason> {
    if r.closed then None
    else if r.activeAt.Some? && now - r.activeAt.value >= ACTIVE_WINDOW then Some(TimeLimitReached)
    else if now - r.lastMessageAt >= INACTIVITY_WINDOW then Some(Inactivity)
    else None
  }
}
