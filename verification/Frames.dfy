/** Every frame the relay sends, traced to its cause on any run: whose words a message carries, who is
    told that the session ended, and when a frame is answered with an error. Nothing here speaks of the
    functions that build the frames. */
module Frames {
  import opened Basics
  import opened Rows
  import opened Relay
  import opened RelayWorld
  import opened Delivery
  import opened Endings
  import Seats

  // ---------------------------------------------------------------- words

  /** `e` is what entry `k` received: a well-formed message from a socket `e.sender` joined with, which
      raised the count to `e.serial`; and it bears its sender's key. */
  ghost predicate Origin(w: World, log: seq<Tick>, k: nat, n: nat, e: Envelope)
    requires n <= |log|
  {
    && k < n && (forall j | k <= j < n :: !log[j].op.Restart?)
    && log[k].op.Receive? && log[k].op.raw.Message? && e.body == log[k].op.raw.body
    && At(Run(w, log, k), log[k].op.w, Looping) && Run(w, log, k).tasks[log[k].op.w].agent == e.sender
    && Open(Run(w, log, k)) && Run(w, log, k).room.value.count + 1 == e.serial
    && Run(w, log, k + 1).room.Some? && Run(w, log, k + 1).room.value.count == e.serial
    && e.sender in w.keys && e.from == w.keys[e.sender]
  }

  predicate OnWire(r: Room, e: Envelope) { exists h :: h in r.wire && h.frame == Relayed(e) }

  predicate IsHeld(r: Room, e: Envelope) { exists x :: x in r.buffers && e in r.buffers[x] }

  lemma {:induction false} InDelivered(wire: seq<Handed>, h: Handed)
    requires h in wire && h.frame.Relayed?
    ensures h.frame.envelope in Delivered(wire, h.frame.envelope.sender)
  {
    var n := |wire| - 1;
    assert wire == wire[..n] + [wire[n]];
    if h in wire[..n] {
      InDelivered(wire[..n], h);
    } else {
      assert Letter(wire[n], h.frame.envelope.sender) == [h.frame.envelope];
    }
  }

  lemma InLine(w: World, e: Envelope)
    requires Sound(w) && w.room.Some? && (OnWire(w.room.value, e) || IsHeld(w.room.value, e))
    ensures e in Line(w, e.sender)
  {
    var r := w.room.value;
    if OnWire(r, e) {
      var h :| h in r.wire && h.frame == Relayed(e);
      InDelivered(r.wire, h);
    } else {
      var x :| x in r.buffers && e in r.buffers[x];
      assert QueueSound(r, x, r.buffers[x]);
    }
  }

  lemma {:induction false} KeptSince(w: World, log: seq<Tick>, n: nat, s: Id, e: Envelope) returns (k: nat)
    requires n <= |log| && e in Kept(w, log, n, s)
    ensures k < n && forall j | k <= j < n :: !log[j].op.Restart?
    ensures Counting(Run(w, log, k), log[k].op) == Some(e) && e.sender == s
  {
    hide Do, Counting;
    if e in KeptHere(Run(w, log, n - 1), log[n - 1].op, s) {
      k := n - 1;
    } else {
      k := KeptSince(w, log, n - 1, s, e);
    }
  }

  lemma CountedHere(w: World, log: seq<Tick>, k: nat, n: nat, e: Envelope)
    requires k < n <= |log| && Fresh(w) && (forall j | k <= j < n :: !log[j].op.Restart?)
    requires Counting(Run(w, log, k), log[k].op) == Some(e)
    ensures Origin(w, log, k, n, e)
  {
    hide Do;
    AlwaysSound(w, log, k);
    Seats.AlwaysKeysHeld(w, log, k);
    RelayLimits.PartiesStay(w, log, k);
    var v := Run(w, log, k);
    assert TaskSound(v.row, v.room, v.tasks, log[k].op.w);
    StepCount(v, log[k].at, log[k].op);
  }

  /** Nobody has words put into its mouth: on every run each message handed to a socket, and each one
      held, is what a well-formed frame of its sender said, under its sender's key and its own number. */
  lemma {:induction false} OnlyWhatWasSaid(w: World, log: seq<Tick>, n: nat, e: Envelope) returns (k: nat)
    requires n <= |log| && Fresh(w) && Run(w, log, n).room.Some?
    requires OnWire(Run(w, log, n).room.value, e) || IsHeld(Run(w, log, n).room.value, e)
    ensures Origin(w, log, k, n, e)
  {
    hide Do, Sound, OnWire, IsHeld, Origin, Line, Kept;
    AlwaysSound(w, log, n);
    InLine(Run(w, log, n), e);
    LineIsKept(w, log, n, e.sender);
    assert e in multiset(Line(Run(w, log, n), e.sender));
    assert e in multiset(Kept(w, log, n, e.sender));
    k := KeptSince(w, log, n, e.sender, e);
    CountedHere(w, log, k, n, e);
  }

  /** A well-formed message for an open session below the cap. */
  predicate Says(w: World, op: Op) {
    op.Receive? && op.raw.Message? && At(w, op.w, Looping) && Open(w) && w.room.value.count < MESSAGE_CAP
  }

  /** The counterparty is away, and ten messages of `agent` are held for it. */
  predicate NoRoomFor(r: Room, agent: Id) {
    (if agent == r.a then r.b else r.a) !in r.sockets && agent in r.buffers && |r.buffers[agent]| >= 10
  }

  lemma {:induction false} KeptLater(w: World, log: seq<Tick>, k: nat, n: nat, s: Id, e: Envelope)
    requires k < n <= |log| && (forall j | k <= j < n :: !log[j].op.Restart?)
    requires e in KeptHere(Run(w, log, k), log[k].op, s)
    ensures e in Kept(w, log, n, s)
  {
    hide Do, KeptHere;
    if k < n - 1 { KeptLater(w, log, k, n - 1, s, e); }
  }

  lemma FromLine(w: World, e: Envelope)
    requires w.room.Some? && e in Line(w, e.sender)
    ensures OnWire(w.room.value, e) || IsHeld(w.room.value, e)
  {
    var r := w.room.value;
    if e in Delivered(r.wire, e.sender) { FromDelivered(r.wire, e); }
  }

  lemma {:induction false} FromDelivered(wire: seq<Handed>, e: Envelope)
    requires e in Delivered(wire, e.sender)
    ensures exists h :: h in wire && h.frame == Relayed(e)
  {
    var n := |wire| - 1;
    if e in Delivered(wire[..n], e.sender) {
      FromDelivered(wire[..n], e);
      var h :| h in wire[..n] && h.frame == Relayed(e);
      assert h in wire;
    } else {
      assert wire[n] in wire && wire[n].frame == Relayed(e);
    }
  }

  /** And nobody is silenced: a message that is said is counted, and it is handed over or held at every
      later moment of the process unless ten were held for an absent counterparty when it came. */
  lemma {:induction false} EverythingSaid(w: World, log: seq<Tick>, k: nat, n: nat) returns (e: Envelope)
    requires k < n <= |log| && Fresh(w) && (forall j | k <= j < n :: !log[j].op.Restart?)
    requires Says(Run(w, log, k), log[k].op) && Run(w, log, n).room.Some?
    ensures Origin(w, log, k, n, e)
    ensures !NoRoomFor(Run(w, log, k).room.value, e.sender) ==>
      OnWire(Run(w, log, n).room.value, e) || IsHeld(Run(w, log, n).room.value, e)
  {
    hide Do, Sound, OnWire, IsHeld, Origin, Line, Kept, NoRoomFor;
    e := SaidIsCounted(Run(w, log, k), log[k].op);
    CountedHere(w, log, k, n, e);
    if !NoRoomFor(Run(w, log, k).room.value, e.sender) {
      KeptLater(w, log, k, n, e.sender, e);
      LineIsKept(w, log, n, e.sender);
      assert e in multiset(Kept(w, log, n, e.sender));
      assert e in multiset(Line(Run(w, log, n), e.sender));
      FromLine(Run(w, log, n), e);
    }
  }

  lemma SaidIsCounted(w: World, op: Op) returns (e: Envelope)
    requires Says(w, op)
    ensures Counting(w, op) == Some(e) && e.sender == w.tasks[op.w].agent
    ensures !NoRoomFor(w.room.value, e.sender) ==> e in KeptHere(w, op, e.sender)
  {
    e := Counting(w, op).value;
  }

  // ---------------------------------------------------------------- goodbyes

  /** `s` is told once that the session ended, and then shut; it gets nothing else. */
  ghost predicate Parted(added: seq<Handed>, s: SocketId, reason: CloseReason) {
    exists i, j :: 0 <= i < j < |added| && added[i] == Handed(s, SessionEnded(reason)) && added[j] == Handed(s, Shut)
                   && forall k | 0 <= k < |added| && added[k].socket == s :: k == i || k == j
  }

  /** The seated sockets, and nobody else, are told and then shut. */
  ghost predicate AllParted(added: seq<Handed>, sockets: map<Id, SocketId>, reason: CloseReason) {
    && (forall x | x in sockets :: Parted(added, sockets[x], reason))
    && (forall k | 0 <= k < |added| :: exists x :: x in sockets && sockets[x] == added[k].socket)
  }

  predicate TellsNobody(added: seq<Handed>) { forall k | 0 <= k < |added| :: !added[k].frame.SessionEnded? }

  function Added(w: World, v: World): seq<Handed>
    requires w.room.Some? && v.room.Some? && w.room.value.wire <= v.room.value.wire
  {
    v.room.value.wire[|w.room.value.wire|..]
  }

  ghost predicate SeatsApart(r: Room) {
    && r.a != r.b && r.sockets.Keys <= {r.a, r.b}
    && (r.a in r.sockets && r.b in r.sockets ==> r.sockets[r.a] != r.sockets[r.b])
  }

  lemma SoundSeatsApart(w: World)
    requires Sound(w) && w.room.Some?
    ensures SeatsApart(w.room.value)
  {
    var r := w.room.value;
    if r.a in r.sockets && r.b in r.sockets {
      assert Belongs(w.tasks, r.sockets[r.a], r.a) && Belongs(w.tasks, r.sockets[r.b], r.b);
    }
  }

  function Bye(s: SocketId, reason: CloseReason): seq<Handed> { [Handed(s, SessionEnded(reason)), Handed(s, Shut)] }

  predicate Spares(q: seq<Handed>, s: SocketId) { forall k | 0 <= k < |q| :: q[k].socket != s }

  lemma ByeParts(pre: seq<Handed>, post: seq<Handed>, s: SocketId, reason: CloseReason)
    requires Spares(pre, s) && Spares(post, s)
    ensures Parted(pre + Bye(s, reason) + post, s, reason)
  {
    var added, i := pre + Bye(s, reason) + post, |pre|;
    assert added[i] == Handed(s, SessionEnded(reason)) && added[i + 1] == Handed(s, Shut);
    assert forall k | 0 <= k < |added| && added[k].socket == s :: k == i || k == i + 1;
  }

  lemma DismissedWire(r: Room, reason: CloseReason)
    ensures Dismissed(r, reason).wire == r.wire + (Farewell(r, r.a, reason) + Farewell(r, r.b, reason))
    ensures r.wire <= Dismissed(r, reason).wire && Dismissed(r, reason).sockets == map[]
    ensures Dismissed(r, reason).wire[|r.wire|..] == Farewell(r, r.a, reason) + Farewell(r, r.b, reason)
    ensures forall x :: Farewell(r, x, reason) == Byes(r, x, reason)
  {
  }

  function Byes(r: Room, x: Id, reason: CloseReason): seq<Handed> {
    if x in r.sockets then Bye(r.sockets[x], reason) else []
  }

  lemma ByesPart(r: Room, reason: CloseReason)
    requires SeatsApart(r)
    ensures AllParted(Byes(r, r.a, reason) + Byes(r, r.b, reason), r.sockets, reason)
  {
    hide Parted;
    var first: seq<Handed>, second: seq<Handed> := Byes(r, r.a, reason), Byes(r, r.b, reason);
    if r.a in r.sockets {
      ByeParts([], second, r.sockets[r.a], reason);
      assert [] + first + second == first + second;
    }
    if r.b in r.sockets {
      ByeParts(first, [], r.sockets[r.b], reason);
      assert first + second + [] == first + second;
    }
    forall k | 0 <= k < |first + second| ensures exists x :: x in r.sockets && r.sockets[x] == (first + second)[k].socket {
      var x := if k < |first| then r.a else r.b;
      assert x in r.sockets && r.sockets[x] == (first + second)[k].socket;
    }
  }

  lemma DismissedParts(r: Room, reason: CloseReason)
    requires SeatsApart(r)
    ensures r.wire <= Dismissed(r, reason).wire && Dismissed(r, reason).sockets == map[]
    ensures AllParted(Dismissed(r, reason).wire[|r.wire|..], r.sockets, reason)
  {
    hide Dismissed, Farewell, Byes, AllParted;
    DismissedWire(r, reason);
    ByesPart(r, reason);
  }

  /** A close that is not cut short, of an open session. */
  lemma EndParts(w: World, reason: CloseReason, c: Caller, now: Time)
    requires Open(w) && SeatsApart(w.room.value) && !CutsShort(w.room.value, c)
    ensures var v := DoEnd(w, reason, c, now);
      && v.room.Some? && w.room.value.wire <= v.room.value.wire && v.room.value.sockets == map[]
      && AllParted(Added(w, v), w.room.value.sockets, reason)
      && v.row.status == Closed && v.row.closeReason == Some(reason) && v.row.closedAt == Some(now)
      && v.row.messageCount == v.room.value.count == w.room.value.count
  {
    hide Dismissed;
    DismissedParts(w.room.value.(closed := true, counted := false), reason);
    DismissedKeeps(w.room.value.(closed := true, counted := false), reason);
  }

  lemma DismissedKeeps(r: Room, reason: CloseReason)
    ensures Dismissed(r, reason).count == r.count && Dismissed(r, reason).closed == r.closed
    ensures Dismissed(r, reason).lastMessageAt == r.lastMessageAt && Dismissed(r, reason).activeAt == r.activeAt
  {
  }

  lemma EndIsSilent(w: World, reason: CloseReason, c: Caller, now: Time)
    requires w.room.Some? && (w.room.value.closed || CutsShort(w.room.value, c))
    ensures var v := DoEnd(w, reason, c, now);
      v.room.Some? && v.room.value.wire == w.room.value.wire && v.row == w.row
  {
  }

  /** Whatever does not end an open session tells nobody so. */
  lemma PlainIsSilent(w: World, now: Time, op: Op)
    requires w.room.Some? && !op.Restart? && !op.End? && !op.CapEnd? && !op.Wake?
    ensures Do(w, now, op).room.Some? && w.room.value.wire <= Do(w, now, op).room.value.wire
    ensures TellsNobody(Added(w, Do(w, now, op)))
  {
    hide FrameRoom, FlushOne, Seat;
    match op
    case Receive(s, raw) => if At(w, s, Looping) { FrameSilent(w.room.value, w.tasks[s].agent, s, raw, now); }
    case FlushStep(s) => if Flushes(w, s) { FlushSilent(w.room.value, w.tasks[s].agent, w.tasks[s].phase.to); }
    case Join(s) => if Waits(w, s) { SeatSilent(w.room.value, w.tasks[s].agent, s); }
    case _ =>
  }

  lemma FrameSilent(r: Room, agent: Id, s: SocketId, raw: Raw, now: Time)
    ensures var wire := FrameRoom(r, agent, s, raw, now).wire; r.wire <= wire && TellsNobody(wire[|r.wire|..])
  {
  }

  lemma FlushSilent(r: Room, agent: Id, to: SocketId)
    ensures var wire := FlushOne(r, agent, to).wire; r.wire <= wire && TellsNobody(wire[|r.wire|..])
  {
  }

  lemma SeatSilent(r: Room, agent: Id, s: SocketId)
    ensures var wire := Seat(r, agent, s).wire; r.wire <= wire && TellsNobody(wire[|r.wire|..])
  {
  }

  /** What a step that calls `end_session` comes to. */
  lemma EndingEntry(w: World, now: Time, op: Op) returns (u: World, reason: CloseReason, c: Caller)
    requires w.room.Some? && (op.End? || op.CapEnd? || op.Wake?) && Do(w, now, op).room != w.room
    ensures Do(w, now, op) == DoEnd(u, reason, c, now) && u.room == w.room && u.row == w.row
    ensures op.Wake? ==> c == Background(op.job)
    ensures !op.Wake? ==> c == Foreground
  {
    hide EndRoom, MonitorVerdict;
    match op
    case End(r) => u, reason, c := w, r, Foreground;
    case CapEnd(s) => u, reason, c := Moved(w, s, Looping), MessageCapReached, Foreground;
    case Wake(job) => u, reason, c := Through(w, job), Fires(w, now, job).value, Background(job);
  }

  /** The reason everybody is told is the one on the row. */
  ghost predicate Parting(w: World, v: World, now: Time)
    requires w.room.Some? && v.room.Some? && w.room.value.wire <= v.room.value.wire
  {
    && v.room.value.sockets == map[]
    && v.row.status == Closed && v.row.closedAt == Some(now) && v.row.closeReason.Some?
    && AllParted(Added(w, v), w.room.value.sockets, v.row.closeReason.value)
    && v.row.messageCount == v.room.value.count == w.room.value.count
  }

  lemma EndTells(w: World, now: Time, op: Op)
    requires Sound(w) && Open(w) && !op.Restart? && !Open(Do(w, now, op))
    ensures var v := Do(w, now, op);
      && v.room.Some? && w.room.value.wire <= v.room.value.wire
      && if op.Wake? && OnState(w, op.job) then v.row == w.row && v.room.value.wire == w.room.value.wire
         else Parting(w, v, now)
  {
    hide Do, DoEnd, Sound, AllParted;
    SoundSeatsApart(w);
    OnlyCallsEnd(w, now, op);
    var u, reason, c := EndingEntry(w, now, op);
    if CutsShort(u.room.value, c) {
      EndIsSilent(u, reason, c, now);
    } else {
      EndParts(u, reason, c, now);
    }
  }

  lemma OnlyCallsEnd(w: World, now: Time, op: Op)
    requires Open(w) && !op.Restart? && !Open(Do(w, now, op))
    ensures (op.End? || op.CapEnd? || op.Wake?) && Do(w, now, op).room != w.room
  {
    hide JoinRoom;
    if Plain(op) {
      PlainStep(w, now, op);
    } else if op.Join? && Waits(w, op.w) {
      JoinOpen(w.room.value, w.tasks[op.w].agent, op.w, now, w.spawned);
    }
  }

  lemma OthersAreSilent(w: World, now: Time, op: Op)
    requires w.room.Some? && !op.Restart? && !(Open(w) && !Open(Do(w, now, op)))
    ensures Do(w, now, op).room.Some? && w.room.value.wire <= Do(w, now, op).room.value.wire
    ensures TellsNobody(Added(w, Do(w, now, op)))
  {
    hide Do, DoEnd;
    if op.End? || op.CapEnd? || op.Wake? {
      if Do(w, now, op).room != w.room {
        var u, reason, c := EndingEntry(w, now, op);
        StaysOpenMeans(u, reason, c, now);
      }
      NothingIsSilent(w, Do(w, now, op));
    } else {
      PlainIsSilent(w, now, op);
    }
  }

  lemma StaysOpenMeans(w: World, reason: CloseReason, c: Caller, now: Time)
    requires w.room.Some?
    ensures DoEnd(w, reason, c, now).room.Some? && DoEnd(w, reason, c, now).room.value.closed
    ensures w.room.value.closed ==> DoEnd(w, reason, c, now).room == w.room
  {
  }

  /** Who survives its own call is who is not registered on the state. */
  lemma SurvivesIff(w: World, log: seq<Tick>, n: nat)
    requires n < |log| && Fresh(w) && !log[n].op.Restart? && Open(Run(w, log, n)) && !Open(Run(w, log, n + 1))
    ensures CallerSurvives(w, log, n) <==> !(log[n].op.Wake? && OnState(Run(w, log, n), log[n].op.job))
  {
    hide Do, ScheduledLoose;
    var v, op := Run(w, log, n), log[n].op;
    AlwaysJobsSound(w, log, n);
    OnlyCallsEnd(v, log[n].at, op);
    if op.Wake? {
      WakerLives(v, log[n].at, op.job);
      if v.jobs[op.job].HandingOff? { LooseIff(w, log, n, op.job); }
    }
  }

  lemma WakerLives(w: World, now: Time, job: JobId)
    requires Open(w) && Do(w, now, Wake(job)).room != w.room
    ensures job in w.jobs && !w.jobs[job].Unwinding?
  {
  }

  /** On every run the entry that ends an open session, if its caller survives it, tells every member
      seated then, once, with the reason it writes to the row, and shuts its socket after that; nobody
      else hears anything; and the row gets the exact count. A close cut short tells nobody and writes
      nothing. No other entry, of all the run, speaks of an end. */
  lemma {:induction false} EveryoneIsToldOnce(w: World, log: seq<Tick>, n: nat)
    requires n < |log| && Fresh(w) && !log[n].op.Restart? && Run(w, log, n).room.Some?
    ensures var u, v := Run(w, log, n), Run(w, log, n + 1);
      && v.room.Some? && u.room.value.wire <= v.room.value.wire
      && if !(Open(u) && !Open(v)) then TellsNobody(Added(u, v))
         else if CallerSurvives(w, log, n) then Parting(u, v, log[n].at)
         else v.row == u.row && v.room.value.wire == u.room.value.wire
  {
    hide Do, Sound, Parting, CallerSurvives, OnState, TellsNobody;
    var u := Run(w, log, n);
    AlwaysSound(w, log, n);
    if Open(u) && !Open(Run(w, log, n + 1)) {
      SurvivesIff(w, log, n);
      EndTells(u, log[n].at, log[n].op);
    } else {
      OthersAreSilent(u, log[n].at, log[n].op);
    }
  }

  lemma NothingIsSilent(w: World, v: World)
    requires w.room.Some? && v.room.Some? && v.room.value.wire == w.room.value.wire
    ensures w.room.value.wire <= v.room.value.wire && TellsNobody(Added(w, v))
  {
  }

  // ---------------------------------------------------------------- errors

  /** The error a received frame is answered with. */
  predicate Deserves(w: World, op: Op, code: string)
    requires w.room.Some?
  {
    && op.Receive? && At(w, op.w, Looping)
    && match op.raw
       case TooLarge => code == "message_too_large"
       case BadJson => code == "bad_json"
       case UnsupportedType => code == "unsupported_type"
       case SessionMismatch => code == "session_mismatch"
       case Message(_, _) =>
         if w.room.value.closed then code == "session_closed"
         else w.room.value.count < 50 && NoRoomFor(w.room.value, w.tasks[op.w].agent) && code == "buffer_full"
  }

  lemma FrameErrors(r: Room, agent: Id, s: SocketId, raw: Raw, now: Time, h: Handed)
    requires h.frame.ErrorFrame? && (agent in r.buffers ==> |r.buffers[agent]| <= BUFFER_LIMIT)
    ensures var wire := FrameRoom(r, agent, s, raw, now).wire;
      && r.wire <= wire
      && (h in wire[|r.wire|..] <==>
            && h.socket == s
            && match raw
               case TooLarge => h.frame.code == "message_too_large"
               case BadJson => h.frame.code == "bad_json"
               case UnsupportedType => h.frame.code == "unsupported_type"
               case SessionMismatch => h.frame.code == "session_mismatch"
               case Message(_, _) =>
                 if r.closed then h.frame.code == "session_closed"
                 else r.count < 50 && NoRoomFor(r, agent) && h.frame.code == "buffer_full")
  {
  }

  /** On every run an entry hands an error frame to a socket if and only if the socket's handler has
      just received a frame that deserves it: in particular `buffer_full` if and only if the
      counterparty is away and ten messages are held for it. */
  lemma {:induction false} ErrorIff(w: World, log: seq<Tick>, n: nat, s: SocketId, code: string)
    requires n < |log| && Fresh(w) && !log[n].op.Restart? && Run(w, log, n).room.Some?
    ensures var u, v := Run(w, log, n), Run(w, log, n + 1);
      && v.room.Some? && u.room.value.wire <= v.room.value.wire
      && (Handed(s, ErrorFrame(code)) in Added(u, v) <==> Deserves(u, log[n].op, code) && log[n].op.w == s)
  {
    hide Do, Sound;
    AlwaysSound(w, log, n);
    StepErrors(Run(w, log, n), log[n].at, log[n].op, s, code);
  }

  lemma StepErrors(w: World, now: Time, op: Op, s: SocketId, code: string)
    requires Sound(w) && w.room.Some? && !op.Restart?
    ensures var v := Do(w, now, op);
      && v.room.Some? && w.room.value.wire <= v.room.value.wire
      && (Handed(s, ErrorFrame(code)) in Added(w, v) <==> Deserves(w, op, code) && op.w == s)
  {
    if op.Receive? {
      hide FrameRoom;
      if At(w, op.w, Looping) {
        TenAtMost(w, w.tasks[op.w].agent);
        FrameErrors(w.room.value, w.tasks[op.w].agent, op.w, op.raw, now, Handed(s, ErrorFrame(code)));
      }
    } else {
      hide Do, Sound;
      OthersMakeNoError(w, now, op);
    }
  }

  lemma TenAtMost(w: World, agent: Id)
    requires Sound(w) && w.room.Some?
    ensures agent in w.room.value.buffers ==> |w.room.value.buffers[agent]| <= BUFFER_LIMIT
  {
    if agent in w.room.value.buffers { assert QueueSound(w.room.value, agent, w.room.value.buffers[agent]); }
  }

  predicate Errorless(added: seq<Handed>) { forall k | 0 <= k < |added| :: !added[k].frame.ErrorFrame? }

  lemma OthersMakeNoError(w: World, now: Time, op: Op)
    requires w.room.Some? && !op.Restart? && !op.Receive?
    ensures Do(w, now, op).room.Some? && w.room.value.wire <= Do(w, now, op).room.value.wire
    ensures Errorless(Added(w, Do(w, now, op)))
  {
    hide FlushOne, Seat, DoEnd, MonitorVerdict;
    match op
    case FlushStep(s) => if Flushes(w, s) { FlushErrorless(w.room.value, w.tasks[s].agent, w.tasks[s].phase.to); }
    case Join(s) => if Waits(w, s) { SeatErrorless(w.room.value, w.tasks[s].agent, s); }
    case End(reason) => EndErrorless(w, reason, Foreground, now);
    case CapEnd(s) => if At(w, s, Ending) { EndErrorless(Moved(w, s, Looping), MessageCapReached, Foreground, now); }
    case Wake(job) =>
      if job in w.jobs && Fires(w, now, job).Some? {
        EndErrorless(Through(w, job), Fires(w, now, job).value, Background(job), now);
      }
    case _ =>
  }

  lemma FlushErrorless(r: Room, agent: Id, to: SocketId)
    ensures var wire := FlushOne(r, agent, to).wire; r.wire <= wire && Errorless(wire[|r.wire|..])
  {
  }

  lemma SeatErrorless(r: Room, agent: Id, s: SocketId)
    ensures var wire := Seat(r, agent, s).wire; r.wire <= wire && Errorless(wire[|r.wire|..])
  {
  }

  lemma EndErrorless(w: World, reason: CloseReason, c: Caller, now: Time)
    requires w.room.Some?
    ensures DoEnd(w, reason, c, now).room.Some? && w.room.value.wire <= DoEnd(w, reason, c, now).room.value.wire
    ensures Errorless(Added(w, DoEnd(w, reason, c, now)))
  {
    hide Dismissed;
    var r := w.room.value.(closed := true, counted := false);
    DismissedWire(r, reason);
    assert Errorless(Farewell(r, r.a, reason) + Farewell(r, r.b, reason));
  }
}
