/** What becomes of every message the relay counts: none is lost silently, none is duplicated, none
    reaches the wrong side; and exactly when they arrive in order. */
module Delivery {
  import opened Basics
  import opened Rows
  import opened Relay
  import opened RelayWorld

  // ---------------------------------------------------------------- one step

  /** The messages of `s` handed to a socket so far, in the order they were handed over. */
  function Delivered(wire: seq<Handed>, s: Id): seq<Envelope> {
    if wire == [] then []
    else Delivered(wire[..|wire| - 1], s) + Letter(wire[|wire| - 1], s)
  }

  function Letter(h: Handed, s: Id): seq<Envelope> {
    if h.frame.Relayed? && h.frame.envelope.sender == s then [h.frame.envelope] else []
  }

  /** Everything of `s` that is not lost: what was handed over, then what is still held. */
  function Line(w: World, s: Id): seq<Envelope> {
    if w.room.None? then [] else RoomLine(w.room.value, s)
  }

  function RoomLine(r: Room, s: Id): seq<Envelope> { Delivered(r.wire, s) + r.Buffer(s) }

  /** The message this op counts, if it counts one. */
  function Counting(w: World, op: Op): Option<Envelope> {
    if op.Receive? && At(w, op.w, Looping) && w.room.Some? && Accepts(w.room.value, op.raw)
    then Some(Stamped(w.room.value, w.tasks[op.w].agent, op.raw)) else None
  }

  predicate Sends(w: World, op: Op, s: Id) {
    Counting(w, op).Some? && Counting(w, op).value.sender == s
  }

  function FateHere(w: World, op: Op): Fate
    requires Counting(w, op).Some?
  {
    FateOf(w.room.value, w.tasks[op.w].agent)
  }

  /** A message goes straight to the counterparty while older ones of the same sender are held. */
  predicate Overtakes(w: World, op: Op, s: Id) {
    Sends(w, op, s) && FateHere(w, op).Direct? && w.room.value.Buffer(s) != []
  }

  function SentHere(w: World, op: Op, s: Id): seq<Envelope> {
    if Sends(w, op, s) then [Counting(w, op).value] else []
  }

  function KeptHere(w: World, op: Op, s: Id): seq<Envelope> {
    if Sends(w, op, s) && !FateHere(w, op).Dropped? then [Counting(w, op).value] else []
  }

  function RefusedHere(w: World, op: Op, s: Id): seq<Envelope> {
    if Sends(w, op, s) && FateHere(w, op).Dropped? then [Counting(w, op).value] else []
  }

  lemma DeliveredOne(wire: seq<Handed>, h: Handed, s: Id)
    ensures Delivered(wire + [h], s) == Delivered(wire, s) + Letter(h, s)
  {
    assert (wire + [h])[..|wire|] == wire;
  }

  lemma SendLine(r: Room, to: SocketId, f: Frame, s: Id)
    ensures Delivered(r.Send(to, f).wire, s) == Delivered(r.wire, s) + Letter(Handed(to, f), s)
  {
    DeliveredOne(r.wire, Handed(to, f), s);
  }

  lemma SendAside(r: Room, to: SocketId, f: Frame, s: Id)
    requires !f.Relayed? || f.envelope.sender != s
    ensures RoomLine(r.Send(to, f), s) == RoomLine(r, s)
  {
    SendLine(r, to, f, s);
    assert Delivered(r.wire, s) + [] == Delivered(r.wire, s);
  }

  /** Where a message of `s` with fate `f` joins the line: at its end, ahead of what is held, or
      nowhere. */
  function Joining(r: Room, f: Fate, e: Envelope, s: Id): seq<Envelope> {
    if e.sender != s || f.Dropped? then RoomLine(r, s)
    else if f.Direct? then Delivered(r.wire, s) + [e] + r.Buffer(s)
    else RoomLine(r, s) + [e]
  }

  lemma RouteLine(r: Room, agent: Id, w: SocketId, e: Envelope, s: Id)
    requires e.sender == agent
    ensures RoomLine(Route(r, agent, w, e), s) == Joining(r, FateOf(r, agent), e, s)
  {
    hide Delivered;
    match FateOf(r, agent)
    case Direct(to) =>
      if s == agent { SendLine(r, to, Relayed(e), s); } else { SendAside(r, to, Relayed(e), s); }
    case Buffered =>
      if s == agent {
        assert Delivered(r.wire, s) + (r.Buffer(s) + [e]) == Delivered(r.wire, s) + r.Buffer(s) + [e];
      }
    case Dropped =>
      var q := r.(buffers := r.buffers[agent := r.Buffer(agent)]);
      assert q.Buffer(s) == r.Buffer(s);
      SendAside(q, w, ErrorFrame("buffer_full"), s);
  }

  function Extended(w: World, op: Op, s: Id): seq<Envelope>
    requires w.room.Some?
  {
    if Counting(w, op).Some? then Joining(w.room.value, FateHere(w, op), Counting(w, op).value, s) else Line(w, s)
  }

  lemma FrameLine(r: Room, agent: Id, w: SocketId, raw: Raw, now: Time, s: Id)
    ensures RoomLine(FrameRoom(r, agent, w, raw, now), s) ==
              if Accepts(r, raw) then Joining(r, FateOf(r, agent), Stamped(r, agent, raw), s) else RoomLine(r, s)
  {
    hide Delivered, Route;
    if Malformed(raw).Some? {
      SendAside(r, w, ErrorFrame(Malformed(raw).value), s);
    } else if r.closed {
      SendAside(r, w, ErrorFrame("session_closed"), s);
    } else if r.count < MESSAGE_CAP {
      RouteLine(r.(count := r.count + 1, lastMessageAt := now), agent, w, Stamped(r, agent, raw), s);
    }
  }

  lemma FlushLine(r: Room, agent: Id, to: SocketId, s: Id)
    requires r.a != r.b && r.Member(agent) && BuffersSound(r)
    ensures RoomLine(FlushOne(r, agent, to), s) == RoomLine(r, s)
  {
    hide Delivered;
    var sender := r.Peer(agent);
    if r.Buffer(sender) != [] {
      assert QueueSound(r, sender, r.buffers[sender]);
      if s == sender {
        OldestMoves(r, to, s);
      } else {
        SendAside(r.(buffers := r.buffers[sender := r.Buffer(sender)[1..]]), to, Relayed(r.Buffer(sender)[0]), s);
      }
    }
  }

  /** Handing over the oldest held message moves the mark by one. */
  lemma OldestMoves(r: Room, to: SocketId, s: Id)
    requires r.Buffer(s) != [] && r.Buffer(s)[0].sender == s
    ensures RoomLine(r.(buffers := r.buffers[s := r.Buffer(s)[1..]]).Send(to, Relayed(r.Buffer(s)[0])), s) == RoomLine(r, s)
  {
    hide Delivered;
    var e := r.Buffer(s)[0];
    var q := r.(buffers := r.buffers[s := r.Buffer(s)[1..]]);
    SendLine(q, to, Relayed(e), s);
    assert r.Buffer(s) == [e] + q.Buffer(s);
    assert Delivered(r.wire, s) + [e] + q.Buffer(s) == Delivered(r.wire, s) + ([e] + q.Buffer(s));
  }

  lemma EndLine(r: Room, reason: CloseReason, c: Caller, s: Id)
    ensures Delivered(EndRoom(r, reason, c).wire, s) == Delivered(r.wire, s)
    ensures EndRoom(r, reason, c).Buffer(s) == r.Buffer(s)
  {
    if !r.closed && !CutsShort(r, c) {
      FarewellLine(r.wire, r, r.a, reason, s);
      FarewellLine(r.wire + Farewell(r, r.a, reason), r, r.b, reason, s);
    }
  }

  lemma FarewellLine(wire: seq<Handed>, r: Room, x: Id, reason: CloseReason, s: Id)
    ensures Delivered(wire + Farewell(r, x, reason), s) == Delivered(wire, s)
  {
    if x in r.sockets {
      var told, shut := Handed(r.sockets[x], SessionEnded(reason)), Handed(r.sockets[x], Shut);
      DeliveredOne(wire, told, s);
      DeliveredOne(wire + [told], shut, s);
      assert wire + [told] + [shut] == wire + Farewell(r, x, reason);
    } else {
      assert wire + [] == wire;
    }
  }

  /** No step but a counted message changes the line of `s`; flushing only moves the mark between
      what was handed over and what is held. */
  lemma StepLine(w: World, now: Time, op: Op, s: Id)
    requires Sound(w) && !op.Restart?
    ensures Line(Do(w, now, op), s) == if w.room.Some? then Extended(w, op, s) else []
  {
    hide Delivered, FrameRoom, FlushOne, EndRoom, JoinRoom, Joining, MonitorVerdict, CutsShort, Stopped, Sound;
    match op
    case Receive(x, raw) =>
      if At(w, x, Looping) && w.room.Some? { FrameLine(w.room.value, w.tasks[x].agent, x, raw, now, s); }
    case FlushStep(x) =>
      if Flushes(w, x) && w.room.Some? {
        FlushReady(w, x);
        FlushLine(w.room.value, w.tasks[x].agent, w.tasks[x].phase.to, s);
      }
    case Greet(x) => if w.room.Some? { SendAside(w.room.value, x, Ready, s); }
    case CapEnd(_) => if w.room.Some? { EndLine(w.room.value, MessageCapReached, Foreground, s); }
    case End(reason) => if w.room.Some? { EndLine(w.room.value, reason, Foreground, s); }
    case Wake(job) =>
      if w.room.Some? && Fires(w, now, job).Some? { EndLine(w.room.value, Fires(w, now, job).value, Background(job), s); }
    case Join(x) => if Waits(w, x) { JoinLine(RoomFor(w, x, now), w.tasks[x].agent, x, now, w.spawned, s);
        if w.room.None? { FreshLine(w, x, now, s); }
      }
    case Leave(x) => if At(w, x, Looping) && w.room.Some? { LeaveLine(w.room.value, w.tasks[x].agent, x, s); }
    case _ =>
  }

  lemma FlushReady(w: World, x: SocketId)
    requires Sound(w) && Flushes(w, x) && w.room.Some?
    ensures var r := w.room.value; r.a != r.b && r.Member(w.tasks[x].agent) && BuffersSound(r)
  {
    assert TaskSound(w.row, w.room, w.tasks, x);
  }

  lemma JoinLine(r: Room, agent: Id, x: SocketId, now: Time, job: JobId, s: Id)
    ensures RoomLine(JoinRoom(r, agent, x, now, job), s) == RoomLine(r, s)
  {
    if agent in r.sockets { SendAside(r, r.sockets[agent], Shut, s); }
  }

  lemma LeaveLine(r: Room, agent: Id, x: SocketId, s: Id)
    ensures RoomLine(LeaveRoom(r, agent, x), s) == RoomLine(r, s)
  {
  }

  lemma FreshLine(w: World, x: SocketId, now: Time, s: Id)
    requires Waits(w, x) && w.room.None?
    ensures RoomLine(RoomFor(w, x, now), s) == []
  {
  }

  // ---------------------------------------------------------------- whole runs

  /** Since the last restart, the messages of `s` in the order they were counted: all of them, ... */
  function Sent(w: World, log: seq<Tick>, n: nat, s: Id): seq<Envelope>
    requires n <= |log|
  {
    if n == 0 || log[n - 1].op.Restart? then []
    else Sent(w, log, n - 1, s) + SentHere(Run(w, log, n - 1), log[n - 1].op, s)
  }

  /** ... those relayed or buffered, ... */
  function Kept(w: World, log: seq<Tick>, n: nat, s: Id): seq<Envelope>
    requires n <= |log|
  {
    if n == 0 || log[n - 1].op.Restart? then []
    else Kept(w, log, n - 1, s) + KeptHere(Run(w, log, n - 1), log[n - 1].op, s)
  }

  /** ... and those answered with `buffer_full`. */
  function Refused(w: World, log: seq<Tick>, n: nat, s: Id): seq<Envelope>
    requires n <= |log|
  {
    if n == 0 || log[n - 1].op.Restart? then []
    else Refused(w, log, n - 1, s) + RefusedHere(Run(w, log, n - 1), log[n - 1].op, s)
  }

  /** No message of `s` has overtaken an older one since the last restart. */
  predicate Orderly(w: World, log: seq<Tick>, n: nat, s: Id)
    requires n <= |log|
  {
    n == 0 || log[n - 1].op.Restart?
    || (Orderly(w, log, n - 1, s) && !Overtakes(Run(w, log, n - 1), log[n - 1].op, s))
  }

  predicate Ascending(q: seq<Envelope>) {
    forall i, j :: 0 <= i < j < |q| ==> q[i].serial < q[j].serial
  }

  predicate Below(q: seq<Envelope>, bound: nat) {
    forall i :: 0 <= i < |q| ==> q[i].serial <= bound
  }

  predicate Inverted(q: seq<Envelope>) {
    exists i, j :: 0 <= i < j < |q| && q[i].serial > q[j].serial
  }

  function RoomCount(w: World): nat { if w.room.Some? then w.room.value.count else 0 }

  /** The count never falls within a process, and a counted message gets the next number. */
  lemma StepCount(w: World, now: Time, op: Op)
    requires Sound(w) && !op.Restart? && w.room.Some?
    ensures Do(w, now, op).room.Some?
    ensures RoomCount(Do(w, now, op)) == RoomCount(w) + if Counting(w, op).Some? then 1 else 0
    ensures Counting(w, op).Some? ==> Counting(w, op).value.serial == RoomCount(w) + 1
  {
    hide Sound;
    if op.Receive? && At(w, op.w, Looping) {
      FrameCount(w.room.value, w.tasks[op.w].agent, op.w, op.raw, now);
    }
  }

  lemma FrameCount(r: Room, agent: Id, s: SocketId, raw: Raw, now: Time)
    ensures FrameRoom(r, agent, s, raw, now).count == r.count + if Accepts(r, raw) then 1 else 0
    ensures FrameRoom(r, agent, s, raw, now).closed == r.closed
    ensures FrameRoom(r, agent, s, raw, now).sockets == r.sockets && FrameRoom(r, agent, s, raw, now).activeAt == r.activeAt
  {
  }

  lemma AppendNext(q: seq<Envelope>, k: seq<Envelope>, bound: nat)
    requires Ascending(q) && Below(q, bound) && |k| <= 1 && (k != [] ==> k[0].serial == bound + 1)
    ensures Ascending(q + k) && Below(q + k, if k == [] then bound else bound + 1)
  {
  }

  lemma LoosenBound(q: seq<Envelope>, bound: nat, more: nat)
    requires Below(q, bound) && bound <= more
    ensures Below(q, more)
  {
  }

  /** Numbers tell messages apart, ... */
  lemma {:induction false} SentNumbered(w: World, log: seq<Tick>, n: nat, s: Id)
    requires n <= |log| && Fresh(w)
    ensures Ascending(Sent(w, log, n, s)) && Below(Sent(w, log, n, s), RoomCount(Run(w, log, n)))
    ensures Run(w, log, n).room.None? ==> Sent(w, log, n, s) == []
  {
    hide Do, Sound, Ascending, Below;
    if n > 0 && !log[n - 1].op.Restart? {
      SentNumbered(w, log, n - 1, s);
      AlwaysSound(w, log, n - 1);
      var v, op := Run(w, log, n - 1), log[n - 1].op;
      if v.room.Some? {
        StepCount(v, log[n - 1].at, op);
        var next := SentHere(v, op, s);
        AppendNext(Sent(w, log, n - 1, s), next, RoomCount(v));
        LoosenBound(Sent(w, log, n, s), if next == [] then RoomCount(v) else RoomCount(v) + 1, RoomCount(Run(w, log, n)));
      } else {
        assert Sent(w, log, n, s) == [];
        Idle(Run(w, log, n));
      }
    } else {
      if n > 0 { Restarted(Run(w, log, n - 1), log[n - 1].at); }
      Idle(Run(w, log, n));
    }
  }

  lemma {:induction false} KeptNumbered(w: World, log: seq<Tick>, n: nat, s: Id)
    requires n <= |log| && Fresh(w)
    ensures Ascending(Kept(w, log, n, s)) && Below(Kept(w, log, n, s), RoomCount(Run(w, log, n)))
    ensures Run(w, log, n).room.None? ==> Kept(w, log, n, s) == []
  {
    hide Do, Sound, Ascending, Below;
    if n > 0 && !log[n - 1].op.Restart? {
      KeptNumbered(w, log, n - 1, s);
      AlwaysSound(w, log, n - 1);
      var v, op := Run(w, log, n - 1), log[n - 1].op;
      if v.room.Some? {
        StepCount(v, log[n - 1].at, op);
        var next := KeptHere(v, op, s);
        AppendNext(Kept(w, log, n - 1, s), next, RoomCount(v));
        LoosenBound(Kept(w, log, n, s), if next == [] then RoomCount(v) else RoomCount(v) + 1, RoomCount(Run(w, log, n)));
      } else {
        assert Kept(w, log, n, s) == [];
        Idle(Run(w, log, n));
      }
    } else {
      if n > 0 { Restarted(Run(w, log, n - 1), log[n - 1].at); }
      Idle(Run(w, log, n));
    }
  }

  lemma Restarted(w: World, now: Time)
    ensures Do(w, now, Restart).room.None?
  {
  }

  lemma SumsAdd(a: seq<Envelope>, b: seq<Envelope>, c: seq<Envelope>, x: seq<Envelope>, y: seq<Envelope>, z: seq<Envelope>)
    requires multiset(a) == multiset(b) + multiset(c) && multiset(x) == multiset(y) + multiset(z)
    ensures multiset(a + x) == multiset(b + y) + multiset(c + z)
  {
  }

  lemma HereAgrees(v: World, op: Op, s: Id)
    ensures multiset(SentHere(v, op, s)) == multiset(KeptHere(v, op, s)) + multiset(RefusedHere(v, op, s))
  {
  }

  /** ... and the three histories agree. */
  lemma {:induction false} HistoriesAgree(w: World, log: seq<Tick>, n: nat, s: Id)
    requires n <= |log|
    ensures multiset(Sent(w, log, n, s)) == multiset(Kept(w, log, n, s)) + multiset(Refused(w, log, n, s))
  {
    hide Run, SentHere, KeptHere, RefusedHere;
    if n > 0 && !log[n - 1].op.Restart? {
      HistoriesAgree(w, log, n - 1, s);
      var v, op := Run(w, log, n - 1), log[n - 1].op;
      HereAgrees(v, op, s);
      SumsAdd(Sent(w, log, n - 1, s), Kept(w, log, n - 1, s), Refused(w, log, n - 1, s),
              SentHere(v, op, s), KeptHere(v, op, s), RefusedHere(v, op, s));
    }
  }

  lemma Idle(w: World)
    ensures Ascending([]) && Below([], RoomCount(w))
  {
  }

  /** Putting a message anywhere keeps every inversion that was there. */
  lemma InsertKeepsInversion(d: seq<Envelope>, e: Envelope, b: seq<Envelope>)
    requires Inverted(d + b)
    ensures Inverted(d + [e] + b)
  {
    var i, j :| 0 <= i < j < |d + b| && (d + b)[i].serial > (d + b)[j].serial;
    var x, y := if i < |d| then i else i + 1, if j < |d| then j else j + 1;
    assert (d + [e] + b)[x] == (d + b)[i] && (d + [e] + b)[y] == (d + b)[j];
  }

  /** A message put ahead of older ones is an inversion. */
  lemma InsertInverts(d: seq<Envelope>, e: Envelope, b: seq<Envelope>)
    requires b != [] && b[0].serial < e.serial
    ensures Inverted(d + [e] + b)
  {
    var q := d + [e] + b;
    assert q[|d|] == e && q[|d| + 1] == b[0];
  }

  lemma InsertCounts(d: seq<Envelope>, e: Envelope, b: seq<Envelope>)
    ensures multiset(d + [e] + b) == multiset(d + b) + multiset([e])
    ensures b == [] ==> d + [e] + b == d + b + [e]
  {
  }

  lemma DirectExtends(v: World, now: Time, op: Op, s: Id)
    requires Sound(v) && Sends(v, op, s) && FateHere(v, op).Direct?
    ensures multiset(Line(Do(v, now, op), s)) == multiset(Line(v, s)) + multiset(KeptHere(v, op, s))
    ensures !Overtakes(v, op, s) ==> Line(Do(v, now, op), s) == Line(v, s) + KeptHere(v, op, s)
    ensures Inverted(Line(v, s)) ==> Inverted(Line(Do(v, now, op), s))
    ensures Overtakes(v, op, s) && Below(Line(v, s), RoomCount(v)) ==> Inverted(Line(Do(v, now, op), s))
  {
    hide Do, Sound, Delivered, Inverted;
    StepLine(v, now, op, s);
    var r, e := v.room.value, Counting(v, op).value;
    var d, b := Delivered(r.wire, s), r.Buffer(s);
    InsertCounts(d, e, b);
    if Inverted(d + b) { InsertKeepsInversion(d, e, b); }
    if b != [] && Below(d + b, r.count) {
      assert b[0] == (d + b)[|d|];
      InsertInverts(d, e, b);
    }
  }

  lemma LineExtends(v: World, now: Time, op: Op, s: Id)
    requires Sound(v) && !op.Restart?
    ensures multiset(Line(Do(v, now, op), s)) == multiset(Line(v, s)) + multiset(KeptHere(v, op, s))
    ensures !Overtakes(v, op, s) ==> Line(Do(v, now, op), s) == Line(v, s) + KeptHere(v, op, s)
    ensures Inverted(Line(v, s)) ==> Inverted(Line(Do(v, now, op), s))
    ensures Overtakes(v, op, s) && Below(Line(v, s), RoomCount(v)) ==> Inverted(Line(Do(v, now, op), s))
  {
    hide Do, Sound, Delivered, Inverted;
    if Sends(v, op, s) && FateHere(v, op).Direct? {
      DirectExtends(v, now, op, s);
    } else {
      StepLine(v, now, op, s);
      AppendKeepsInversion(Line(v, s), KeptHere(v, op, s));
    }
  }

  lemma AppendKeepsInversion(q: seq<Envelope>, k: seq<Envelope>)
    ensures Inverted(q) ==> Inverted(q + k)
  {
    if Inverted(q) {
      var i, j :| 0 <= i < j < |q| && q[i].serial > q[j].serial;
      assert (q + k)[i] == q[i] && (q + k)[j] == q[j];
    }
  }

  lemma SameBound(p: seq<Envelope>, q: seq<Envelope>, bound: nat)
    requires multiset(p) == multiset(q) && Below(q, bound)
    ensures Below(p, bound)
  {
    forall i | 0 <= i < |p| ensures p[i].serial <= bound {
      assert p[i] in multiset(q);
    }
  }

  /** One step, for the line and what was kept so far: they stay equal as long as nothing overtakes. */
  lemma LineStep(v: World, now: Time, op: Op, s: Id, kept: seq<Envelope>, orderly: bool)
    requires Sound(v) && !op.Restart?
    requires multiset(Line(v, s)) == multiset(kept) && Below(kept, RoomCount(v))
    requires if orderly then Line(v, s) == kept else Inverted(Line(v, s))
    ensures multiset(Line(Do(v, now, op), s)) == multiset(kept + KeptHere(v, op, s))
    ensures if orderly && !Overtakes(v, op, s) then Line(Do(v, now, op), s) == kept + KeptHere(v, op, s)
            else Inverted(Line(Do(v, now, op), s))
  {
    hide Do, Line, Sound, Inverted, KeptHere, Overtakes, Below;
    SameBound(Line(v, s), kept, RoomCount(v));
    LineExtends(v, now, op, s);
  }

  lemma {:induction false} LineIsKept(w: World, log: seq<Tick>, n: nat, s: Id)
    requires n <= |log| && Fresh(w)
    ensures multiset(Line(Run(w, log, n), s)) == multiset(Kept(w, log, n, s))
    ensures if Orderly(w, log, n, s) then Line(Run(w, log, n), s) == Kept(w, log, n, s)
            else Inverted(Line(Run(w, log, n), s))
  {
    hide Do, Line, Sound, Inverted, KeptHere, Overtakes, Ascending, Below;
    if n > 0 && !log[n - 1].op.Restart? {
      LineIsKept(w, log, n - 1, s);
      KeptNumbered(w, log, n - 1, s);
      AlwaysSound(w, log, n - 1);
      LineStep(Run(w, log, n - 1), log[n - 1].at, log[n - 1].op, s, Kept(w, log, n - 1, s), Orderly(w, log, n - 1, s));
    } else {
      if n > 0 { Restarted(Run(w, log, n - 1), log[n - 1].at); }
      EmptyLine(Run(w, log, n), s);
    }
  }

  lemma EmptyLine(w: World, s: Id)
    ensures w.room.None? ==> Line(w, s) == []
  {
  }

  // ---------------------------------------------------------------- refusals are announced

  function Notice(t: Tasks, h: Handed, s: Id): nat {
    if h.frame == ErrorFrame("buffer_full") && h.socket in t && t[h.socket].agent == s then 1 else 0
  }

  /** How many `buffer_full` notices sockets of `s` have been given. */
  function Notices(t: Tasks, wire: seq<Handed>, s: Id): nat {
    if wire == [] then 0 else Notices(t, wire[..|wire| - 1], s) + Notice(t, wire[|wire| - 1], s)
  }

  function Told(w: World, s: Id): nat { if w.room.None? then 0 else Notices(w.tasks, w.room.value.wire, s) }

  lemma NoticesOne(t: Tasks, wire: seq<Handed>, h: Handed, s: Id)
    ensures Notices(t, wire + [h], s) == Notices(t, wire, s) + Notice(t, h, s)
  {
    assert (wire + [h])[..|wire|] == wire;
  }

  /** No socket changes hands, so what it was told was told to the same member. */
  lemma {:induction false} NoticesStay(t: Tasks, u: Tasks, wire: seq<Handed>, s: Id)
    requires Grows(t, u) && forall i | 0 <= i < |wire| :: wire[i].socket in t
    ensures Notices(u, wire, s) == Notices(t, wire, s)
  {
    if wire != [] {
      NoticesStay(t, u, wire[..|wire| - 1], s);
      assert wire[|wire| - 1].socket in t;
    }
  }

  lemma RouteTold(t: Tasks, r: Room, agent: Id, x: SocketId, e: Envelope, s: Id)
    requires x in t && t[x].agent == agent
    ensures Notices(t, Route(r, agent, x, e).wire, s)
            == Notices(t, r.wire, s) + if FateOf(r, agent).Dropped? && agent == s then 1 else 0
  {
    hide Notices;
    match FateOf(r, agent)
    case Direct(to) => NoticesOne(t, r.wire, Handed(to, Relayed(e)), s);
    case Buffered =>
    case Dropped => NoticesOne(t, r.wire, Handed(x, ErrorFrame("buffer_full")), s);
  }

  lemma FrameTold(t: Tasks, r: Room, agent: Id, x: SocketId, raw: Raw, now: Time, s: Id)
    requires x in t && t[x].agent == agent
    ensures Notices(t, FrameRoom(r, agent, x, raw, now).wire, s)
            == Notices(t, r.wire, s) + if Accepts(r, raw) && FateOf(r, agent).Dropped? && agent == s then 1 else 0
  {
    hide Notices, Route;
    if Malformed(raw).Some? {
      assert |Malformed(raw).value| != |"buffer_full"|;
      NoticesOne(t, r.wire, Handed(x, ErrorFrame(Malformed(raw).value)), s);
    } else if r.closed {
      assert |"session_closed"| != |"buffer_full"|;
      NoticesOne(t, r.wire, Handed(x, ErrorFrame("session_closed")), s);
    } else if r.count < MESSAGE_CAP {
      RouteTold(t, r.(count := r.count + 1, lastMessageAt := now), agent, x, Stamped(r, agent, raw), s);
    }
  }

  lemma FarewellTold(t: Tasks, wire: seq<Handed>, r: Room, x: Id, reason: CloseReason, s: Id)
    ensures Notices(t, wire + Farewell(r, x, reason), s) == Notices(t, wire, s)
  {
    if x in r.sockets {
      var told, shut := Handed(r.sockets[x], SessionEnded(reason)), Handed(r.sockets[x], Shut);
      NoticesOne(t, wire, told, s);
      NoticesOne(t, wire + [told], shut, s);
      assert wire + [told] + [shut] == wire + Farewell(r, x, reason);
    } else {
      assert wire + [] == wire;
    }
  }

  lemma SeatTold(t: Tasks, r: Room, agent: Id, x: SocketId, s: Id)
    ensures Notices(t, Seat(r, agent, x).wire, s) == Notices(t, r.wire, s)
  {
    if agent in r.sockets { NoticesOne(t, r.wire, Handed(r.sockets[agent], Shut), s); }
  }

  lemma EndTold(t: Tasks, r: Room, reason: CloseReason, c: Caller, s: Id)
    ensures Notices(t, EndRoom(r, reason, c).wire, s) == Notices(t, r.wire, s)
  {
    FarewellTold(t, r.wire, r, r.a, reason, s);
    FarewellTold(t, r.wire + Farewell(r, r.a, reason), r, r.b, reason, s);
  }

  lemma FlushTold(t: Tasks, r: Room, agent: Id, to: SocketId, s: Id)
    ensures Notices(t, FlushOne(r, agent, to).wire, s) == Notices(t, r.wire, s)
  {
    if r.Buffer(r.Peer(agent)) != [] {
      NoticesOne(t, r.wire, Handed(to, Relayed(r.Buffer(r.Peer(agent))[0])), s);
    }
  }

  /** The wire of the room, read with the handlers of before the step, gains just the notices of the
      messages refused in it. */
  lemma WireTold(w: World, now: Time, op: Op, s: Id)
    requires Sound(w) && !op.Restart? && w.room.Some?
    ensures Do(w, now, op).room.Some?
    ensures Notices(w.tasks, Do(w, now, op).room.value.wire, s) == Told(w, s) + |RefusedHere(w, op, s)|
  {
    hide Notices, FrameRoom, FlushOne, EndRoom, Sound;
    var r := w.room.value;
    match op
    case Receive(x, raw) => if At(w, x, Looping) { FrameTold(w.tasks, r, w.tasks[x].agent, x, raw, now, s); }
    case FlushStep(x) => if Flushes(w, x) { FlushTold(w.tasks, r, w.tasks[x].agent, w.tasks[x].phase.to, s); }
    case Join(x) => if Waits(w, x) { SeatTold(w.tasks, r, w.tasks[x].agent, x, s); }
    case Greet(x) => NoticesOne(w.tasks, r.wire, Handed(x, Ready), s);
    case CapEnd(_) => EndTold(w.tasks, r, MessageCapReached, Foreground, s);
    case End(reason) => EndTold(w.tasks, r, reason, Foreground, s);
    case Wake(job) => if Fires(w, now, job).Some? { EndTold(w.tasks, r, Fires(w, now, job).value, Background(job), s); }
    case _ =>
  }

  lemma TasksGrow(w: World, now: Time, op: Op)
    requires !op.Restart?
    ensures Grows(w.tasks, Do(w, now, op).tasks)
  {
    hide FrameRoom, EndRoom, FlushOne, JoinRoom, LeaveRoom, Activates, MonitorVerdict, CutsShort, Stopped;
  }

  lemma WireKnown(w: World)
    requires Sound(w) && w.room.Some?
    ensures forall i | 0 <= i < |w.room.value.wire| :: w.room.value.wire[i].socket in w.tasks
  {
    forall i | 0 <= i < |w.room.value.wire| ensures w.room.value.wire[i].socket in w.tasks {
      assert HandedSound(w.tasks, w.room.value, w.room.value.wire[i]);
    }
  }

  /** A handler appears with its hello, which touches no room. */
  lemma KeysStay(w: World, now: Time, op: Op)
    requires !op.Restart?
    ensures if op.Hello? then Do(w, now, op).room == w.room else Do(w, now, op).tasks.Keys == w.tasks.Keys
  {
    hide FrameRoom, EndRoom, JoinRoom, FlushOne, LeaveRoom, MonitorVerdict, Activates;
  }

  lemma RoomStays(w: World, now: Time, op: Op)
    requires w.room.Some? && !op.Restart?
    ensures Do(w, now, op).room.Some?
  {
    hide FrameRoom, EndRoom, JoinRoom, FlushOne, LeaveRoom, MonitorVerdict, Activates;
  }

  lemma WireGrows(w: World, now: Time, op: Op)
    requires Sound(w) && !op.Restart? && w.room.Some?
    ensures Do(w, now, op).room.Some?
    ensures forall i | 0 <= i < |Do(w, now, op).room.value.wire| :: Do(w, now, op).room.value.wire[i].socket in w.tasks
  {
    hide Do, Sound;
    KeysStay(w, now, op);
    RoomStays(w, now, op);
    DoKeepsSound(w, now, op);
    WireKnown(if op.Hello? then w else Do(w, now, op));
  }

  lemma StepTold(w: World, now: Time, op: Op, s: Id)
    requires Sound(w) && !op.Restart?
    ensures Told(Do(w, now, op), s) == Told(w, s) + if w.room.Some? then |RefusedHere(w, op, s)| else 0
  {
    var v := Do(w, now, op);
    if w.room.Some? {
      hide Do, Sound, Notices;
      WireTold(w, now, op, s);
      WireGrows(w, now, op);
      TasksGrow(w, now, op);
      NoticesStay(w.tasks, v.tasks, v.room.value.wire, s);
    }
  }

  lemma {:induction false} AlwaysTold(w: World, log: seq<Tick>, n: nat, s: Id)
    requires n <= |log| && Fresh(w)
    ensures Told(Run(w, log, n), s) == |Refused(w, log, n, s)|
  {
    hide Do, Sound;
    if n > 0 {
      if log[n - 1].op.Restart? {
        Restarted(Run(w, log, n - 1), log[n - 1].at);
      } else {
        AlwaysTold(w, log, n - 1, s);
        AlwaysSound(w, log, n - 1);
        StepTold(Run(w, log, n - 1), log[n - 1].at, log[n - 1].op, s);
      }
    }
  }

  /** Conservation, under every interleaving of joins, flushes, frames, closes and restarts: since
      the last restart each message counted from `s` has been handed to a socket, is held, or was
      refused; it is so exactly once, and its number is its own; and for each refused one a
      `buffer_full` notice has been given to a socket of `s`. */
  lemma {:induction false} Conservation(w: World, log: seq<Tick>, n: nat, s: Id)
    requires n <= |log| && Fresh(w)
    ensures Ascending(Sent(w, log, n, s))
    ensures multiset(Sent(w, log, n, s)) == multiset(Line(Run(w, log, n), s)) + multiset(Refused(w, log, n, s))
    ensures Told(Run(w, log, n), s) == |Refused(w, log, n, s)|
  {
    AlwaysTold(w, log, n, s);
    LineIsKept(w, log, n, s);
    SentNumbered(w, log, n, s);
    HistoriesAgree(w, log, n, s);
  }

  /** Order. What was handed over followed by what is held is the kept messages in the order they
      were counted if and only if no frame was relayed past messages still held for its recipient. */
  lemma InOrderIffOrderly(w: World, log: seq<Tick>, s: Id)
    requires Fresh(w)
    ensures Line(Run(w, log, |log|), s) == Kept(w, log, |log|, s) <==> Orderly(w, log, |log|, s)
  {
    LineIsKept(w, log, |log|, s);
    KeptNumbered(w, log, |log|, s);
  }

  /** Past held messages a frame can only go while a handler of the recipient is between its join
      and the end of its flush; without such a frame there is order. */
  predicate Quiescent(w: World, log: seq<Tick>, s: Id) {
    forall n | 0 <= n < |log| :: Sends(Run(w, log, n), log[n].op, s) ==>
      !PendingFor(Run(w, log, n), s)
  }

  predicate PendingFor(w: World, s: Id) {
    w.room.Some? && exists x :: x in w.tasks && w.tasks[x].agent == w.room.value.Peer(s) && Unfinished(w.tasks[x])
  }

  lemma {:induction false} QuiescentIsOrderly(w: World, log: seq<Tick>, n: nat, s: Id)
    requires n <= |log| && Fresh(w) && Quiescent(w, log, s)
    ensures Orderly(w, log, n, s)
  {
    hide Do;
    if n > 0 {
      QuiescentIsOrderly(w, log, n - 1, s);
      AlwaysSound(w, log, n - 1);
      if Overtakes(Run(w, log, n - 1), log[n - 1].op, s) {
        OvertakingNeedsPending(Run(w, log, n - 1), log[n - 1].op, s);
      }
    }
  }

  lemma OvertakingNeedsPending(w: World, op: Op, s: Id)
    requires Sound(w) && Overtakes(w, op, s)
    ensures PendingFor(w, s)
  {
    assert TaskSound(w.row, w.room, w.tasks, op.w);
    assert Drains(w.tasks, w.room.value, s);
  }
}
