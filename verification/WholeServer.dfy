/** The two halves put together: the handlers of module `Handlers` on all the tables, and the relay of
    one session of module `RelayWorld`, in every interleaving. They share one row, so what is proved
    of either half holds of the whole. */
module WholeServer {
  import opened Basics
  import opened Rows
  import opened Handlers
  import opened Moves
  import opened Lifecycle
  import opened Relay
  import opened RelayWorld
  import Inbox
  import RelayLimits
  import Seats

  /** A step of this session's relay, or anything else the server does. */
  datatype Move = Local(op: Op) | Elsewhere(event: Event)

  datatype Timed = Timed(at: Time, move: Move)

  datatype Server = Server(db: Db, world: World)

  function WrittenByEnd(w: World, reason: CloseReason, c: Caller, sid: Id): Option<Event> {
    if w.room.None? then Some(DoRelayClose(sid, reason, None))
    else if !w.room.value.closed && !CutsShort(w.room.value, c)
    then Some(DoRelayClose(sid, reason, Some(w.room.value.count)))
    else None
  }

  /** The write that a stretch of the relay makes to the tables, if it makes one. */
  function Written(w: World, now: Time, op: Op, sid: Id): Option<Event> {
    match op
    case Join(s) =>
      if Waits(w, s) && Activates(RoomFor(w, s, 0), w.tasks[s].agent, s) then Some(DoRelayActivate(sid)) else None
    case Receive(s, raw) =>
      if At(w, s, Looping) && w.room.Some? && PersistsCount(w.room.value, raw)
      then Some(DoRelayCount(sid, w.room.value.count + 1)) else None
    case CapEnd(s) =>
      if At(w, s, Ending) && w.room.Some? then WrittenByEnd(w, MessageCapReached, Foreground, sid) else None
    case End(reason) => WrittenByEnd(w, reason, Foreground, sid)
    case Wake(job) =>
      if Fires(w, now, job).Some? then WrittenByEnd(w, Fires(w, now, job).value, Background(job), sid) else None
    case _ => None
  }

  /** The relay's own steps come as `Local`, other writers' as `Elsewhere`. */
  predicate Proper(m: Move, sid: Id) {
    match m
    case Local(op) => !op.Outside?
    case Elsewhere(e) => !((e.DoRelayActivate? || e.DoRelayCount? || e.DoRelayClose?) && e.session == sid)
  }

  function Noticed(w: World, now: Time, db: Db, sid: Id): World {
    if sid in db.sessions then Do(w, now, Outside(db.sessions[sid])) else w
  }

  function Advance(v: Server, now: Time, m: Move, sid: Id): Server {
    match m
    case Local(op) =>
      Server(if Written(v.world, now, op, sid).Some? then Step(v.db, now, Written(v.world, now, op, sid).value) else v.db,
             Do(v.world, now, op))
    case Elsewhere(e) => Server(Step(v.db, now, e), Noticed(v.world, now, Step(v.db, now, e), sid))
  }

  function Serve(v: Server, trace: seq<Timed>, n: nat, sid: Id): Server
    requires n <= |trace|
  {
    if n == 0 then v else Advance(Serve(v, trace, n - 1, sid), trace[n - 1].at, trace[n - 1].move, sid)
  }

  ghost predicate RowsAgree(v: Server, sid: Id) {
    sid in v.db.sessions && v.db.sessions[sid] == v.world.row
  }

  /** What `_load_pubkeys` loads. */
  function KeysOf(db: Db, row: Session): map<Id, string> {
    map x | x in {row.agentA, row.agentB} && x in db.agents :: db.agents[x].pubkey
  }

  predicate KeysAgree(v: Server) {
    && v.world.row.agentA in v.db.agents && v.world.row.agentB in v.db.agents
    && v.world.keys == KeysOf(v.db, v.world.row)
  }

  /** The relay's row is the tables', and its keys are the members' keys there. */
  ghost predicate Agree(v: Server, sid: Id) { RowsAgree(v, sid) && KeysAgree(v) }

  ghost predicate AllProper(trace: seq<Timed>, sid: Id) {
    forall k | 0 <= k < |trace| :: Proper(trace[k].move, sid)
  }

  lemma RoomWhenever(w: World, s: SocketId, now: Time)
    requires Waits(w, s)
    ensures Activates(RoomFor(w, s, now), w.tasks[s].agent, s) == Activates(RoomFor(w, s, 0), w.tasks[s].agent, s)
  {
  }

  lemma JoinAgrees(v: Server, now: Time, s: SocketId, sid: Id)
    requires RowsAgree(v, sid)
    ensures RowsAgree(Advance(v, now, Local(Join(s)), sid), sid)
  {
    if Waits(v.world, s) { RoomWhenever(v.world, s, now); }
  }

  lemma FrameAgrees(v: Server, now: Time, s: SocketId, raw: Raw, sid: Id)
    requires RowsAgree(v, sid)
    ensures RowsAgree(Advance(v, now, Local(Receive(s, raw)), sid), sid)
  {
  }

  lemma CloseStep(db: Db, now: Time, sid: Id, reason: CloseReason, count: Option<nat>)
    requires sid in db.sessions
    ensures sid in Step(db, now, DoRelayClose(sid, reason, count)).sessions
    ensures Step(db, now, DoRelayClose(sid, reason, count)).sessions[sid] == ClosedRow(db.sessions[sid], now, reason, count)
  {
  }

  lemma EndAgrees(v: Server, now: Time, op: Op, sid: Id)
    requires RowsAgree(v, sid) && (op.End? || op.CapEnd? || op.Wake?)
    ensures RowsAgree(Advance(v, now, Local(op), sid), sid)
  {
    hide Step, ClosedRow, EndRoom;
    if Written(v.world, now, op, sid).Some? {
      var e := Written(v.world, now, op, sid).value;
      CloseStep(v.db, now, sid, e.why, e.final);
    }
  }

  /** The relay writes the row as the tables' own handler does. */
  lemma LocalAgrees(v: Server, now: Time, op: Op, sid: Id)
    requires RowsAgree(v, sid) && !op.Outside?
    ensures RowsAgree(Advance(v, now, Local(op), sid), sid)
  {
    match op
    case Join(s) => JoinAgrees(v, now, s, sid);
    case Receive(s, raw) => FrameAgrees(v, now, s, raw, sid);
    case End(_) => EndAgrees(v, now, op, sid);
    case Wake(_) => EndAgrees(v, now, op, sid);
    case CapEnd(_) => EndAgrees(v, now, op, sid);
    case _ =>
  }

  /** Everything else may move the row only in ways the relay is prepared for. */
  lemma ElsewhereAgrees(v: Server, now: Time, e: Event, sid: Id)
    requires RowsAgree(v, sid) && Proper(Elsewhere(e), sid)
    ensures RowsAgree(Advance(v, now, Elsewhere(e), sid), sid)
  {
    hide Step;
    StepMoves(v.db, now, e, sid);
    var q := Step(v.db, now, e).sessions[sid];
    if !e.DoRelayActivate? && !e.DoRelayCount? && !e.DoRelayClose? {
      OutsideCovers(v.world.row, q, now, e, sid);
    }
    assert OutsideMay(v.world.row, q);
  }

  lemma AdvanceAgrees(v: Server, now: Time, m: Move, sid: Id)
    requires Agree(v, sid) && Proper(m, sid)
    ensures Agree(Advance(v, now, m, sid), sid)
  {
    KeysAdvance(v, now, m, sid);
    match m
    case Local(op) => LocalAgrees(v, now, op, sid);
    case Elsewhere(e) => ElsewhereAgrees(v, now, e, sid);
  }

  lemma KeysStep(db: Db, now: Time, e: Event, row: Session)
    requires row.agentA in db.agents && row.agentB in db.agents
    ensures row.agentA in Step(db, now, e).agents && row.agentB in Step(db, now, e).agents
    ensures KeysOf(Step(db, now, e), row) == KeysOf(db, row)
  {
    hide Step;
    StepAgents(db, now, e, row.agentA);
    StepAgents(db, now, e, row.agentB);
    Inbox.StepPubkeys(db, now, e, row.agentA);
    Inbox.StepPubkeys(db, now, e, row.agentB);
  }

  lemma WorldKeys(w: World, now: Time, op: Op)
    ensures Do(w, now, op).keys == w.keys
    ensures Do(w, now, op).row.agentA == w.row.agentA && Do(w, now, op).row.agentB == w.row.agentB
  {
    hide FrameRoom, JoinRoom, EndRoom, FlushOne, Activates, MonitorVerdict;
  }

  /** Agents keep their keys, and their rows for good. */
  lemma KeysAdvance(v: Server, now: Time, m: Move, sid: Id)
    requires KeysAgree(v)
    ensures KeysAgree(Advance(v, now, m, sid))
  {
    hide Step, Do, Written;
    match m
    case Local(op) =>
      WorldKeys(v.world, now, op);
      if Written(v.world, now, op, sid).Some? { KeysStep(v.db, now, Written(v.world, now, op, sid).value, v.world.row); }
    case Elsewhere(e) =>
      KeysStep(v.db, now, e, v.world.row);
      var db := Step(v.db, now, e);
      if sid in db.sessions { WorldKeys(v.world, now, Outside(db.sessions[sid])); }
  }

  /** The run as the relay's half sees it ... */
  function Ticks(v: Server, trace: seq<Timed>, n: nat, sid: Id): seq<Tick>
    requires n <= |trace|
  {
    if n == 0 then []
    else
      var db := Serve(v, trace, n, sid).db;
      var at, m := trace[n - 1].at, trace[n - 1].move;
      Ticks(v, trace, n - 1, sid) +
      if m.Local? then [Tick(at, m.op)]
      else if sid in db.sessions then [Tick(at, Outside(db.sessions[sid]))]
      else []
  }

  /** ... and as the tables' half does. */
  function Entries(v: Server, trace: seq<Timed>, n: nat, sid: Id): seq<Entry>
    requires n <= |trace|
  {
    if n == 0 then []
    else
      var w := Serve(v, trace, n - 1, sid).world;
      var at, m := trace[n - 1].at, trace[n - 1].move;
      Entries(v, trace, n - 1, sid) +
      if m.Elsewhere? then [Handlers.Entry(at, m.event)]
      else if Written(w, at, m.op, sid).Some? then [Handlers.Entry(at, Written(w, at, m.op, sid).value)]
      else []
  }

  lemma AfterMore(log: seq<Entry>, e: Entry)
    ensures After(log + [e], |log| + 1) == Step(After(log, |log|), e.at, e.event)
  {
    hide Step;
    AfterPrefix(log, [e], |log|);
  }

  lemma RunMore(w: World, log: seq<Tick>, t: Tick)
    ensures Run(w, log + [t], |log| + 1) == Do(Run(w, log, |log|), t.at, t.op)
  {
    hide Do;
    RunStart(w, log, [t], |log|);
  }

  lemma {:induction false} RunStart(w: World, log: seq<Tick>, more: seq<Tick>, n: nat)
    requires n <= |log|
    ensures Run(w, log + more, n) == Run(w, log, n)
  {
    hide Do;
    if n > 0 { RunStart(w, log, more, n - 1); }
  }

  /** Every run of the whole server is, for its tables, a run of `Handlers`, and for its session, a
      run of `RelayWorld`; and the row they both speak of is one row throughout. So everything proved
      of all runs of either holds here. */
  lemma {:induction false} BothHalves(v: Server, log: seq<Entry>, trace: seq<Timed>, n: nat, sid: Id)
    requires n <= |trace| && AllProper(trace, sid) && Agree(v, sid) && v.db == After(log, |log|)
    ensures var u, ticks, entries := Serve(v, trace, n, sid), Ticks(v, trace, n, sid), Entries(v, trace, n, sid);
      && Agree(u, sid)
      && u.world == Run(v.world, ticks, |ticks|)
      && u.db == After(log + entries, |log + entries|)
  {
    hide Step, Do, After, Run, Written;
    if n == 0 {
      assert log + [] == log;
      RunNone(v.world);
    } else {
      BothHalves(v, log, trace, n - 1, sid);
      var u := Serve(v, trace, n - 1, sid);
      var at, m := trace[n - 1].at, trace[n - 1].move;
      AdvanceAgrees(u, at, m, sid);
      var ticks, entries := Ticks(v, trace, n - 1, sid), Entries(v, trace, n - 1, sid);
      var next := Serve(v, trace, n, sid);
      match m
      case Local(op) =>
        RunMore(v.world, ticks, Tick(at, op));
        if Written(u.world, at, op, sid).Some? {
          var e := Handlers.Entry(at, Written(u.world, at, op, sid).value);
          AfterMore(log + entries, e);
          assert log + entries + [e] == log + (entries + [e]);
        } else {
          assert Entries(v, trace, n, sid) == entries + [] == entries;
        }
      case Elsewhere(event) =>
        RunMore(v.world, ticks, Tick(at, Outside(next.db.sessions[sid])));
        AfterMore(log + entries, Handlers.Entry(at, event));
        assert log + entries + [Handlers.Entry(at, event)] == log + (entries + [Handlers.Entry(at, event)]);
    }
  }

  lemma RunNone(w: World)
    ensures Run(w, [], 0) == w
  {
  }

  /** At entry `k` one of the two members joined and found the other already seated. */
  ghost predicate Met(v: Server, trace: seq<Timed>, k: nat, sid: Id) {
    && k < |trace| && trace[k].move.Local? && trace[k].move.op.Join?
    && var u := Serve(v, trace, k + 1, sid);
       && u.world.room.Some? && u.world.room.value.Full()
       && u.world.room.value.a == v.world.row.agentA && u.world.room.value.b == v.world.row.agentB
       && u.db.sessions.Keys >= {sid} && u.db.sessions[sid].activeAt == Some(trace[k].at)
  }

  lemma ActiveAtComesFromRelay(db: Db, now: Time, e: Event, sid: Id)
    requires sid in db.sessions && Proper(Elsewhere(e), sid)
    ensures sid in Step(db, now, e).sessions
    ensures Step(db, now, e).sessions[sid].activeAt == db.sessions[sid].activeAt
  {
    hide Step;
    StepMoves(db, now, e, sid);
  }

  lemma LocalActivates(w: World, now: Time, op: Op)
    requires Sound(w) && !op.Outside? && Do(w, now, op).row.activeAt != w.row.activeAt
    ensures op.Join? && Do(w, now, op).room.Some? && Do(w, now, op).room.value.Full()
    ensures Do(w, now, op).row.activeAt == Some(now)
    ensures Do(w, now, op).room.value.a == w.row.agentA && Do(w, now, op).room.value.b == w.row.agentB
  {
  }

  lemma PartiesAgree(v: Server, log: seq<Entry>, trace: seq<Timed>, n: nat, sid: Id)
    requires n <= |trace| && AllProper(trace, sid) && Agree(v, sid) && v.db == After(log, |log|) && Fresh(v.world)
    ensures Sound(Serve(v, trace, n, sid).world)
    ensures Serve(v, trace, n, sid).world.row.agentA == v.world.row.agentA
    ensures Serve(v, trace, n, sid).world.row.agentB == v.world.row.agentB
  {
    hide Sound, Do, Step, Written;
    BothHalves(v, log, trace, n, sid);
    var ticks := Ticks(v, trace, n, sid);
    AlwaysSound(v.world, ticks, |ticks|);
    RelayLimits.PartiesStay(v.world, ticks, |ticks|);
  }

  /** A session that has an `active_at` got it at a moment when both its members were connected,
      whatever else the server did and however often it restarted. */
  lemma {:induction false} ActiveMeansMet(v: Server, log: seq<Entry>, trace: seq<Timed>, n: nat, sid: Id) returns (k: nat)
    requires n <= |trace| && AllProper(trace, sid) && Agree(v, sid) && v.db == After(log, |log|) && Fresh(v.world)
    requires v.world.row.activeAt.None?
    requires Serve(v, trace, n, sid).world.row.activeAt.Some?
    ensures k < n && Met(v, trace, k, sid)
    ensures Serve(v, trace, n, sid).world.row.activeAt == Some(trace[k].at)
  {
    hide Step, Do, Sound, Written;
    var u := Serve(v, trace, n - 1, sid);
    BothHalves(v, log, trace, n - 1, sid);
    BothHalves(v, log, trace, n, sid);
    PartiesAgree(v, log, trace, n - 1, sid);
    var at, m := trace[n - 1].at, trace[n - 1].move;
    if Serve(v, trace, n, sid).world.row.activeAt == u.world.row.activeAt {
      k := ActiveMeansMet(v, log, trace, n - 1, sid);
    } else {
      k := n - 1;
      match m
      case Local(op) => LocalActivates(u.world, at, op);
      case Elsewhere(e) => ActiveAtComesFromRelay(u.db, at, e, sid);
    }
  }

  lemma ClockedAppend(log: seq<Entry>, more: seq<Entry>, at: Time)
    requires log != [] && Clocked(log) && log[|log| - 1].at <= at
    requires |more| <= 1 && forall e | e in more :: e.at == at
    ensures Clocked(log + more) && (log + more)[|log + more| - 1].at <= at
  {
  }

  /** The entry or none that a move makes. */
  lemma EntriesStep(v: Server, trace: seq<Timed>, n: nat, sid: Id) returns (more: seq<Entry>)
    requires n < |trace|
    ensures Entries(v, trace, n + 1, sid) == Entries(v, trace, n, sid) + more
    ensures |more| <= 1 && forall e | e in more :: e.at == trace[n].at
  {
    hide Serve, Written;
    more := Entries(v, trace, n + 1, sid)[|Entries(v, trace, n, sid)|..];
  }

  lemma {:induction false} ClockSpan(v: Server, log: seq<Entry>, trace: seq<Timed>, n: nat, sid: Id)
    requires n <= |trace| && Clocked(log) && |log| > 0
    requires forall k | 0 < k < |trace| :: trace[k - 1].at <= trace[k].at
    requires |trace| > 0 ==> log[|log| - 1].at <= trace[0].at
    ensures Clocked(log + Entries(v, trace, n, sid))
    ensures var all := log + Entries(v, trace, n, sid);
      all[|all| - 1].at <= if n == 0 then log[|log| - 1].at else trace[n - 1].at
  {
    hide Entries, Clocked, Serve;
    if n > 0 {
      ClockSpan(v, log, trace, n - 1, sid);
      var more := EntriesStep(v, trace, n - 1, sid);
      ClockedAppend(log + Entries(v, trace, n - 1, sid), more, trace[n - 1].at);
      assert log + Entries(v, trace, n - 1, sid) + more == log + (Entries(v, trace, n - 1, sid) + more);
    } else {
      NoEntries(v, trace, sid);
      assert log + [] == log;
    }
  }

  lemma NoEntries(v: Server, trace: seq<Timed>, sid: Id)
    ensures Entries(v, trace, 0, sid) == []
  {
  }

  /** No match without a meeting: on every run of the whole server a confirmed match had two different
      members' word for it, proposed by one and accepted by the other, and both had been connected at
      one and the same moment, no later than the match. */
  lemma {:induction false} NoMatchWithoutMeeting(v: Server, log: seq<Entry>, trace: seq<Timed>, sid: Id)
    returns (k: nat, i: nat, j: nat, p: Id, q: Id)
    requires AllProper(trace, sid) && Agree(v, sid) && v.db == After(log, |log|) && Fresh(v.world)
    requires Clocked(log) && forall k | 0 < k < |trace| :: trace[k - 1].at <= trace[k].at
    requires |trace| > 0 ==> |log| > 0 && log[|log| - 1].at <= trace[0].at
    requires Serve(v, trace, |trace|, sid).world.row.status == MatchConfirmed
    ensures var all := log + Entries(v, trace, |trace|, sid);
      && Met(v, trace, k, sid)
      && Consented(all, i, j, sid, p, q)
      && {p, q} == {v.world.row.agentA, v.world.row.agentB}
    ensures var row := Serve(v, trace, |trace|, sid).world.row;
      row.confirmedAt.Some? && trace[k].at <= row.confirmedAt.value
  {
    hide Step, Do, Sound, Consented, Met;
    var all := log + Entries(v, trace, |trace|, sid);
    ClockSpan(v, log, trace, |trace|, sid);
    BothHalves(v, log, trace, |trace|, sid);
    PartiesAgree(v, log, trace, |trace|, sid);
    AlwaysShaped(log, |log|, 0);
    AlwaysShaped(all, |all|, 0);
    i, j, p, q := MutualConsent(all, |all|, sid);
    k := ActiveMeansMet(v, log, trace, |trace|, sid);
  }

  /** On every run of the whole server, with any number of rejoins and restarts, a relayed message bears
      the public key its sender is registered with, which no other agent has, whatever the frame
      claimed; and it is on a socket of the other member. */
  lemma {:induction false} MessagesBearTheirSender(v: Server, log: seq<Entry>, trace: seq<Timed>, sid: Id, i: nat)
    requires AllProper(trace, sid) && Agree(v, sid) && v.db == After(log, |log|) && Fresh(v.world)
    requires Serve(v, trace, |trace|, sid).world.room.Some?
    requires i < |Serve(v, trace, |trace|, sid).world.room.value.wire|
    requires Serve(v, trace, |trace|, sid).world.room.value.wire[i].frame.Relayed?
    ensures var u := Serve(v, trace, |trace|, sid);
            var r := u.world.room.value;
            var e := r.wire[i].frame.envelope;
      && e.sender in u.db.agents && u.db.agents[e.sender].pubkey == e.from
      && (forall a | a in u.db.agents && u.db.agents[a].pubkey == e.from :: a == e.sender)
      && r.wire[i].socket in u.world.tasks && u.world.tasks[r.wire[i].socket].agent == r.Peer(e.sender) != e.sender
  {
    hide Step, Do, Written, Sound, Serve, After, Run;
    BothHalves(v, log, trace, |trace|, sid);
    PartiesAgree(v, log, trace, |trace|, sid);
    var ticks, all := Ticks(v, trace, |trace|, sid), log + Entries(v, trace, |trace|, sid);
    Seats.MessagesArePrivate(v.world, ticks, |ticks|, i);
    Seats.AlwaysKeysHeld(v.world, ticks, |ticks|);
    Inbox.AlwaysUniqueKeys(all, |all|);
  }
}
