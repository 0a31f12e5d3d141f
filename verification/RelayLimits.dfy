/** The message cap, what restarts add to it, and a run on which order fails. */
module RelayLimits {
  import opened Basics
  import opened Rows
  import opened Relay
  import opened RelayWorld
  import opened Delivery

  // ---------------------------------------------------------------- restart budget

  /** How many messages were counted, over all processes. */
  function Dispatched(w: World, log: seq<Tick>, n: nat): nat
    requires n <= |log|
  {
    if n == 0 then 0
    else Dispatched(w, log, n - 1) + if Counting(Run(w, log, n - 1), log[n - 1].op).Some? then 1 else 0
  }

  function Restarts(log: seq<Tick>, n: nat): nat
    requires n <= |log|
  {
    if n == 0 then 0 else Restarts(log, n - 1) + if log[n - 1].op.Restart? then 1 else 0
  }

  /** The count the relay goes on from: the room's, or without a room the row's. */
  function Remembered(w: World): nat {
    if w.room.Some? then w.room.value.count else w.row.messageCount
  }

  /** A step forgets nothing but, at a restart, the up to nine messages since the last multiple of
      ten. */
  lemma StepRemembers(w: World, now: Time, op: Op)
    requires Sound(w)
    ensures Counting(w, op).Some? ==> !op.Restart? && Remembered(Do(w, now, op)) == Remembered(w) + 1
    ensures op.Restart? ==> Remembered(w) == Remembered(Do(w, now, op)) + Lost(w, op) && 0 <= Lost(w, op) < PERSIST_EVERY
    ensures !op.Restart? ==> Lost(w, op) == 0
    ensures !op.Restart? && Counting(w, op).None? ==> Remembered(Do(w, now, op)) == Remembered(w)
    ensures Remembered(w) <= MESSAGE_CAP
  {
    if w.room.Some? && !op.Restart? {
      StepCount(w, now, op);
    } else if op.Join? && Waits(w, op.w) {
      assert TaskSound(w.row, w.room, w.tasks, op.w);
    }
  }

  /** What a restart forgets: the messages counted since the row last heard. */
  function Lost(w: World, op: Op): int {
    if op.Restart? && w.room.Some? then w.room.value.count - w.row.messageCount else 0
  }

  function Forgotten(w: World, log: seq<Tick>, n: nat): int
    requires n <= |log|
  {
    if n == 0 then 0 else Forgotten(w, log, n - 1) + Lost(Run(w, log, n - 1), log[n - 1].op)
  }

  lemma {:induction false} BudgetKept(w: World, log: seq<Tick>, n: nat)
    requires n <= |log| && Sound(w)
    ensures Sound(Run(w, log, n))
    ensures Dispatched(w, log, n) + Remembered(w) == Remembered(Run(w, log, n)) + Forgotten(w, log, n)
    ensures 0 <= Forgotten(w, log, n) <= 9 * Restarts(log, n)
  {
    hide Do, Sound, Remembered, Lost;
    if n > 0 {
      BudgetKept(w, log, n - 1);
      StepRemembers(Run(w, log, n - 1), log[n - 1].at, log[n - 1].op);
      DoKeepsSound(Run(w, log, n - 1), log[n - 1].at, log[n - 1].op);
    }
  }

  /** Over every run the messages a session has dispatched are the ones it remembers, at most fifty,
      and the ones its restarts forgot, at most nine each: so the cap of fifty is passed exactly when
      those two come to more. While the row is open its count is the last multiple of ten. */
  lemma {:induction false} RestartBudget(w: World, log: seq<Tick>, n: nat)
    requires n <= |log| && Fresh(w)
    ensures Dispatched(w, log, n) == Remembered(Run(w, log, n)) + Forgotten(w, log, n)
    ensures Remembered(Run(w, log, n)) <= MESSAGE_CAP && 0 <= Forgotten(w, log, n) <= 9 * Restarts(log, n)
    ensures var v := Run(w, log, n);
      v.row.status != Closed && v.room.Some? ==>
        v.row.messageCount == v.room.value.count / PERSIST_EVERY * PERSIST_EVERY
  {
    AlwaysSound(w, log, 0);
    BudgetKept(w, log, n);
    StepRemembers(Run(w, log, n), 0, Greet(0));
  }

  // ---------------------------------------------------------------- the budget is reached

  lemma {:induction false} RunJoins(w: World, x: seq<Tick>, y: seq<Tick>, n: nat)
    requires n <= |y|
    ensures Run(w, x + y, |x| + n) == Run(Run(w, x, |x|), y, n)
    ensures Dispatched(w, x + y, |x| + n) == Dispatched(w, x, |x|) + Dispatched(Run(w, x, |x|), y, n)
    ensures Restarts(x + y, |x| + n) == Restarts(x, |x|) + Restarts(y, n)
    decreases n
  {
    hide Do;
    if n == 0 {
      RunPrefix(w, x, y, |x|);
    } else {
      RunJoins(w, x, y, n - 1);
      assert (x + y)[|x| + n - 1] == y[n - 1];
    }
  }

  lemma {:induction false} RunPrefix(w: World, x: seq<Tick>, y: seq<Tick>, n: nat)
    requires n <= |x|
    ensures Run(w, x + y, n) == Run(w, x, n)
    ensures Dispatched(w, x + y, n) == Dispatched(w, x, n)
    ensures Restarts(x + y, n) == Restarts(x, n)
  {
    hide Do;
    if n > 0 {
      RunPrefix(w, x, y, n - 1);
      assert (x + y)[n - 1] == x[n - 1];
    }
  }

  /** Both members connect; nothing is held for either. */
  function Opening(a: Id, b: Id): seq<Tick> {
    [Tick(0, Hello(0, a, true)), Tick(0, Hello(1, b, true)), Tick(0, Join(0)), Tick(0, Join(1)),
     Tick(0, Greet(0)), Tick(0, StartFlush(0)), Tick(0, FlushStep(0))]
  }

  const CHAT := Tick(0, Receive(0, Message("", "hi")))

  function Chat(m: nat): seq<Tick> { if m == 0 then [] else Chat(m - 1) + [CHAT] }

  /** Nine messages and a restart, `k` times; then fifty. */
  function Spender(a: Id, b: Id, k: nat): seq<Tick> {
    if k == 0 then Opening(a, b) + Chat(50)
    else Opening(a, b) + Chat(9) + [Tick(0, Restart)] + Spender(a, b, k - 1)
  }

  predicate Rested(w: World) {
    w.room.None? && w.tasks == map[] && w.row.status != Closed && w.row.messageCount == 0
  }

  predicate Chatting(w: World, c: nat) {
    At(w, 0, Looping) && w.row.status != Closed && w.row.HasMember(w.tasks[0].agent)
    && w.room.Some? && !w.room.value.closed && w.room.value.count == c
  }

  /** Both seated, nothing said, handler 0 at phase `p`. */
  predicate Seated(w: World, p: Phase) {
    && At(w, 0, p) && w.row.status != Closed && w.row.HasMember(w.tasks[0].agent)
    && w.room.Some? && !w.room.value.closed && w.room.value.count == 0
    && w.tasks[0].agent in w.room.value.sockets
    && w.room.value.Buffer(w.room.value.Peer(w.tasks[0].agent)) == []
  }

  lemma Arrive(w: World)
    requires Sound(w) && Rested(w)
    ensures var a, b := w.row.agentA, w.row.agentB;
      Do(Do(w, 0, Hello(0, a, true)), 0, Hello(1, b, true))
      == w.(tasks := map[0 := Task(a, Authed(0)), 1 := Task(b, Authed(0))])
  {
  }

  lemma Sit(w: World, v: World)
    requires Sound(w) && Rested(w)
    requires v == w.(tasks := map[0 := Task(w.row.agentA, Authed(0)), 1 := Task(w.row.agentB, Authed(0))])
    ensures Seated(Do(Do(v, 0, Join(0)), 0, Join(1)), Greeting)
  {
    hide Do, Lonely, Seated;
    SitAlone(w, v);
    SitSecond(Do(v, 0, Join(0)));
  }

  lemma SitSecond(u: World)
    requires Lonely(u, Greeting, 0) && u.row.status != Closed && u.row.HasMember(u.tasks[0].agent)
    ensures Seated(Do(u, 0, Join(1)), Greeting)
  {
    assert Do(u, 0, Join(1)) == DoJoin(u, 1, 0);
  }

  lemma Settle(w: World)
    requires Seated(w, Greeting)
    ensures Chatting(Do(Do(Do(w, 0, Greet(0)), 0, StartFlush(0)), 0, FlushStep(0)), 0)
  {
    var v := Do(Do(w, 0, Greet(0)), 0, StartFlush(0));
    assert v.tasks[0].phase == Flushing(w.room.value.sockets[w.tasks[0].agent]);
  }

  lemma Next(w: World, log: seq<Tick>, n: nat)
    requires n < |log|
    ensures Run(w, log, n + 1) == Do(Run(w, log, n), log[n].at, log[n].op)
  {
  }

  lemma Opens(w: World)
    requires Sound(w) && Rested(w)
    ensures var log := Opening(w.row.agentA, w.row.agentB);
      Chatting(Run(w, log, 7), 0) && Dispatched(w, log, 7) == 0 && Restarts(log, 7) == 0
  {
    hide Do, Sound, Chatting;
    var log := Opening(w.row.agentA, w.row.agentB);
    assert Run(w, log, 0) == w;
    Next(w, log, 0); Next(w, log, 1); Next(w, log, 2); Next(w, log, 3); Next(w, log, 4); Next(w, log, 5); Next(w, log, 6);
    hide Run;
    Arrive(w);
    Sit(w, Run(w, log, 2));
    Settle(Run(w, log, 4));
    Silent(w, log, 7);
  }

  lemma {:induction false} Silent(w: World, log: seq<Tick>, n: nat)
    requires n <= |log| && forall k | 0 <= k < n :: !log[k].op.Receive? && !log[k].op.Restart?
    ensures Dispatched(w, log, n) == 0 && Restarts(log, n) == 0
  {
    hide Do;
    if n > 0 { Silent(w, log, n - 1); }
  }

  lemma ChatsOnce(w: World, c: nat)
    requires Chatting(w, c) && c < MESSAGE_CAP
    ensures Chatting(Do(w, 0, CHAT.op), c + 1) && Counting(w, CHAT.op).Some?
  {
    FrameCount(w.room.value, w.tasks[0].agent, 0, CHAT.op.raw, 0);
  }

  lemma {:induction false} Chats(w: World, m: nat)
    requires Chatting(w, 0) && m <= MESSAGE_CAP
    ensures |Chat(m)| == m && Chatting(Run(w, Chat(m), m), m)
    ensures Dispatched(w, Chat(m), m) == m && Restarts(Chat(m), m) == 0
  {
    hide Do;
    if m > 0 {
      Chats(w, m - 1);
      RunPrefix(w, Chat(m - 1), [CHAT], m - 1);
      ChatsOnce(Run(w, Chat(m - 1), m - 1), m - 1);
      assert Chat(m)[m - 1] == CHAT;
    }
  }

  lemma Rests(w: World, c: nat)
    requires Sound(w) && Chatting(w, c) && c < PERSIST_EVERY
    ensures Rested(Do(w, 0, Restart))
  {
  }

  lemma PartSpends(w: World, m: nat)
    requires Sound(w) && Rested(w) && m <= MESSAGE_CAP
    ensures var log := Opening(w.row.agentA, w.row.agentB) + Chat(m);
      |log| == 7 + m && Sound(Run(w, log, |log|)) && Chatting(Run(w, log, |log|), m)
      && Dispatched(w, log, |log|) == m && Restarts(log, |log|) == 0
  {
    hide Do, Sound;
    var first := Opening(w.row.agentA, w.row.agentB);
    Opens(w);
    Chats(Run(w, first, 7), m);
    RunJoins(w, first, Chat(m), m);
    BudgetKept(w, first + Chat(m), 7 + m);
  }

  lemma {:induction false} PartiesStay(w: World, log: seq<Tick>, n: nat)
    requires n <= |log|
    ensures Run(w, log, n).row.agentA == w.row.agentA && Run(w, log, n).row.agentB == w.row.agentB
  {
    hide Do;
    if n > 0 {
      PartiesStay(w, log, n - 1);
      PartiesStep(Run(w, log, n - 1), log[n - 1].at, log[n - 1].op);
    }
  }

  lemma PartiesStep(w: World, now: Time, op: Op)
    ensures Do(w, now, op).row.agentA == w.row.agentA && Do(w, now, op).row.agentB == w.row.agentB
  {
    hide FrameRoom, JoinRoom, EndRoom, FlushOne, Activates;
  }

  /** The budget is no overestimate: for every number of restarts some run spends it to the last
      message. */
  lemma {:induction false} BudgetReached(w: World, k: nat)
    requires Sound(w) && Rested(w)
    ensures var log := Spender(w.row.agentA, w.row.agentB, k);
      Restarts(log, |log|) == k && Dispatched(w, log, |log|) == MESSAGE_CAP + 9 * k
    decreases k
  {
    hide Do, Sound;
    var a, b := w.row.agentA, w.row.agentB;
    if k == 0 {
      PartSpends(w, 50);
    } else {
      PartSpends(w, 9);
      var part := Opening(a, b) + Chat(9);
      var reset := [Tick(0, Restart)];
      var v := Run(w, part, |part|);
      Rests(v, 9);
      RunJoins(w, part, reset, 1);
      DoKeepsSound(v, 0, Restart);
      var u := Run(v, reset, 1);
      assert u == Do(v, 0, Restart) by { assert Run(v, reset, 0) == v; }
      PartiesStay(w, part, |part|);
      PartiesStay(v, reset, 1);
      BudgetReached(u, k - 1);
      var rest := Spender(a, b, k - 1);
      OneReset(v, reset);
      RunJoins(w, part + reset, rest, |rest|);
      assert part + reset + rest == Spender(a, b, k);
    }
  }

  lemma OneReset(v: World, reset: seq<Tick>)
    requires reset == [Tick(0, Restart)]
    ensures Dispatched(v, reset, 1) == 0 && Restarts(reset, 1) == 1
  {
    assert Dispatched(v, reset, 0) == 0;
  }

  // ---------------------------------------------------------------- order can fail

  /** `a` is alone and looping, with `held` messages waiting; `b` has said hello. */
  predicate Lonely(w: World, p: Phase, held: nat) {
    && At(w, 0, p) && At(w, 1, Authed(0)) && w.room.Some? && !w.room.value.closed && w.room.value.count == held
    && w.tasks[0].agent == w.room.value.a && w.tasks[1].agent == w.room.value.b && w.room.value.a != w.room.value.b
    && w.room.value.sockets == map[w.room.value.a := 0]
    && |w.room.value.Buffer(w.room.value.a)| == held && w.room.value.Buffer(w.room.value.b) == []
  }

  /** Between the join of `b` and its flush, the second message passes the first. */
  function Hasty(a: Id, b: Id): seq<Tick> {
    [Tick(0, Hello(0, a, true)), Tick(0, Hello(1, b, true)), Tick(0, Join(0)), Tick(0, Greet(0)),
     Tick(0, StartFlush(0)), Tick(0, FlushStep(0)), CHAT, Tick(0, Join(1)), CHAT]
  }

  lemma SitAlone(w: World, v: World)
    requires Sound(w) && Rested(w)
    requires v == w.(tasks := map[0 := Task(w.row.agentA, Authed(0)), 1 := Task(w.row.agentB, Authed(0))])
    ensures Lonely(Do(v, 0, Join(0)), Greeting, 0) && Do(v, 0, Join(0)).row == w.row
    ensures Do(v, 0, Join(0)).tasks[0].agent == w.row.agentA
  {
    hide Held, Counted;
    assert Do(v, 0, Join(0)) == DoJoin(v, 0, 0);
  }

  lemma SettleAlone(w: World)
    requires Lonely(w, Greeting, 0)
    ensures Lonely(Do(Do(Do(w, 0, Greet(0)), 0, StartFlush(0)), 0, FlushStep(0)), Looping, 0)
  {
    assert Lonely(Do(w, 0, Greet(0)), Starting, 0);
    assert Lonely(Do(Do(w, 0, Greet(0)), 0, StartFlush(0)), Flushing(0), 0);
  }

  lemma SayAlone(w: World)
    requires Lonely(w, Looping, 0)
    ensures Lonely(Do(w, 0, CHAT.op), Looping, 1)
  {
  }

  lemma Passes(w: World)
    requires Lonely(w, Looping, 1)
    ensures Overtakes(Do(w, 0, Join(1)), CHAT.op, w.room.value.a)
  {
  }

  lemma {:induction false} RoomParties(w: World, log: seq<Tick>, n: nat)
    requires n <= |log| && Fresh(w) && Run(w, log, n).room.Some?
    ensures Run(w, log, n).room.value.a == w.row.agentA
  {
    AlwaysSound(w, log, n);
    PartiesStay(w, log, n);
  }

  /** Arrival order is not guaranteed: on this run the second message of `a` is handed over while the
      first is still held. */
  lemma {:induction false} OrderCanFail(w: World)
    requires Fresh(w)
    ensures var log := Hasty(w.row.agentA, w.row.agentB);
      !Orderly(w, log, 9, w.row.agentA) && Line(Run(w, log, 9), w.row.agentA) != Kept(w, log, 9, w.row.agentA)
  {
    hide Do, Sound, Lonely, Line, Kept, Overtakes;
    var log := Hasty(w.row.agentA, w.row.agentB);
    AlwaysSound(w, log, 0);
    assert Run(w, log, 0) == w;
    Next(w, log, 0); Next(w, log, 1); Next(w, log, 2); Next(w, log, 3); Next(w, log, 4);
    Next(w, log, 5); Next(w, log, 6); Next(w, log, 7);
    Arrive(w);
    SitAlone(w, Run(w, log, 2));
    SettleAlone(Run(w, log, 3));
    SayAlone(Run(w, log, 6));
    RoomParties(w, log, 7);
    Passes(Run(w, log, 7));
    InOrderIffOrderly(w, log, w.row.agentA);
  }

  // ---------------------------------------------------------------- the cap

  /** A handler in its loop receives a well-formed message. */
  predicate Valid(w: World, op: Op) {
    op.Receive? && op.raw.Message? && At(w, op.w, Looping) && w.room.Some?
  }

  /** How many of the entries from `m` up to `n` are well-formed messages. */
  function Valids(w: World, log: seq<Tick>, m: nat, n: nat): nat
    requires m <= n <= |log|
  {
    if n == m then 0
    else Valids(w, log, m, n - 1) + if Valid(Run(w, log, n - 1), log[n - 1].op) then 1 else 0
  }

  /** A handler that is about to end the session has seen the cap. */
  ghost predicate EndingAtCap(w: World) {
    forall s | At(w, s, Ending) :: w.room.Some? && w.room.value.count == MESSAGE_CAP
  }

  lemma StepEnding(w: World, now: Time, op: Op)
    requires Sound(w) && EndingAtCap(w)
    ensures EndingAtCap(Do(w, now, op))
  {
    var v := Do(w, now, op);
    forall s | At(v, s, Ending) ensures v.room.Some? && v.room.value.count == MESSAGE_CAP {
      EndingStep(w, now, op, s);
    }
  }

  lemma EndingStep(w: World, now: Time, op: Op, s: SocketId)
    requires Sound(w) && EndingAtCap(w) && At(Do(w, now, op), s, Ending)
    ensures Do(w, now, op).room.Some? && Do(w, now, op).room.value.count == MESSAGE_CAP
  {
    hide Sound, FrameRoom, JoinRoom, FlushOne, EndRoom, MonitorVerdict;
    if op.Receive? && op.w == s && At(w, s, Looping) && w.room.Some? {
      CountsBelowCap(w);
    } else {
      assert At(w, s, Ending);
    }
    StepCount(w, now, op);
  }

  lemma {:induction false} AlwaysEndingAtCap(w: World, log: seq<Tick>, n: nat)
    requires n <= |log| && Fresh(w)
    ensures EndingAtCap(Run(w, log, n))
  {
    hide Do, EndingAtCap;
    if n > 0 {
      AlwaysEndingAtCap(w, log, n - 1);
      AlwaysSound(w, log, n - 1);
      StepEnding(Run(w, log, n - 1), log[n - 1].at, log[n - 1].op);
    } else {
      NoneEnding(w);
    }
  }

  lemma NoneEnding(w: World)
    requires w.tasks == map[]
    ensures EndingAtCap(w)
  {
  }

  /** Open: all well-formed messages so far were counted, up to the cap. Closed: by the cap. */
  predicate Capped(w: World, c: nat, valids: nat) {
    w.room.Some?
    && if w.room.value.closed
       then w.room.value.count == MESSAGE_CAP && ClosedByCap(w)
       else w.room.value.count == (if c + valids < MESSAGE_CAP then c + valids else MESSAGE_CAP)
  }

  predicate ClosedByCap(w: World) {
    w.row.status == Closed && w.row.closeReason == Some(MessageCapReached) && w.row.messageCount == MESSAGE_CAP
  }

  /** One message too many has come exactly when the session has been closed or a handler is on its
      way to close it. */
  ghost predicate CloseDue(w: World, c: nat, valids: nat) {
    valids > MESSAGE_CAP - c <==> (w.room.Some? && w.room.value.closed) || exists s :: At(w, s, Ending)
  }

  /** A first close for another reason than the cap, or a restart. */
  predicate OtherClose(w: World, now: Time, op: Op) {
    op.Restart?
    || (w.room.Some? && !w.room.value.closed && (op.End? || (op.Wake? && Fires(w, now, op.job).Some?)))
  }

  /** Without another close, what closes an open session is a handler that has seen the cap. */
  lemma OnlyTheCapCloses(w: World, now: Time, op: Op)
    requires w.room.Some? && !w.room.value.closed && !OtherClose(w, now, op)
    ensures Do(w, now, op).room.Some?
    ensures Do(w, now, op).room.value.closed <==> op.CapEnd? && At(w, op.w, Ending)
    ensures Do(w, now, op).room.value.closed && w.room.value.count == MESSAGE_CAP ==> ClosedByCap(Do(w, now, op))
  {
    hide FrameRoom, MonitorVerdict;
    if op.Receive? && At(w, op.w, Looping) {
      FrameCount(w.room.value, w.tasks[op.w].agent, op.w, op.raw, now);
    }
  }

  lemma ClosedByCapStays(w: World, now: Time, op: Op)
    requires w.room.Some? && w.room.value.closed && ClosedByCap(w) && !op.Restart?
    ensures ClosedByCap(Do(w, now, op))
  {
    hide FrameRoom, JoinRoom, FlushOne, MonitorVerdict;
  }

  lemma StepCapped(w: World, now: Time, op: Op, c: nat, valids: nat)
    requires Sound(w) && EndingAtCap(w) && c <= MESSAGE_CAP
    requires Capped(w, c, valids) && CloseDue(w, c, valids) && !OtherClose(w, now, op)
    ensures Capped(Do(w, now, op), c, valids + if Valid(w, op) then 1 else 0)
    ensures Valid(w, op) ==> (Counting(w, op).Some? <==> valids < MESSAGE_CAP - c)
  {
    hide Do, Sound, CloseDue, ClosedByCap;
    StepCount(w, now, op);
    CountsBelowCap(w);
    if w.room.value.closed {
      DueWhenClosed(w, c, valids);
      StepClosed(w, now, op);
      ClosedByCapStays(w, now, op);
    } else {
      OnlyTheCapCloses(w, now, op);
    }
  }

  lemma CountsBelowCap(w: World)
    requires Sound(w) && w.room.Some?
    ensures w.room.value.count <= MESSAGE_CAP
  {
  }

  lemma DueWhenClosed(w: World, c: nat, valids: nat)
    requires CloseDue(w, c, valids) && w.room.Some? && w.room.value.closed
    ensures valids > MESSAGE_CAP - c
  {
  }

  /** Who is on its way to close the session goes on until the session is closed. */
  lemma EndingStays(w: World, now: Time, op: Op, s: SocketId)
    requires At(w, s, Ending) && w.room.Some? && !OtherClose(w, now, op)
    ensures Do(w, now, op).room.Some?
    ensures At(Do(w, now, op), s, Ending) || Do(w, now, op).room.value.closed
  {
    hide FrameRoom, JoinRoom, FlushOne;
    if op.Receive? && At(w, op.w, Looping) {
      assert op.w != s;
    }
  }

  lemma StepCloseDue(w: World, now: Time, op: Op, c: nat, valids: nat)
    requires Sound(w) && EndingAtCap(w) && c <= MESSAGE_CAP
    requires Capped(w, c, valids) && CloseDue(w, c, valids) && !OtherClose(w, now, op)
    ensures CloseDue(Do(w, now, op), c, valids + if Valid(w, op) then 1 else 0)
  {
    hide Do, Sound, EndingAtCap;
    if valids > MESSAGE_CAP - c {
      DueStaysDue(w, now, op, c, valids);
    } else {
      CloseFallsDue(w, now, op, c, valids);
    }
  }

  lemma DueStaysDue(w: World, now: Time, op: Op, c: nat, valids: nat)
    requires Sound(w) && w.room.Some? && CloseDue(w, c, valids) && !OtherClose(w, now, op)
    requires c <= MESSAGE_CAP < valids + c
    ensures CloseDue(Do(w, now, op), c, valids + if Valid(w, op) then 1 else 0)
  {
    hide Do, Sound;
    if w.room.value.closed {
      StepClosed(w, now, op);
    } else {
      var s :| At(w, s, Ending);
      EndingStays(w, now, op, s);
    }
  }

  /** The message after the last one that fits sends its handler off, and nothing else does. */
  lemma CloseFallsDue(w: World, now: Time, op: Op, c: nat, valids: nat)
    requires w.room.Some? && CloseDue(w, c, valids) && !OtherClose(w, now, op)
    requires valids <= MESSAGE_CAP - c && c <= MESSAGE_CAP && Capped(w, c, valids)
    ensures CloseDue(Do(w, now, op), c, valids + if Valid(w, op) then 1 else 0)
  {
    hide JoinRoom, FlushOne, Route;
    var v := Do(w, now, op);
    if Valid(w, op) && valids == MESSAGE_CAP - c {
      assert HitsCap(w.room.value, op.raw);
      assert At(v, op.w, Ending);
    } else {
      assert !w.room.value.closed && (op.Receive? ==> !Valid(w, op) || !HitsCap(w.room.value, op.raw));
      forall s ensures !At(v, s, Ending) {
        assert !At(w, s, Ending);
      }
      NoCloseYet(w, now, op);
    }
  }

  lemma NoCloseYet(w: World, now: Time, op: Op)
    requires w.room.Some? && !w.room.value.closed && !OtherClose(w, now, op)
    requires forall s :: !At(w, s, Ending)
    ensures Do(w, now, op).room.Some? && !Do(w, now, op).room.value.closed
  {
    hide JoinRoom, Seat, FlushOne;
    assert op.CapEnd? ==> !At(w, op.w, Ending);
    if op.Receive? && At(w, op.w, Looping) {
      FrameCount(w.room.value, w.tasks[op.w].agent, op.w, op.raw, now);
    } else if op.Join? && Waits(w, op.w) {
      JoinStaysOpen(w.room.value, w.tasks[op.w].agent, op.w, now, w.spawned);
    } else if op.FlushStep? {
      FlushStaysOpen(w, op.w);
    }
  }

  lemma JoinStaysOpen(r: Room, agent: Id, s: SocketId, now: Time, job: JobId)
    ensures JoinRoom(r, agent, s, now, job).closed == r.closed
  {
  }

  lemma FlushStaysOpen(w: World, s: SocketId)
    requires w.room.Some?
    ensures Do(w, 0, FlushStep(s)).room.Some? && Do(w, 0, FlushStep(s)).room.value.closed == w.room.value.closed
  {
  }

  /** What such a handler does next: it closes the session, and its row, for the cap. */
  lemma {:induction false} CapEndCloses(w: World, log: seq<Tick>, n: nat, now: Time, s: SocketId)
    requires n <= |log| && Fresh(w)
    requires At(Run(w, log, n), s, Ending) && Run(w, log, n).room.Some? && !Run(w, log, n).room.value.closed
    ensures var v := Do(Run(w, log, n), now, CapEnd(s));
      && v.room.Some? && v.room.value.closed && v.room.value.count == MESSAGE_CAP && ClosedByCap(v)
      && v.room.value.sockets == map[]
  {
    AlwaysEndingAtCap(w, log, n);
    assert Run(w, log, n).room.value.count == MESSAGE_CAP;
  }

  /** From any open moment with `c` messages counted, with no other close and no restart, whatever
      the interleaving: exactly the first `50 - c` well-formed messages are counted. As soon as there
      is one more, and not before, the session is closed or a handler is about to close it
      (`CapEndCloses`); once no handler is, it is closed for reaching the cap, with the count of fifty
      on the row. */
  lemma {:induction false} CapOverTrace(w: World, log: seq<Tick>, m: nat, n: nat)
    requires m <= n <= |log| && Fresh(w)
    requires Run(w, log, m).room.Some? && !Run(w, log, m).room.value.closed
    requires forall s :: !At(Run(w, log, m), s, Ending)
    requires forall k | m <= k < n :: !OtherClose(Run(w, log, k), log[k].at, log[k].op)
    ensures var c := Run(w, log, m).room.value.count;
      && c <= MESSAGE_CAP
      && Capped(Run(w, log, n), c, Valids(w, log, m, n))
      && CloseDue(Run(w, log, n), c, Valids(w, log, m, n))
      && forall k | m <= k < n && Valid(Run(w, log, k), log[k].op) ::
           Counting(Run(w, log, k), log[k].op).Some? <==> Valids(w, log, m, k) < MESSAGE_CAP - c
    ensures (forall s :: !At(Run(w, log, n), s, Ending)) ==>
              (Valids(w, log, m, n) > MESSAGE_CAP - Run(w, log, m).room.value.count <==> Run(w, log, n).room.value.closed)
  {
    hide Do, Sound, EndingAtCap, OtherClose, Capped, CloseDue, Valid, Counting;
    var c := Run(w, log, m).room.value.count;
    AlwaysSound(w, log, m);
    CapStarts(Run(w, log, m));
    if n > m {
      CapOverTrace(w, log, m, n - 1);
      AlwaysSound(w, log, n - 1);
      AlwaysEndingAtCap(w, log, n - 1);
      StepCapped(Run(w, log, n - 1), log[n - 1].at, log[n - 1].op, c, Valids(w, log, m, n - 1));
      StepCloseDue(Run(w, log, n - 1), log[n - 1].at, log[n - 1].op, c, Valids(w, log, m, n - 1));
    }
    CapSettles(Run(w, log, n), c, Valids(w, log, m, n));
  }

  lemma CapStarts(w: World)
    requires Sound(w) && w.room.Some? && !w.room.value.closed && forall s :: !At(w, s, Ending)
    ensures w.room.value.count <= MESSAGE_CAP && Capped(w, w.room.value.count, 0) && CloseDue(w, w.room.value.count, 0)
  {
  }

  lemma CapSettles(w: World, c: nat, valids: nat)
    requires Capped(w, c, valids) && CloseDue(w, c, valids)
    ensures w.room.Some?
    ensures (forall s :: !At(w, s, Ending)) ==> (valids > MESSAGE_CAP - c <==> w.room.value.closed)
  {
  }

  lemma StepClosed(w: World, now: Time, op: Op)
    requires Sound(w) && w.room.Some? && w.room.value.closed && !op.Restart?
    ensures Do(w, now, op).room.Some? && Do(w, now, op).room.value.closed
    ensures Do(w, now, op).room.value.count == w.room.value.count
    ensures Valid(w, op) ==> Refusal(w, now, op)
  {
    StepCount(w, now, op);
  }

  /** All that a message gets from a closed session is the error frame. */
  predicate Refusal(w: World, now: Time, op: Op)
    requires op.Receive?
  {
    w.room.Some? && Do(w, now, op).room == Some(w.room.value.Send(op.w, ErrorFrame("session_closed")))
  }

  /** No entry but a restart reopens a closed session; it never counts again, and every well-formed
      message is answered with `session_closed` and nothing else. */
  lemma {:induction false} ClosedForGood(w: World, log: seq<Tick>, m: nat, n: nat)
    requires m <= n <= |log| && Fresh(w) && Run(w, log, m).room.Some? && Run(w, log, m).room.value.closed
    requires forall k | m <= k < n :: !log[k].op.Restart?
    ensures Run(w, log, n).room.Some? && Run(w, log, n).room.value.closed
    ensures Run(w, log, n).room.value.count == Run(w, log, m).room.value.count
    ensures forall k | m <= k < n && Valid(Run(w, log, k), log[k].op) :: Refusal(Run(w, log, k), log[k].at, log[k].op)
  {
    hide Do, Sound, Valid, Refusal;
    if m < n {
      ClosedForGood(w, log, m, n - 1);
      AlwaysSound(w, log, n - 1);
      StepClosed(Run(w, log, n - 1), log[n - 1].at, log[n - 1].op);
      ValidIsMessage(Run(w, log, n - 1), log[n - 1].op);
    }
  }

  lemma ValidIsMessage(w: World, op: Op)
    ensures Valid(w, op) ==> op.Receive?
  {
  }
}
