/** Blocks (`blocks.py`): what `blocks_received_total` counts, and what `/connect` says to a pair of
    agents of which one, or each, blocks the other. */
module Blocking {
  import opened Basics
  import opened Rows
  import opened Handlers
  import opened Moves
  import opened Accounting
  import opened Moderation

  // ---------------------------------------------------------------- the counter

  /** The step in which `upsert_block` finds no row of the pair and makes one. */
  predicate Creates(db: Db, e: Event, a: Id) {
    && e.DoBlock? && e.who == a && MayMutate(db, e.caller) && a in db.agents && a != e.caller
    && (e.caller, a) !in db.blocks
  }

  /** Who made a block row against `a`, each time it happened. */
  function Creators(log: seq<Entry>, n: nat, a: Id): seq<Id>
    requires n <= |log|
  {
    if n == 0 then []
    else Creators(log, n - 1, a)
         + if Creates(After(log, n - 1), log[n - 1].event, a) then [log[n - 1].event.caller] else []
  }

  /** `a` is live after the step only if it was, or is new; and its total moved by `more`. */
  predicate TotalMoved(db: Db, after: Db, a: Id, more: nat) {
    Live(after, a) ==>
      if a in db.agents then Live(db, a) && after.agents[a].totals.blocks == db.agents[a].totals.blocks + more
      else after.agents[a].totals.blocks == 0
  }

  lemma BanMovesNothing(db: Db, who: Id, now: Time, a: Id)
    ensures TotalMoved(db, CheckSoftBan(db, who, now), a, 0)
    ensures CheckSoftBan(db, who, now).agents.Keys == db.agents.Keys
  {
    hide BanTrigger;
  }

  lemma BlockMoves(db: Db, now: Time, caller: Id, who: Id, reason: Option<string>, a: Id)
    ensures TotalMoved(db, BlockAgent(db, now, caller, who, reason).db, a,
                       if Creates(db, DoBlock(caller, who, reason), a) then 1 else 0)
  {
    hide CheckSoftBan;
    BanMovesNothing(Shunned(db, now, caller, who, reason), who, now, a);
  }

  lemma CheckingMoves(db: Db, now: Time, e: Event, a: Id)
    requires e.DoCreateIntent? || e.DoConnect?
    ensures TotalMoved(db, Step(db, now, e), a, 0)
  {
    hide TotalMoved, Handlers.CreateIntent, Connect;
    match e
    case DoCreateIntent(caller, newId, ttl, blemish) => PostMoves(db, now, caller, newId, ttl, blemish, a);
    case DoConnect(caller, target, from, newId) => AskMoves(db, now, caller, target, from, newId, a);
  }

  lemma PostMoves(db: Db, now: Time, caller: Id, newId: Id, ttl: nat, blemish: Option<string>, a: Id)
    ensures TotalMoved(db, CreateIntent(db, now, caller, newId, ttl, blemish).db, a, 0)
  {
    hide CheckSoftBan;
    BanMovesNothing(Posted(db, now, caller, newId, ttl), caller, now, a);
  }

  lemma AskMoves(db: Db, now: Time, caller: Id, target: Id, from: Id, newId: Id, a: Id)
    ensures TotalMoved(db, Connect(db, now, caller, target, from, newId).db, a, 0)
  {
    hide CheckSoftBan, BlockReply;
    if target in db.intents {
      BanMovesNothing(Asked(db, now, caller, db.intents[target].agentId, target, from, newId), caller, now, a);
    }
  }

  lemma OthersMove(db: Db, now: Time, e: Event, a: Id)
    requires !e.DoCreateIntent? && !e.DoConnect? && !e.DoBlock?
    ensures TotalMoved(db, Step(db, now, e), a, 0)
  {
    hide Step;
    if Bumps(e) {
      BumpingMoves(db, now, e, a);
    } else if WritesAgent(e) {
      WritingMoves(db, now, e, a);
    } else {
      OthersLeaveAgents(db, now, e);
    }
  }

  lemma BumpingMoves(db: Db, now: Time, e: Event, a: Id)
    requires Bumps(e)
    ensures TotalMoved(db, Step(db, now, e), a, 0)
  {
    hide Register, Poll, CreateIntent, DeleteIntent, RefreshIntent, Connect, RejectRequest, CancelRequest,
      ProposeMatch, RejectMatch, EndSession, BlockAgent, UnblockAgent, DeleteAccount;
  }

  lemma WritingMoves(db: Db, now: Time, e: Event, a: Id)
    requires WritesAgent(e)
    ensures TotalMoved(db, Step(db, now, e), a, 0)
  {
  }

  lemma StepTotal(db: Db, now: Time, e: Event, a: Id)
    ensures TotalMoved(db, Step(db, now, e), a, if Creates(db, e, a) then 1 else 0)
  {
    hide BlockAgent, TotalMoved;
    if e.DoBlock? {
      BlockMoves(db, now, e.caller, e.who, e.reason, a);
    } else if e.DoCreateIntent? || e.DoConnect? {
      CheckingMoves(db, now, e, a);
    } else {
      OthersMove(db, now, e, a);
    }
  }

  /** On every run the total of an agent that has not been deleted is the number of times a block row
      against it was made. */
  lemma {:induction false} TotalIsCreators(log: seq<Entry>, n: nat, a: Id)
    requires n <= |log|
    ensures a !in After(log, n).agents ==> Creators(log, n, a) == []
    ensures Live(After(log, n), a) ==> After(log, n).agents[a].totals.blocks == |Creators(log, n, a)|
  {
    hide Step;
    if n > 0 {
      TotalIsCreators(log, n - 1, a);
      StepTotal(After(log, n - 1), log[n - 1].at, log[n - 1].event, a);
      StepAgents(After(log, n - 1), log[n - 1].at, log[n - 1].event, a);
    }
  }

  // ---------------------------------------------------------------- distinct blockers

  predicate Distinct(q: seq<Id>) { forall i, j | 0 <= i < j < |q| :: q[i] != q[j] }

  function Members(q: seq<Id>): set<Id> { set x | x in q }

  lemma {:induction false} DistinctIff(q: seq<Id>)
    ensures |Members(q)| <= |q|
    ensures |Members(q)| == |q| <==> Distinct(q)
  {
    if q != [] {
      var rest, x := q[..|q| - 1], q[|q| - 1];
      DistinctIff(rest);
      assert q == rest + [x];
      assert Members(q) == Members(rest) + {x};
      ToggleSize(Members(rest), x);
      if Distinct(rest) && x !in rest {
        assert Distinct(q);
      }
      if Distinct(q) {
        assert forall i | 0 <= i < |rest| :: q[i] != q[|q| - 1];
      }
    }
  }

  /** Entry `k` makes a block row of `c` against `a`. */
  predicate CreatedAt(log: seq<Entry>, k: nat, c: Id, a: Id) {
    k < |log| && Creates(After(log, k), log[k].event, a) && log[k].event.caller == c
  }

  lemma {:induction false} CreatorsGrow(log: seq<Entry>, k: nat, n: nat, a: Id)
    requires k <= n <= |log|
    ensures Creators(log, k, a) <= Creators(log, n, a)
  {
    hide After;
    if k < n { CreatorsGrow(log, k, n - 1, a); }
  }

  lemma CreatedIsListed(log: seq<Entry>, k: nat, n: nat, c: Id, a: Id)
    requires k < n <= |log| && CreatedAt(log, k, c, a)
    ensures |Creators(log, k, a)| < |Creators(log, n, a)| && Creators(log, n, a)[|Creators(log, k, a)|] == c
  {
    hide After;
    CreatorsGrow(log, k + 1, n, a);
    assert Creators(log, k + 1, a) == Creators(log, k, a) + [c];
  }

  /** Every member of the list was put there by some entry. */
  lemma {:induction false} ListedWasCreated(log: seq<Entry>, n: nat, a: Id, i: nat) returns (k: nat)
    requires n <= |log| && i < |Creators(log, n, a)|
    ensures k < n && CreatedAt(log, k, Creators(log, n, a)[i], a) && |Creators(log, k, a)| == i
  {
    hide After;
    if i < |Creators(log, n - 1, a)| {
      k := ListedWasCreated(log, n - 1, a, i);
    } else {
      k := n - 1;
    }
  }

  lemma BlockStays(db: Db, now: Time, e: Event, c: Id, a: Id)
    requires (c, a) in db.blocks && e != DoUnblock(c, a) && e != DoDeleteAccount(c) && e != DoDeleteAccount(a)
    ensures (c, a) in Step(db, now, e).blocks
  {
    hide Step;
    if e.DoBlock? || e.DoUnblock? || e.DoDeleteAccount? {
      BlockOutlives(db, now, e, c, a);
    } else {
      StepLeavesBlocks(db, now, e);
    }
  }

  lemma BlockOutlives(db: Db, now: Time, e: Event, c: Id, a: Id)
    requires e.DoBlock? || e.DoUnblock? || e.DoDeleteAccount?
    requires (c, a) in db.blocks && e != DoUnblock(c, a) && e != DoDeleteAccount(c) && e != DoDeleteAccount(a)
    ensures (c, a) in Step(db, now, e).blocks
  {
    hide CreateIntent, Connect, AcceptRequest, AcceptMatch, CheckSoftBan;
  }

  lemma BlockMade(db: Db, now: Time, e: Event, a: Id)
    requires Creates(db, e, a)
    ensures (e.caller, a) in Step(db, now, e).blocks
  {
    hide CheckSoftBan;
  }

  lemma Deleted(db: Db, now: Time, c: Id)
    requires c in db.agents && db.agents[c].status != HardBanned
    ensures Gone(Step(db, now, DoDeleteAccount(c)), c)
  {
  }

  predicate Gone(db: Db, c: Id) { c in db.agents && db.agents[c].status == AgentDeleted }

  lemma {:induction false} GoneForGood(log: seq<Entry>, m: nat, n: nat, c: Id)
    requires m <= n <= |log| && Gone(After(log, m), c)
    ensures Gone(After(log, n), c)
  {
    hide Step;
    if m < n {
      GoneForGood(log, m, n - 1, c);
      StepStanding(After(log, n - 1), log[n - 1].at, log[n - 1].event, c);
    }
  }

  /** Who deletes its account is gone after it. */
  lemma DeletionTakes(log: seq<Entry>, j: nat, n: nat, c: Id)
    requires j < n <= |log| && log[j].event == DoDeleteAccount(c) && c in After(log, j).agents
    ensures Gone(After(log, n), c)
  {
    hide Step;
    AlwaysStandingShaped(log, j, c);
    Deleted(After(log, j), log[j].at, c);
    GoneForGood(log, j + 1, n, c);
  }

  lemma {:induction false} AgentsRemain(log: seq<Entry>, m: nat, n: nat, a: Id)
    requires m <= n <= |log| && a in After(log, m).agents
    ensures a in After(log, n).agents
  {
    hide Step;
    if m < n {
      AgentsRemain(log, m, n - 1, a);
      StepAgents(After(log, n - 1), log[n - 1].at, log[n - 1].event, a);
    }
  }

  /** A block row lasts until it is withdrawn or one of the two accounts is deleted. */
  lemma {:induction false} BlockLasts(log: seq<Entry>, k: nat, n: nat, c: Id, a: Id)
    requires k < n <= |log| && CreatedAt(log, k, c, a)
    requires !Gone(After(log, n), c) && !Gone(After(log, n), a)
    requires forall j | k < j < n :: log[j].event != DoUnblock(c, a)
    ensures (c, a) in After(log, n).blocks
  {
    hide Step, Creates;
    InvolvesAgents(log, k, c, a);
    if n == k + 1 {
      BlockMade(After(log, k), log[k].at, log[k].event, a);
      CreatesAgainst(log, k, c, a);
    } else {
      AgentsRemain(log, k, n - 1, c);
      AgentsRemain(log, k, n - 1, a);
      if Gone(After(log, n - 1), c) { GoneForGood(log, n - 1, n, c); }
      if Gone(After(log, n - 1), a) { GoneForGood(log, n - 1, n, a); }
      BlockLasts(log, k, n - 1, c, a);
      if log[n - 1].event == DoDeleteAccount(c) { DeletionTakes(log, n - 1, n, c); }
      if log[n - 1].event == DoDeleteAccount(a) { DeletionTakes(log, n - 1, n, a); }
      BlockStays(After(log, n - 1), log[n - 1].at, log[n - 1].event, c, a);
    }
  }

  lemma InvolvesAgents(log: seq<Entry>, k: nat, c: Id, a: Id)
    requires CreatedAt(log, k, c, a)
    ensures c in After(log, k).agents && a in After(log, k).agents
  {
  }

  lemma CreatesAgainst(log: seq<Entry>, k: nat, c: Id, a: Id)
    requires CreatedAt(log, k, c, a)
    ensures log[k].event.DoBlock? && log[k].event.caller == c && log[k].event.who == a
  {
  }

  /** Some agent blocked `a`, unblocked it, and blocked it again. */
  ghost predicate Reblocked(log: seq<Entry>, n: nat, a: Id) {
    exists k: nat, j: nat, l: nat, c: Id ::
      k < j < l < n && CreatedAt(log, k, c, a) && UnblockedAt(log, j, c, a) && CreatedAt(log, l, c, a)
  }

  predicate UnblockedAt(log: seq<Entry>, j: nat, c: Id, a: Id) { j < |log| && log[j].event == DoUnblock(c, a) }

  lemma RepeatWithdraws(log: seq<Entry>, k: nat, l: nat, n: nat, c: Id, a: Id)
    requires k < l < n <= |log| && CreatedAt(log, k, c, a) && CreatedAt(log, l, c, a) && Live(After(log, n), a)
    ensures Reblocked(log, n, a)
  {
    hide Step;
    if j: nat :| k < j < l && UnblockedAt(log, j, c, a) {
    } else {
      forall j | k < j < l ensures log[j].event != DoUnblock(c, a) { assert !UnblockedAt(log, j, c, a); }
      if Gone(After(log, l), a) { GoneForGood(log, l, n, a); }
      BlockLasts(log, k, l, c, a);
    }
  }

  /** Section 8.1 of PROTOCOL.md has `blocks_received_total` be the number of distinct agents who
      blocked this one. On every run, and for every agent not deleted, that is so if and only if nobody
      has blocked it, unblocked it and blocked it again; otherwise it is more. */
  lemma {:induction false} TotalIsDistinctIff(log: seq<Entry>, n: nat, a: Id)
    requires n <= |log| && Live(After(log, n), a)
    ensures var total, blockers := After(log, n).agents[a].totals.blocks, Members(Creators(log, n, a));
      && total == |Creators(log, n, a)|
      && |blockers| <= total
      && (total == |blockers| <==> !Reblocked(log, n, a))
  {
    hide Step;
    var q := Creators(log, n, a);
    TotalIsCreators(log, n, a);
    DistinctIff(q);
    if !Distinct(q) {
      var i, j :| 0 <= i < j < |q| && q[i] == q[j];
      var k := ListedWasCreated(log, n, a, i);
      var l := ListedWasCreated(log, n, a, j);
      if l <= k { CreatorsGrow(log, l, k, a); }
      RepeatWithdraws(log, k, l, n, q[i], a);
    }
    if Reblocked(log, n, a) {
      var k: nat, j: nat, l: nat, c: Id :|
        k < j < l < n && CreatedAt(log, k, c, a) && UnblockedAt(log, j, c, a) && CreatedAt(log, l, c, a);
      CreatedIsListed(log, k, n, c, a);
      CreatedIsListed(log, l, n, c, a);
      CreatedIsListed(log, k, l, c, a);
    }
  }

  // ---------------------------------------------------------------- blocked pairs

  /** Everything `create_connection` looks at before it looks for blocks. */
  predicate UpToBlocks(db: Db, caller: Id, target: Id, from: Id) {
    && MayMutate(db, caller)
    && target in db.intents && db.intents[target].agentId in db.agents && db.intents[target].status == IntentActive
    && Owns(db, caller, from) && db.intents[from].status == IntentActive
    && db.intents[target].agentId != caller
  }

  /** `/connect` between agents of which at least one blocks the other changes nothing. It answers 403
      `blocked` if and only if just one of the two block rows stands; with both it fails with 500. */
  lemma BlockedReplyIff(db: Db, now: Time, caller: Id, target: Id, from: Id, newId: Id)
    requires UpToBlocks(db, caller, target, from)
    ensures var to := db.intents[target].agentId;
            var one, other := (caller, to) in db.blocks, (to, caller) in db.blocks;
            var outcome := Connect(db, now, caller, target, from, newId);
      && (one || other ==> outcome.db == db)
      && (outcome.reply == Refused(403, "blocked") <==> one != other)
      && (outcome.reply == Refused(500, "multiple rows") <==> one && other)
  {
    hide CheckSoftBan;
    assert "multiple rows"[0] != "duplicate key"[0];
  }

  /** Two agents; the one blocks the other, unblocks it, and blocks it again. */
  function Grudge(t: Time): seq<Entry> {
    [Entry(t, DoRegister(1, "a", 1)), Entry(t, DoRegister(2, "b", 2)),
     Entry(t, DoBlock(1, 2, None)), Entry(t, DoUnblock(1, 2)), Entry(t, DoBlock(1, 2, None))]
  }

  lemma GrudgeRegisters(t: Time)
    ensures var db := After(Grudge(t), 2);
      && db.intents == map[] && db.requests == map[] && db.blocks == map[] && db.sessions == map[]
      && MayMutate(db, 1) && MayMutate(db, 2)
  {
    var log := Grudge(t);
    assert After(log, 0) == EMPTY_DB;
    AfterNext(log, 0);
    AfterNext(log, 1);
    hide After;
    assert "a"[0] != "b"[0];
  }

  lemma Unblocks(db: Db, now: Time, caller: Id, who: Id)
    requires MayMutate(db, caller) && who in db.agents && db.blocks.Keys == {(caller, who)}
    ensures Step(db, now, DoUnblock(caller, who)) == db.(blocks := map[])
  {
    assert db.blocks - {(caller, who)} == map[];
  }

  /** It happens: after this run the total is two and the distinct blockers are one. */
  lemma GrudgeCountsTwice(t: Time)
    ensures var log := Grudge(t);
      && Live(After(log, 5), 2) && Reblocked(log, 5, 2)
      && After(log, 5).agents[2].totals.blocks == 2 && Members(Creators(log, 5, 2)) == {1}
  {
    var log := Grudge(t);
    AfterNext(log, 2);
    AfterNext(log, 3);
    AfterNext(log, 4);
    hide After, Step;
    GrudgeRegisters(t);
    CalmBlock(After(log, 2), t, 1, 2);
    Unblocks(After(log, 3), t, 1, 2);
    CalmBlock(After(log, 4), t, 1, 2);
    assert CreatedAt(log, 2, 1, 2) && UnblockedAt(log, 3, 1, 2) && CreatedAt(log, 4, 1, 2);
    assert 2 < 3 < 4 < 5;
    GrudgeCreators(t);
    TotalIsCreators(log, 5, 2);
  }

  lemma GrudgeCreators(t: Time)
    requires CreatedAt(Grudge(t), 2, 1, 2) && CreatedAt(Grudge(t), 4, 1, 2)
    ensures Creators(Grudge(t), 5, 2) == [1, 1]
  {
    hide After;
    var log := Grudge(t);
    assert Creators(log, 0, 2) == [];
    assert Creators(log, 1, 2) == [] && Creators(log, 2, 2) == [];
    assert Creators(log, 3, 2) == [1] && Creators(log, 4, 2) == [1];
  }

  /** Two agents, an intent each, and then each blocks the other. */
  function Feud(t: Time): seq<Entry> {
    [Entry(t, DoRegister(1, "a", 1)), Entry(t, DoRegister(2, "b", 2)),
     Entry(t, DoCreateIntent(1, 1, 30, None)), Entry(t, DoCreateIntent(2, 2, 30, None)),
     Entry(t, DoBlock(1, 2, None)), Entry(t, DoBlock(2, 1, None))]
  }

  lemma CountAtMost<K, V>(m: map<K, V>, p: V -> bool)
    ensures Count(m, p) <= |m|
  {
    SubsetSize(Hits(m, p), m.Keys);
  }

  /** Too few rows for any limit or any ban. */
  predicate Calm(db: Db) { |db.requests| <= 5 && |db.intents| <= 5 && |db.blocks| <= 5 }

  lemma CalmBansNobody(db: Db, a: Id, now: Time)
    requires Calm(db)
    ensures CheckSoftBan(db, a, now) == db
  {
    CountAtMost(db.requests, SentSince(a, now - SOFT_BAN));
    CountAtMost(db.intents, PostedSince(a, now - DAY));
    SubsetSize((set p | p in db.blocks && p.1 == a && db.blocks[p].createdAt >= now - SOFT_BAN), db.blocks.Keys);
  }

  lemma CalmPost(db: Db, now: Time, caller: Id, newId: Id)
    requires Calm(db) && Calm(Posted(db, now, caller, newId, 30)) && MayMutate(db, caller) && newId !in db.intents
    ensures Step(db, now, DoCreateIntent(caller, newId, 30, None)) == Posted(db, now, caller, newId, 30)
  {
    hide CheckSoftBan;
    CountAtMost(db.intents, ActiveOf(caller));
    CountAtMost(db.intents, PostedSince(caller, now - DAY));
    CalmBansNobody(Posted(db, now, caller, newId, 30), caller, now);
  }

  lemma CalmBlock(db: Db, now: Time, caller: Id, who: Id)
    requires Calm(Shunned(db, now, caller, who, None)) && MayMutate(db, caller) && who in db.agents && who != caller
    requires (caller, who) !in db.blocks
    ensures Step(db, now, DoBlock(caller, who, None)) == Shunned(db, now, caller, who, None)
  {
    hide CheckSoftBan;
    CalmBansNobody(Shunned(db, now, caller, who, None), who, now);
  }

  lemma FeudRegisters(t: Time)
    ensures var db := After(Feud(t), 2);
      && db.intents == map[] && db.requests == map[] && db.blocks == map[] && db.sessions == map[]
      && MayMutate(db, 1) && MayMutate(db, 2)
  {
    var log := Feud(t);
    assert After(log, 0) == EMPTY_DB;
    AfterNext(log, 0);
    AfterNext(log, 1);
    hide After;
    assert "a"[0] != "b"[0];
  }

  lemma FeudPostsOnce(t: Time)
    ensures var db := After(Feud(t), 3);
      && db.intents == map[1 := Intent(1, 30, t, t + 30 * DAY, IntentActive)] && db.requests == map[] && db.blocks == map[]
      && db.sessions == map[] && MayMutate(db, 1) && MayMutate(db, 2)
  {
    var log := Feud(t);
    AfterNext(log, 2);
    hide After, Step;
    FeudRegisters(t);
    CalmPost(After(log, 2), t, 1, 1);
  }

  lemma FeudPosts(t: Time)
    ensures var db := After(Feud(t), 4);
      && |db.intents| == 2 && db.requests == map[] && db.blocks == map[] && db.sessions == map[]
      && MayMutate(db, 1) && MayMutate(db, 2)
      && Owns(db, 1, 1) && db.intents[1].status == IntentActive
      && Owns(db, 2, 2) && db.intents[2].status == IntentActive
  {
    var log := Feud(t);
    AfterNext(log, 3);
    hide After, Step;
    FeudPostsOnce(t);
    CalmPost(After(log, 3), t, 2, 2);
  }

  /** That a pair is in this position is not only a thought: on this run both rows stand, and the
      owner of the one intent who asks to connect to the other gets 500. */
  lemma FeudBreaksConnect(t: Time, newId: Id)
    ensures var db := After(Feud(t), 6);
      && (1, 2) in db.blocks && (2, 1) in db.blocks && UpToBlocks(db, 1, 2, 1)
      && Connect(db, t, 1, 2, 1, newId).reply == Refused(500, "multiple rows")
  {
    var log := Feud(t);
    AfterNext(log, 4);
    AfterNext(log, 5);
    hide After, Step, Connect;
    FeudPosts(t);
    CalmBlock(After(log, 4), t, 1, 2);
    CalmBlock(After(log, 5), t, 2, 1);
    BlockedReplyIff(After(log, 6), t, 1, 2, 1, newId);
  }
}
