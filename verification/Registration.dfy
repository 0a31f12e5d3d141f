/** Registration (`register.py`): concurrent OAuth callbacks, each holding an advisory lock on its
    GitHub user from before it counts until its transaction ends, together with deletions, bans,
    token expiry and crashes, in every interleaving. */
module Registration {
  import opened Basics
  import opened Rows

  const AGENT_LIMIT: nat := 3

  type Pid = nat
  type TokenId = nat

  datatype TokenStatus = TokenPending | TokenComplete(github: int) | TokenFailed

  /** The Redis entry of a registration token. */
  datatype Token = Token(pubkey: string, status: TokenStatus)

  /** A running `oauth_callback`: what it has read so far and how far it has come. */
  datatype Callback =
    | Loaded(token: TokenId, stored: Token)
    | Identified(token: TokenId, stored: Token, github: int)
    | Locked(token: TokenId, stored: Token, github: int)
    | Counted(token: TokenId, stored: Token, github: int, agents: nat)
    | Refusing(github: int)                                    // failure written, transaction open
    | Committed(token: TokenId, stored: Token, github: int)    // row committed, entry not yet
    | Replied(status: nat)

  datatype State = State(agents: map<Id, Agent>, redis: map<TokenId, Token>,
                         locks: map<int, Pid>, callbacks: map<Pid, Callback>)

  const EMPTY := State(map[], map[], map[], map[])

  datatype Op =
    | Init(token: TokenId, pubkey: string)
    | Load(p: Pid, token: TokenId)
    | Identify(p: Pid, github: int)
    | TakeLock(p: Pid)
    | CountAgents(p: Pid)
    | Refuse(p: Pid)
    | Insert(p: Pid, newId: Id, now: Time)
    | Publish(p: Pid)
    | Finish(p: Pid)
    | Crash(p: Pid)
    | Expire(token: TokenId)
    | DeleteAgent(a: Id)
    | Ban(a: Id, lifts: Time)
    | Lift(a: Id)

  /** `count_active_agents_for_github`. */
  function LiveOf(github: int): Agent -> bool {
    (r: Agent) => r.githubUserId == Some(github) && r.status != AgentDeleted && r.status != HardBanned
  }

  function LiveCount(agents: map<Id, Agent>, github: int): nat { Count(agents, LiveOf(github)) }

  predicate Taken(agents: map<Id, Agent>, pubkey: string) {
    exists a :: a in agents && agents[a].pubkey == pubkey
  }

  predicate HoldsLock(c: Callback) { c.Locked? || c.Counted? || c.Refusing? }

  /** End of the transaction: whatever lock the callback held is free. */
  function Unlocked(s: State, p: Pid): map<int, Pid>
    requires p in s.callbacks
  {
    if HoldsLock(s.callbacks[p]) then s.locks - {s.callbacks[p].github} else s.locks
  }

  function Goes(s: State, p: Pid, c: Callback): State { s.(callbacks := s.callbacks[p := c]) }

  function NewAgent(pubkey: string, github: int, now: Time): Agent {
    Agent(pubkey, Some(github), now, None, AgentActive, None, ZERO_TOTALS)
  }

  function WithStatus(s: State, a: Id, r: Agent): State { s.(agents := s.agents[a := r]) }

  /** One step. One that is not enabled, such as taking a lock that is held, changes nothing. */
  function Step(s: State, op: Op): State {
    match op
    case Init(t, pubkey) =>
      if t in s.redis then s else s.(redis := s.redis[t := Token(pubkey, TokenPending)])
    case Load(p, t) =>
      if p in s.callbacks then s
      else if t !in s.redis then Goes(s, p, Replied(400))
      else Goes(s, p, Loaded(t, s.redis[t]))
    case Identify(p, github) =>
      if p in s.callbacks && s.callbacks[p].Loaded?
      then Goes(s, p, Identified(s.callbacks[p].token, s.callbacks[p].stored, github)) else s
    case TakeLock(p) =>
      if p in s.callbacks && s.callbacks[p].Identified? && s.callbacks[p].github !in s.locks then
        var c := s.callbacks[p];
        Goes(s, p, Locked(c.token, c.stored, c.github)).(locks := s.locks[c.github := p])
      else s
    case CountAgents(p) =>
      if p in s.callbacks && s.callbacks[p].Locked? then
        var c := s.callbacks[p];
        Goes(s, p, Counted(c.token, c.stored, c.github, LiveCount(s.agents, c.github)))
      else s
    case Refuse(p) =>
      if p in s.callbacks && s.callbacks[p].Counted? && s.callbacks[p].agents >= AGENT_LIMIT then
        var c := s.callbacks[p];
        Goes(s, p, Refusing(c.github)).(redis := s.redis[c.token := c.stored.(status := TokenFailed)])
      else s
    case Insert(p, newId, now) =>
      if p in s.callbacks && s.callbacks[p].Counted? && s.callbacks[p].agents < AGENT_LIMIT then
        var c := s.callbacks[p];
        if newId in s.agents || Taken(s.agents, c.stored.pubkey)
        then Goes(s, p, Replied(500)).(locks := Unlocked(s, p))
        else Goes(s, p, Committed(c.token, c.stored, c.github)).(
               agents := s.agents[newId := NewAgent(c.stored.pubkey, c.github, now)], locks := Unlocked(s, p))
      else s
    case Publish(p) =>
      if p in s.callbacks && s.callbacks[p].Committed? then
        var c := s.callbacks[p];
        Goes(s, p, Replied(200)).(redis := s.redis[c.token := c.stored.(status := TokenComplete(c.github))])
      else s
    case Finish(p) =>
      if p in s.callbacks && s.callbacks[p].Refusing?
      then Goes(s, p, Replied(403)).(locks := Unlocked(s, p)) else s
    case Crash(p) =>
      if p in s.callbacks then Goes(s, p, Replied(500)).(locks := Unlocked(s, p)) else s
    case Expire(t) => s.(redis := s.redis - {t})
    case DeleteAgent(a) =>
      if a in s.agents
      then WithStatus(s, a, s.agents[a].(githubUserId := None, status := AgentDeleted, softBanLiftsAt := None)) else s
    case Ban(a, lifts) =>
      if a in s.agents && s.agents[a].status == AgentActive
      then WithStatus(s, a, s.agents[a].(status := SoftBanned, softBanLiftsAt := Some(lifts))) else s
    case Lift(a) =>
      if a in s.agents && s.agents[a].status == SoftBanned
      then WithStatus(s, a, s.agents[a].(status := AgentActive, softBanLiftsAt := None)) else s
  }

  function Run(ops: seq<Op>, n: nat): State
    requires n <= |ops|
  {
    if n == 0 then EMPTY else Step(Run(ops, n - 1), ops[n - 1])
  }

  // ---------------------------------------------------------------- what the lock is for

  /** A lock is held by exactly the one callback that is between taking it and ending. */
  ghost predicate LocksSound(s: State) {
    && (forall p | p in s.callbacks && HoldsLock(s.callbacks[p]) ::
          s.callbacks[p].github in s.locks && s.locks[s.callbacks[p].github] == p)
    && (forall g | g in s.locks :: s.locks[g] in s.callbacks && HoldsLock(s.callbacks[s.locks[g]])
                                   && s.callbacks[s.locks[g]].github == g)
  }

  /** What a lock holder counted is still an upper bound. */
  ghost predicate CountsSound(s: State) {
    forall p | p in s.callbacks && s.callbacks[p].Counted? :: LiveCount(s.agents, s.callbacks[p].github) <= s.callbacks[p].agents
  }

  ghost predicate WithinLimit(s: State) { forall g: int :: LiveCount(s.agents, g) <= AGENT_LIMIT }

  ghost predicate Sound(s: State) { LocksSound(s) && CountsSound(s) && WithinLimit(s) }

  lemma LocksKept(s: State, op: Op)
    requires LocksSound(s)
    ensures LocksSound(Step(s, op))
  {
    hide Step, LocksSound;
    if op.TakeLock? {
      TakingKept(s, op.p);
    } else if op.Insert? || op.Finish? || op.Crash? {
      ReleaseKept(s, op);
    } else {
      NoLockTouched(s, op);
    }
  }

  lemma TakingKept(s: State, p: Pid)
    requires LocksSound(s)
    ensures LocksSound(Step(s, TakeLock(p)))
  {
  }

  lemma ReleaseKept(s: State, op: Op)
    requires LocksSound(s) && (op.Insert? || op.Finish? || op.Crash?)
    ensures LocksSound(Step(s, op))
  {
  }

  lemma NoLockTouched(s: State, op: Op)
    requires LocksSound(s) && !op.TakeLock? && !op.Insert? && !op.Finish? && !op.Crash?
    ensures LocksSound(Step(s, op))
  {
  }

  /** A count is taken from the rows as they are, and kept as it was taken. */
  lemma CountTaken(s: State, op: Op, p: Pid)
    requires p in Step(s, op).callbacks && Step(s, op).callbacks[p].Counted?
    ensures var c := Step(s, op).callbacks[p];
      || (p in s.callbacks && s.callbacks[p] == c)
      || c.agents == LiveCount(s.agents, c.github)
  {
  }

  /** A step that writes no agent row: what was counted is still a bound. */
  lemma AgentsUntouched(s: State, op: Op)
    requires Sound(s) && Step(s, op).agents == s.agents
    ensures CountsSound(Step(s, op)) && WithinLimit(Step(s, op))
  {
    hide Step, LocksSound, LiveCount;
    forall p | p in Step(s, op).callbacks && Step(s, op).callbacks[p].Counted?
      ensures LiveCount(s.agents, Step(s, op).callbacks[p].github) <= Step(s, op).callbacks[p].agents
    {
      CountTaken(s, op, p);
    }
  }

  /** Two callbacks past the lock serve different GitHub users. */
  lemma Exclusive(s: State, p: Pid, q: Pid)
    requires LocksSound(s) && p in s.callbacks && q in s.callbacks && p != q
    requires HoldsLock(s.callbacks[p]) && HoldsLock(s.callbacks[q])
    ensures s.callbacks[p].github != s.callbacks[q].github
  {
  }

  lemma InsertAdds(s: State, p: Pid, newId: Id, now: Time, g: int)
    requires Step(s, Insert(p, newId, now)).agents != s.agents
    ensures p in s.callbacks && s.callbacks[p].Counted? && s.callbacks[p].agents < AGENT_LIMIT
    ensures LiveCount(Step(s, Insert(p, newId, now)).agents, g)
            == LiveCount(s.agents, g) + if g == s.callbacks[p].github then 1 else 0
    ensures Step(s, Insert(p, newId, now)).callbacks
            == s.callbacks[p := Committed(s.callbacks[p].token, s.callbacks[p].stored, s.callbacks[p].github)]
  {
    CountWrite(s.agents, newId, NewAgent(s.callbacks[p].stored.pubkey, s.callbacks[p].github, now), LiveOf(g));
  }

  /** The insert is where the limit could be passed: the inserter's count is a bound because it
      still holds the lock, and nobody else's count is about the same user. */
  lemma InsertKept(s: State, p: Pid, newId: Id, now: Time)
    requires Sound(s)
    ensures CountsSound(Step(s, Insert(p, newId, now))) && WithinLimit(Step(s, Insert(p, newId, now)))
  {
    hide Step, LiveCount, LocksSound;
    var next := Step(s, Insert(p, newId, now));
    if next.agents == s.agents {
      AgentsUntouched(s, Insert(p, newId, now));
    } else {
      InsertAdds(s, p, newId, now, 0);
      forall g: int ensures LiveCount(next.agents, g) == LiveCount(s.agents, g) + if g == s.callbacks[p].github then 1 else 0 {
        InsertAdds(s, p, newId, now, g);
      }
      forall q | q in next.callbacks && next.callbacks[q].Counted?
        ensures LiveCount(next.agents, next.callbacks[q].github) <= next.callbacks[q].agents
      {
        Exclusive(s, p, q);
      }
    }
  }

  /** Deleting, banning and lifting revive no agent. */
  lemma NoneRevived(s: State, op: Op, g: int)
    requires op.DeleteAgent? || op.Ban? || op.Lift?
    ensures Step(s, op).callbacks == s.callbacks && Step(s, op).agents.Keys == s.agents.Keys
    ensures forall a | a in s.agents && LiveOf(g)(Step(s, op).agents[a]) :: LiveOf(g)(s.agents[a])
  {
  }

  lemma StandingKept(s: State, op: Op)
    requires Sound(s) && (op.DeleteAgent? || op.Ban? || op.Lift?)
    ensures CountsSound(Step(s, op)) && WithinLimit(Step(s, op))
  {
    hide Step, LiveOf, LocksSound;
    var next := Step(s, op);
    NoneRevived(s, op, 0);
    forall g: int ensures LiveCount(next.agents, g) <= LiveCount(s.agents, g) {
      NoneRevived(s, op, g);
      CountFewer(next.agents, s.agents, LiveOf(g), LiveOf(g));
    }
  }

  lemma StepKeepsSound(s: State, op: Op)
    requires Sound(s)
    ensures Sound(Step(s, op))
  {
    LocksKept(s, op);
    if op.Insert? {
      InsertKept(s, op.p, op.newId, op.now);
    } else if op.DeleteAgent? || op.Ban? || op.Lift? {
      StandingKept(s, op);
    } else {
      AgentsUntouched(s, op);
    }
  }

  /** However many callbacks, deletions and crashes interleave, no GitHub user ever has more than
      three agents that are neither deleted nor hard-banned. */
  lemma {:induction false} RegistrationCap(ops: seq<Op>, n: nat, github: int)
    requires n <= |ops|
    ensures LiveCount(Run(ops, n).agents, github) <= AGENT_LIMIT
    ensures Sound(Run(ops, n))
  {
    hide Step;
    if n == 0 {
      assert forall g: int :: LiveCount(EMPTY.agents, g) == 0;
    } else {
      RegistrationCap(ops, n - 1, github);
      StepKeepsSound(Run(ops, n - 1), ops[n - 1]);
    }
  }

  // ---------------------------------------------------------------- what a token says

  /** Op `m` committed agent row `a` for this key and this GitHub user. */
  ghost predicate CommittedAt(ops: seq<Op>, m: nat, a: Id, pubkey: string, github: int) {
    && m < |ops| && ops[m].Insert? && ops[m].newId == a
    && a !in Run(ops, m).agents
    && a in Run(ops, m + 1).agents
    && Run(ops, m + 1).agents[a].pubkey == pubkey
    && Run(ops, m + 1).agents[a].githubUserId == Some(github)
  }

  lemma StepCallback(s: State, op: Op, p: Pid)
    requires p in Step(s, op).callbacks && Step(s, op).callbacks[p].Committed?
    requires p in s.callbacks ==> s.callbacks[p] != Step(s, op).callbacks[p]
    ensures op.Insert? && op.newId !in s.agents && op.newId in Step(s, op).agents
    ensures Step(s, op).agents[op.newId].pubkey == Step(s, op).callbacks[p].stored.pubkey
    ensures Step(s, op).agents[op.newId].githubUserId == Some(Step(s, op).callbacks[p].github)
  {
  }

  lemma {:induction false} CommitBeforePublish(ops: seq<Op>, n: nat, p: Pid) returns (m: nat, a: Id)
    requires n <= |ops| && p in Run(ops, n).callbacks && Run(ops, n).callbacks[p].Committed?
    ensures m < n
    ensures CommittedAt(ops, m, a, Run(ops, n).callbacks[p].stored.pubkey, Run(ops, n).callbacks[p].github)
  {
    hide Step;
    var s := Run(ops, n - 1);
    if p in s.callbacks && s.callbacks[p] == Run(ops, n).callbacks[p] {
      m, a := CommitBeforePublish(ops, n - 1, p);
    } else {
      StepCallback(s, ops[n - 1], p);
      m, a := n - 1, ops[n - 1].newId;
    }
  }

  /** Only the last step of a successful callback makes a token read complete. */
  lemma StepToken(s: State, op: Op, t: TokenId)
    requires t in Step(s, op).redis && Step(s, op).redis[t].status.TokenComplete?
    requires t in s.redis ==> s.redis[t] != Step(s, op).redis[t]
    ensures op.Publish? && op.p in s.callbacks && s.callbacks[op.p].Committed?
    ensures s.callbacks[op.p].stored.pubkey == Step(s, op).redis[t].pubkey
    ensures s.callbacks[op.p].github == Step(s, op).redis[t].status.github
  {
  }

  /** Rows are never removed; a row loses its GitHub user only by deletion. */
  lemma RowStays(s: State, op: Op, a: Id)
    requires a in s.agents
    ensures a in Step(s, op).agents && Step(s, op).agents[a].pubkey == s.agents[a].pubkey
    ensures Step(s, op).agents[a].githubUserId == s.agents[a].githubUserId || Step(s, op).agents[a].status == AgentDeleted
    ensures s.agents[a].status == AgentDeleted ==> Step(s, op).agents[a].status == AgentDeleted
  {
  }

  lemma {:induction false} RowRemains(ops: seq<Op>, m: nat, n: nat, a: Id)
    requires m <= n <= |ops| && a in Run(ops, m).agents
    ensures a in Run(ops, n).agents && Run(ops, n).agents[a].pubkey == Run(ops, m).agents[a].pubkey
    ensures Run(ops, n).agents[a].githubUserId == Run(ops, m).agents[a].githubUserId
            || Run(ops, n).agents[a].status == AgentDeleted
  {
    hide Step;
    if m < n {
      RowRemains(ops, m, n - 1, a);
      RowStays(Run(ops, n - 1), ops[n - 1], a);
    }
  }

  /** Whenever a token reads complete, the agent row it speaks of was committed by an earlier step,
      and it is still there unless the agent deleted itself since. */
  lemma {:induction false} CompleteMeansCommitted(ops: seq<Op>, n: nat, t: TokenId) returns (m: nat, a: Id)
    requires n <= |ops| && t in Run(ops, n).redis && Run(ops, n).redis[t].status.TokenComplete?
    ensures m < n
    ensures CommittedAt(ops, m, a, Run(ops, n).redis[t].pubkey, Run(ops, n).redis[t].status.github)
    ensures a in Run(ops, n).agents && Run(ops, n).agents[a].pubkey == Run(ops, n).redis[t].pubkey
    ensures Run(ops, n).agents[a].githubUserId == Some(Run(ops, n).redis[t].status.github)
            || Run(ops, n).agents[a].status == AgentDeleted
  {
    hide Step;
    var s := Run(ops, n - 1);
    if t in s.redis && s.redis[t] == Run(ops, n).redis[t] {
      m, a := CompleteMeansCommitted(ops, n - 1, t);
    } else {
      StepToken(s, ops[n - 1], t);
      m, a := CommitBeforePublish(ops, n - 1, ops[n - 1].p);
    }
    RowRemains(ops, m + 1, n, a);
  }

  // ---------------------------------------------------------------- what a token stops saying

  /** Some op minted this token for this key. */
  ghost predicate Minted(ops: seq<Op>, t: TokenId, pubkey: string) {
    exists i :: 0 <= i < |ops| && ops[i] == Init(t, pubkey)
  }

  /** Tokens are fresh random ids: none is minted for two keys. */
  predicate OneKeyEach(ops: seq<Op>) {
    forall i, j | 0 <= i < |ops| && 0 <= j < |ops| && ops[i].Init? && ops[j].Init? && ops[i].token == ops[j].token ::
      ops[i].pubkey == ops[j].pubkey
  }

  predicate Carries(c: Callback) { c.Loaded? || c.Identified? || c.Locked? || c.Counted? || c.Committed? }

  predicate Complete(s: State, t: TokenId) { t in s.redis && s.redis[t].status.TokenComplete? }

  predicate Publishing(s: State, p: Pid) { p in s.callbacks && s.callbacks[p].Committed? }

  /** Every entry and every callback speaks of the key its token was minted for. */
  ghost predicate KeysSound(ops: seq<Op>, s: State) {
    && (forall t | t in s.redis :: Minted(ops, t, s.redis[t].pubkey))
    && (forall p | p in s.callbacks && Carries(s.callbacks[p]) ::
          Minted(ops, s.callbacks[p].token, s.callbacks[p].stored.pubkey))
  }

  /** A key is registered once: of all complete tokens and all callbacks about to publish, only complete
      tokens can speak of the same one. */
  ghost predicate KeysTaken(s: State) {
    && (forall t | Complete(s, t) :: Taken(s.agents, s.redis[t].pubkey))
    && (forall p | Publishing(s, p) :: Taken(s.agents, s.callbacks[p].stored.pubkey))
    && (forall p, t | Publishing(s, p) && Complete(s, t) :: s.callbacks[p].stored.pubkey != s.redis[t].pubkey)
    && (forall p, q | Publishing(s, p) && Publishing(s, q) && p != q ::
          s.callbacks[p].stored.pubkey != s.callbacks[q].stored.pubkey)
  }

  lemma StepKeysSound(ops: seq<Op>, s: State, op: Op)
    requires KeysSound(ops, s) && op in ops
    ensures KeysSound(ops, Step(s, op))
  {
    hide Step, Minted;
    var next := Step(s, op);
    if op.Init? { MintedBy(ops, op); }
    forall t | t in next.redis ensures Minted(ops, t, next.redis[t].pubkey) { EntryFrom(s, op, t); }
    forall p | p in next.callbacks && Carries(next.callbacks[p])
      ensures Minted(ops, next.callbacks[p].token, next.callbacks[p].stored.pubkey)
    {
      CarriedFrom(s, op, p);
    }
  }

  lemma MintedBy(ops: seq<Op>, op: Op)
    requires op.Init? && op in ops
    ensures Minted(ops, op.token, op.pubkey)
  {
  }

  /** Where the key of an entry comes from, and that of a callback. */
  lemma EntryFrom(s: State, op: Op, t: TokenId)
    requires t in Step(s, op).redis
    ensures || (t in s.redis && s.redis[t].pubkey == Step(s, op).redis[t].pubkey)
            || op == Init(t, Step(s, op).redis[t].pubkey)
            || exists p :: p in s.callbacks && Carries(s.callbacks[p]) && s.callbacks[p].token == t
                           && s.callbacks[p].stored.pubkey == Step(s, op).redis[t].pubkey
  {
  }

  lemma CarriedFrom(s: State, op: Op, p: Pid)
    requires p in Step(s, op).callbacks && Carries(Step(s, op).callbacks[p])
    ensures var c := Step(s, op).callbacks[p];
      || (c.token in s.redis && s.redis[c.token] == c.stored)
      || (p in s.callbacks && Carries(s.callbacks[p]) && s.callbacks[p].token == c.token && s.callbacks[p].stored == c.stored)
  {
  }

  lemma TakenStays(s: State, op: Op, pubkey: string)
    requires Taken(s.agents, pubkey)
    ensures Taken(Step(s, op).agents, pubkey)
  {
    var a :| a in s.agents && s.agents[a].pubkey == pubkey;
    RowStays(s, op, a);
  }

  /** Who comes to publish has just registered a key that nobody had. */
  lemma NewlyPublishing(s: State, op: Op, p: Pid)
    requires Publishing(Step(s, op), p) && !(Publishing(s, p) && s.callbacks[p] == Step(s, op).callbacks[p])
    ensures !Taken(s.agents, Step(s, op).callbacks[p].stored.pubkey)
    ensures Taken(Step(s, op).agents, Step(s, op).callbacks[p].stored.pubkey)
    ensures op.Insert? && op.p == p && Step(s, op).redis == s.redis
    ensures forall q | q in s.callbacks && q != p :: Step(s, op).callbacks[q] == s.callbacks[q]
  {
    StepCallback(s, op, p);
    assert Step(s, op).agents[op.newId].pubkey == Step(s, op).callbacks[p].stored.pubkey;
  }

  /** A token that comes to read complete takes over from the callback that published it. */
  lemma NewlyComplete(s: State, op: Op, t: TokenId)
    requires Complete(Step(s, op), t) && !(t in s.redis && s.redis[t] == Step(s, op).redis[t])
    ensures op.Publish? && Publishing(s, op.p) && !Publishing(Step(s, op), op.p)
    ensures s.callbacks[op.p].stored.pubkey == Step(s, op).redis[t].pubkey
    ensures Step(s, op).agents == s.agents
  {
  }

  lemma StepKeysTaken(s: State, op: Op)
    requires KeysTaken(s)
    ensures KeysTaken(Step(s, op))
  {
    hide Step, Taken;
    var next := Step(s, op);
    forall t | Complete(next, t) ensures Taken(next.agents, next.redis[t].pubkey) {
      if !(t in s.redis && s.redis[t] == next.redis[t]) { NewlyComplete(s, op, t); } else { assert Complete(s, t); }
      TakenStays(s, op, next.redis[t].pubkey);
    }
    forall p | Publishing(next, p) ensures Taken(next.agents, next.callbacks[p].stored.pubkey) {
      if Publishing(s, p) && s.callbacks[p] == next.callbacks[p] {
        TakenStays(s, op, next.callbacks[p].stored.pubkey);
      } else {
        NewlyPublishing(s, op, p);
      }
    }
    forall p, t | Publishing(next, p) && Complete(next, t) ensures next.callbacks[p].stored.pubkey != next.redis[t].pubkey {
      PublishingApart(s, op, p, t);
    }
    forall p, q | Publishing(next, p) && Publishing(next, q) && p != q
      ensures next.callbacks[p].stored.pubkey != next.callbacks[q].stored.pubkey
    {
      PublishersApart(s, op, p, q);
    }
  }

  lemma PublishingApart(s: State, op: Op, p: Pid, t: TokenId)
    requires KeysTaken(s) && Publishing(Step(s, op), p) && Complete(Step(s, op), t)
    ensures Step(s, op).callbacks[p].stored.pubkey != Step(s, op).redis[t].pubkey
  {
    hide Step, Taken;
    if !(Publishing(s, p) && s.callbacks[p] == Step(s, op).callbacks[p]) {
      NewlyPublishing(s, op, p);
      assert Complete(s, t);
    } else if !(t in s.redis && s.redis[t] == Step(s, op).redis[t]) {
      NewlyComplete(s, op, t);
    } else {
      assert Complete(s, t);
    }
  }

  lemma PublishersApart(s: State, op: Op, p: Pid, q: Pid)
    requires KeysTaken(s) && Publishing(Step(s, op), p) && Publishing(Step(s, op), q) && p != q
    ensures Step(s, op).callbacks[p].stored.pubkey != Step(s, op).callbacks[q].stored.pubkey
  {
    hide Step, Taken;
    if !(Publishing(s, p) && s.callbacks[p] == Step(s, op).callbacks[p]) {
      NewlyPublishing(s, op, p);
      PublisherBefore(s, op, q);
    } else if !(Publishing(s, q) && s.callbacks[q] == Step(s, op).callbacks[q]) {
      NewlyPublishing(s, op, q);
    }
  }

  lemma PublisherBefore(s: State, op: Op, q: Pid)
    requires Publishing(Step(s, op), q) && (op.Insert? ==> op.p != q)
    ensures Publishing(s, q) && s.callbacks[q] == Step(s, op).callbacks[q]
  {
  }

  lemma {:induction false} AlwaysKeysSound(ops: seq<Op>, n: nat)
    requires n <= |ops|
    ensures KeysSound(ops, Run(ops, n)) && KeysTaken(Run(ops, n))
  {
    hide Step, KeysSound, KeysTaken;
    if n > 0 {
      AlwaysKeysSound(ops, n - 1);
      StepKeysSound(ops, Run(ops, n - 1), ops[n - 1]);
      StepKeysTaken(Run(ops, n - 1), ops[n - 1]);
    } else {
      NothingKept(ops);
    }
  }

  lemma NothingKept(ops: seq<Op>)
    ensures KeysSound(ops, EMPTY) && KeysTaken(EMPTY)
  {
  }

  /** Another callback on the token, which has counted the limit, is refused. */
  predicate Refuses(s: State, op: Op, t: TokenId) {
    op.Refuse? && op.p in s.callbacks && s.callbacks[op.p].Counted?
    && s.callbacks[op.p].token == t && s.callbacks[op.p].agents >= AGENT_LIMIT
  }

  /** Whatever can change a complete entry: publishing over it is the third way, ... */
  lemma StepChanges(s: State, op: Op, t: TokenId)
    requires Complete(s, t)
    ensures op == Expire(t) || Refuses(s, op, t) ==> !(Complete(Step(s, op), t) && Step(s, op).redis[t] == s.redis[t])
    ensures op != Expire(t) && !Refuses(s, op, t) && !(op.Publish? && Publishing(s, op.p) && s.callbacks[op.p].token == t) ==>
              t in Step(s, op).redis && Step(s, op).redis[t] == s.redis[t]
  {
  }

  /** ... and no run takes it. A token that reads complete does not always stay so; but on every run in
      which no token is minted for two keys it changes exactly when it expires, or when another callback
      on it, which has counted the limit, is refused. */
  lemma {:induction false} CompleteLost(ops: seq<Op>, n: nat, t: TokenId)
    requires n < |ops| && OneKeyEach(ops) && Complete(Run(ops, n), t)
    ensures t !in Run(ops, n + 1).redis || Run(ops, n + 1).redis[t] != Run(ops, n).redis[t]
            <==> ops[n] == Expire(t) || Refuses(Run(ops, n), ops[n], t)
  {
    hide Step;
    var s, op := Run(ops, n), ops[n];
    AlwaysKeysSound(ops, n);
    StepChanges(s, op, t);
    if op.Publish? { PublishedOnce(ops, s, op.p, t); }
  }

  lemma PublishedOnce(ops: seq<Op>, s: State, p: Pid, t: TokenId)
    requires KeysSound(ops, s) && KeysTaken(s) && OneKeyEach(ops) && Complete(s, t)
    ensures Publishing(s, p) ==> s.callbacks[p].token != t
  {
  }

  // ---------------------------------------------------------------- one callback by itself

  function Perform(s: State, ops: seq<Op>): State
    decreases |ops|
  {
    if ops == [] then s else Perform(Step(s, ops[0]), ops[1..])
  }

  lemma {:induction false} PerformBoth(s: State, x: seq<Op>, y: seq<Op>)
    ensures Perform(s, x + y) == Perform(Perform(s, x), y)
    decreases |x|
  {
    hide Step;
    if x == [] {
      assert x + y == y;
    } else {
      assert (x + y)[1..] == x[1..] + y;
      PerformBoth(Step(s, x[0]), x[1..], y);
    }
  }

  lemma PerformTwo(s: State, x: Op, y: Op)
    ensures Perform(s, [x, y]) == Step(Step(s, x), y)
  {
    hide Step;
    assert [x, y][1..] == [y] && [y][1..] == [];
    assert Perform(Step(s, x), [y]) == Perform(Step(Step(s, x), y), []);
  }

  /** The steps of a callback as far as the lock, and from there on; those its case does not reach
      change nothing. */
  function Arrival(p: Pid, token: TokenId, github: int): seq<Op> { [Load(p, token), Identify(p, github)] }

  function Resumption(p: Pid, newId: Id, now: Time): seq<Op> {
    [TakeLock(p), CountAgents(p)] + [Refuse(p), Insert(p, newId, now)] + [Finish(p), Publish(p)]
  }

  predicate AtLock(s: State, p: Pid) { p in s.callbacks && s.callbacks[p].Identified? }

  lemma Arrives(s: State, p: Pid, token: TokenId, github: int)
    requires p !in s.callbacks
    ensures Perform(s, Arrival(p, token, github)) ==
      Goes(s, p, if token in s.redis then Identified(token, s.redis[token], github) else Replied(400))
  {
    PerformTwo(s, Load(p, token), Identify(p, github));
  }

  lemma Resumes(s: State, p: Pid, newId: Id, now: Time)
    ensures Perform(s, Resumption(p, newId, now)) ==
            Settled(Step(Step(s, TakeLock(p)), CountAgents(p)), p, newId, now)
  {
    hide Step;
    var first, second, third := [TakeLock(p), CountAgents(p)], [Refuse(p), Insert(p, newId, now)], [Finish(p), Publish(p)];
    PerformBoth(s, first + second, third);
    PerformBoth(s, first, second);
    PerformTwo(s, TakeLock(p), CountAgents(p));
    PerformTwo(Perform(s, first), Refuse(p), Insert(p, newId, now));
    PerformTwo(Perform(s, first + second), Finish(p), Publish(p));
  }

  function Settled(s: State, p: Pid, newId: Id, now: Time): State {
    Step(Step(Step(Step(s, Refuse(p)), Insert(p, newId, now)), Finish(p)), Publish(p))
  }

  /** How a callback is answered that finds nobody else past the lock for its GitHub user. */
  function Verdict(s: State, c: Callback, newId: Id): nat
    requires c.Identified?
  {
    if LiveCount(s.agents, c.github) >= AGENT_LIMIT then 403
    else if newId in s.agents || Taken(s.agents, c.stored.pubkey) then 500
    else 200
  }

  /** What that answer leaves behind: one row at most, the token's entry rewritten, no lock. */
  function Answered(s: State, p: Pid, c: Callback, newId: Id, now: Time): State
    requires c.Identified?
  {
    match Verdict(s, c, newId)
    case 200 => State(s.agents[newId := NewAgent(c.stored.pubkey, c.github, now)],
                      s.redis[c.token := c.stored.(status := TokenComplete(c.github))],
                      s.locks, s.callbacks[p := Replied(200)])
    case 403 => s.(redis := s.redis[c.token := c.stored.(status := TokenFailed)],
                   callbacks := s.callbacks[p := Replied(403)])
    case _ => s.(callbacks := s.callbacks[p := Replied(500)])
  }

  lemma AloneToCount(s: State, p: Pid)
    requires AtLock(s, p) && s.callbacks[p].github !in s.locks
    ensures var c := s.callbacks[p];
      Step(Step(s, TakeLock(p)), CountAgents(p)) ==
      s.(locks := s.locks[c.github := p],
         callbacks := s.callbacks[p := Counted(c.token, c.stored, c.github, LiveCount(s.agents, c.github))])
  {
  }

  lemma AloneRefused(s: State, p: Pid, newId: Id, now: Time)
    requires p in s.callbacks && s.callbacks[p].Counted? && s.callbacks[p].agents >= AGENT_LIMIT
    ensures var c := s.callbacks[p];
      Settled(s, p, newId, now) == State(
        s.agents, s.redis[c.token := c.stored.(status := TokenFailed)],
        s.locks - {c.github}, s.callbacks[p := Replied(403)])
  {
  }

  lemma AloneDuplicate(s: State, p: Pid, newId: Id, now: Time)
    requires p in s.callbacks && s.callbacks[p].Counted? && s.callbacks[p].agents < AGENT_LIMIT
    requires newId in s.agents || Taken(s.agents, s.callbacks[p].stored.pubkey)
    ensures Settled(s, p, newId, now)
            == State(s.agents, s.redis, s.locks - {s.callbacks[p].github}, s.callbacks[p := Replied(500)])
  {
  }

  lemma AloneEnrolled(s: State, p: Pid, newId: Id, now: Time)
    requires p in s.callbacks && s.callbacks[p].Counted? && s.callbacks[p].agents < AGENT_LIMIT
    requires newId !in s.agents && !Taken(s.agents, s.callbacks[p].stored.pubkey)
    ensures var c := s.callbacks[p];
      Settled(s, p, newId, now) == State(
        s.agents[newId := NewAgent(c.stored.pubkey, c.github, now)],
        s.redis[c.token := c.stored.(status := TokenComplete(c.github))],
        s.locks - {c.github}, s.callbacks[p := Replied(200)])
  {
  }

  /** Alone past the lock, the six steps come to just that. */
  lemma Alone(s: State, p: Pid, newId: Id, now: Time)
    requires AtLock(s, p) && s.callbacks[p].github !in s.locks
    ensures Perform(s, Resumption(p, newId, now)) == Answered(s, p, s.callbacks[p], newId, now)
  {
    hide Step, Settled, Perform, Resumption, LiveCount, Taken, NewAgent;
    var c, half := s.callbacks[p], Step(Step(s, TakeLock(p)), CountAgents(p));
    Resumes(s, p, newId, now);
    AloneToCount(s, p);
    assert s.locks[c.github := p] - {c.github} == s.locks;
    var last := Replied(Verdict(s, c, newId));
    assert half.callbacks[p := last] == s.callbacks[p := last];
    if half.callbacks[p].agents >= AGENT_LIMIT {
      AloneRefused(half, p, newId, now);
    } else if newId in s.agents || Taken(s.agents, c.stored.pubkey) {
      AloneDuplicate(half, p, newId, now);
    } else {
      AloneEnrolled(half, p, newId, now);
    }
  }

  /** A callback that has been answered, or finds the lock taken, goes no further. */
  lemma Stuck(s: State, p: Pid, newId: Id, now: Time)
    requires p in s.callbacks
    requires s.callbacks[p].Replied? || (s.callbacks[p].Identified? && s.callbacks[p].github in s.locks)
    ensures Perform(s, Resumption(p, newId, now)) == s
  {
    Resumes(s, p, newId, now);
  }

  // ---------------------------------------------------------------- a late refusal

  lemma {:induction false} RunIsPerform(ops: seq<Op>, n: nat)
    requires n <= |ops|
    ensures Run(ops, n) == Perform(EMPTY, ops[..n])
  {
    hide Step;
    if n > 0 {
      RunIsPerform(ops, n - 1);
      assert ops[..n] == ops[..n - 1] + [ops[n - 1]];
      PerformBoth(EMPTY, ops[..n - 1], [ops[n - 1]]);
      PerformOne(Run(ops, n - 1), ops[n - 1]);
    }
  }

  lemma PerformOne(s: State, x: Op)
    ensures Perform(s, [x]) == Step(s, x)
  {
    hide Step;
    assert [x][1..] == [];
  }

  /** A registration from its start to its end, undisturbed. */
  function Enrolment(t: TokenId, pubkey: string, p: Pid, github: int, newId: Id, now: Time): seq<Op> {
    [Init(t, pubkey)] + Arrival(p, t, github) + Resumption(p, newId, now)
  }

  lemma Enrols(s: State, t: TokenId, pubkey: string, p: Pid, github: int, newId: Id, now: Time)
    requires t !in s.redis && p !in s.callbacks && github !in s.locks && newId !in s.agents
    requires !Taken(s.agents, pubkey) && LiveCount(s.agents, github) < AGENT_LIMIT
    ensures Perform(s, Enrolment(t, pubkey, p, github, newId, now)) == State(
      s.agents[newId := NewAgent(pubkey, github, now)], s.redis[t := Token(pubkey, TokenComplete(github))],
      s.locks, s.callbacks[p := Replied(200)])
  {
    hide Perform, Arrival, Resumption, LiveCount, Taken, NewAgent;
    PerformBoth(s, [Init(t, pubkey)] + Arrival(p, t, github), Resumption(p, newId, now));
    PerformBoth(s, [Init(t, pubkey)], Arrival(p, t, github));
    PerformOne(s, Init(t, pubkey));
    var begun := Step(s, Init(t, pubkey));
    Arrives(begun, p, t, github);
    Alone(Perform(begun, Arrival(p, t, github)), p, newId, now);
  }

  /** Two registrations of one GitHub user; then a third token is opened twice. */
  function Opened(github: int, now: Time): seq<Op> {
    Enrolment(0, "x", 0, github, 0, now) + Enrolment(1, "y", 1, github, 1, now)
    + [Init(2, "z")] + Arrival(2, 2, github) + Arrival(3, 2, github)
  }

  function Rivals(github: int, now: Time): seq<Op> {
    Opened(github, now) + Resumption(2, 2, now) + Resumption(3, 3, now)
  }

  lemma TwoEnrolled(github: int, now: Time)
    ensures var s := Perform(EMPTY, Enrolment(0, "x", 0, github, 0, now) + Enrolment(1, "y", 1, github, 1, now));
      && s.agents == map[0 := NewAgent("x", github, now), 1 := NewAgent("y", github, now)]
      && LiveCount(s.agents, github) == 2 && s.locks == map[]
      && s.redis.Keys == {0, 1} && s.callbacks.Keys == {0, 1}
  {
    hide Step, Perform, Enrolment;
    var x, y := NewAgent("x", github, now), NewAgent("y", github, now);
    PerformBoth(EMPTY, Enrolment(0, "x", 0, github, 0, now), Enrolment(1, "y", 1, github, 1, now));
    CountNone(EMPTY.agents, LiveOf(github));
    Enrols(EMPTY, 0, "x", 0, github, 0, now);
    LiveMore(EMPTY.agents, 0, x, github);
    assert EMPTY.agents[0 := x] == map[0 := x];
    assert "x"[0] != "y"[0];
    Enrols(Perform(EMPTY, Enrolment(0, "x", 0, github, 0, now)), 1, "y", 1, github, 1, now);
    LiveMore(map[0 := x], 1, y, github);
    assert map[0 := x][1 := y] == map[0 := x, 1 := y];
  }

  lemma BothAtLock(github: int, now: Time)
    ensures var s := Perform(EMPTY, Opened(github, now));
      && s.agents == map[0 := NewAgent("x", github, now), 1 := NewAgent("y", github, now)]
      && LiveCount(s.agents, github) == 2 && s.locks == map[]
      && AtLock(s, 2) && AtLock(s, 3) && s.callbacks[2] == s.callbacks[3]
      && s.callbacks[2] == Identified(2, Token("z", TokenPending), github)
  {
    hide Perform, Enrolment, Arrival, LiveCount, NewAgent;
    var two := Enrolment(0, "x", 0, github, 0, now) + Enrolment(1, "y", 1, github, 1, now);
    TwoEnrolled(github, now);
    PerformBoth(EMPTY, two + [Init(2, "z")] + Arrival(2, 2, github), Arrival(3, 2, github));
    PerformBoth(EMPTY, two + [Init(2, "z")], Arrival(2, 2, github));
    PerformBoth(EMPTY, two, [Init(2, "z")]);
    var s := Perform(EMPTY, two);
    PerformOne(s, Init(2, "z"));
    var begun := Step(s, Init(2, "z"));
    Arrives(begun, 2, 2, github);
    Arrives(Perform(begun, Arrival(2, 2, github)), 3, 2, github);
  }

  /** That refusal does happen: on this run a user with two agents opens a token twice. The first
      callback registers the third agent, and the token reads complete; the second one is refused for
      the limit, and the token reads failed, though the agent is there and live. */
  lemma {:induction false} LateRefusal(github: int, now: Time)
    ensures var ops := Rivals(github, now);
            var first, second := Run(ops, |ops| - 6), Run(ops, |ops|);
      && 2 in first.redis && first.redis[2] == Token("z", TokenComplete(github))
      && 2 in second.redis && second.redis[2] == Token("z", TokenFailed)
      && 2 in second.agents && second.agents[2].pubkey == "z" && LiveOf(github)(second.agents[2])
  {
    hide Step, Perform, Opened, LiveCount;
    var ops, z := Rivals(github, now), NewAgent("z", github, now);
    var s := Perform(EMPTY, Opened(github, now));
    BothAtLock(github, now);
    RunIsPerform(ops, |ops| - 6);
    RunIsPerform(ops, |ops|);
    assert ops[..|ops| - 6] == Opened(github, now) + Resumption(2, 2, now) && ops[..|ops|] == ops;
    PerformBoth(EMPTY, Opened(github, now), Resumption(2, 2, now));
    PerformBoth(EMPTY, Opened(github, now) + Resumption(2, 2, now), Resumption(3, 3, now));
    assert "x"[0] != "z"[0] && "y"[0] != "z"[0];
    Alone(s, 2, 2, now);
    LiveMore(s.agents, 2, z, github);
    Alone(Perform(s, Resumption(2, 2, now)), 3, 3, now);
  }

  lemma LiveMore(agents: map<Id, Agent>, a: Id, r: Agent, github: int)
    requires a !in agents && LiveOf(github)(r)
    ensures LiveCount(agents[a := r], github) == LiveCount(agents, github) + 1
  {
    CountWrite(agents, a, r, LiveOf(github));
  }

  // ---------------------------------------------------------------- the callback as written

  class Registrar {
    var agents: map<Id, Agent>
    var redis: map<TokenId, Token>
    var locks: map<int, Pid>

    function View(callbacks: map<Pid, Callback>): State
      reads this
    {
      State(agents, redis, locks, callbacks)
    }

    constructor ()
      ensures View(map[]) == EMPTY
    {
      agents, redis, locks := map[], map[], map[];
    }

    /** `oauth_callback`. It is answered, or it waits for the lock, to go on with `Resume`. */
    method OauthCallback(p: Pid, token: TokenId, github: int, newId: Id, now: Time) returns (c: Callback)
      modifies this
      ensures View(map[p := c]) ==
              Perform(old(View(map[])), Arrival(p, token, github) + Resumption(p, newId, now))
      ensures c.Replied? || (c.Identified? && c.github in old(locks))
      ensures LiveCount(agents, github) == LiveCount(old(agents), github) + if c == Replied(200) then 1 else 0
    {
      hide Perform, Resumption;
      ghost var was := View(map[]);
      PerformBoth(was, Arrival(p, token, github), Resumption(p, newId, now));
      Arrives(was, p, token, github);
      if token !in redis {
        Stuck(Goes(was, p, Replied(400)), p, newId, now);
        return Replied(400);
      }
      c := Identified(token, redis[token], github);
      if github in locks {
        Stuck(Goes(was, p, c), p, newId, now);
        return;
      }
      var status := Resume(p, c, newId, now);
      c := Replied(status);
    }

    /** The rest of `oauth_callback`, once the lock is free. */
    method Resume(p: Pid, c: Callback, newId: Id, now: Time) returns (status: nat)
      requires c.Identified? && c.github !in locks
      modifies this
      ensures View(map[p := Replied(status)]) == Perform(old(View(map[p := c])), Resumption(p, newId, now))
      ensures LiveCount(agents, c.github) == LiveCount(old(agents), c.github) + if status == 200 then 1 else 0
      ensures status == 200 ==> LiveCount(agents, c.github) <= AGENT_LIMIT
    {
      hide Perform, Resumption, Taken;
      Alone(View(map[p := c]), p, newId, now);
      var stored := c.stored;
      ghost var free := locks;
      locks := locks[c.github := p];
      var count := Count(agents, LiveOf(c.github));
      if count >= AGENT_LIMIT {
        stored := stored.(status := TokenFailed);
        redis := redis[c.token := stored];
        locks := locks - {c.github};
        assert locks == free;
        return 403;
      }
      if newId in agents || Taken(agents, stored.pubkey) {
        locks := locks - {c.github};
        assert locks == free;
        return 500;
      }
      var row := Agent(stored.pubkey, Some(c.github), now, None, AgentActive, None, ZERO_TOTALS);
      CountWrite(agents, newId, row, LiveOf(c.github));
      agents := agents[newId := row];
      locks := locks - {c.github};
      assert locks == free;
      stored := stored.(status := TokenComplete(c.github));
      redis := redis[c.token := stored];
      return 200;
    }
  }
}
