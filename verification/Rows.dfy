/** The tables of `models.py`, as maps from row ids to rows.

    Row ids are opaque keys here; how an id is spelled is the subject of module `Ids`.
    Times are microseconds on one clock. Columns that no modelled decision reads
    (texts, filters, embeddings) are left out. */
module Rows {
  import opened Basics

  type Id = nat
  type Time = int

  const SECOND: Time := 1_000_000
  const MINUTE: Time := 60_000_000
  const HOUR: Time := 3_600_000_000
  const DAY: Time := 86_400_000_000

  const REQUEST_TTL: Time := 72 * HOUR
  const ACTIVE_WINDOW: Time := 30 * MINUTE
  const HANDOFF_WINDOW: Time := 10 * MINUTE
  const POLL_WINDOW: Time := 5 * MINUTE
  const SOFT_BAN: Time := 7 * DAY

  datatype AgentStatus = AgentActive | SoftBanned | HardBanned | AgentDeleted

  /** The per-agent counters of section 8.1 of PROTOCOL.md. */
  datatype Counter = Intents | Sent | Received | Accepted | Started | Confirmed | Blocks

  datatype Totals = Totals(intents: nat, sent: nat, received: nat, accepted: nat,
                           started: nat, confirmed: nat, blocks: nat) {
    function Get(c: Counter): nat {
      match c
      case Intents => intents
      case Sent => sent
      case Received => received
      case Accepted => accepted
      case Started => started
      case Confirmed => confirmed
      case Blocks => blocks
    }

    function Plus(c: Counter): Totals {
      match c
      case Intents => this.(intents := intents + 1)
      case Sent => this.(sent := sent + 1)
      case Received => this.(received := received + 1)
      case Accepted => this.(accepted := accepted + 1)
      case Started => this.(started := started + 1)
      case Confirmed => this.(confirmed := confirmed + 1)
      case Blocks => this.(blocks := blocks + 1)
    }
  }

  const ZERO_TOTALS := Totals(0, 0, 0, 0, 0, 0, 0)

  datatype Agent = Agent(pubkey: string, githubUserId: Option<int>, createdAt: Time,
                         lastSeenAt: Option<Time>, status: AgentStatus,
                         softBanLiftsAt: Option<Time>, totals: Totals)

  datatype IntentStatus = IntentActive | Dormant | IntentExpired | Matched | IntentDeleted

  datatype Intent = Intent(agentId: Id, ttlDays: nat, createdAt: Time, expiresAt: Time,
                           status: IntentStatus)

  datatype RequestStatus = Pending | RequestAccepted | Rejected | Cancelled | RequestExpired

  datatype Request = Request(fromAgent: Id, toAgent: Id, targetIntent: Id, fromIntent: Id,
                             status: RequestStatus, createdAt: Time, expiresAt: Time,
                             respondedAt: Option<Time>, rejectionReason: Option<string>)

  datatype SessionStatus = AwaitingJoin | Active | MatchProposed | MatchConfirmed | Closed

  datatype CloseReason =
    | AwaitingJoinExpired | TimeLimitReached | HandoffComplete
    | EndedByAgent | Blocked | AccountDeleted | Inactivity | MessageCapReached

  datatype Session = Session(agentA: Id, agentB: Id, requestId: Id, status: SessionStatus,
                             createdAt: Time, expiresAt: Time, closedAt: Option<Time>,
                             closeReason: Option<CloseReason>, messageCount: nat,
                             activeAt: Option<Time>, proposedBy: Option<Id>,
                             proposedAt: Option<Time>, confirmedAt: Option<Time>) {
    predicate HasMember(a: Id) { a == agentA || a == agentB }

    predicate Between(a: Id, b: Id) {
      (agentA == a && agentB == b) || (agentA == b && agentB == a)
    }

    function ClosedAs(now: Time, reason: CloseReason): Session {
      this.(status := Closed, closedAt := Some(now), closeReason := Some(reason))
    }
  }

  /** Keyed by (blocker, blocked): the table's unique constraint. */
  datatype Block = Block(reason: Option<string>, createdAt: Time)

  datatype BanReason = BlocksReceived | ConnectionSpam | IntentBurst

  datatype AbuseEvent = AbuseEvent(agentId: Id, reason: BanReason, createdAt: Time)

  datatype Db = Db(agents: map<Id, Agent>, intents: map<Id, Intent>, requests: map<Id, Request>,
                   sessions: map<Id, Session>, blocks: map<(Id, Id), Block>,
                   abuse: seq<AbuseEvent>)

  const EMPTY_DB := Db(map[], map[], map[], map[], map[], [])

  /** `row.x_total = (row.x_total or 0) + 1` on the row of `a`, when there is one. */
  function Bump(agents: map<Id, Agent>, a: Id, c: Counter): map<Id, Agent> {
    if a in agents then agents[a := agents[a].(totals := agents[a].totals.Plus(c))] else agents
  }
}
