# BabelTower: a verified model

BabelTower introduces agents to each other. An agent posts intents, asks to connect to the owner of
another intent, and if the request is accepted the two agents meet in a relayed websocket session in
which they may agree on a match. This project models the server's decisions and proves what they
guarantee, over every run.

- `Basics`, `Rows`: the tables of `models.py` as maps, and counting their rows.
- `Maintenance`, `Handlers`: what `run_maintenance`, every request handler and the relay's three row
  writes do to the tables, as functions from tables to tables; `After(log, n)` is the tables after `n`
  entries of a log. `Database`: the same handlers in place, as the methods of a class, each proved
  against its function.
- `Moves`: the few ways one step can touch one row. On these rest `Correspondence`, `Lifecycle`,
  `Accounting`, `Quotas`, `Moderation`, `Blocking` and `Inbox`, all about every log.
- `Relay`: `SessionState` as a value and what each section of `SessionManager` does to it.
  `SessionManager.dfy`: the classes themselves. `RelayWorld`: the sections of any number of websocket
  handlers, the monitor and handoff tasks, closes from elsewhere, other writers of the row and restarts,
  in every interleaving. `Delivery`, `RelayLimits`, `Seats`, `Endings`: what follows for messages, the
  cap, the seats and the end of a session.
- `Frames`: every frame on a socket traced to its cause, without the functions that build the frames.
  `Timers`: the monitor and the handoff tasks told from the log: when each is started, what it does when it
  wakes, what puts an end to it.
- `WholeServer`: both halves together, sharing one session row.
- `Effects`: the handlers read from the rows' side: what becomes of each row in any step, and exactly when
  a row is made, in the columns' own terms. `Replies`: what each request is answered, and what the answer
  tells. `Histories`: the status of a row on any run told from the log alone, both ways. `Encounters`: runs
  from nothing that get somewhere.
- `Registration`: OAuth callbacks interleaved with each other, with deletions, bans and crashes.
- `Ids`: how row ids are spelled and sorted.

What the proofs showed about the code, where its documentation says otherwise:

- PROTOCOL.md section 7.4 grants ten minutes after a match "regardless of the 30-minute cap". The
  in-memory monitor does not know about matches, and applies its five minutes of silence too:
  `Endings.HandoffSparedIff` says exactly on which runs it spares the handoff. A pair that falls silent
  after its match, or says no more than one thing, never gets the ten minutes
  (`Endings.HandoffCutShort` is such a run).
- A close issued by the monitor cancels the very coroutine that runs it, and so does one issued by a
  handoff task registered on the state; the row is not written and no socket is told. A handoff task
  scheduled while the process had no state for the session is not cancelled and does write the row
  (`Endings.CloseReachesRowIff`). The process never makes up for a close cut short
  (`Endings.CutShortStaysOpen`), so the lifetime bound rests on maintenance alone.
- A handoff task clears the session's entry in `_handoff_tasks` when it comes to its end, even if the entry
  is by then the next task's; a later schedule then does not find that one, and two tasks wait to close the
  same session (`Timers.LooseIffEntered`, and a run that does so, `Timers.TwoTasksWait`).
- Messages can overtake each other between a member's join and the end of its flush
  (`RelayLimits.OrderCanFail`); `Delivery.InOrderIffOrderly` says exactly when they arrive in order.
- Restarts forget up to nine messages each. What a session dispatches is what it remembers, at most
  fifty, plus what was forgotten, so the cap of fifty can be passed (`RelayLimits.RestartBudget`,
  `RelayLimits.BudgetReached`).
- The ban for more than a hundred intents a day (section 8.2) can never fire (`Quotas.BurstNeverFires`).
- `blocks_received_total` (section 8.1: "number of distinct agents") is that number if and only if nobody
  has blocked the agent, unblocked it and blocked it again (`Blocking.TotalIsDistinctIff`, and a run that
  does so, `Blocking.GrudgeCountsTwice`).
- A registration token that reads complete can later read failed (`Registration.LateRefusal`), and
  `Registration.CompleteLost` says exactly when it changes.
- The active-sessions gauge is not the number of open active sessions: a session that is closed before
  both members have joined can still be activated by late joins, and is then counted for good
  (`Endings.CountedIff`, `Endings.ClosedAndCounted`).
- Deleting an account "closes open sessions" (PRIVACY.md), but leaves its pending requests, and acceptance
  does not look at the requester: a deleted agent can be given a new session, which stays open until
  something else closes it (`Histories.DeletedMemberIff`, and a run that gets there,
  `Encounters.DeletedStillMet`).
- Connection requests "expire after 72 hours" (PROTOCOL.md) for acceptance at once; for rejecting and
  cancelling only when maintenance next runs (`Replies.AnswerReply`).
- When two agents block each other, `has_block_between` finds two rows where it allows one, so `/connect`
  between them fails with 500; it answers 403 if and only if just one of them blocks the other
  (`Blocking.BlockedReplyIff`, and a run that gets there, `Blocking.FeudBreaksConnect`).

## Model

The results about all runs come first, then the loops and classes of the source in place, and last the
handlers that follow their value-level functions branch by branch.

| member | source | states |
|---|---|---|
| Lifecycle.MutualConsent | src/babeltower/routes/matches.py:73-157 | In every run a row in `match_confirmed` has two entries behind it: one member proposed, the other accepted that very proposal while it still stood, and the row has been confirmed ever since |
| Lifecycle.StandingProposal | src/babeltower/routes/matches.py:81-101 | In every run a row in `match_proposed` has a standing proposal by the member it names, made when the row was active, however many rounds were rejected before |
| Lifecycle.LifetimeBound | src/babeltower/jobs.py:69-107 | With maintenance at most a period apart, no session row is open at created + 72h + 30min + 10min + 3 periods; earlier phases have their own, tighter bounds |
| Lifecycle.AlwaysShaped | src/babeltower/models.py:112-135 | In every reachable state each session row has the columns its status demands, its deadline above all |
| Lifecycle.RowsContinue | src/babeltower/relay.py:231-250 | Between any two moments of a run a row keeps its parties, `active_at` and `match_confirmed_at` once set, and is never reopened |
| Histories.SessionStatusIff | src/babeltower/routes/matches.py:73-177 | In every run the status of a session follows from the log: closed if something closed it, else waiting until a join activates it, else confirmed once a member accepted the other's standing proposal, else proposed while a proposal is unanswered, else active |
| Histories.ProposedIff | src/babeltower/routes/matches.py:81-177 | In every run a match stands proposed by p if and only if p, a member in good standing, proposed it of the active session, and since then neither the other member answered nor anything closed the session |
| Histories.ConfirmedIff | src/babeltower/routes/matches.py:116-157 | In every run a session has been matched if and only if some entry is a member in good standing accepting the other's standing proposal; the row has that entry's time, and is still in its handoff if and only if nothing closed it |
| Histories.ClosedIff | src/babeltower/routes/sessions.py:39-66 | In every run a session is closed if and only if some entry closed it (a member, a block, a deletion, a deadline, the relay), and has the time and the reason of the last one that did |
| Histories.ActivatedIff | src/babeltower/relay.py:231-250 | In every run a session has an activation time if and only if some entry activated it while it waited, and has that time; it still waits if and only if none did and nothing closed it |
| Histories.RequestStatusIff | src/babeltower/jobs.py:61-68 | In every run a request is accepted, rejected, cancelled or expired if and only if, while it was pending, its target accepted it before the deadline, its target rejected it, its requester cancelled it, or maintenance found it due |
| Histories.DeletedMemberIff | src/babeltower/routes/agents.py:31-38 | In every run a session of a deleted agent is open if and only if it was opened after the deletion, on a request the agent had sent, and nothing closed it since |
| Histories.NothingPosted | src/babeltower/routes/agents.py:26-30 | In every run all intents of a deleted agent are deleted |
| Histories.SpentForGood | src/babeltower/routes/intents.py:212-224 | In every run a deleted intent never changes again, and an expired one is never live again |
| Encounters.MatchHappens | src/babeltower/routes/matches.py:116-157 | A run of nine steps from nothing ends in a confirmed match with ten minutes to go |
| Encounters.DeletedStillMet | src/babeltower/routes/connections.py:267-284 | A run of seven steps from nothing: one agent asks, deletes its account, and the other accepts; the session opens |
| Effects.SessionRows | src/babeltower/routes/matches.py:73-177 | For each of the twenty kinds of step, what becomes of a session row, in literal columns |
| Effects.SessionOpensIff | src/babeltower/routes/connections.py:267-284 | A session appears if and only if the target, in good standing, accepts a pending request before its deadline, for the first time and under a fresh id; and its columns |
| Effects.ProposeIff | src/babeltower/routes/matches.py:73-112 | For a member in good standing: proposing changes something if and only if the session is active, and then just three columns; which repeated proposals are answered `Ok` |
| Effects.AcceptIff | src/babeltower/routes/matches.py:116-157 | Accepting confirms, with time, ten-minute deadline and one more in the two members' totals and nobody else's, if and only if the other member's proposal stands; else nothing changes and the reply says why |
| Effects.RejectIff | src/babeltower/routes/matches.py:161-177 | Rejecting puts the session back to active, deadline kept, if and only if the other member's proposal stands |
| Effects.RequestRows | src/babeltower/routes/connections.py:267-322 | For every step, what becomes of a request row: accepted, rejected, cancelled or expired, each by whom and when |
| Effects.RequestMadeIff | src/babeltower/routes/connections.py:229-259 | A request appears if and only if everything `/connect` demands holds, limits as sizes of sets; and its columns |
| Effects.IntentRows | src/babeltower/routes/intents.py:203-224 | For every step, what becomes of an intent row: deleted, revived with a new deadline, expired, put to sleep or woken, or silenced by a ban of its owner |
| Effects.IntentMadeIff | src/babeltower/routes/intents.py:228-266 | An intent appears if and only if everything `create_intent` demands holds, limits as sizes of sets; it starts dormant exactly if posting it got its owner banned |
| Effects.BlockRows | src/babeltower/routes/blocks.py:34-60 | For every step, what becomes of a block row; blocking again keeps the first time |
| Effects.AgentRows | src/babeltower/moderation.py:159-212 | For every step, what becomes of an agent row but for its totals: seen, deleted, let off, or banned for seven days, if and only if the step judges it and one of the three limits is passed, in their order; and the event put on record |
| Effects.AgentMadeIff | src/babeltower/routes/register.py:90-105 | An agent appears if and only if a key nobody has is registered under a fresh id; and its columns |
| Effects.MaintenanceRows | src/babeltower/jobs.py:61-107 | After maintenance exactly the pending requests that were due are expired, the live intents that were due are expired, and the open sessions that were due are closed |
| Replies.RefusedChangesNothing | src/babeltower/routes/connections.py:229-259 | A request that is refused, whichever and however, has changed no table |
| Replies.GateReply | src/babeltower/auth.py:77-87 | 401 for who is unknown or deleted, 403 for who is banned unless the request is a poll or a deletion, and no table changed |
| Replies.PostReply | src/babeltower/routes/intents.py:240-253 | 409 from ten active intents on, else 429 from thirty in a day on, else created |
| Replies.AskReply | src/babeltower/routes/connections.py:245-248 | Between two who may meet: 409 from twenty pending on, else 429 from fifty in a day on, else created |
| Replies.BadPostReply | src/babeltower/routes/intents.py:228-242 | A lifetime outside 1 to 90 days is answered 422, and a bad match type or text 400, before any limit |
| Replies.BadAskReply | src/babeltower/routes/connections.py:229-241 | 404 for a target that is not active, then for a from-intent that is not active or not the caller's, then 400 for the caller's own |
| Replies.OwnIntentReply | src/babeltower/routes/intents.py:203-224 | 404 unless the caller owns it; refreshing what is neither active nor dormant 409 |
| Replies.PlainReply | src/babeltower/routes/blocks.py:125-159 | Replies to blocking, unblocking, ending a session, polling and deleting, in every case |
| Replies.AnswerReply | src/babeltower/routes/connections.py:267-322 | 404 if and only if the request is not the caller's to answer; 409 if and only if it is but is answered already or, for acceptance alone, past its deadline |
| Replies.DeletionErases | src/babeltower/routes/agents.py:21-53 | The row keeps key and age and nothing else; intents, blocks either way and open sessions go; nobody else's rows change |
| WholeServer.BothHalves | src/babeltower/relay.py:231-250 | Every run of the server with one session's relay is a run of the handlers on the tables and a run of the relay on the session, and the two agree on the row throughout |
| WholeServer.ActiveMeansMet | src/babeltower/relay.py:213-219 | In every such run a row with `active_at` got it at a join that left both members seated, at that very time |
| WholeServer.NoMatchWithoutMeeting | src/babeltower/routes/matches.py:116-157 | In every such run a confirmed match was proposed by one member and accepted by the other, and both had been connected at one moment no later than that |
| WholeServer.MessagesBearTheirSender | src/babeltower/relay.py:222-229 | In every run of the whole server a relayed message bears the public key its sender is registered with, which no other agent has, and is on a socket of the other member |
| Moves.StepMoves | src/babeltower/routes/sessions.py:39-66 | Whatever step is taken, a session row stays and is changed in one of six ways only |
| Moves.StepCreates | src/babeltower/routes/connections.py:267-284 | A session row comes only from the target accepting a pending request before its deadline, and starts out waiting |
| Moves.StepAnswers | src/babeltower/routes/connections.py:202-221 | A request leaves pending at most once, and becomes accepted only together with the creation of its session |
| Moves.StepRequests | src/babeltower/routes/connections.py:229-259 | A request is created only by an agent that may mutate, to another agent, with an intent of each, inside the pending and the daily limit |
| Correspondence.AlwaysLinked | src/babeltower/routes/connections.py:140-149 | In every run requests join two different agents through an intent of each, and sessions mirror an accepted request |
| Correspondence.OneSessionIffAccepted | src/babeltower/routes/connections.py:182-196 | In every run a request has exactly one session if it was accepted and none otherwise |
| Correspondence.AnswerIsFinal | src/babeltower/routes/connections.py:272-279 | Once a request is answered its row never changes again |
| Maintenance.IntentUpdates | src/babeltower/jobs.py:41-60 | The three intent updates, issued after bans are lifted and around the others, equal one verdict per intent |
| Maintenance.SessionUpdates | src/babeltower/jobs.py:69-107 | The three session updates equal one verdict per row: no row is closed twice or for the wrong reason |
| Maintenance.TicksCoalesce | src/babeltower/jobs.py:116-127 | Any ascending series of runs decides, row by row, what its last run alone decides; only `closed_at` and `responded_at` may differ |
| Maintenance.RunTwice | src/babeltower/jobs.py:19-113 | Two runs at one time are one run; two runs at t1 <= t2 differ from the one at t2 in those two columns at most |
| Maintenance.NothingOverdue | src/babeltower/jobs.py:36-112 | After a run nothing is overdue, and an intent is active exactly when it was live, not due, and its owner polled in the last five minutes |
| Accounting.CountersAgree | src/babeltower/routes/connections.py:150-154 | In every run the six totals of every agent not deleted equal the numbers of rows they stand for |
| Blocking.TotalIsDistinctIff | src/babeltower/routes/blocks.py:34-60 | In every run `blocks_received_total` of an agent not deleted is the number of block rows ever made against it, and equals the number of distinct blockers if and only if nobody blocked, unblocked and blocked again |
| Blocking.GrudgeCountsTwice | src/babeltower/routes/blocks.py:44-60 | A run of five steps after which the total is two and there is one blocker |
| Blocking.TotalIsCreators | src/babeltower/routes/blocks.py:44-60 | In every run the total equals the length of the list of those who made a block row, one entry for each time |
| Blocking.BlockLasts | src/babeltower/routes/blocks.py:90-101 | A block row stands until it is withdrawn or one of the two accounts is deleted |
| Blocking.BlockedReplyIff | src/babeltower/routes/connections.py:71-83 | Where some block stands `/connect` changes nothing; it answers 403 if and only if just one of the two rows stands, and fails with 500 if and only if both do |
| Blocking.FeudBreaksConnect | src/babeltower/routes/connections.py:242-243 | A run of six steps after which both rows stand and `/connect` fails with 500 |
| Quotas.QuotasHold | src/babeltower/routes/connections.py:245-248 | In every run every closed 24-hour window holds at most 50 requests and 30 intents of an agent, and at every moment at most 20 of its requests are pending and unexpired |
| Quotas.BurstNeverFires | src/babeltower/moderation.py:202-210 | In no run is an agent ever banned for more than a hundred intents in a day |
| Moderation.SevenDays | src/babeltower/moderation.py:129-156 | A ban applied at t stands, unless the account is deleted, until the first maintenance at or after t + 7 days, whatever else happens before or after that time; that maintenance lifts it, and every mutating attempt until then changes nothing |
| Moderation.BanStands | src/babeltower/moderation.py:169-172 | Nothing but deletion and maintenance at or after the lift time ends a standing ban, and nothing extends it |
| Moderation.AlwaysStandingShaped | src/babeltower/jobs.py:41-45 | In every run an agent is soft-banned exactly when a lift time is set, and never hard-banned |
| Moderation.BannedIsMute | src/babeltower/auth.py:77-87 | None of the thirteen mutating requests of a soft-banned agent changes any table |
| Inbox.EntriesMirror | src/babeltower/routes/inbox.py:82-116 | In every run both members of a waiting session find an entry; each names the own intent and the other's, under a key only the other has; and the entries mirror each other |
| Inbox.ListedIff | src/babeltower/routes/inbox.py:82-116 | In every run the query's joins lose nothing: listed are exactly the agent's sessions that wait and are before their deadline |
| Inbox.AlwaysUniqueKeys | src/babeltower/models.py:42 | In every run no two agents share a public key |
| Inbox.ListWaiting | src/babeltower/routes/inbox.py:82-116 | The loop lists every waiting, unexpired session of the caller exactly once, oldest first |
| Relay.FlushHandsOver | src/babeltower/relay.py:252-259 | An uninterrupted flush hands over everything held for the agent, oldest first, and touches nothing else |
| RelayWorld.AlwaysSound | src/babeltower/relay.py:194-341 | Every interleaving keeps: sockets seated for who joined with them, relayed messages on the other member's sockets, buffers bounded and drained, row and memory in step on the count |
| RelayWorld.OutsideCovers | src/babeltower/routes/matches.py:97-136 | Whatever the rest of the server does to the row, the relay's model allows for it |
| Frames.OnlyWhatWasSaid | src/babeltower/relay.py:302-314 | In every interleaving each relayed message on a socket, and each held one, has its entry since the last restart: a message received from a socket its sender joined with, with that very text, that raised the count to its number; and it bears the sender's key |
| Frames.EverythingSaid | src/babeltower/relay.py:291-322 | In every interleaving each valid message to an open session below the cap is counted, and until a restart it is on a socket or held at every moment after, unless the counterparty was away and ten were held |
| Frames.EveryoneIsToldOnce | src/babeltower/relay.py:404-426 | In every interleaving the entry that ends an open session, if its caller survives, gives every seated socket one `session_ended` with the reason the row gets, and then shuts it; a close cut short and every other entry tell nobody |
| Frames.ErrorIff | src/babeltower/relay.py:268-322 | In every interleaving a socket is given an error if and only if its handler received a frame that deserves just that one; `buffer_full` if and only if the counterparty is away and ten are held |
| Delivery.Conservation | src/babeltower/relay.py:291-322 | In every interleaving each message counted since the last restart was handed over, is held, or was refused, each exactly once, under a number of its own; and its sender's sockets have been given one `buffer_full` notice for each refused one |
| Delivery.InOrderIffOrderly | src/babeltower/relay.py:252-259 | Handed over followed by held is the kept messages in counting order, if and only if none was relayed past messages still held |
| Delivery.QuiescentIsOrderly | src/babeltower/relay.py:124-126 | There is no such overtaking when no frame is counted between the counterparty's join and the end of its flush |
| RelayLimits.OrderCanFail | src/babeltower/relay.py:124-126 | From every fresh session a nine-step run on which the second message is handed over before the first |
| RelayLimits.RestartBudget | src/babeltower/relay.py:298-306 | In every run the messages dispatched are those remembered, at most 50, plus those its restarts forgot, at most 9 each; on an open row the stored count is the last multiple of ten |
| RelayLimits.BudgetReached | src/babeltower/relay.py:199-204 | For every k a run with k restarts dispatches exactly 50 + 9k |
| RelayLimits.CapOverTrace | src/babeltower/relay.py:291-324 | From c messages on, in any interleaving without other closes, exactly the first 50 - c valid frames are counted; as soon as there is one more, and not before, the session is closed or a handler is about to close it, and once none is, it is closed |
| RelayLimits.CapEndCloses | src/babeltower/relay.py:323-324 | In every run that handler's next step closes session and row with `message_cap_reached` and a count of fifty |
| RelayLimits.ClosedForGood | src/babeltower/relay.py:293-297 | In every run no entry but a restart reopens a closed session; its count stays, and every valid frame is answered with `session_closed` and nothing else |
| Endings.HandoffSparedIff | src/babeltower/relay.py:343-353 | In every run in which nobody else ends the session, the monitor leaves the whole handoff window alone, whenever it wakes, if and only if the match came within twenty minutes of activation and the counted messages never leave five minutes silent; at most one message is not enough |
| Endings.HandoffCutShort | src/babeltower/relay.py:348-353 | From every fresh session a run on which the monitor ends it five minutes into the handoff, the row still saying `match_confirmed` |
| Endings.SparedIff | src/babeltower/relay.py:343-353 | The same for any stretch of any run: both limits of the monitor in terms of the activation time and the times of the counted messages |
| Endings.CloseReachesRowIff | src/babeltower/relay.py:404-426 | In every run the entry that ends an open session of the process closes its row if and only if its caller is a handler, or a handoff task scheduled while the process had no state for the session |
| Endings.HandoffTraced | src/babeltower/relay.py:381-393 | Every live handoff task was started by some scheduling entry, and is registered on the state exactly if there was a state then |
| Timers.HandoffIff | src/babeltower/relay.py:381-402 | In every run a handoff task is waiting if and only if some entry scheduled it, ten minutes before it is due, and since then: no restart, no later schedule that found it registered, no end of the session with the task on its state, and it has not woken when due |
| Timers.HandoffWakes | src/babeltower/relay.py:395-402 | In every run such a task does nothing before it is due; then it closes the row alone, row and memory, or memory alone, by whether there is a state and whether the task is registered on it |
| Timers.LooseIffEntered | src/babeltower/relay.py:383-402 | In every run `_handoff_tasks` has the task if and only if a schedule put it there and neither a later one, a restart nor the end of any handoff task has cleared the entry |
| Timers.TwoTasksWait | src/babeltower/relay.py:401-402 | From every fresh session a run of four steps after which two handoff tasks wait and only one is in the table |
| Timers.MonitorIff | src/babeltower/relay.py:213-219 | In every run a monitor is watching if and only if a member's join while the other was seated started it, and since then the process has not restarted, the session not ended, and the monitor not found it closed |
| Timers.MonitorWakes | src/babeltower/relay.py:343-355 | In every run the monitor's verdict in an open session is the time limit from thirty minutes after that join, else inactivity from five minutes after the state was made, that join or the last counted message, else none; and what it then does to memory, row and sockets |
| Timers.ReadyOnce | src/babeltower/relay.py:124-126 | In every run a socket has been told `ready` once if its handler has come past its greeting, and not at all if it has not |
| Endings.CutShortStaysOpen | src/babeltower/relay.py:408-418 | After a close cut short, no relay step before a restart closes the row |
| Endings.CountedIff | src/babeltower/relay.py:213-218 | In every run an activated state counts towards the gauge if and only if it is open, or had been closed before the entry that activated it |
| Endings.ClosedAndCounted | src/babeltower/relay.py:407-417 | From every fresh session a run after which a closed state is counted, and no close undoes that |
| Seats.LatestJoinWins | src/babeltower/relay.py:207-211 | In every run a socket is registered for a member if and only if it joined last and since then neither it disconnected nor the session ended |
| Seats.LostSeatIsShut | src/babeltower/relay.py:207-210 | In every run a socket that lost its seat has been shut by the server, unless its own handler left |
| Seats.LateDisconnect | src/babeltower/relay.py:333-341 | The late disconnect of a superseded socket leaves the new one seated |
| Seats.ActivationNeedsBoth | src/babeltower/relay.py:213-219 | The relay activates a waiting row only at a join that leaves both members seated |
| Seats.ActivatedOnce | src/babeltower/relay.py:213-219 | Within a process a session's `active_at` is set once and survives reconnects |
| Seats.MessagesArePrivate | src/babeltower/relay.py:304-322 | In every run a relayed message is only on sockets of its counterparty, under its sender's key; at most ten are held per sender, none while the counterparty is seated and has caught up |
| Registration.RegistrationCap | src/babeltower/routes/register.py:58-105 | In every interleaving of callbacks, deletions, bans and crashes no GitHub user has more than three agents neither deleted nor hard-banned |
| Registration.CompleteMeansCommitted | src/babeltower/routes/register.py:161-173 | A token that reads complete speaks of a row an earlier step committed, still there unless deleted since |
| Registration.CompleteLost | src/babeltower/routes/register.py:147-149 | In every run in which no token is minted for two keys, a complete token changes exactly when it expires or when another callback on it, which has counted the limit, is refused |
| Registration.LateRefusal | src/babeltower/routes/register.py:147-149 | A run from the empty server: a user with two agents opens one token twice; the token reads complete, then failed, and the agent is live |
| Registration.Alone | src/babeltower/routes/register.py:143-181 | Once the lock is had, the uninterrupted rest of a callback comes to one answer, at most one row, one entry and no lock |
| Ids.EncodeBase32 | src/babeltower/models.py:16-21 | The loop and the reversal give the digits, highest first, of any width |
| Ids.DecodeEncode | src/babeltower/models.py:16-21 | Reading the digits back gives the value modulo 32 to the width, for every integer |
| Ids.EncodingOrder | src/babeltower/models.py:16-21 | For every width string order of encodings is numeric order modulo 32 to the width, hence numeric order for values that fit |
| Ids.IdsSortByTime | src/babeltower/models.py:24-27 | For every width that holds the clock, ids of one prefix sort by creation millisecond and, within one, by their random tails |
| Database.Tables.RunMaintenance | src/babeltower/jobs.py:19-113 | The eight updates in source order leave what one verdict per row leaves |
| Database.Tables.CloseSessionsBetween | src/babeltower/routes/blocks.py:63-87 | The loop closes exactly the open sessions of the pair, in either role, and returns each of their ids once |
| Database.Tables.BlockAgent | src/babeltower/routes/blocks.py:125-147 | Tables and reply after every branch, and the ids of exactly the sessions it closed |
| Database.Tables.LoadInbox | src/babeltower/routes/inbox.py:48-53 | The poll is recorded and the waiting sessions listed |
| SessionManagers.SessionManager.Join | src/babeltower/relay.py:194-220 | New memory, row, gauge and monitor task after a join, from memory made or found, with the lock taken once and given back |
| SessionManagers.SessionManager.Activate | src/babeltower/relay.py:213-219 | Memory, row and gauge move together |
| SessionManagers.SessionManager.FlushForJoinedAgent | src/babeltower/relay.py:252-259 | The loop leaves what an uninterrupted flush leaves (`Relay.FlushHandsOver`), and keeps the gauge right |
| SessionManagers.SessionManager.Forward | src/babeltower/relay.py:309-322 | The loop over recipients sends, buffers or refuses the message for the one counterparty |
| SessionManagers.SessionManager.TakeFrame | src/babeltower/relay.py:268-322 | New memory and row for every kind of frame; reports the cap |
| SessionManagers.SessionManager.TakeMessage | src/babeltower/relay.py:292-322 | The section under the lock: new memory and row, and whether the cap is reached |
| SessionManagers.SessionManager.HandleFrame | src/babeltower/relay.py:261-324 | The same, and at the cap the session ends with the lock free again |
| SessionManagers.SessionManager.Disconnect | src/babeltower/relay.py:333-341 | Only the seated socket gives up the seat, and the gauge stays right |
| SessionManagers.SessionManager.EndSession | src/babeltower/relay.py:404-426 | New memory, row, gauge and background tasks, by who calls; a second call changes nothing |
| SessionManagers.SessionManager.ScheduleHandoffClose | src/babeltower/relay.py:381-393 | The new task is registered on the state or, without one, in `_handoff_tasks`; the one registered there is cancelled |
| SessionManagers.SessionManager.CloseAfterHandoff | src/babeltower/relay.py:395-402 | The close, cut short if the task is registered on the state, and the entry cleared whosever it is |
| SessionManagers.SessionManager.CancelTasks | src/babeltower/relay.py:411-414 | Both registered tasks are cancelled, and whether the caller was among them |
| SessionManagers.SessionManager.CloseState | src/babeltower/relay.py:408-423 | The guarded section alone; gauge always equals the number of counted states |
| SessionManagers.SessionManager.MonitorWake | src/babeltower/relay.py:343-355 | One wake-up: the verdict, the close it leads to, the tasks it cancels, and that no row is written |
| Registration.Registrar.OauthCallback | src/babeltower/routes/register.py:137-181 | The callback in place leaves what its steps leave: it is answered, or waits for the lock another one holds; the user's agents grow by one exactly on success |
| Registration.Registrar.Resume | src/babeltower/routes/register.py:143-181 | The rest of a callback once the lock is free leaves what its steps leave, with at most three live agents |
| Database.Tables.ApplySoftBan | src/babeltower/moderation.py:129-156 | Bans, logs and silences unless banned already, and says which |
| Database.Tables.CheckAndApplySoftBan | src/babeltower/moderation.py:159-212 | The three triggers in order; the answer says whether the agent became banned |
| Database.Tables.CreateIntent | src/babeltower/routes/intents.py:228-266 | Tables and reply after every branch, limits before insert, ban check after it |
| Database.Tables.DeleteIntent | src/babeltower/routes/intents.py:203-209 | Only the owner's intent is marked deleted |
| Database.Tables.RefreshIntent | src/babeltower/routes/intents.py:212-224 | Only a live intent of the caller is revived and given a new deadline |
| Database.Tables.CreateConnection | src/babeltower/routes/connections.py:229-259 | Tables and reply after every branch of `/connect` |
| Database.Tables.AcceptConnection | src/babeltower/routes/connections.py:267-284 | Request, session and total change together, or nothing does |
| Database.Tables.UpdateRequestStatus | src/babeltower/routes/connections.py:202-221 | Status and time are set; the reason only on rejection |
| Database.Tables.RejectConnection | src/babeltower/routes/connections.py:288-307 | Only the target may reject, and only a pending request, expired or not |
| Database.Tables.CancelConnection | src/babeltower/routes/connections.py:311-322 | Only the requester may cancel, and only a pending request |
| Database.Tables.ProposeMatch | src/babeltower/routes/matches.py:73-112 | Tables and reply after every branch, repeated proposals included |
| Database.Tables.AcceptMatch | src/babeltower/routes/matches.py:116-157 | Tables and reply after every branch; both totals rise and the deadline becomes the handoff's |
| Database.Tables.RejectMatch | src/babeltower/routes/matches.py:161-177 | Tables and reply after every branch; the proposal is cleared and the deadline kept |
| Database.Tables.EndSession | src/babeltower/routes/sessions.py:39-66 | A member closes an open row; a closed one is left as it is |
| Database.Tables.UnblockAgent | src/babeltower/routes/blocks.py:151-159 | Only the caller's own block of the target goes |
| Database.Tables.DeleteAgentAccount | src/babeltower/routes/agents.py:21-53 | Intents, sessions, blocks in both directions and the agent's fields are erased, for a soft-banned caller too |
| Database.Tables.SetSessionActive | src/babeltower/relay.py:231-250 | Only a waiting row is activated, with its deadline and both totals |
| Database.Tables.PersistMessageCount | src/babeltower/relay.py:326-331 | The count of an existing row is written and nothing else |
| Database.Tables.PersistClosed | src/babeltower/relay.py:428-443 | The row is closed, closed already or not, and given the count when there is one |

## Left out

- Handlers are atomic from read to commit. Races between handlers inside the database are not modelled, except in registration, where the lock is; `create_intent` and `create_connection`, which commit the row and then the ban check, are one step each.
- Signatures, timestamps, header parsing and hashing: an authenticated caller is one whose agent row is registered, not deleted, not hard-banned (and for mutations not soft-banned); the websocket's own checks are the flag `admitted`.
- A row's time stamps taken by two clock readings of one handler are one reading here.
- Intent search, embeddings, the Redis cache of them, rate limiting per address, and the read-only endpoints.
- The match-type pattern and the contact scan: their verdict is a parameter of `CreateIntent`.
- Texts, filters, embeddings, opening messages and the details of abuse events are not columns of the model.
- That tokens are fresh random ids is the assumption `OneKeyEach` of `Registration`: none is minted for two keys.
- Row ids are opaque keys in `Rows`; inserts with an id that exists are refused. How ids are spelled is in `Ids`.
- Operator hard bans: no code sets them, so no step of the model does.
- `emit_to_counterparty` and `emit_to_session`, and the close of in-memory sessions after `/block`: the last is an `End` that may come at any time.
- When the event loop lets a background task run: a monitor may wake at any time, not only every five seconds, and a handoff task at any time from its deadline on; `schedule_handoff_close` may be called at any time, not only after a match. All that allows more runs than the code does.
- That a task which has cancelled itself stops at its next wait is how the event loop works and is taken as given; a section under the lock is one step, so no cancellation lands inside one.
- Failing sends and JSON syntax: a send hands the frame to the socket, also to one that has been superseded; frames come classified.
- The inbox lists other than the waiting sessions: plain queries.
- OAuth's HTTP exchange, the nonce check of `/register/init` and the status endpoint; a Redis entry is its key, its public key and its status.
- Both members' sockets are told of the end in the order of the row's columns; the source goes by the order in which they joined.
- Metrics other than the active-sessions gauge, logging, configuration, migrations, deployment and the web page.
- `serial` numbers envelopes in the order they are counted, to tell equal texts apart; it is not part of the wire format.
- `RelayWorld` alone lets the rest of the server move the row among the open statuses in more ways than it does; `WholeServer` has the exact ones.
- SessionManagers.SessionManager.FlushForJoinedAgent: speaks of a flush nothing interrupts; interrupted flushes are in `RelayWorld`.
