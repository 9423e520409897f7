# Verification of the paper-trading safety core

A Dafny model of four linked parts of the system, with proofs about every input, every
interleaving and every run.

1. **The scenario-decision store.** Evaluations, STOP and resume, account creation and
   synthetic state are transactions over shared tables. `Service` is the sequential code as
   a class over its tables; `Transactions.Plan` says what each transaction does to the
   tables it sees; `Interleaving` runs the same transactions concurrently, one database
   operation at a time, with row locks that are only taken on existing rows, reads of
   committed rows, staged writes, failures, lost sessions and a clock that only moves
   forward. Every sequence of actions is a schedule: an action that is not possible changes
   nothing. `Refinement` proves that what a session has read stays true until it commits,
   and so that every schedule is an atomic history; `LedgerTheorems` proves properties of
   atomic histories by induction, and `RunTheorems` carries them to every schedule. `Effects`
   says in terms of rows and request alone what every kind of request does and answers, and
   `Requests` states STOP, resume and account flags on the requests themselves: which control
   and which state request was carried out last (`Marks`).
   `Realization` proves the other direction, that atomic histories are runs of the machine;
   `Progress` proves freedom from deadlock and termination.
2. **The framed transport.** `Framing` has the bytes and what a stream of any bytes is made
   of, `Exchange` says what each operation does to a connection, `Transport` is the class
   with its loops over a socket that hands out arbitrary chunks, proved against `Exchange`.
   `Conservation` accounts for every item over any run of operations, failures included:
   `Fates` is the bookkeeping, `Fair` and `Moves` say what an account must satisfy.
   `Delivery` has repeated `receive`, `Replies` which item decides a request or a wait,
   `Correlation` the ids; `Feed` and `Portfolio` are the adapter on top.
3. **The risk gate.** `RiskGate` grows the list of reasons in place as the two engines do;
   `GateMeaning` says which input each reason is about, with every threshold and unit, and gives
   approval in closed form; `GateTheorems` proves monotonicity, sizing and the worst case.
4. **The moving-average strategy.** `SmaStrategy`, `SmaTheorems`, and `StrategyGate`, which
   joins it to the gate.

`StopExample` is one concrete run of the store, and the last part of `StrategyGate` one
concrete series of bars.

Amounts are exact reals, instants are whole microseconds, and ids drawn at random in the
program are the number of the transaction that draws them. The local day of an instant and
the set of known time zones are parameters (`Env`), as are the codec of the message library
(`Protocol`) and the text normalisation of symbol names.

Two properties one might expect are false, each with its input and the exact condition under
which it holds. STOP does not silence approvals: a request key is answered with the stored
decision while the switch is active, in an atomic history
(`StopExample.StopDoesNotSilenceStoredApprovals`) and on a run of the machine
(`StopExample.ARunAnswersUnderStop`), and an answer under STOP approves exactly when its
approval was stored before (`RunTheorems.ApprovalsUnderStopOnEveryRun`). Signals do not always
alternate: the strategy can buy twice in a row (`StrategyGate.ASideCanRepeat`). Two signals in
a row are on the same side exactly when, just before the second, the averages touched without
crossing, which the differences up to that bar show (`SmaTheorems.Touches`,
`SmaTheorems.SignalsAlternate`).

## Model

| member | source | states |
|---|---|---|
| RunTheorems.EveryRunIsAtomic | services/risk_engine/service.py:12-51 | On every schedule of locked steps the committed tables equal running the settled transactions one at a time in the logged order, and each answered session got the answer of its place in that order |
| RunTheorems.EvaluationsNeverCollide | core/models.py:58 | No evaluation on any schedule ever fails on the unique (account, request key) constraint or on a signal without a decision |
| RunTheorems.AnsweredFirstComesFirst | apps/api/main.py:62-73 | The atomic order respects real time: a session answered before another began precedes it |
| RunTheorems.StopIsSafeOnEveryRun | services/risk_engine/service.py:31-51 | In the committed audit log every approval stands after a resume with no control event in between; the switch equals the last control event, active when there is none; with no switch row nothing is ever approved |
| RunTheorems.NothingIsApprovedUntilResume | services/risk_engine/service.py:13-14 | While the switch row is active, no evaluation already under way, however far, commits an approval before a resume event is committed; `Requests.StopHoldsOnEveryRun` says it of the requests |
| Requests.StopHoldsOnEveryRun | services/risk_engine/service.py:45-51 | On every schedule, once a STOP request has been answered, no session placed after it records an approval unless a resume request, itself answered, is placed between them |
| Requests.ApprovalsRestOnRequests | services/risk_engine/service.py:28-34 | On every schedule, a new approval is recorded only where the last control request carried out is a resume and the last state stored for the account enables it |
| Requests.SwitchIsTheLastControl | services/risk_engine/service.py:45-51 | The switch is released exactly when the last control request carried out is a resume |
| Requests.FlagIsTheLastState | apps/api/main.py:99-118 | An account is enabled exactly when the last state request carried out for it enables it; before any it is disabled |
| Requests.ApprovalsFollowAResume | services/risk_engine/service.py:28-34 | On atomic histories, an approval is recorded only after a resume request with no stop request in between, and for an account enabled there |
| Requests.StopNeedsAResume | services/risk_engine/service.py:13-14 | On atomic histories, between a stop request carried out and a later new approval there is a resume request carried out |
| RunTheorems.ApprovalsUnderStopOnEveryRun | services/risk_engine/service.py:20-31 | On every schedule, an evaluation settled while the switch is active or missing is answered with an approval if and only if the tables already held that approval for its key and documents |
| RunTheorems.CommittedKeysAreFinal | services/risk_engine/service.py:17-24 | Once a key is committed, every evaluation under it settled later on the schedule returns the stored result for the same documents and a conflict for any others, and changes no table at its place in the order |
| RunTheorems.RunsKeep | core/models.py:48-67 | Whatever is scheduled later, committed signals stay findable under their key, decisions under their signal, accounts and the audit log in place |
| RunTheorems.RecordsHoldOnEveryRun | services/risk_engine/service.py:25-41 | On every schedule the records are complete and replayable, every approval survives its worst case, and each record was made at its place in the order from a newest snapshot, the flag and profile of the account row and the switch row as they stood there |
| RunTheorems.HistoryOnlyGrows | services/risk_engine/service.py:12-51 | No step takes back or reorders a settled answer |
| Refinement.InvHolds | services/risk_engine/service.py:14-15 | After every schedule: what each session has read still is what the tables say, each lock has an owner that needs it, and the log refines the atomic transactions |
| Refinement.DoKeepsInv | services/risk_engine/service.py:12-51 | Every single action (tick, step, lost session) keeps that invariant |
| Refinement.CommitKeepsLocal | services/risk_engine/service.py:14-15 | A commit never invalidates what another session has read, because that session holds the locks of the rows it rests on |
| Progress.NoDeadlock | docs/architecture.md:20-21 | After any schedule a chain of sessions waiting for one another has at most three members and never returns to its start |
| Progress.WaitingClimbs | services/risk_engine/service.py:14-15 | Whoever is waited for only still wants locks later in the order switch, account, key |
| Progress.KeyIndexNeverBlocks | services/risk_engine/service.py:36-38 | No evaluation ever waits for another one's uncommitted key |
| Progress.SomeoneCanMove | apps/api/main.py:111 | While a session is unfinished some session can make a step that reduces the work left |
| Progress.EveryScheduleIsBounded | services/risk_engine/service.py:12-51 | No schedule contains more than eight effective steps per request |
| Progress.EveryRunCanFinish | docs/architecture.md:20-22 | From wherever a schedule has led, stepping brings every session to its end within the work left |
| Ledger.TransactionKeepsHealth | services/risk_engine/service.py:12-51 | Every transaction, whatever its answer, keeps accounts, snapshots, records, audit log and switch consistent with each other and with the requests they came from |
| Ledger.HistoriesAreHealthy | core/models.py:48-83 | The tables are consistent after every atomic history |
| LedgerTheorems.StopSafety | services/risk_engine/service.py:31-51 | STOP safety on atomic histories |
| LedgerTheorems.ReleasedMeansResumed | services/risk_engine/service.py:48-50 | The switch is released exactly when the log holds a resume that no later control event follows |
| LedgerTheorems.KeysAreAnsweredOnce | README.md:109-110 | Whatever stops, resumes and snapshots came in between, a repeated key gets the stored answer or a conflict and no table changes |
| LedgerTheorems.ApprovalsUnderStop | README.md:109-110 | On atomic histories, an answer under STOP approves if and only if the stored answer for that request does |
| StopExample.StopDoesNotSilenceStoredApprovals | README.md:109-110 | A concrete legal history: create, state, resume, evaluate, stop, and the same evaluation again is answered with an approval although the switch is active |
| StopExample.ARunAnswersUnderStop | README.md:109-110 | The same on a schedule of the interleaved machine |
| Realization.HistoriesAreRuns | services/risk_engine/service.py:12-51 | Every legal atomic history whose clock readings never go back is the log of some schedule of locked steps, with the same tables and every session of it answered, so the locks exclude nothing the transactions allow |
| LedgerTheorems.RecordsAreCompleteAndReplayable | services/risk_engine/service.py:33-41 | Signals, decisions and evaluation events correspond one to one, and running both engines again on what is stored, with switch and account flag read back from the reasons, gives the stored result |
| LedgerTheorems.RecordsWereMade | services/risk_engine/service.py:25-41 | At its place in the history, every record was decided on a snapshot of its account that none was observed after, with the profile of the account row then; it reports the account disabled exactly when the row was, the switch exactly when it was active or missing, and an approval means neither |
| Effects.EvaluationDoes | services/risk_engine/service.py:25-42 | An evaluation under an unused key is refused without account or without any snapshot of it, and otherwise adds one signal, one decision and one event holding the verdict on a newest snapshot under the flag and profile of the account row and the switch row |
| Effects.RecordReadsTheRows | services/risk_engine/service.py:28-32 | A new record reports the account disabled exactly when its row is, and the switch exactly when it is active or missing |
| Effects.RepeatDoes | services/risk_engine/service.py:17-24 | Under a used key nothing is written: equal documents get the stored result, others a conflict |
| Effects.ControlDoes | services/risk_engine/service.py:45-51 | With the switch row present, the row gets the active flag and reason asked for, exactly one event is added with the actor, flag and reason, and the answer reports them; without it nothing changes |
| Effects.CreationDoes | apps/api/main.py:96-103 | A new account row is disabled and has the balance and profile asked for, one event is added; an unknown zone or a name in use changes nothing |
| Effects.StateDoes | apps/api/main.py:110-123 | A state is stored, sets the flag of its account and adds one event exactly when the account exists, keeps its initial balance, and the state is between zero and thirty seconds old; otherwise the tables stay and the refusal says which failed |
| LedgerTheorems.RecordedApprovalsSurviveTheWorstCase | apps/api/main.py:96-122 | For every recorded approval, every loss within open risk plus every loss within the signal's risk leaves equity positive and above both daily and both total floors; the total floors are those fixed when the account was created |
| Service.Session.EvaluateScenario | services/risk_engine/service.py:12-42 | The new tables and the answer are those of the atomic transaction, for a legal answer of the snapshot query; a new record reports the account disabled exactly when its row is and the switch exactly when it is active or missing |
| Service.Session.SetSwitch | services/risk_engine/service.py:45-51 | The switch row gets the flag and reason asked for, one event says so with the actor, and the answer reports it; without the row nothing changes and the call is refused |
| Service.Session.CreateAccount | apps/api/main.py:96-103 | The same for a new account: unknown zone and duplicate name are refused, otherwise the account is disabled and its profile is fixed |
| Service.Session.SyntheticState | apps/api/main.py:110-123 | The same for a snapshot: unknown account, changed initial balance and a snapshot that is not current are refused |
| Service.Session.LatestSnapshot | services/risk_engine/service.py:25-26 | Scanning the rows finds a snapshot of the account that no other row of it was observed after, or none exactly when the account has none |
| Database.LatestExists | services/risk_engine/service.py:25-26 | The snapshot query always has an answer |
| RiskGate.Evaluate | services/risk_engine/engine.py:6-48 | The list grown branch by branch is exactly the blocking reasons in the documented order, and the verdict is allowed exactly when nothing blocks |
| RiskGate.EvaluateProp | services/prop_firm_engine/engine.py:4-14 | The second list is exactly the blocking prop reasons in order |
| RiskGate.Freshness | services/risk_engine/engine.py:20-24 | The loop over the four stamps appends exactly the stale or future ones |
| RiskGate.SelectMembers | services/risk_engine/engine.py:15-48 | A reason is in a list exactly when it was examined and its condition holds; the list is empty exactly when none does |
| GateTheorems.ReasonsAreExactlyTheBlockingFacts | services/risk_engine/service.py:31-34 | The combined reasons are all and only the blocking facts; switch and account flag can be read back from them |
| GateMeaning.ApprovalMeans | services/risk_engine/engine.py:16-47 | A scenario is approved exactly when switches, stamps, day, news, counters and market limits are clear, the risk is within the trade and open-risk limits, and losing it with all open risk stays strictly above all four floors, all on the raw inputs |
| GateMeaning.OtherwiseClearMeans | services/risk_engine/engine.py:16-47 | What is left open by the sizing test is exactly this list of conditions on switch, flag, stamps, day, news, counters, market limits and profit target |
| GateMeaning.SwitchesMean | services/risk_engine/engine.py:16-19 | The first four reasons stand for a released switch, an enabled account, a connection and a ready platform |
| GateMeaning.StampsMean | services/risk_engine/engine.py:20-24 | Each stamp is accepted exactly when it is not after the clock and at most the limit in seconds old |
| GateMeaning.DayAndNewsMean | services/risk_engine/engine.py:25-30 | The day reason compares the risk day with the local day; news blocks exactly when an event is within the window in minutes, on either side |
| GateMeaning.RiskMeans | core/contracts.py:30-40 | For a valid signal the risk is positive: the stop distance on its side times quantity times value, plus the cost reserve |
| GateMeaning.RiskLimitsMean | services/risk_engine/engine.py:31-34 | Risk and open risk with it are accepted up to and including their fraction of equity |
| GateMeaning.FloorsMean | services/risk_engine/engine.py:35-40 | The two loss reasons of the policy and the two of the prop rules stand each for its own floor, reached by equality |
| GateMeaning.CountersMean | services/risk_engine/engine.py:41-44 | Positions, trades and losses block from their limit on |
| GateMeaning.MarketMeans | services/risk_engine/engine.py:45-47 | Spread, slippage and volatility block above each its own limit |
| GateMeaning.ReasonsComeInOrder | services/risk_engine/service.py:33-34 | The combined reasons come in the order of the two engines, none twice |
| GateTheorems.GateIsMonotone | services/risk_engine/engine.py:15-48 | If a scenario is no worse in every input, its reasons are a subsequence of the worse one's, so approval of the worse implies approval of the better |
| GateTheorems.BlockingIsMonotone | services/risk_engine/engine.py:15-48 | Each reason by itself is monotone in all inputs at once, products of equity, balance and fractions included |
| GateTheorems.PropLossImpliesPolicyLoss | services/prop_firm_engine/engine.py:7-11 | When the policy's loss fractions are within the prop rules, a prop loss reason never comes without its policy counterpart |
| GateTheorems.SizingIsAThreshold | services/risk_engine/engine.py:31-40 | With all but the quantity fixed, approval is equivalent to one non-strict bound on the risk (trade and open-risk room) and one strict bound (distance to the highest of four floors), apart from the tests not on money |
| GateTheorems.SmallerSizesPass | core/contracts.py:38-40 | The quantities that pass are downward closed |
| GateTheorems.DirectionDoesNotMatter | core/contracts.py:30-40 | Reflecting stop and target about the entry keeps the whole decision, undoes itself, and gives a valid bracket exactly when the reflected prices are positive |
| GateTheorems.ApprovalSurvivesTheWorstCase | services/risk_engine/engine.py:35-40 | After an approval all losses within open and new risk leave the account solvent and strictly above all four floors |
| Delivery.LegalStreamsAreDelivered | openapi.py:94-111 | For every sequence of legal frames, receiving until the first failure returns exactly the non-heartbeat envelopes before the frame that ends it, in order, answers each heartbeat before it once under the next numbers, and leaves exactly the frames after it |
| Framing.WireIsReadBack | openapi.py:77-100 | A wire of legal frames is read as exactly those envelopes, and after any number of frames exactly the wire of the rest is left |
| Framing.FrameIsReadBack | openapi.py:77-99 | A frame built by `_write` within the size limit is read back unchanged and nothing after it is touched |
| Framing.HeaderIsBigEndian | openapi.py:83 | The length is written in four bytes, most significant first |
| Framing.OddFramesAreRefused | openapi.py:85-98 | A length of zero or above fifteen million is refused after the header; a stream that ends inside a header or body is closed |
| Exchange.Receive | openapi.py:94-111 | Receiving never lengthens the stream and consumes some of it whenever it returns a message, which is why repeated receiving terminates |
| Transport.ReadOnlyOpenApi.constructor | openapi.py:44-46 | A fresh connection has counter one, an empty queue and nothing sent |
| Transport.ReadOnlyOpenApi.ReadExactly | openapi.py:85-92 | However the socket cuts the stream into chunks, exactly the first `size` bytes are taken, or everything when the stream ends before |
| Transport.ReadOnlyOpenApi.ReadBody | openapi.py:96-100 | The two reads take exactly one frame, or fail as a frame reader on the whole stream does |
| Transport.ReadOnlyOpenApi.AnswerHeartbeat | openapi.py:101-102 | One heartbeat goes out under the next number, which is used up even if the frame cannot be packed |
| Transport.ReadOnlyOpenApi.Receive | openapi.py:94-115 | Result, remaining stream, counter, queue and bytes sent are those of the chunk-free specification |
| Transport.ReadOnlyOpenApi.Write | openapi.py:77-83 | The bytes sent stay the framed envelopes sent, one more if the envelope fits the length field |
| Transport.ReadOnlyOpenApi.Request | openapi.py:117-133 | The request loop refines its specification for every type, payload and counter: blocked, unsendable, mistyped and undecodable cases included |
| Transport.ReadOnlyOpenApi.WaitFor | openapi.py:135-143 | The waiting loop refines its specification: queue first, then the socket |
| Conservation.MessagesAreConserved | openapi.py:94-143 | Over any mix of requests and waits on any bytes, going on after errors, a prefix of the stream's items is consumed and each of them and of the queue ends in exactly one place: returned by the one operation that stopped at it and could read it, raised by the one operation whose failure it is the cause of, dropped by a wait that skips it, answered by one heartbeat in the sent trace, or queued; the queue is those queued, in order of arrival, and the stream is left exactly after the last item consumed |
| Conservation.FramesAreConserved | openapi.py:94-143 | The same on a wire of legal frames: the frames consumed are a prefix of them and what is left is the wire of the rest, whatever failed in between |
| Conservation.RunsStayOrderly | openapi.py:101-126 | No run ever queues a heartbeat or an error |
| Replies.RequestTakesItsReply | openapi.py:117-133 | A request that is sent ends at one item: everything before is a heartbeat or somebody else's message and, heartbeats apart, is queued in order, everything after is still there, and the result is exactly the verdict on that item, which is its own reply, an error, a broken frame or a heartbeat that cannot be answered |
| Replies.RequestIsDecided | openapi.py:122-133 | When heartbeats can be answered, the result is exactly the verdict on the first item of the stream that is the request's own, an error or broken: a good reply before any error is always returned |
| Replies.OwnReplyIsReturned | openapi.py:122-133 | When the first message of concern has the id of the request, it is returned if and only if it is of the answering type, known and readable; each of the three failing cases raises its own error |
| Replies.ErrorsAreRaised | openapi.py:104-110 | An error or broken frame before the reply is raised: a token problem, a refusal, or what is unreadable |
| Replies.WaitForTakesTheEarliest | openapi.py:135-143 | A wait ends at the earliest arrival, in queue then stream, that matches or fails, with the verdict on that arrival, and leaves everything after it; only an unanswerable heartbeat can end it before |
| Replies.FirstAcceptedIsReturned | openapi.py:135-143 | The first message of the type that is accepted is returned; an error, broken frame or unreadable message of the type before it is raised; a stream without any ends closed |
| Replies.ReturnedIsGood | openapi.py:124-143 | In the accounts of a run, what an operation returned has its id and answering type, or its type, and is readable and accepted |
| Replies.RaisedIsWrong | openapi.py:127-130 | In the accounts of a run, a message raised for its type is the own reply of the request and is of another or an unknown type |
| Correlation.OnlyReadsWithDistinctIds | openapi.py:24-31 | On any run, failures included, all ids written differ and every envelope written is an allowed read or a heartbeat |
| Correlation.RequestSendsItself | openapi.py:117-126 | A request writes itself under the next number, once, and after it only heartbeats |
| Correlation.WaitSendsBeats | openapi.py:135-143 | A wait writes only heartbeats |
| Correlation.AwaitedRepliesAreNeverQueued | openapi.py:117-126 | When the server only answers ids already sent, no request of a run, failures included, starts with its reply already queued, so looking only at the socket cannot miss it |
| Feed.Tick | feed.py:63-73 | Over the real connection: symbol list, subscription and wait, each failure reported, and the connection is left as the specification says |
| Feed.TickReturnsTheFirstQuote | feed.py:63-73 | Once subscribed, the outcome is the verdict on the first arrival that decides, in queue and stream as they were before the call: a two-sided quote of the symbol there is returned, even one that came before the subscription reply, and only that; the one exception is a heartbeat that cannot be answered |
| Feed.SymbolIsTheLast | feed.py:33-44 | The symbol found is the last named row of that upper-case name, and it is missing exactly when no row has it |
| Feed.QuotesAreOfTheSymbol | feed.py:63-73 | A quote returned is a readable spot event of that symbol with both prices; an unknown symbol is reported exactly when no listed row has the name |
| Feed.QuotesAreAskedFor | feed.py:63-69 | A call that returns a quote has asked for the list and then for the quotes of that symbol, and for nothing else |
| Portfolio.Positions | feed.py:108-126 | Each open position carries the last result row under its id, zero when there is none, and the total is their sum |
| Portfolio.OpenPositions | feed.py:108-126 | Over the real connection: the two requests, each failure reported, and the join of what they return |
| Portfolio.Account | feed.py:135-152 | Over the real connection: the five requests in order, each failure reported, and the account they describe with balance, equity, currency, time and named positions; the connection is left as the specification says |
| Portfolio.LastRowIsKept | feed.py:33-38 | The dictionary of symbols keeps exactly the last named row of each upper-case name |
| Portfolio.NamesAreFound | feed.py:117-121 | A position is called by the last kept symbol row of its id, or by its number when there is none |
| Portfolio.KeysComeInOrder | feed.py:33-38 | The dictionary has a key for exactly the names of the rows, in the order in which they first come |
| Portfolio.PositionsAreTheRows | feed.py:117-125 | An account has one position for each open row, in order, with its id, side, volume in hundredths, price, scaled result and name |
| Portfolio.NetIsTheLastResult | feed.py:113-115 | The result of a position is that of the last row under its id, zero when there is none |
| Portfolio.BalanceIsTheTraders | feed.py:146-152 | The balance is the one of the trader scaled by its digits or by two, the currency at most three upper-case letters of the first asset with the deposit id or of dollars |
| Portfolio.PowersMultiply | feed.py:112 | Scales are powers of ten |
| Portfolio.AccountIsAskedFor | feed.py:135-145 | An account that is returned has been asked for in five requests, in this order, and in no others |
| Portfolio.EquityIsTheOpenRows | feed.py:146-151 | Whatever the connection delivers, equity minus balance is the scaled sum of exactly the result rows whose position is open, given distinct ids in each list |
| Portfolio.JoinIsExact | feed.py:114-126 | With distinct ids in each list, the sum over positions is exactly the sum of the result rows whose position is open |
| Portfolio.JoinIgnoresOrder | feed.py:114-126 | Reordering either list never changes the sum |
| SmaTheorems.GenerateOnPrefixes | services/strategy_engine/engine.py:46-52 | Called when a bar has closed, whatever bars come later, the strategy compares the averages before and after that bar, so one call's new difference is the next call's old one |
| SmaTheorems.SidesByMeans | services/strategy_engine/engine.py:47-51 | The side is buy exactly when the mean of the last fast closes goes from at or below that of the last slow closes to above it at the newest bar, and sell exactly in the mirror case |
| SmaTheorems.SidesAlternate | services/strategy_engine/engine.py:49-51 | Two consecutive crossings share a side if and only if the averages touched without crossing just before the second: apart, then exactly equal for at least one bar, then apart the same way; and then they are not on adjacent prefixes |
| SmaTheorems.SignalsAlternate | services/strategy_engine/engine.py:41-52 | The same of the signals `generate` returns when called after each bar at that moment's clock reading |
| StrategyGate.SignalsAreCrossings | services/strategy_engine/engine.py:46-61 | On a legal history a signal is returned exactly when there are more than `slow` bars and the means of the last fast and slow closes cross at the newest bar, on the side they cross to |
| StrategyGate.ASideCanRepeat | services/strategy_engine/engine.py:49-51 | Strict alternation fails: on six concrete bars the strategy buys on the fourth, is silent on the fifth and buys on the sixth |
| SmaTheorems.WindowDecides | services/strategy_engine/engine.py:48-50 | Over the last `slow` closes a rising window puts the fast average above the slow one and a falling window below, for every pair of periods |
| SmaTheorems.NoSignalInsideATrend | services/strategy_engine/engine.py:46-52 | A strictly monotone window of slow+1 closes gives no signal, a non-decreasing one no sell, a non-increasing one no buy |
| SmaTheorems.TrendsAreQuiet | services/strategy_engine/engine.py:49-51 | The same for the crossing test itself |
| SmaTheorems.SignalsNeverLookAhead | services/strategy_engine/engine.py:43-60 | A signal rests on more than `slow` bars in strict order of time, none dated after the signal, and names the newest one and its parameters |
| SmaTheorems.RefusalsComeFirst | services/strategy_engine/engine.py:43-46 | A series is refused for a future bar exactly when one is later than the call, and otherwise for its order exactly when any two bars, however far apart, are out of order |
| SmaTheorems.OnlyTheLastWindowMatters | services/strategy_engine/engine.py:46-61 | On any valid chronological history, dropping any number of candles before the last slow+1 leaves the result unchanged |
| SmaTheorems.PricesScale | services/strategy_engine/engine.py:47-61 | Multiplying all closes by a positive constant keeps every refusal, silence and side, and multiplies entry, stop and target by it |
| StrategyGate.GeneratedSignalsFitTheGate | services/strategy_engine/engine.py:53-61 | For every legal configuration and order building the signal never fails: the bracket is valid and positive on its side, the stop is the stop fraction of the close away and the target `reward_risk` times that, symbol, timeframe, version, quantity and value are those ordered, there is no cost reserve, and the risk is close times stop fraction times the ordered size |
| StrategyGate.GeneratedSignalsAreFresh | services/risk_engine/engine.py:20-24 | Evaluated at the instant it was generated, a signal is never reported stale |

## Left out

- Decimal arithmetic is exact here; the 28-digit context, rounding of averages and the Numeric(24,8) columns are not modelled.
- JSON text: a dumped document is a value together with its text, and documents are compared by their texts; parsing stored documents back always succeeds.
- Random ids never repeat: they are the number of the transaction that draws them.
- Clocks: each transaction reads one shared clock that never goes back; time-zone tables are a parameter, and instants are aware of their zone by construction.
- PostgreSQL itself: row locks, reads of committed rows, unique indexes and commit are assumed to work as the steps of `Interleaving` say; connection failures appear only as lost sessions. The concurrent machine steps on values, the class `Service.Session` is the sequential code; both are proved against `Transactions.Plan`.
- A session is answered when it commits or gives up. The commit sits in the exit part of a request-scoped dependency (apps/api/main.py:62-73); whether the framework sends the response before or after it is not modelled, and `RunTheorems.AnsweredFirstComesFirst` is about answers sent after.
- The switch row and the account rows are never deleted by any transaction, so whether the switch row exists is fixed for a run.
- Snapshots with equal observation time: any of them may be chosen, as the ordering leaves it open.
- Aggregate risk of several approvals on one snapshot: the service does not reserve risk.
- Request validation happens before a transaction starts; `RunTheorems.RecordsHoldOnEveryRun` takes validated requests.
- Routing, API keys, status payloads, the read-only listings and the second copy of the routes in the root `main.py`.
- Sockets, TLS, timeouts and protobuf: a byte stream and an abstract codec that reads back what it writes; a timeout is not distinguished from the end of the stream, and opening and closing the connection are left out.
- `receive` calls itself after each heartbeat; here the calls may nest as deep as the stream has heartbeats in a row, so the interpreter's recursion limit (about a thousand) is not modelled.
- Message ids are tagged numbers instead of the strings that spell them, so a server's own id never imitates one by accident of spelling.
- Feed: bars, the symbol listing and the spread and time of a tick are single expressions over one response.
- services.ctrader.types, services.market_data, services.pipeline and services.ai_engine are not part of this model.
- The execution gateway, worker, command line, demo, scripts, migrations and unused tables.
