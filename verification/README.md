# Verification of the trading pipeline

A Dafny 4.11 model of a trading system that turns target positions into broker orders, and proofs of
what its parts keep true together. The difficulty of the system is agreement between three views of one
account: durable tables, an in-memory position book, and a broker. The proofs say when that agreement
holds, over whole runs with crashes between any two durable writes, restarts, disconnects, repeated
reads and arbitrary broker answers.

Run `dafny verify dfyconfig.toml` to check everything.

## How the model is built

- **Durable effects.** `Durable` models the SQLite tables and what was handed to the broker. Each write
  is one atomic effect; a crash keeps a prefix of the effects. The `Store` class is the repositories,
  with a ghost log tying its fields to the effects performed.
- **Objects.** What the source updates in place is a class here: `Order`, `PositionBook`, `OrderManager`,
  `SignalValidator`, `KillSwitch`, `TradingApplication`, `MockBroker`, `BarRepository`,
  `BinanceBarSource`, `Session`. Each method is proved against a function of the old state, and the
  properties are proved of those functions.
- **The machine.** `Machine` is the running system: one process at a time over the tables. An event is
  one uninterrupted stretch of the program together with what the outside world says during it. `Run`
  plays any sequence of events, each cut after any number of its effects. The methods of
  `TradingApplication` are the machine's events.
- **What is written and shown.** `Outcomes` says what a submission leaves on disk and hands over, case by case and column
  by column; `Observations` what the approvers are shown and what is recorded around an intent.
- **Whole runs.** `OrdersOverRuns`, `Lifecycle`, `Conservation`, `Restarts`, `StuckOrders`, `CrashLock`, `Caps`, `IntentSafety`
  and `KillSwitches` prove invariants of every run of the machine; `Reachability` shows that the machine does trade.
- **Several processes.** `Fleet` lets any number of live processes take turns on the tables, one event at a time, and
  `FleetSafety` says what READY, a sent order and an intent id mean there.
- **Failing inputs.** `Witnesses` and `OrderWitnesses` are the concrete runs named in the next section.
- **A concrete partner.** `SimulatedBroker` and `Simulation` couple the application with the in-process
  broker, whose answers are then no longer arbitrary; `Targets` follows an intent to its target in both views.
- **Around it.** `Bars`, `BarStore`, `BinanceFetch` (historical bars), `IbSession` (the request table of the
  IBKR session) and `IsoTime` (the order of stored timestamps).

Decimal and float are `real`; instants are integer microseconds. Reason strings, states and error classes
are constructors. An idempotency key is the tuple it is a digest of.

## Where the code does not do what is said of it

Each item has an exact condition, for all inputs, and all but the last a lemma at a concrete failing input.

- A comment at `app/main.py:701-705` says a restart re-reads fills that are already reflected in the book. Fills
  are recorded one by one and positions stored only by a reconciliation that succeeds. So a crash in between
  strands fills, and so does, without any crash, a reconciliation that fails for another reason, such as an
  order it does not know. Condition: `Restarts.RestartClearsExactlyWhen`; both runs: `Witnesses.RestartMissesAFill`.
- `app/execution/operator_order.py:296-310` re-reconciles after an operator's fill so that the trading process
  does not find it unexplained. The reading records the fill in the shared tables; the live trading process then
  counts it as known and never moves its book by it, and its next re-check ends SAFE. Condition:
  `Fleet.ForeignReadingIsMissed` and `Fleet.FleetRecheckClearsExactlyWhen`; run: `Witnesses.OperatorReadingStopsTheTrader`.
- The docstring at `app/broker/ibkr_broker.py:345-352` says a refusal is not dropped on the floor. A request that
  timed out keeps its entry (857-865), so a refusal arriving later is taken by that entry and recorded nowhere; nor
  is a connection error with nothing waiting in flight. Condition: `IbSession.ErrorIsKeptExactlyWhen`; trace:
  `IbSession.LateRefusalIsLost`.
- `submit_intent` assesses the size it is given and, for a stored order that was never sent, sends the
  stored size. Condition: `AtMostOnce.SentIsAssessedExactlyWhen`; run: `Witnesses.ReplaySendsStoredSize`. Through
  `_handle_intent` every key is new as long as the bounded query for known intents returns them all, which
  `IntentSafety` proves.
- A broker that answers an acceptance with NEW or BLOCKED would leave a sent order stored as never sent.
  Condition: `AtMostOnce.StrictExactlyWhenPolite`; input: `Witnesses.ImpoliteAnswerMisreports`. Both brokers of the
  repository are polite, and at-most-once holds regardless, because a broker id also counts as transmitted.
- The status poll of the operator command can take the number of open orders past its limit by reopening a closed
  row. The poll asks for the order just sent, which is stored as open already; so it reaches a closed row only when
  two rows share one broker id, and the query returns the first inserted. Ids are issued per client: two operator
  commands under different settings of `IB_ADMIN_CLIENT_ID` can be given the same one. Condition:
  `Caps.PollExceedsExactlyWhen`; bound over runs: `Caps.LimitsHoldOverRuns`; run: `OrderWitnesses.PollPassesTheLimit`.
- The historical download truncates its start to a millisecond. Condition: `BinanceFetch.ExactExactlyWhenAligned`;
  server: `BinanceFetch.UnalignedFetchTakesTooMuch`.
- `IBKRBroker.place_order` answers every acceptance with PENDING_SUBMIT (`app/broker/ibkr_broker.py:1187-1191`), and only
  the operator command's poll, for its own order, ever rewrites a status afterwards. So the row of an order that the
  trading process sent stays open once the broker is done with it, and every reconciliation from then on fails on it.
  Condition: `StuckOrders.StuckForever`, `StuckOrders.PollEndsItExactlyWhen`; run:
  `OrderWitnesses.OneFinishedOrderStopsTrading`.
- `OrderManager.cancel_all_orders` marks rows CANCEL_PENDING, and in a simulated session nothing ever completes the
  cancel, so reconciliation stays blocked. This holds for a caller of that method: nothing under `app/` calls it. The
  command line (`app/cli.py:213-253`) cancels at the broker and leaves the rows alone. Condition:
  `Simulation.CancelWaitsExactly`, `Simulation.WaitingForever`; without a cancel-all the session always reconciles:
  `Simulation.UncancelledSessionsReconcile`.

## Model

| member | source | states |
|---|---|---|
| `OrderManagement.OrderManager.SubmitIntent` | app/execution/order_manager.py:117-333 | the outcome, and every write and the transmission in order: nothing for an unneeded, invalid or already transmitted order; otherwise persist, record the risk decision, then either one BLOCKED write with the reasons or PENDING_SUBMIT, send, answer |
| `OrderManagement.OrderManager.Run` | app/execution/order_manager.py:133-200 | early exits write nothing; a stored key is worked on with its stored terms |
| `OrderManagement.OrderManager.Assess` | app/execution/order_manager.py:186-215 | the risk decision is on disk before it is acted on |
| `OrderManagement.OrderManager.Conclude` | app/execution/order_manager.py:202-236 | refused by risk, by the gate or for its type: one BLOCKED write with exactly that approver's reasons; otherwise transmitted |
| `OrderManagement.OrderManager.Transmit` | app/execution/order_manager.py:237-328 | PENDING_SUBMIT with its stamp is written before the order is sent, and what came back after |
| `OrderManagement.OrderManager.RecordReply` | app/execution/order_manager.py:262-328 | permission errors end REJECTED, other errors ERROR, an unaccepted or id-less answer REJECTED; an accepted one keeps the broker's id and status |
| `Outcomes.AnswerIsStored` | app/execution/order_manager.py:237-333 | after a complete submission that is refused nowhere the key's row holds, in its own columns: REJECTED with PERMISSION_DENIED for a permission error, ERROR with its own code for any other, REJECTED with the answer's code for an unaccepted or id-less answer, the answered id and status for an acceptance; exactly that order was handed over, term by term, and the outcome is a transmission only for an acceptance with an id |
| `Outcomes.RefusalIsStored` | app/execution/order_manager.py:202-236 | after a complete submission that risk, the gate or its type refuses, the key's row is the same order BLOCKED with exactly the refuser's reasons, nothing was handed over, and the outcome names the refuser |
| `Outcomes.NothingIsStored` | app/execution/order_manager.py:133-184 | a size of zero or less, a malformed order and one that may have reached the broker leave every table as it was, each with its own outcome |
| `Outcomes.WellFormedExactlyWhen` | app/execution/order_models.py:98-125 | an order is well formed if and only if it has a size, a contract, a symbol and exactly the positive prices of its type |
| `Outcomes.StatusIsLearned` | app/execution/operator_order.py:324-346 | the first row with the broker id takes what a poll learned, and no other row or column moves |
| `OrderManagement.OrderManager.CancelAllOrders` | app/execution/order_manager.py:348-364 | where the broker's own cancel raises nothing is written; otherwise CANCEL_PENDING is written over each open row and over nothing else, and the broker's count is returned |
| `OrderSafety.SubmissionDiesAtAStage` | app/execution/order_manager.py:133-328 | however few of a submission's effects happen, table and inbox are exactly those of the stage reached; at most one row differs; nothing is written for a transmitted key |
| `OrderSafety.SubmitKinds` | app/execution/order_manager.py:133-328 | a submission touches orders, risk decisions and the broker only |
| `AtMostOnce.SubmissionIsSound` | app/execution/order_manager.py:133-328 | at every cut: internal ids and keys stay distinct, stamps match possible transmission, every sent order is backed by such a row, no key sent twice |
| `AtMostOnce.SentAtMostOncePerKey` | app/execution/order_manager.py:133-328 | over any run of serial submissions with arbitrary approvals, broker replies, crashes between any two writes and restarts, `place_order` happens at most once per key, always behind a stamped row |
| `AtMostOnce.SendsExactlyWhen` | app/execution/order_manager.py:133-236 | an order is handed over if and only if it is well formed, not already transmitted, both approvers agree and its type is transmitted; a transmitted key causes no write at all |
| `AtMostOnce.SentIsAssessedExactlyWhen` | app/execution/order_manager.py:165-184 | the order sent has the side and size assessed if and only if the key was new or the stored terms are those assessed (a replay sends the stored terms) |
| `Witnesses.ReplaySendsStoredSize` | app/execution/order_manager.py:165-184 | a replay after a crash: 3 units are assessed and approved, the stored 5 are sent |
| `AtMostOnce.StrictExactlyWhenPolite` | app/execution/order_models.py:140-178 | the row a transmission ends with tells the truth about itself if and only if the broker did not answer an acceptance with NEW or BLOCKED; either way its key counts as transmitted |
| `Witnesses.ImpoliteAnswerMisreports` | app/execution/order_manager.py:289-328 | an acceptance that comes with NEW leaves a sent order stored as NEW |
| `AtMostOnce.SubmissionKeepsStatuses` | app/execution/order_manager.py:202-328 | at every cut and whatever the broker answers no row that reached the broker goes back or has its stamp moved; NEW/BLOCKED rows still carry no stamp and no broker id if and only if the answer was not an acceptance with NEW or BLOCKED, or was not recorded |
| `AtMostOnce.CourseIsStamped` | app/execution/order_models.py:140-178 | of every row a submission may write, a stamp is there exactly when the order may have reached the broker, and the rows written around a transmission say it may |
| `OrdersOverRuns.WholeSystemSendsAtMostOnce` | app/execution/order_manager.py:133-364 | the same at-most-once and backing over every run of the whole system: restarts, crashes, cancel-all, operator status polls, reconciliations |
| `OrdersOverRuns.StepNeverGoesBack` | app/execution/operator_order.py:324-346 | no writer of orders - submit, cancel-all, operator status poll, cut short or not, whatever the broker answers - returns a row to NEW or BLOCKED or moves a stamp; rows stay truthful about transmission if and only if the step does not record an acceptance that came with NEW or BLOCKED |
| `OrdersOverRuns.RunNeverGoesBack` | app/execution/order_manager.py:133-364 | the same over every run: once a row reached the broker it stays so, with its stamp |
| `OrdersOverRuns.WriteAhead` | app/execution/order_manager.py:237-248 | at every reachable point each order handed over has a durable row with its transmission stamp and a status that reached the broker or a broker id; the former whenever no acceptance was recorded with NEW or BLOCKED |
| `OrdersOverRuns.CancelPrefix` | app/execution/order_manager.py:348-364 | a cancel-all cut anywhere has marked exactly the rows it reached and changed nothing else |
| `OrdersOverRuns.CancelAllIsExact` | app/execution/order_manager.py:348-364 | a complete cancel-all leaves exactly the open rows CANCEL_PENDING and every other row alone |
| `Enums.StatusPartition` | app/enums.py:148-209 | every status is NEW, open or terminal and never two of these; open implies it reached the broker |
| `Enums.StatusesAre` | app/enums.py:148-209 | which statuses are open, which are over, and which mean that the broker was never asked |
| `Enums.StatusStringsAre` | app/broker/ibkr_broker.py:630-639 | what each status string of the broker is stored as, and that any other is an error |
| `Orders.Order.ApplyFill` | app/execution/order_models.py:180-209 | applied exactly when it does not over-fill (nor divides by zero); a refused execution changes nothing |
| `Orders.FillAccounting` | app/execution/order_models.py:180-209 | after any run of positive executions: filled is the accepted volume and never exceeds the order, average times filled is the accepted turnover, FILLED exactly when nothing remains, refused exactly when it would over-fill |
| `Orders.RefusedIffOverFills` | app/execution/order_models.py:183-190 | a positive execution is refused if and only if it would over-fill |
| `Durable.Store.InsertIfAbsent` | app/state/repositories.py:65-89 | inserts exactly when the key is absent, and otherwise returns what is stored and writes nothing |
| `Durable.Store.UpdateOrder` | app/state/repositories.py:138-167 | rewrites the lifecycle columns of the row with that internal id and no identity or term |
| `Durable.Store.RecordFill` | app/state/repositories.py:266-302 | recorded exactly when its execution id is not stored; otherwise nothing changes |
| `Durable.Store.ReplacePositions` | app/state/repositories.py:365-387 | adopts the list in one transaction exactly when no contract is listed twice |
| `Durable.Store.RecordSignal` | app/state/repositories.py:410-436 | the first record of an intent id stays |
| `Durable.Store.RecordDecision` | app/state/repositories.py:454-480 | appends one risk decision |
| `Durable.Store.PutState` | app/state/repositories.py:696-704 | one key is written, the others keep their values |
| `Durable.Store.TablesFollowLog` | app/state/repositories.py:711-724 | whatever effects a stretch of work logged are exactly what happened to the tables |
| `OrderTable.UpdateAt` | app/state/repositories.py:138-167 | with a primary key, an update rewrites exactly one row |
| `OrderTable.UpdateShape` | app/state/repositories.py:138-167 | an update changes no row with another internal id, and keeps order and number |
| `OrderTable.FindKeyAt` | app/state/repositories.py:175-177 | with a unique index a key finds its row |
| `OrderTable.FindBrokerSound` | app/state/repositories.py:179-183 | a broker id is found exactly when some row carries it |
| `OrderTable.OpenRowsAre` | app/state/repositories.py:185-191 | the open-order query returns exactly the rows whose status is open |
| `OrderTable.OpenCountReplaced` | app/state/repositories.py:185-191 | how the open count moves when one row changes |
| `OrderTable.WindowBelowCount` | app/state/repositories.py:197-206 | the count from an instant on bounds the stamps of every window that starts later |
| `Risk.RiskManager.Evaluate` | app/risk/manager.py:124-252 | approves if and only if the system is in order and every limit is configured and respected; a refusal lists every reason |
| `Risk.RiskManager.CheckNumericLimits` | app/risk/manager.py:232-252 | no reason if and only if size, projected position, loss, hourly count, open count and notional are each configured and respected |
| `Risk.RiskApprovesExactly` | app/risk/manager.py:124-252 | an empty list of reasons means exactly that every control and every limit holds |
| `Risk.RiskListsExactly` | app/risk/manager.py:124-252 | a refusal lists the reason of each control and each limit that fails, and no other; each reason's condition is spelled out |
| `Gate.TransmitGate.Evaluate` | app/safety/gate.py:133-241 | opens if and only if every interlock holds positively; a refusal lists every failed one |
| `Gate.GateOpensExactly` | app/safety/gate.py:133-241 | an empty list of reasons means exactly: switches, mode, observed account, session, contract, reconciliation, live fresh quote, permission, strategy and risk approval |
| `Gate.GateListsExactly` | app/safety/gate.py:133-241 | a refusal lists the reason of each interlock that fails, and no other; each reason's condition is spelled out by mode, account and evidence |
| `Signals.SignalValidator.Validate` | app/signals/validator.py:66-117 | accepts if and only if for the configured instrument, from a known strategy (both compared without regard to case), at most a minute old and not from the future, sane, and not seen; exactly an accepted id becomes seen |
| `Signals.ValidatorListsExactly` | app/signals/validator.py:66-117 | a refusal lists each thing that is wrong with the intent, and nothing else |
| `Signals.CaseIsFolded` | app/signals/validator.py:66-80 | letters are folded to the one case or the other and every other character stays |
| `Positions.PositionBook.ReplaceAll` | app/portfolio/positions.py:99-101 | the book becomes the non-flat entries of the list, a later entry winning |
| `Positions.LastHeldWins` | app/portfolio/positions.py:99-101 | the entry a book takes for a contract is the list's last one that is not flat |
| `Positions.PositionBook.Upsert` | app/portfolio/positions.py:93-97 | one contract takes the given quantity, flat removes it, every other keeps its own |
| `Positions.PositionBook.ApplyFill` | app/portfolio/positions.py:103-151 | one execution: signed quantity, removal at flat, average cost by addition, reduction or reversal |
| `Positions.FillsConserve` | app/portfolio/positions.py:103-151 | any run of fills moves every contract by exactly their signed sum and keeps the book free of flat entries |
| `Positions.CostStaysWithinPrices` | app/portfolio/positions.py:126-151 | through additions, reductions and reversals the average cost stays between the least and greatest of seeded costs and fill prices |
| `Positions.CostIsExact` | app/portfolio/positions.py:126-151 | an opening takes the fill's price, an addition spreads both turnovers over the new size, a reduction or reversal keeps the old cost |
| `Positions.AdditionsCostTheirTurnover` | app/portfolio/positions.py:126-151 | over any run of additions from flat the average cost times the size is exactly what was traded |
| `Positions.FillsToPositionDeltas` | app/portfolio/reconciliation.py:238-243 | the dictionary holds exactly the traded contracts, each with the signed sum of its fills |
| `Reconciliation.ComparePositions` | app/portfolio/reconciliation.py:156-183 | one pass over the union of contracts in order |
| `Reconciliation.CompareOrders` | app/portfolio/reconciliation.py:185-235 | unknown working orders, then local orders without an id or not working |
| `Reconciliation.ComparisonIsExact` | app/portfolio/reconciliation.py:156-183 | one discrepancy, in contract order and with the exact delta, for each contract the two disagree on; clean if and only if they agree on every contract there is |
| `Reconciliation.DisagreementsSayWhat` | app/portfolio/reconciliation.py:156-183 | each entry gives both quantities and the broker's symbol where it has one, the book's where not |
| `Reconciliation.LastListedWins` | app/portfolio/reconciliation.py:156-165 | of several entries for a contract the comparison takes the last, flat or not |
| `Reconciliation.OrderComparisonIsExact` | app/portfolio/reconciliation.py:185-235 | clean if and only if every local open order has a broker id and the two id sets are equal; an id is reported unknown exactly when only the broker has it |
| `Reconciliation.EachIsReportedOnce` | app/portfolio/reconciliation.py:185-235 | one entry per missing local order, in order, under the broker's id where there is one and the internal id where there is none; one per unknown working order, under its id |
| `Reconciliation.Reconcile` | app/portfolio/reconciliation.py:111-154 | succeeds if and only if the account is there, all quantities agree, every open order has an id and the id sets are equal |
| `Observations.ResultCarries` | app/portfolio/reconciliation.py:111-154 | the result carries how many fills were read, whether the account was, the broker's own list, and no error |
| `Observations.OpensAreGiven` | app/state/repositories.py:208-213 | the local open orders a comparison is given are the open rows, in order, by both ids and symbol |
| `Observations.FailedReadIs` | app/main.py:410-437 | a read that raised compares nothing, says so, and moves nothing |
| `Reconciliation.AdoptionKeepsQuantities` | app/portfolio/positions.py:99-101 | adopting a list without repeats gives every contract the quantity that was compared |
| `Ingestion.NewFillsIds` | app/main.py:694-742 | a pass records exactly the execution ids it had not known |
| `Ingestion.PassesCompose` | app/main.py:694-742 | two passes find what one pass over both batches finds: overlap never counts twice |
| `Ingestion.RereadIsEmpty` | app/main.py:694-742 | reading known fills again finds nothing |
| `Ingestion.OrderOfReadingIsIrrelevant` | app/main.py:694-742 | however the same fills are read - repeated, overlapping, reordered - every contract moves by the same quantity |
| `Application.TradingApplication.constructor` | app/main.py:82-142 | a new application is STARTING, reconciled with nothing, and knows its strategy (and the operator's, for an operator instance) |
| `Application.TradingApplication.Startup` | app/main.py:148-205 | the book is loaded from the stored positions and the seen ids from the stored signals; disabled mode ends SAFE |
| `Application.TradingApplication.IngestFill` | app/main.py:717-741 | recorded and applied together, or neither |
| `Application.TradingApplication.IngestFills` | app/main.py:694-742 | records, in order, exactly the fills not known, and moves the book by exactly those |
| `Application.TradingApplication.Reconcile` | app/main.py:410-480 | a failed read compares nothing; otherwise fills are ingested before comparing and positions are adopted only on success |
| `Application.TradingApplication.Adopt` | app/main.py:439-480 | after ingestion: the comparison's result, and book and table replaced exactly when it succeeded |
| `Application.TradingApplication.ComputeReadyState` | app/main.py:803-817 | SAFE without a standing reconciliation, else HALTED under a switch, else SAFE in disabled mode or without permission to transmit, else READY |
| `Application.TradingApplication.AfterConnect` | app/main.py:397-408 | the contract is resolved and the state computed only after the reconciliation succeeded; otherwise SAFE |
| `Application.TradingApplication.MaybeReconcile` | app/main.py:292-329 | the first call only schedules, a non-positive interval never checks, and a check happens exactly when the deadline has passed |
| `Application.TradingApplication.Recheck` | app/main.py:318-329 | a re-check always recomputes the state |
| `Application.TradingApplication.HandleDisconnect` | app/main.py:537-549 | SAFE, and reconciliation, account and contract are forgotten |
| `Application.TradingApplication.BuildRiskContext` | app/main.py:623-660 | the counters come off the order table, the switch off the store, the position off the book |
| `Observations.RiskIsShown` | app/main.py:623-660 | risk is shown the order that closes the distance to the target, the quote and its age in seconds, the open rows, the stamps of the last 3600 seconds, permission as the broker observed it or else as declared, and the switch |
| `Observations.GateIsShown` | app/main.py:662-692 | the gate is shown the same system a moment later; a missing quote counts as delayed |
| `Observations.SubmissionCarries` | app/main.py:600-621 | the submission carries the intent's own order, its contract, the clock readings and the broker's answer |
| `Observations.StartsWith` | app/main.py:82-205 | a process starts with the stored positions as its book, the seeded ids, and the strategies it may hear in lower case |
| `Observations.FailedConnectionIs` | app/main.py:340-395 | a connection attempt that fails leaves a process SAFE for want of permission and OFFLINE otherwise |
| `Observations.SignalIsRecorded` | app/main.py:577-598 | handling an intent appends its signal once, under its id and with its own time, whatever becomes of it |
| `Observations.DecisionIsRecorded` | app/execution/order_manager.py:186-215 | a submission that gets as far as risk appends risk's decision with all its reasons, and no other does |
| `Observations.FillIsRecordedAs` | app/main.py:717-741 | a fill is stored as reported, under this run, for the first order with its broker id or for none |
| `Application.TradingApplication.Admit` | app/main.py:577-598 | every intent is recorded, exactly an accepted one becomes seen |
| `Application.TradingApplication.HandleIntent` | app/main.py:555-621 | signal record first, then the submission of the order the intent needs, if it needs one |
| `Application.TradingApplication.SubmitFor` | app/main.py:600-621 | no contract or no difference: nothing; otherwise the order manager's effects and no others |
| `Application.TradingApplication.LearnStatus` | app/execution/operator_order.py:324-346 | the row found by broker id takes the mapped status, and a missing one is left missing |
| `Application.TradingApplication.Tick` | app/main.py:509-535 | a tick is exactly the machine's steps: a disconnect, or the kill-switch check followed by the intents in order |
| `Application.TradingApplication.HandleAll` | app/main.py:533-535 | the intents of a tick are handled one after the other |
| `Lifecycle.ClearsExactlyWhenExplained` | app/main.py:439-463 | no position discrepancy if and only if for every contract the broker holds what the book held plus the net of the fills just recorded; no order discrepancy if and only if every open row has an id and those are the working ids; each delta exact |
| `Lifecycle.ReadyMeansReconciled` | app/main.py:397-480 | in every state of every run READY implies a succeeded reconciliation, the account, permission to transmit and an enabled mode, and book, stored positions and that broker snapshot hold equal quantities |
| `Lifecycle.ReadyIsEnteredExactlyBy` | app/main.py:803-817 | READY is entered if and only if a connect or re-check of this process itself compared, succeeded and adopted, with no switch engaged and transmission allowed |
| `Lifecycle.ReadyReturnsOnlyByReconciling` | app/main.py:272-329 | from any state that is not READY and over any number of later events, READY is back only if a connect or re-check since then compared, succeeded and adopted, and READY has stood ever since the last of these |
| `Lifecycle.DisconnectForgets` | app/main.py:537-549 | a disconnect seen by a tick forgets reconciliation, account and contract, one seen by the connect loop does not; after either, over any number of later events, READY returns only through a reconciliation after it |
| `Lifecycle.IdentityIsFixed` | app/main.py:82-142 | only a startup brings a configuration and a run id |
| `Lifecycle.ReconciledTables` | app/main.py:439-470 | a reconciliation records exactly the new fills and replaces the stored positions exactly when it adopts |
| `Conservation.BookIsStartPlusRecordedFills` | app/main.py:694-742 | over every run, with adoptions and failures between: each contract's quantity is what this process started with plus the signed sum of the fills it was first to record |
| `Conservation.ExecutionsRecordedOnce` | app/state/repositories.py:266-302 | no execution is ever stored twice, wherever runs are cut |
| `Conservation.RemainingFills` | app/main.py:694-742 | once the first new fills of a batch are recorded, exactly the others are new |
| `Restarts.BookIsStoredPlusUnadopted` | app/main.py:439-480 | in every state of every run the live book is the stored positions plus the net of the fills this process recorded since positions were last stored |
| `Restarts.ReadingKeepsExplained` | app/main.py:694-742 | a broker that the records explain stays explained by a reconciliation that reads it, wherever that is cut and however it ends |
| `Restarts.RestartClearsExactlyWhen` | app/main.py:701-705 | in every reachable state a process restarted on the tables finds no position discrepancy with an explained broker if and only if the fills recorded since positions were last stored net to zero; otherwise each delta is their net |
| `Restarts.RecheckClearsExactlyWhen` | app/main.py:292-329 | the live process finds none if and only if such fills of earlier processes net to zero; otherwise each delta is their net |
| `Restarts.ExplainedIsWhatIsChecked` | app/main.py:439-463 | with nothing foreign left unadopted, a broker is explained exactly when the live process finds it clean |
| `Witnesses.RestartMissesAFill` | app/main.py:439-480 | two runs that strand a fill: one dies after recording it, one does not die but fails on an order it does not know; either way the next process is off by the whole fill |
| `CrashLock.CutLocksExactly` | app/execution/order_manager.py:237-260 | a cut submission leaves an open row without a broker id if and only if it died after the PENDING_SUBMIT write and before the record of the answer |
| `CrashLock.LockedNeverAdopts` | app/portfolio/reconciliation.py:212-224 | over such a row no reconciliation succeeds, whatever the broker answers |
| `CrashLock.CrashLocksForever` | app/execution/order_manager.py:237-260 | after such a death no later sequence of the program's steps, in any later processes, enters READY or hands over an order |
| `StuckOrders.StuckNeverAdopts` | app/portfolio/reconciliation.py:204-224 | over an open row whose id is not among the working ids - or that has none - no reconciliation succeeds |
| `StuckOrders.StuckForever` | app/broker/ibkr_broker.py:1187-1191 | while no step of a run learns a closed status for the id and no answer shows it working, no reconciliation adopts, in this or any later process; and from the first state that is not READY on there is neither READY nor an order |
| `StuckOrders.PollEndsItExactlyWhen` | app/execution/operator_order.py:324-346 | a status poll frees such a row if and only if it learns a closed status for that very id |
| `OrderWitnesses.OneFinishedOrderStopsTrading` | app/main.py:292-329 | a run: the trading process is READY and sends one order, the broker cancels it and is at rest; the next re-check ends READY, and no later run has READY or an order unless its status is learned or the id is worked again |
| `Caps.LimitsHoldOverRuns` | app/risk/limits.py:70-83 | in every run, with any configurations no looser than the given limits: every closed hour holds at most the hourly limit of transmission stamps, and the open rows never exceed the open-order limit plus the number of closed rows that status polls reopened |
| `Caps.SubmissionKeepsCaps` | app/execution/order_manager.py:202-256 | at every cut of a submission both bounds survive |
| `Caps.StatusMovesOpenCount` | app/execution/operator_order.py:324-346 | a status poll moves the open count by exactly the difference of the two statuses and no stamp, so it raises it only by reopening a closed row |
| `Caps.PollExceedsExactlyWhen` | app/execution/operator_order.py:324-346 | a status poll takes the open count past its limit if and only if it reopens a closed row while the limit is used up |
| `OrderWitnesses.PollPassesTheLimit` | app/execution/operator_order.py:324-346 | a run of two operator commands under client ids of their own, every approval obeying an open-order limit of 1: the poll for the second order reopens the first, and two rows are open |
| `IntentSafety.DeltaIsExact` | app/execution/order_manager.py:335-346 | the order for a target moves the position exactly there, and is empty exactly when already there |
| `IntentSafety.StartupSeesAll` | app/signals/validator.py:58-60 | a process that starts while the query can return every recorded intent has seen the intents of all stored orders |
| `IntentSafety.SeenOnlyGrows` | app/signals/validator.py:108-117 | no event takes a seen id away, and only an accepted intent adds one, its own |
| `IntentSafety.EachIntentIsSentAtMostOnce` | app/state/repositories.py:438-443 | over every run in which each startup can read all intents, no two orders handed over carry the same intent id, even under different keys |
| `IntentSafety.ApprovedMeans` | app/main.py:623-692 | what the contexts built for an intent mean once both approvers pass: the order moves the book exactly to the target, inside the limits, from a reconciled READY state and on a fresh live quote |
| `IntentSafety.EverySendIsSafe` | app/main.py:555-692 | every order that leaves in any run moves the book exactly to its intent's target; target, size and notional are inside the configured limits; READY, reconciled, no switch; the quote live and its age within bounds at both readings; neither intent nor key sent before |
| `Reachability.SentExactlyWhenInOrder` | app/main.py:555-692 | in any reachable state an intent's order leaves if and only if the intent is acceptable, a contract is resolved, the target differs from the position, the order is well formed and transmittable, and the conditions of both approvers hold |
| `Reachability.AnOrderCanBeSent` | app/main.py:272-290 | the claims are not empty: from an empty database three events make the system READY and a fourth hands an order to the broker |
| `KillSwitches.KillSwitch.ReadLatch` | app/safety/killswitch.py:48-51 | no store means not latched; an unreadable store raises |
| `KillSwitches.KillSwitch.Engaged` | app/safety/killswitch.py:53-64 | engaged by configuration, by the latch, or because the store cannot be read |
| `KillSwitches.KillSwitch.Engage` | app/safety/killswitch.py:66-72 | three durable writes, the latch first; refused only without a store |
| `KillSwitches.CheckedStateIs` | app/main.py:803-817 | where a connect or a re-check leaves a process, in full: SAFE unless it adopted; then HALTED under an engaged switch, whatever the permission to transmit; then READY if and only if transmission is allowed |
| `KillSwitches.TickHaltsExactlyWhen` | app/main.py:509-533 | a tick with a contract ends HALTED and hands out no quote if and only if the switch is engaged by configuration, latch or an unreadable store |
| `KillSwitches.LatchComesFirst` | app/safety/killswitch.py:66-72 | however latching is cut short, the switch is latched once anything at all was written |
| `KillSwitches.LaterProcessesNeverTrade` | app/safety/killswitch.py:48-64 | along a latched run no process that started since the latch is ever READY or handing out quotes |
| `KillSwitches.LatchedForever` | app/safety/killswitch.py:48-72 | after any process latched, in every later run the latch stays and no order is handed over; at every step of it a READY or quoting process is the one that already was, and none that started since is either |
| `Fleet.FleetSendsAtMostOnce` | app/execution/order_manager.py:133-364 | however many live processes take turns on the tables, no key is handed over twice and every order handed over is backed by a stamped row |
| `Fleet.FleetKeepsLimits` | app/risk/limits.py:70-83 | the hourly and the open-order limit bound all live processes together, up to rows that status polls reopened |
| `Fleet.LatchHoldsTheFleet` | app/safety/killswitch.py:48-72 | once the switch is latched it stays latched and no live process hands over an order, over any later turns |
| `Fleet.LatchedTurnsOnlyKeep` | app/safety/killswitch.py:53-64 | under the latch, at each turn a process is READY or handing out quotes only where it already was |
| `FleetSafety.FleetReadyMeansReconciled` | app/main.py:397-480 | in every fleet a READY process is reconciled, has account and permission, and its book is the broker snapshot it adopted; the stored positions agree with it if and only if no other process stored positions since, or the last that did stored equal quantities |
| `FleetSafety.FleetEverySendIsSafe` | app/main.py:555-692 | every order any process of a fleet sends leaves from READY, reconciled and unswitched, on a fresh live quote; it is an exact move to the target, inside the limits, if and only if the order worked on is the one assessed, as it is whenever no stored order carries the intent's id |
| `FleetSafety.FleetSendsEachIntentOnce` | app/execution/order_manager.py:133-200 | over any fleet in which an id always names one strategy, target and contract, no two orders handed over carry one id, whatever each validator has seen |
| `FleetSafety.InformedFleetSendsOnce` | app/signals/validator.py:101-107 | even under several keys no id is handed over twice while every process handed an id that was sent has seen it or refuses it |
| `FleetSafety.BothAcceptExactlyWhen` | app/signals/validator.py:66-117 | two live processes both accept one id if and only if it is sound to each and neither had seen it: one's acceptance does not reach the other |
| `FleetSafety.LateStartersRefuse` | app/signals/validator.py:58-60 | a process that starts once an intent is recorded, while the query returns every record, refuses its id |
| `FleetSafety.HandlingIsRecorded` | app/main.py:577-598 | an intent handled to its end is recorded, whether or not it was accepted |
| `Fleet.EachBookIsItsOwn` | app/main.py:694-742 | each live process's book is what it started with plus the net of the fills it recorded itself, whatever the others record |
| `Fleet.FleetRecheckClearsExactlyWhen` | app/main.py:292-329 | a process facing a broker that its start and all fills recorded since explain finds no position discrepancy if and only if the fills the other processes recorded since net to zero; otherwise each delta is their net |
| `Fleet.ForeignReadingIsMissed` | app/execution/operator_order.py:300-310 | a re-check that would have found these answers clean still does, after another process read them first, if and only if the fills that process recorded net to zero; otherwise each delta is their net |
| `Witnesses.OperatorReadingStopsTheTrader` | app/execution/operator_order.py:296-310 | a run of two processes: the trading process is READY and would find the answers clean; the operator command reads them first, and the trading process's next re-check ends SAFE |
| `SimulatedBroker.MockBroker.PlaceOrder` | app/broker/mock_broker.py:308-356 | refused without a session, without permission or for an exotic type; otherwise a fresh id, filled at once or resting |
| `SimulatedBroker.FilledAtOnce` | app/broker/mock_broker.py:339-396 | a market order filled at once adds one fill, which is the whole of the order at the given price, and moves that position by its size, up for a purchase and down for a sale, and no other |
| `SimulatedBroker.NotFilledAtOnce` | app/broker/mock_broker.py:308-356 | any other placement fills nothing: it is refused for one of three reasons or rests under a fresh id |
| `Targets.HandledReachesTarget` | app/main.py:555-621 | a market intent that may be sent, over a live broker that agrees with the book on its contract: the broker then holds the target, and after the next reconciliation that misses nothing so does the book |
| `Targets.SessionsReachTargets` | app/main.py:555-621 | the same after any acts of a session that began on empty tables beside a flat broker |
| `SimulatedBroker.MockBroker.SimulateFill` | app/broker/mock_broker.py:358-377 | one fill under a fresh execution id, the order no longer working, the position moved |
| `SimulatedBroker.MockBroker.ApplyFillToPositions` | app/broker/mock_broker.py:379-396 | the position moves by the signed fill and disappears at flat |
| `SimulatedBroker.MockBroker.GetFills` | app/broker/mock_broker.py:199-202 | exactly the fills executed at or after the cutoff, in order |
| `SimulatedBroker.MockBroker.CancelAllOrders` | app/broker/mock_broker.py:433-441 | every working order is dropped and counted; positions stay |
| `SimulatedBroker.PlacingStaysHonest` | app/broker/mock_broker.py:308-396 | whatever is placed, positions stay the net of all fills and no name is used twice |
| `SimulatedBroker.ListingIsExact` | app/broker/mock_broker.py:191-193 | a read lists every held contract once, with its quantity |
| `Simulation.ReadingsSay` | app/broker/mock_broker.py:180-202 | a reading of a live broker tells its permission, every held contract once, its working orders, and exactly the fills at or after the cutoff |
| `Simulation.ActKeepsCoupling` | app/main.py:410-480 | every act of a simulated session keeps: working ids equal the ids of rows at rest, recorded fills are broker fills, broker positions are the net of its fills, the book is conserved |
| `Simulation.SimulatedReconciliation` | app/broker/mock_broker.py:308-396 | after any acts in one process a reconciliation on a live session succeeds if and only if the fills that left the read window unread net to zero and no row waits for a cancel; then the book is the net of every fill the broker made |
| `Simulation.OnlyCancelsMakeWait` | app/execution/order_manager.py:348-364 | no act but a cancel-all makes a row wait for a cancel |
| `Simulation.UncancelledSessionsReconcile` | app/main.py:410-480 | without a cancel-all and with every unread fill in the read window, every reconciliation of a simulated session succeeds, the working ids are the open rows' ids and the book is the net of all fills |
| `Simulation.CancelWaitsExactly` | app/execution/order_manager.py:348-364 | a cancel-all leaves a row waiting if and only if the broker worked an order or a row waited already |
| `Simulation.WaitingForever` | app/portfolio/reconciliation.py:212-235 | once a row waits for a cancel in a simulated session, no reconciliation of it ever succeeds again |
| `Bars.FindGaps` | app/backtest/models.py:124-146 | every pair of neighbours more than a step apart, in order |
| `Bars.IntervalsAre` | app/backtest/models.py:34-40 | the five intervals a bar can have, in seconds, and no other |
| `Bars.GapsAccountForEverySlot` | app/backtest/models.py:124-146 | on the grid, bars present plus bars reported missing are all slots from first to last |
| `Bars.GapsAreOrdered` | app/backtest/models.py:124-146 | gaps are in time order and never overlap |
| `Bars.EachMissingSlotIsInOneGap` | app/backtest/models.py:124-146 | a slot is missing if and only if a gap covers it, and never do two |
| `BarStore.BarRepository.InsertMany` | app/backtest/store.py:52-79 | the result counts exactly the new keys; what was stored stays as it was; keys stay distinct |
| `BarStore.BarRepository.Load` | app/backtest/store.py:81-103 | exactly the stored bars of the half-open range, strictly increasing in time |
| `BarStore.InterruptedImportIsHarmless` | app/backtest/store.py:52-79 | any prefix of an import followed by a full re-run gives the table of one uninterrupted run |
| `BarStore.StoredBarsNeverChange` | app/backtest/store.py:55-57 | what is stored under a key stays as it was through any later imports |
| `BarStore.SeriesAccounts` | app/backtest/store.py:105-115 | the gaps reported for a loaded series account for every slot of it |
| `BinanceFetch.BinanceBarSource.TakePage` | app/backtest/sources.py:183-187 | a page is taken up to the first bar at or past the end, or the first row that makes no bar |
| `BinanceFetch.BinanceBarSource.Fetch` | app/backtest/sources.py:164-191 | the download loop: what is yielded, how it ends and how many requests it took |
| `BinanceFetch.FetchIsBounded` | app/backtest/sources.py:164-191 | against any server: at most 2000 requests, at most one per step of the range rounded up, and no bar at or past the end |
| `BinanceFetch.PaginationIsScan` | app/backtest/sources.py:164-191 | against an honest server pagination is a plain scan of its rows from the cursor on |
| `BinanceFetch.AlignedFetchIsExact` | app/backtest/sources.py:164-191 | from a whole millisecond a download that ends without an error yields exactly the server's bars in [start, end), once each and in order |
| `BinanceFetch.AlignedFetchTellsRows` | app/backtest/sources.py:164-250 | the same row by row: one bar for each row that opens in [start, end), and the i-th has the i-th row's open, high, low, close and volume, opens at its millisecond and bears source, symbol and interval; a row that makes no bar ends the download with an error |
| `BinanceFetch.BarsTell` | app/backtest/sources.py:221-254 | exactly the rows whose open and close lie between their extremes, on a volume that is not negative, make a bar |
| `BinanceFetch.PageIsFirstThousand` | app/backtest/sources.py:193-201 | the page asked of an honest server is as many rows of the window as there are, up to a thousand, from the first on |
| `BinanceFetch.ExactExactlyWhenAligned` | app/backtest/sources.py:193-200 | downloads are exact against every honest server if and only if the start is a whole millisecond (or before 1970) |
| `BinanceFetch.UnalignedFetchTakesTooMuch` | app/backtest/sources.py:193-200 | a server for which an unaligned start yields a bar that opened before it |
| `IbSession.Session.Register` | app/broker/ibkr_broker.py:328-332 | a new waiting future with no rows takes the id, whatever held it |
| `IbSession.Session.OnRow` | app/broker/ibkr_broker.py:558-562 | a row is appended to its own request, and dropped without one |
| `IbSession.Session.OnEnd` | app/broker/ibkr_broker.py:463-464 | the request leaves the table and its future gets its rows unless it was already done |
| `IbSession.Session.Resolve` | app/broker/ibkr_broker.py:339-343 | popped once, and completed only if not done |
| `IbSession.Session.Reject` | app/broker/ibkr_broker.py:345-359 | popped and failed, and told whether there was one |
| `IbSession.Session.FailAll` | app/broker/ibkr_broker.py:370-376 | every request in flight fails, done futures keep what they have |
| `IbSession.Session.OnError` | app/broker/ibkr_broker.py:380-423 | a notice changes nothing; any other error goes to one of four places |
| `IbSession.Session.TakeOrderId` | app/broker/ibkr_broker.py:441-447 | raises before the broker issued an id; otherwise hands out the current id and moves past it |
| `IbSession.OrderIdsAreConsecutive` | app/broker/ibkr_broker.py:430-447 | over any run of callbacks the id handed out next is the one the broker issued last, moved on by one for each taken since |
| `IbSession.RequestsAreIndependent` | app/broker/ibkr_broker.py:328-376 | for every interleaving each request fares exactly as if followed on its own: same future, same rows in flight |
| `IbSession.DoneIsFinal` | app/broker/ibkr_broker.py:339-359 | each future is completed at most once: no later event changes a done one |
| `IbSession.SuccessCarriesItsRows` | app/broker/ibkr_broker.py:450-480 | a future that succeeds does so at an end for its own id with exactly the rows received for it since its registration, in order |
| `IbSession.ErrorsAreRouted` | app/broker/ibkr_broker.py:380-423 | where an error goes by id, class and table, and that nothing else moves: no other future, entry or record |
| `IbSession.CodesAre` | app/broker/ibkr_broker.py:150-200 | what each listed error code means; the lists share no code, so their order does not matter |
| `IbSession.PermissionsAre` | app/broker/ibkr_broker.py:186-202 | an error on no list is one of permission exactly by its message, and otherwise of no kind |
| `IbSession.ErrorIsKeptExactlyWhen` | app/broker/ibkr_broker.py:345-423 | an error that is no notice leaves a trace if and only if it is untargeted and not a connection error, or aimed at an id without an entry, or at an entry whose future still waits, or a connection error with some future still waiting in flight, or it was on record already |
| `IbSession.LateRefusalIsLost` | app/broker/ibkr_broker.py:857-865 | a request that timed out keeps its entry, and a refusal arriving later is recorded nowhere |
| `IbSession.ClosingFailsAll` | app/broker/ibkr_broker.py:425-428 | a closed connection fails every request in flight that still waits, as a connection error, and empties the table |
| `IbSession.AllocatedIdsAreFresh` | app/broker/ibkr_broker.py:323-326 | allocated ids are consecutive from 1001, so they never repeat and never equal the two fixed ids |
| `IsoTime.TextOrderIsTimeOrder` | app/utilities/timeutils.py:37-45 | stored instants compare as text exactly as they compare in time, with and without a fraction |
| `IsoTime.IsoRoundTrip` | app/utilities/timeutils.py:37-45 | every stored instant reads back as itself |
| `IsoTime.TextIs` | app/utilities/timeutils.py:37-39 | the text of an instant: its fields with their separators, a fraction only where there is one, and the offset |
| `IsoTime.TwoDigitField` | app/utilities/timeutils.py:37-39 | a field of two digits is its tens and its units |
| `IsoTime.CalendarIs` | app/utilities/timeutils.py:37-45 | the lengths of the months, leap years, and the day number of 1 January 1970 |
| `IsoTime.FractionsCompare` | app/utilities/timeutils.py:37-39 | an absent fraction sorts before every present one, and present ones by value |
| `IsoTime.TextCountIsTimeCount` | app/state/repositories.py:197-203 | counting stamps textually at or after an instant counts those at or after it |
| `IsoTime.TextRangeIsTimeRange` | app/backtest/store.py:81-103 | a textual half-open range selects exactly the stamps whose instants lie in it, as often as they occur |
| `IsoTime.TextSortIsTimeSort` | app/backtest/store.py:81-103 | stamps ascend as text exactly when they ascend in time |

## Left out

- Two processes inside one event at the same time. `Machine` runs one process at a time (the kill-switch latch and
  bookkeeping keys excepted) and `Fleet` lets live processes alternate between events. A stored NEW row passes the
  duplicate guard, so two processes submitting one key at the same moment are outside every claim.
- SQL text, WAL, locking and sqlite errors: a statement is one atomic effect that succeeds, except reading
  the kill switch and adopting a list that names a contract twice.
- Threads inside a callback: the lookup of a request's rows and its completion are one step.
- Float rounding: of quote ages, of the seconds between two bars, and of `timestamp() * 1000`.
- SHA-256 and uuid: keys are injective and ids fresh by assumption.
- Columns that are only carried along: correlation ids, commissions, exchanges, audit events, timestamps of
  recording. `last_application_state` is written by every state change; the machine lets it and the other two
  bookkeeping keys be written at any time instead.
- Signals.SignalValidator.Validate: symbols and strategy names are folded within ASCII only, and not trimmed.
- The position order of stored rows (by symbol) and of dictionaries: nothing modelled depends on it.
- Contract resolution, month codes, the contract cache, market-data polling: the resolved contract and the
  quotes are inputs of an event.
- Connection back-off, main-loop sleeping, shutdown order, health server, status payloads, logging.
- The stop and bracket order types: structurally validated, never transmitted.
- A bound on the broker's true position between reconciliations: resting and unread fills are not in the book,
  so the code gives none.
- `CsvBarSource`, the replay engine and strategies; `MockBroker.modify_order`, `cancel_order` and
  `seed_position`, and its random price walk (a price is an input).
- Order ids and request ids of the IBKR session share one namespace for errors; the model keeps that, and
  claims freshness for request ids only.
- Application.TradingApplication.MaybeReconcile: the clock is an input; that the loop calls it often is not claimed.
- Application.TradingApplication.Startup: the seed of known intents is an input, complete while the table holds at most
  10,000 intents, because the query is bounded there.
- Caps.LimitsHoldOverRuns: the open-order bound leaves room for rows that status polls reopen, because the code does.
- IntentSafety.EachIntentIsSentAtMostOnce: at most 10,000 recorded intents at each startup, the bound of the query.
- Conservation.BookIsStartPlusRecordedFills: per process; across restarts it is `Restarts` that says what the book lacks.
- Simulation.SimulatedReconciliation: one process, because the simulated broker's execution ids restart with it.
- The JSON of a page: a row is its six values under their names, or unusable as a whole; which array index each comes from
  is not modelled.
- BinanceFetch.AlignedFetchIsExact: downloads that end with an error have yielded a prefix and are not claimed exact.
- IsoTime.IsoRoundTrip: reads back the texts that `to_iso` writes; other spellings the parser accepts are not modelled.
- Bars.GapsAccountForEverySlot: for strictly increasing series on the interval grid, which is what the count means.
