# Verified model of the trading agent

This project models the demo trading agent's hard core in Dafny and proves what the agent promises
about it. The model takes the code's own form: the trade store, the order manager, the session
service, the candle buffer, the market feed, the event intake and the historical service are classes
whose methods update fields; transition tables, pricing and risk arithmetic are functions; loops are
loops with invariants. The exchange is an adversary with a ground truth that no client sees.

| file | what it holds |
|---|---|
| `order_states.dfy`, `trade_tables.dfy`, `trade_store.dfy` | order states, the tables and every write on them, the store |
| `exchange.dfy` | the exchange: it may fill, cancel, reject, lose replies and answer nothing, within four promises |
| `protocol.dfy`, `protocol_steps.dfy`, `slice_effects.dfy`, `protocol_runs.dfy` | the protocol invariant, every step that keeps it, and whole runs |
| `run_builder.dfy`, `commit_boundary.dfy`, `half_applied.dfy` | building runs, and two pairs of writes that have to land together |
| `flat_reports.dfy`, `false_flats.dfy`, `stuck_positions.dfy` | when FLAT is true of the exchange, runs in which it is not, and positions that can never be closed |
| `manager_rules.dfy`, `flatten_rules.dfy`, `manager_steps.dfy`, `order_manager.dfy`, `plan_steps.dfy`, `agent_runs.dfy` | what the order and flatten operations promise, their writes as events of a run, the operations, and any schedule of them |
| `entry_race.dfy` | small-step interleavings of submit, reject, expiry, block, cancel, reconcile and restart |
| `exit_history.dfy` | paged, cursor-resumed reading of exit fills |
| `session_control.dfy`, `session_flatten.dfy` | control row and core state, and when FLAT is reported |
| `pricing.dfy`, `orchestration.dfy` | quantizing, sizing, exposure, the risk veto, and the approval of a plan |
| `candles.dfy`, `candle_buffer.dfy`, `market_feed.dfy`, `event_intake.dfy` | realtime candles, the market gate, the event memory |
| `backtest.dfy`, `backtest_days.dfy`, `performance.dfy`, `historical.dfy` | the simulator, the books of its days, drawdown and streaks, historical paging |

`dafny verify dfyconfig.toml` checks everything.

How to read the main results. `Protocol.Inv` ties the tables to what the exchange really did.
`ProtocolRuns.EveryRunIsSafe` and `AgentRuns.AnySchedule` are the whole-run guarantees, and they are
linked: the order manager carries the run of events that its operations make (`Traced`, part of `Good`), so
every execution of it is a run, and what holds of runs holds of it;
`SessionFlatten.FinishFlatten` says when FLAT is reported and `FlatReports.FlatIsSureIff` when it is
true; `CommitBoundary.HalfWriteOversellsIff` and `StuckPositions.CanCloseIff` decide what can still
happen over all continuations; `Orchestration.ApprovePlan` is what an approval may do;
`EntryRace.AtMostOnce`, `ExitHistory.AnyPasses`, `MarketFeeds.GateMeans`, `MarketFeeds.DisturbedGateIff`,
`CandleBuffers.ReplayKeeps`, `EventIntakes.IntakeKeeps`, `Backtests.Causal`,
`Performance.MaximumDrawdown` and `HistoricalData.HistoricalDataService.Fetch` are the results of the
other cores. A function that a body and its specification share has a lemma beside it that says what it means in
other words (`AppliedShows`, `RowMeans`, `ObserveMeans`, `ReservedLaw`, `TradeBooks`, `QuantizedIff`, `GoesThrough`).
What an operation has to do, and not only what it may, is in its contract: `CoveredEnd`, `TurnTaken`, `RepliedAs`,
`CancelFollowed` and `ReadAs` list the cases. The logs of the exchange are ghost: questions, requests, replies,
verdicts and what was accepted. Quantities are whole lots, prices are exact reals, and an order on the exchange is named
by what its client id is derived from: the plan, or the plan and the attempt number.

## What does not hold, and exactly when it does

- FLAT is decided on the tables alone (trading_agent/session_controller.py:100-138), and the exchange may
  not be flat. A partly filled entry whose cancel was refused is CLOSED with its sold lot and goes on
  buying (`FalseFlats.FlatWithLiveEntry`); an order rejected after a fill leaves no position
  (`FlatWithRejectedFill`); a submission that failed without a refusal is REJECTED and may still fill
  (`FlatWithoutRefusal`); an attempt that is live when protective fills complete the exit is marked FILLED
  and sells once more, three lots of two (`FlatWithLiveExit`). FLAT is sure, in this run and in every run
  the agent cannot tell from it, exactly when every order that was sent was confirmed to be at its end, by
  a final word, the full quantity or a refusal, and no order was rejected after a fill
  (`FlatReports.FlatIsSureIff`).
- No oversell needs the attempt update and its exit-ledger row to land together. They are separate
  commits (execution/order_manager.py:1057-1077). `CommitBoundary.SplitCommitOversells` is a run from the
  empty tables, through the death of the agent and a failed lookup, that sells three lots of two. After a
  half write the attempts can go on to oversell exactly when the row ends the latest attempt CANCELLED or
  REJECTED with its price, and what the attempts sold is more than the ledger's total
  (`CommitBoundary.HalfWriteOversellsIff`); a half-written FILLED attempt is harmless. All other results
  take one reconcile as one step.
- An entry row commits the order before the position (execution/order_manager.py:176-213). When the agent
  dies between them, the position can come to show what was bought, without a `resume`, exactly when the row
  does not cancel the order or the position showed its quantity before
  (`HalfApplied.HalfAppliedShowsIff`); otherwise what was bought is never a closed position, and
  `LostFillRun` reaches tables that look flat over a lot nobody manages.
- A local block of a pending entry is written without the state it was decided on
  (execution/order_manager.py:723-732). It stops the executor exactly when the order is still APPROVED
  at the write, or a block before it was in time (`EntryRace.BlockDecidesIff`); otherwise it reports
  success and the order goes out (`EntryRace.LateBlockDoesNotStop`).
- The entry gate asks for a book and for fresh bars only in the watchdog, in a critical section of its
  own. With one event between it and the check, the gate passes without either exactly when the event
  promotes a ready feed: a ticker or book that is taken, a connection mark, or a candle message read to
  its end, duplicates included (`MarketFeeds.DisturbedGateIff`, `Promotes`). `GatePassesWithoutBook`
  reaches such a feed.
- The event memory's set and deque stay equal on an overflow exactly when no other key was remembered
  in between (`EventIntakes.TakeBackKeepsIff`). While no new key is remembered before a waiting one is
  taken back, the distance of 255 admitted keys holds (`UndisturbedKeeps`); otherwise the same key can be
  admitted again after a single other key (`DisturbedBreaksBound`).
- A historical fetch returns exactly the target number of bars if and only if that number is at least
  one: a target of zero, a step longer than the period, slices the whole series (data/historical.py:140);
  `HistoricalData.EverythingForNothing` does it with seven days of an eight day step.
- Exit fills older than the local time at which the position was recorded are never in the window: over
  any passes the ledger holds every matching fill exactly when none is older
  (`ExitHistory.AnyPasses`); `ExitHistory.FillIsMissed` misses one.
- `_close_flatten_position` is called without an attempt when protective fills alone cover the position
  (execution/order_manager.py:877-880); it then raises before it closes
  (`OrderManagers.OrderManager.CloseFlattenPosition`).
- REJECTED is not a closable state (storage/trade_store.py:637-700). A managed position can be closed in
  some continuation exactly when its order is not REJECTED (`StuckPositions.CanCloseIff`); otherwise it
  stays managed and FLAT is never reported (`StuckForEver`). It gets there in exactly one way, a rejected
  row for an order that was asked to cancel (`StuckArisesIff`), and `StuckRun` gets there; on a
  PARTIALLY_FILLED order the table refuses the row, and without an earlier managed fill it leaves no
  position. For a CANCELLED order the continuation may need a `resume`
  (trading_agent/demo_lifecycle.py:236), the one call that asks about an order that is not active: without
  it, a CANCELLED order whose fill came without a price has no trade row and is never closed
  (`UnpricedNeverCloses`, `UnpricedRun`).
- A plan that is refused before it is priced has the executable price zero, so with a maximum deviation
  below 100 percent it is reported as a price that moved, whatever the reason
  (trading_agent/orchestrator.py:273-286): `Orchestration.AgreeTerms` says exactly when, and
  `PriceMovedWithoutAPrice` does it with an unchanged price.
- The greatest drawdown is the deepest fall between any two points while equity stays positive
  (`Performance.MaximumDrawdown`); once it is below zero it need not be (`BelowZeroPeakIsNotDeepest`).

## Model

| member | source | states |
|---|---|---|
| OrderStates.SettledHistory | execution/order_state.py:38-74 | over any history whose every step is in the transition table, an order that left the reserving states never reserves notional again, and CANCELLED, REJECTED and CLOSED are final |
| OrderStates.ReachedFrom | execution/order_state.py:38-74 | the transition table read the other way round: from exactly which states each state can be reached |
| OrderStates.GroupsMean | execution/order_state.py:20-36 | an order is active exactly while the table lets it become something else, and reserves notional exactly while it may still be cancelled or rejected; the four managed states and the four that a close takes |
| Exchanges.RowMeans | execution/order_manager.py:29-44 | which state each row of the exchange stands for, by its word and its quantity, in every combination of the two |
| Exchanges.Exchange.Lookup | execution/order_manager.py:435-448 | a lookup may fail; a row it returns shows the order exactly as the exchange has it at that moment, and the question is logged |
| Exchanges.Exchange.Execute | execution/order_manager.py:87-126 | an order may be handed to the executor only if its client id never was; the reply may be lost, and nothing but a refusal, by a code or before it left, says that nothing will fill |
| Exchanges.Exchange.CancelOrder | execution/order_manager.py:749-753 | a cancel may be taken or not, and takes effect at any later time or never |
| Exchanges.Exchange.CancelProtection | execution/order_manager.py:1240-1247 | a protective cancel is logged, and the answer with it: what was accepted is a log of its own |
| Exchanges.Exchange.ExitFills | execution/order_manager.py:638-649 | one history pass may find anything and may be incomplete |
| TradeTables.TotalSplit | storage/trade_store.py:588-596 | the exit total is one row plus the total of the rest, whichever row is taken |
| TradeTables.TotalUpsert | storage/trade_store.py:408-429 | an upsert of an exit fill changes the total by exactly the change of its own row |
| TradeTables.ReservedSplit | storage/trade_store.py:451-469 | the reserved notional is one order's share plus the rest, whichever order is taken |
| TradeTables.ReservedLaw | storage/trade_store.py:461-466 | for an order in one of the six pending states with no more filled than requested, what is reserved plus what is filled is what was requested, at its price; every other order reserves nothing |
| TradeTables.FillFrees | storage/trade_store.py:451-469 | a fill of k more lots in a pending order lowers the reserved notional by exactly k times its price |
| TradeTables.EndFrees | storage/trade_store.py:451-469 | a pending order that ends lowers the reserved notional by exactly the price of what it had not filled |
| ProtocolSteps.AppliedFrees | execution/order_manager.py:158-230 | a row of a pending order frees exactly the notional of the lots it newly shows as filled, and of all the rest when the order is no longer pending |
| TradeTables.ApprovalReserves | storage/trade_store.py:171-198 | approving an order raises the reserved notional by exactly its own notional |
| TradeTables.ReservedPointwise | storage/trade_store.py:451-469 | when no order reserves more than before, the reserved notional has not grown |
| TradeStores.TradeStore.ManagedPositions | storage/trade_store.py:276-286 | lists exactly the positions in a managed state, each once |
| TradeStores.TradeStore.ActiveOrders | storage/trade_store.py:245-252 | lists exactly the orders in an active state, each once |
| TradeStores.TradeStore.ConfirmedExitQuantity | storage/trade_store.py:590-596 | the loop returns the total of a plan's persisted exit fills |
| TradeStores.TradeStore.PositionSlotsInUse | storage/trade_store.py:431-449 | counts plans with managed inventory or an active order, each once |
| TradeStores.TradeStore.ReservedEntryNotional | storage/trade_store.py:451-469 | the loop returns the reserved notional, whose every share ReservedLaw pins: the unfilled part of a pending order at its price, and nothing for any other |
| TradeStores.TradeStore.HasUnresolvedAttempt | storage/trade_store.py:387-399 | true exactly when some flatten attempt is neither terminal nor failed |
| TradeTables.UnresolvedMeans | storage/trade_store.py:387-399 | an attempt is resolved exactly when it failed or ended FILLED, CANCELLED or REJECTED |
| TradeStores.TradeStore.InsertPlan | storage/trade_store.py:59-69 | a plan id that exists keeps its row |
| TradeStores.TradeStore.Reject | storage/trade_store.py:135-147 | rejects exactly a plan that is still PLANNED |
| TradeStores.TradeStore.Approve | storage/trade_store.py:171-198 | one transaction moves a PLANNED plan and inserts its order, or changes nothing |
| TradeStores.TradeStore.Transition | storage/trade_store.py:200-238 | writes the order and its plan status exactly when the table allows the step, otherwise changes nothing |
| TradeStores.TradeStore.PutPosition | storage/trade_store.py:254-274 | replaces the position row and its protective ids, keeping the exit-filled quantity |
| TradeStores.TradeStore.MarkPartial | storage/trade_store.py:288-313 | marks only a managed position as partially exited |
| TradeStores.TradeStore.PutEntryFill | storage/trade_store.py:598-635 | inserts the trade once and only grows an unexited one |
| TradeStores.TradeStore.Close | storage/trade_store.py:637-700 | moves trade, position and order to CLOSED together, outside the transition table, or changes nothing |
| TradeStores.TradeStore.InsertAttempt | storage/trade_store.py:334-355 | appends the next attempt in PREPARED under the next number |
| TradeStores.TradeStore.PutProtectiveFills | storage/trade_store.py:565-588 | the loop inserts each protective fill once and never overwrites a row |
| TradeStores.TradeStore.UpdateAttempt | storage/trade_store.py:357-385 | replaces exactly one attempt row |
| TradeStores.TradeStore.PutFill | storage/trade_store.py:408-429 | upserts exactly one exit-ledger row |
| Protocol.NoOversell | execution/order_manager.py:824-885 | in every state that keeps the invariant, flatten attempts have sold at most the managed quantity, which is at most what the entry bought |
| Protocol.FlatMeansFlat | trading_agent/session_controller.py:100-152 | what the tables show when the FLAT checks pass: no slot, no reserved notional, and every position CLOSED with its order, covered by exit fills, without oversell |
| Protocol.FlatAtExchangeIff | trading_agent/session_controller.py:100-152 | tables that look flat are true of the exchange exactly when no order can fill any more, every order row shows what was filled, and none was rejected after a fill |
| Protocol.OnePlan | storage/trade_store.py:200-238 | a step that touches one plan and keeps that plan's part keeps the whole invariant |
| Protocol.EvolveKeeps | execution/order_manager.py:29-44 | whatever the exchange does on its own keeps the invariant |
| Protocol.SendKeeps | execution/order_manager.py:881-899 | sending an entry just moved to SUBMITTED or the attempt just prepared, for its own quantity, keeps the invariant |
| ProtocolSteps.AppliedKeeps | execution/order_manager.py:158-212 | applying an exchange row to order and position keeps the invariant, takes no slot and reserves nothing |
| ProtocolSteps.MovedKeeps | storage/trade_store.py:200-238 | a transition without a row keeps the invariant and only goes forward |
| ProtocolSteps.CreatedKeeps | storage/trade_store.py:171-198 | the approval transaction keeps the invariant; it is the only step that takes a slot |
| ProtocolSteps.PlanOnlyKeeps | storage/trade_store.py:59-69 | saving or rejecting a plan keeps the invariant |
| ProtocolSteps.OpenedKeeps | execution/order_manager.py:824-885 | a new attempt, opened only when the latest ended without filling, confirmed and reconciled, and only for the remainder, keeps the invariant |
| ProtocolSteps.ReopensMeans | execution/order_manager.py:862-870 | another attempt may follow exactly one that ended CANCELLED, REJECTED or failed, confirmed and reconciled |
| ProtocolSteps.RewrittenKeeps | storage/trade_store.py:357-385 | rewriting an attempt without claiming an unconfirmed end keeps the invariant |
| ProtocolSteps.ObservedKeeps | execution/order_manager.py:1047-1079 | recording an attempt's row together with its ledger row keeps the invariant |
| ProtocolSteps.ObserveMeans | execution/order_manager.py:1048-1068 | every column of an attempt after a row: quantity, id, state, and when it is confirmed and when fully reconciled; a requested cancel is kept over a row that is still open |
| ProtocolSteps.PartiallyExitedKeeps | storage/trade_store.py:288-313 | the partial-exit mark keeps the invariant |
| ProtocolSteps.ClosedNowKeeps | storage/trade_store.py:637-700 | closing a covered position keeps the invariant and frees its slot |
| ProtocolSteps.IgnoreInsertGrows | storage/trade_store.py:565-588 | ignoring inserts keeps every existing ledger row and never lowers the total |
| ProtocolSteps.LedgeredKeeps | execution/order_manager.py:632-661 | recording protective fills keeps the invariant |
| ProtocolSteps.AdvancesReserves | storage/trade_store.py:451-469 | steps that only advance never raise the reserved notional |
| ProtocolRuns.TableEventKeeps | execution/order_manager.py:158-230 | every table event of the protocol keeps its plan's part and takes nothing back; all but an approval also take no slot |
| ProtocolRuns.ApprovalFrame | storage/trade_store.py:171-198 | an approval event raises the reserved notional by exactly its own |
| ProtocolRuns.NextKeeps | execution/order_manager.py:75-136 | every event keeps the invariant; only an approval takes a slot or reserves notional |
| ProtocolRuns.RunKeeps | risk/risk_manager.py:64-70 | at every point of every run: the invariant holds, slots in use and reserved notional stay within the limits checked at approvals |
| ProtocolRuns.RunEndures | storage/trade_store.py:637-700 | over every run nothing the tables said is taken back |
| ProtocolRuns.EveryRunIsSafe | execution/order_manager.py:816-949 | at every point of every run: each order sent at most once, no oversell, position and order CLOSED together, covered and for ever |
| StuckPositions.StuckForEver | storage/trade_store.py:637-700 | over every path a managed position whose order is REJECTED is never closed, and the tables never look flat again |
| StuckPositions.StuckArisesIff | execution/order_state.py:52-61 | an event makes a position stuck exactly when it is a rejected row for an order in CANCEL_REQUESTED with a managed position |
| StuckPositions.CanCloseIff | storage/trade_store.py:637-700 | a managed position can be closed in some continuation exactly when its order is not REJECTED; a CANCELLED order may need a resume for it |
| StuckPositions.UnpricedNeverCloses | storage/trade_store.py:650-655 | without a resume, a managed position of a CANCELLED order without a trade row is never closed, and the tables never look flat |
| StuckPositions.UnpricedRun | execution/order_manager.py:213-221 | a concrete run that reaches it: a cancelled order with a fill that came without a price |
| HalfApplied.HalfAppliedShowsIff | execution/order_manager.py:176-213 | after dying between the order row and the position row of an entry fill, some continuation without a resume makes the position show what was bought exactly when the row does not cancel the order or the position showed it before; otherwise it is never closed |
| HalfApplied.LostFillRun | execution/order_manager.py:176-213 | a concrete run and half write after which the tables look flat over a bought lot without a position |
| StuckPositions.ClosesNowIff | storage/trade_store.py:646-694 | the close transaction of a managed position goes through exactly when it has a trade row and its order is neither being cancelled nor REJECTED |
| StuckPositions.StuckRun | execution/order_manager.py:158-212 | a concrete run that buys one lot of two, asks to cancel and is answered with a rejected row: no continuation closes the position |
| FlatReports.FlatIsSureIff | trading_agent/session_controller.py:100-152 | FLAT is true in a run and in every run alike to the agent exactly when the end of every sent order was confirmed and no order was rejected after a fill |
| FlatReports.Twin | execution/order_manager.py:435-448 | a run in which the end of an order was never confirmed has a twin with the same tables and events in which that order can still fill |
| FlatReports.ConfirmedIsFlat | trading_agent/session_controller.py:100-152 | when every sent order was confirmed and none rejected after a fill, tables that look flat are true of the exchange |
| FlatReports.TrueFlatLasts | trading_agent/session_controller.py:131-152 | a true FLAT stays true: in every continuation its orders fill nothing more and what they bought stays CLOSED |
| FalseFlats.FlatWithLiveEntry | execution/order_manager.py:749-765 | a concrete run: cancel refused, sold lot CLOSED, FLAT reported, and then the entry buys its second lot |
| FalseFlats.FlatWithRejectedFill | execution/order_manager.py:178-182 | a concrete run: an order rejected after buying one lot leaves no position, and FLAT is reported |
| FalseFlats.FlatWithoutRefusal | execution/order_manager.py:107-112 | a concrete run: a failed submission is REJECTED without a refusal code, FLAT is reported, and then it fills |
| FalseFlats.FlatWithLiveExit | execution/order_manager.py:1104-1150 | a concrete run: the position closes while its own attempt is live, FLAT is reported, and three lots are sold of two |
| CommitBoundary.HalfWriteOversellsIff | execution/order_manager.py:1057-1077 | after dying between the attempt update and the ledger row, some continuation oversells exactly when the row ends the latest attempt CANCELLED or REJECTED with its price and the attempts sold more than the ledger's total |
| CommitBoundary.SafeNext | execution/order_manager.py:824-885 | every event keeps what is enough for no oversell: settled earlier attempts, requests within the position, and a ledger total that covers what was sold before a new attempt |
| CommitBoundary.SplitCommitOversells | execution/order_manager.py:1057-1079 | a concrete run from the empty tables through the half write and a failed lookup that sells three lots of a two-lot position |
| ManagerSteps.EventStep | storage/trade_store.py:200-238 | a write of the manager that is an event of the protocol keeps the invariant, goes forward, and leads from one world of the run to the next |
| OrderManagers.OrderManager.Wrote | storage/trade_store.py:200-238 | after such a write the run so far has one event more and ends in the present world |
| OrderManagers.OrderManager.WriteRemoteOrder | execution/order_manager.py:158-230 | either the table refuses the first write and nothing changes, or every follow-up write is legal, order and position take the row, and the trade row is set exactly when the fill has a price |
| OrderManagers.OrderManager.ApplyRemoteOrder | execution/order_manager.py:158-230 | after a row that leaves a position: the position is POSITION_UNPROTECTED exactly when the row is final and the verdict is not protected, otherwise FILLED for a full fill and PARTIALLY_FILLED else; the order is POSITION_UNPROTECTED exactly for an unprotected full fill; quantity, verdict, ids, trade price and trade quantity are those of row and verdict; and the invariant is kept |
| ManagerRules.AppliedShows | execution/order_manager.py:176-213 | what order and position show after a row, said by the row and the verdict alone |
| ManagerRules.LeavesWhen | execution/order_manager.py:185-191 | a row leaves a position exactly when it filled something and is a full fill, a partial fill or a cancel |
| OrderManagers.OrderManager.ReconcilePlan | execution/order_manager.py:430-467 | the order becomes exactly what the last answer says and the position what the logged verdict says; a row that the table refuses changes nothing and is in the log; a pending cancel is never forgotten; CANCELLED only when the exchange is done with it |
| OrderManagers.OrderManager.TakeEntryRow | execution/order_manager.py:448-467 | the protection of a row is asked for exactly when the row leaves a position, and order, position, trade and report follow row and verdict; a requested cancel is written back over a merely open state |
| OrderManagers.OrderManager.LookupTwice | execution/order_manager.py:435-446 | asks by client id, and by exchange id exactly when the first answer was empty and there is an id; an unanswered order without an id is asked about once |
| OrderManagers.OrderManager.ReconcileCancelRequest | execution/order_manager.py:768-809 | up to four reconciles, ending early exactly at a final state that leaves no unprotected position; the answer is the last one when it tells the end and CANCEL_REQUESTED otherwise; unanswered, the order stays as it was |
| OrderManagers.OrderManager.PursueCancel | execution/order_manager.py:768-790 | the turns of that loop, each result in order, and where it may end |
| OrderManagers.OrderManager.CancelPendingEntries | execution/order_manager.py:712-766 | every active entry is blocked, asked to cancel, asked about, reported or no longer pending, whichever its state calls for; a blocked one was never sent, and every reported state is stored |
| OrderManagers.OrderManager.CancelOnePending | execution/order_manager.py:714-766 | one turn of that loop: which request or question goes out for each state, and what is reported |
| OrderManagers.OrderManager.Block | execution/order_manager.py:723-733 | an entry that is still APPROVED was never sent; it becomes REJECTED and is reported as blocked |
| OrderManagers.OrderManager.CancelSubmitted | execution/order_manager.py:749-765 | one cancel request goes out; when it is taken and recorded the order is asked about until it ends, otherwise nothing changes and the old state is reported |
| OrderManagers.OrderManager.Cancel | execution/order_manager.py:1272-1287 | missing exactly without an order or an id, and then nothing is asked; otherwise exactly one cancel request goes out, an error exactly when it is not taken or the order can no longer be cancelled, and after that the order is followed up and never merely open again |
| OrderManagers.OrderManager.RecoverActiveOrders | execution/order_manager.py:469-472 | unless it raises, every active order was asked about and became what the answer says, every position that was open has a result, and each result is true; it raises only at a row that the table refuses or a covered position that cannot be closed |
| OrderManagers.OrderManager.RecoverOrders | execution/order_manager.py:469-472 | its first half: every active order in turn, ended early only by a refused row |
| OrderManagers.OrderManager.ReconcileManagedPositions | execution/order_manager.py:617-710 | every managed position gets a result, each result is what its own history pass says, and it ends early exactly at a covered position that cannot be closed |
| OrderManagers.OrderManager.ReconcileExit | execution/order_manager.py:619-698 | a plan without protective ids reads nothing; an incomplete history changes nothing; a complete one adds exactly its fills, closes a position they cover, marks one they sold part of, and None means the close was refused |
| OrderManagers.OrderManager.CloseNow | storage/trade_store.py:637-700 | closes a covered position, with exactly the rows the transaction writes, exactly when the trade row and the order state allow it, or changes nothing |
| OrderManagers.OrderManager.TakeExitRow | execution/order_manager.py:1048-1077 | the attempt shows the row, and the ledger gets a row of its quantity exactly when it filled something at a price |
| OrderManagers.OrderManager.RecordExitRow | execution/order_manager.py:1048-1085 | after a row the ledger holds the attempt's fill, the position is marked partially exited exactly when something but not all is sold, and "covered" holds exactly of an open position that the ledger covers |
| OrderManagers.OrderManager.ReconcileFlattenIntent | execution/order_manager.py:1004-1158 | retries an unfinished cleanup, leaves FILLED alone, asks about any other and answers what AskAttempt does; a close happens only when the ledger equals the quantity and every other attempt has stopped, and with allowClose no position is left open that should be closed, unless nothing was answered; stopped attempts stay as they were |
| OrderManagers.OrderManager.AskAttempt | execution/order_manager.py:1025-1158 | no answer changes nothing; a row is recorded; a row that makes the ledger cover the position leads, when closing is allowed, to the end CloseCovered gives, and otherwise to the report of its state |
| FlattenRules.AnswerSettles | execution/order_manager.py:1086-1141 | after an answered question with closing allowed, no open position is left whose ledger equals its quantity, whose other attempts have stopped, and which the close transaction would take |
| OrderManagers.OrderManager.CloseCovered | execution/order_manager.py:1098-1141 | of a covered position: FLATTEN_INCOMPLETE exactly while another attempt may still sell; a surplus marks the attempt and is refused; otherwise it closes and is cleaned up exactly when it has a trade row and its order is neither being cancelled nor REJECTED, and a refused close marks the attempt |
| OrderManagers.OrderManager.StopOthers | execution/order_manager.py:1098-1123 | true exactly when every other attempt has stopped, and each that had not is asked to stop or asked about; when all had stopped before, nothing is asked and nothing changes |
| OrderManagers.OrderManager.CancelFlattenAttempt | execution/order_manager.py:966-1002 | an attempt with an id is asked to stop once and one already asked is asked about; afterwards it is over or known to be asked; without an id, or when the request is not taken, nothing changes |
| OrderManagers.OrderManager.RequestStop | execution/order_manager.py:966-996 | one cancel of that attempt goes out, and it is recorded exactly when it was taken |
| OrderManagers.OrderManager.TargetedFlattenReconcile | execution/order_manager.py:951-964 | between one and four reconciles of one attempt that end early exactly at an answer that ends them; with closing allowed no position is left open that should be closed, unless nothing was answered |
| OrderManagers.OrderManager.CloseFlattenPosition | execution/order_manager.py:1160-1197 | without cover nothing changes and the answer is RECONCILIATION_REQUIRED for an empty ledger, else not covered; with cover and no attempt number it raises before it closes; with both it ends as CloseAndCleanUp does |
| OrderManagers.OrderManager.CloseAndCleanUp | execution/order_manager.py:1174-1197 | a covered position closes exactly when it has a trade row and its order is neither being cancelled nor REJECTED, and then every protective cancel is sent and recorded as it was answered; otherwise the attempt is marked and nothing else changes |
| OrderManagers.OrderManager.CleanupFlattenProtection | execution/order_manager.py:1199-1267 | only for a CLOSED position; every id not recorded CANCELLED is sent and none that is; afterwards an id is recorded exactly when it was before or the exchange has since accepted its cancel, and the attempt is FILLED exactly when all are and the protection has ids |
| OrderManagers.OrderManager.CancelProtections | execution/order_manager.py:1221-1248 | sends exactly the unrecorded ids; an id is recorded cancelled afterwards exactly when it was before or a cancel of it sent since was accepted |
| OrderManagers.OrderManager.FlattenManagedPositions | execution/order_manager.py:816-949 | unfinished cleanups are retried; when it runs to the end, every position it found open was reconciled and had its turn, and is closed or has an attempt; it stops early only when the agent died sending a due attempt or a covered position without any attempt raised |
| OrderManagers.OrderManager.FlattenActive | execution/order_manager.py:845-949 | the next step of an open position, in every case: the latest attempt is asked to stop exactly when it would oversell, waited for when it may still sell or is unreconciled, a covered position is closed, and otherwise a new attempt asks for exactly the remainder and is the one order sent |
| OrderManagers.OrderManager.CancelLatest | execution/order_manager.py:845-858 | the latest attempt is asked to stop, and only it changes |
| OrderManagers.OrderManager.OpenAttempt | execution/order_manager.py:881-885 | the next attempt is persisted before anything is sent under its client id |
| OrderManagers.OrderManager.SendAttempt | execution/order_manager.py:886-943 | exactly one exit is sent, under the attempt's own client id, or none without a client; the attempt becomes what the reply says, and one that may have gone through is followed up |
| OrderManagers.OrderManager.RecordExitReply | execution/order_manager.py:886-942 | the attempt after each reply, column by column: unchanged, unknown, failed, rejected with confirmation, or submitted with its id |
| FlattenRules.ReplyMeans | execution/order_manager.py:886-942 | which state, id and confirmation each reply leaves |
| OrderManagers.OrderManager.Send | execution/order_manager.py:86-88 | the one place an order leaves the agent; its client id was never sent before |
| OrderManagers.OrderManager.NewOrderFastLane | execution/order_manager.py:138-156 | up to four reconciles, ending early exactly at FILLED, CANCELLED or REJECTED; the result is the stored state, and unanswered the order stays as it was |
| OrderManagers.OrderManager.Submit | execution/order_manager.py:75-136 | the entry executor runs exactly when the approval transaction moved the plan, and then once, for the requested quantity; the order then is what the logged reply makes of it; at most this plan's slot and notional are taken |
| OrderManagers.OrderManager.RecordReply | execution/order_manager.py:89-136 | a refusal rejects the order; an accepted reply stores its order id; an uncertain one that nothing answers ends in SUBMISSION_UNKNOWN; both are asked about; a dead agent wrote nothing; and which result each gives |
| OrderManagers.OrderManager.MoveAndAsk | execution/order_manager.py:113-136 | the order is recorded as sent or unknown, with its id, before it is asked about, and stays so when nothing is answered |
| OrderManagers.OrderManager.WriteManagedFill | execution/order_manager.py:185-230 | the follow-up writes of a managed fill set order, position, plan and trade row, with price and quantity, to the row, and leave attempts and exit fills alone |
| OrderManagers.OrderManager.Move | storage/trade_store.py:200-238 | a transition without a row happens exactly when the table allows it, and sets just state and exchange id |
| OrderManagers.OrderManager.CancelAtExchange | execution/order_manager.py:749-753 | one cancel request goes out, whether it was taken is logged, and nothing local changes |
| OrderManagers.OrderManager.MarkPartial | storage/trade_store.py:288-313 | the partial-exit mark, and the invariant is kept |
| OrderManagers.OrderManager.PatchAttempt | storage/trade_store.py:357-385 | one attempt row is replaced, never claiming an end the exchange has not confirmed |
| OrderManagers.OrderManager.RetryCleanups | execution/order_manager.py:819-823 | every unfinished cleanup of a CLOSED position is retried: each protective id was recorded CANCELLED or its cancel is sent; nothing but attempts changes and no order is asked about |
| OrderManagers.OrderManager.RetryCleanupsOf | execution/order_manager.py:819-823 | the same for one plan |
| OrderManagers.OrderManager.ReconcileAttempts | execution/order_manager.py:825-830 | afterwards every attempt of the position is FILLED or in cleanup, or the exchange was asked about it, and the position does not stay open when it should be closed, unless nothing was answered; no order is sent |
| OrderManagers.OrderManager.FlattenOne | execution/order_manager.py:824-949 | one position is reconciled, and if it is still open then has its turn; an exception or a death stops it only there |
| OrderManagers.OrderManager.Reattempt | execution/order_manager.py:877-943 | the next attempt asks for exactly the remainder and is the one order sent |
| OrderManagers.OrderManager.ApproveNow | storage/trade_store.py:171-198 | the approval transaction, and the invariant is kept |
| ManagerRules.AdvancesFreesSlots | storage/trade_store.py:431-449 | steps that only advance never take a slot |
| ManagerRules.SlotsGrowByOne | storage/trade_store.py:431-449 | a step on one plan takes at most that plan's slot |
| FlattenRules.CleanupIsDone | execution/order_manager.py:1248-1260 | the attempt after a cleanup: no cancelled record is lost and FILLED means all are cancelled |
| PlanSteps.PlanStep | storage/trade_store.py:59-69 | saving or rejecting a plan keeps the invariant and takes nothing |
| AgentRuns.RunCommand | trading_agent/orchestrator.py:236-390 | any one operation keeps the invariant and the slot limit, and does its part: a plan saved or rejected as the store does it, an entry sent exactly for an open, agreed, authorized plan with terms, never-sent entries blocked, nothing sent by anything else but a flatten |
| AgentRuns.AnySchedule | trading_agent/orchestrator.py:236-390 | after any schedule of approvals, rejections, cancels, reconciles, recoveries and flattens, with the process dying at any submission: invariant, slot limit, no oversell; the whole schedule is a run of the protocol, every world of it is safe, and the run shows each command doing its part in turn |
| AgentRuns.RunAll | trading_agent/orchestrator.py:236-390 | the same for any schedule on an agent at its start, with the marks between which each command ran |
| AgentRuns.RetryCleanup | execution/order_manager.py:816-823 | over any number of cleanup retries an id recorded CANCELLED is never sent again |
| EntryRace.EveryRace | execution/order_manager.py:75-112 | every interleaving of submit, reject, expiry, block, cancel, reconcile and restart keeps the race invariant |
| EntryRace.AtMostOnce | execution/order_manager.py:75-88 | the executor runs at most once per plan, and never after a reject or a timely block won |
| EntryRace.GoesThrough | execution/order_manager.py:75-88 | when each call of a submission goes through, and that the executor runs exactly in a thread that got through all of them |
| EntryRace.DecidedForGood | storage/trade_store.py:135-147 | no continuation of the run executes a plan whose rejection or timely block won |
| EntryRace.BlockDecidesIff | execution/order_manager.py:723-732 | a local block that goes through stops the executor exactly when the order is still APPROVED at its write, or an earlier block was in time |
| EntryRace.LateBlockDoesNotStop | execution/order_manager.py:723-732 | a concrete run in which the block reports success and the order is executed all the same |
| ExitHistory.AfterFinds | execution/order_manager.py:494-522 | a cursor leads to the row behind the one it came from |
| ExitHistory.PageGoesOn | execution/order_manager.py:494-522 | a page asked for with the last cursor goes on where reading stopped |
| ExitHistory.ReachesIffShort | execution/order_manager.py:494-522 | with a cursor on every row, exactly the histories shorter than all pages are read to the end |
| ExitHistory.PageDecides | execution/order_manager.py:494-522 | a short page is the end, a full page without a cursor is not, any other goes on with a fresh cursor |
| ExitHistory.FillPages | execution/order_manager.py:486-522 | the paging loop is complete exactly when its pages reach the end, and then every row is there under its key |
| ExitHistory.LoadExitFills | execution/order_manager.py:524-578 | only sells of the protective orders are returned; the load is complete exactly when the history is young enough to be read and its pages reach the end, and then it has every matching fill of the window |
| ExitHistory.WindowMeans | execution/order_manager.py:536-544 | a pass reads back at most ninety days, needs the archive beyond three, and which pages it asks for |
| ExitHistory.ExitLedger.Pass | execution/order_manager.py:632-660 | however a pass ends the next may resume; one that wrote leaves exactly the matching fills, each once |
| ExitHistory.LedgerComplete | storage/trade_store.py:565-588 | merging what a pass found into the ledger leaves exactly the matching fills and a resumable cursor |
| ExitHistory.VisibilityKeepsResumable | storage/trade_store.py:520-538 | fills that become visible in order never fall behind the cursor |
| ExitHistory.ExactlyIsOne | storage/trade_store.py:565-588 | two ledgers with exactly the matching fills are equal, so resumed passes leave what one full scan leaves |
| ExitHistory.WindowMissesOnlyEarlierFills | execution/order_manager.py:634-642 | the ledger holds every matching fill exactly when none is older than the time the position was recorded |
| ExitHistory.FillIsMissed | execution/order_manager.py:634-642 | a complete pass with a window misses a fill that is older than the position's record |
| ExitHistory.AnyPasses | execution/order_manager.py:617-661 | after any passes, incomplete or dying before the cursor write, a last pass that wrote leaves what one full scan would; with windows it holds every matching fill exactly when none is older than the position's record |
| SessionControl.AgentState.SetMode | trading_agent/state.py:25-28 | refused only for AUTO while auto is off |
| SessionControl.AgentState.Arm | trading_agent/state.py:46-49 | refused only while the kill switch is on |
| SessionControl.AgentState.ActivateKillSwitch | trading_agent/state.py:54-57 | kills and disarms |
| SessionControl.AgentState.ResetKillSwitch | trading_agent/state.py:59-61 | clears the kill switch but does not arm |
| SessionControl.AgentState.EntriesMean | trading_agent/state.py:30-36 | new entries are allowed exactly when armed, not killed, and in MANUAL or AUTO_DEMO mode |
| SessionControl.ModeMeans | trading_agent/service.py:225-242 | the core mode of a control row: stopped exactly when the agent or the mode is, otherwise that of the row |
| SessionControl.TradingService.constructor | storage/control_store.py:30-54 | startup keeps only the kill switch of what was persisted, and allows no entry |
| SessionControl.TradingService.SyncCoreState | trading_agent/service.py:225-242 | raises exactly on AUTO without auto, or on armed with the kill switch |
| SessionControl.TradingService.Transition | trading_agent/service.py:264-283 | a row that respects the two rules is taken as it is; otherwise the safe row is; either way row and core agree |
| SessionControl.TradingService.Start | trading_agent/session_controller.py:24-41 | RUNNING exactly when the preflight found nothing, with its findings kept as the last preflight |
| SessionControl.TradingService.Pause | trading_agent/session_controller.py:43-55 | the transition of a pause: leaves AUTO disarmed and disabled |
| SessionControl.TradingService.Stop | trading_agent/session_controller.py:59-72 | the transition of a stop: stops the agent, disarmed and disabled |
| SessionControl.TradingService.BeginFlatten | trading_agent/session_controller.py:76-91 | blocks entries before anything is sold |
| SessionControl.TradingService.Degrade | trading_agent/session_controller.py:172-184 | only a running session degrades, and it fails closed |
| SessionControl.TradingService.SetMode | trading_agent/service.py:490-507 | refused exactly for AUTO without auto or without a fresh stream |
| SessionControl.TradingService.StartAgent | trading_agent/service.py:509-516 | refused exactly under the kill switch or in STOPPED mode |
| SessionControl.TradingService.StopAgent | trading_agent/service.py:518-526 | stops session and agent, disarmed |
| SessionControl.TradingService.Arm | trading_agent/service.py:552-571 | armed exactly when every precondition holds, and then entries are allowed |
| SessionControl.TradingService.EnableAutoDemo | trading_agent/service.py:577-586 | needs the confirmation, a fresh stream and no kill switch |
| SessionControl.TradingService.DisableAutoDemo | trading_agent/service.py:588-596 | also leaves AUTO and disarms |
| SessionControl.TradingService.ActivateKillSwitch | trading_agent/service.py:598-611 | row and core agree although the sync step is bypassed |
| SessionControl.TradingService.ResetKillSwitch | trading_agent/service.py:613-624 | only on confirmation, and back to a stopped, disarmed agent |
| SessionControl.TradingService.FinalEntryGuard | trading_agent/service.py:244-262 | passes exactly under a connected, running, armed, session-running control row in an executable mode, and then the last session write was a clean START |
| SessionControl.TradingService.RefreshHealth | trading_agent/service.py:528-550 | changes the connection column only |
| SessionControl.TradingService.Leave | trading_agent/session_controller.py:43-91 | every way out of a session disarms and disables auto |
| SessionControl.TradingService.ConfirmFlat | trading_agent/session_controller.py:126-135 | FLAT stops session and agent and allows no entry |
| SessionControl.TradingService.Disarm | trading_agent/service.py:573-575 | disarms and changes nothing else |
| SessionControl.Act | trading_agent/service.py:357-383 | every action keeps row and core coupled; only a clean START makes a session RUNNING, only a reset clears the kill switch |
| SessionControl.AnyActions | trading_agent/service.py:490-624 | after any actions in any order: coupled, and a kill switch that was never reset is still on and blocks entries |
| SessionFlatten.FinishFlatten | trading_agent/session_controller.py:100-170 | FLAT exactly when nothing is managed or active, every cancel is settled and no attempt is unresolved; the tables are then flat and the agent stopped; FLAT is true of the exchange exactly when it is at rest and the order rows are up to date, and sure from the run so far exactly when everything sent was confirmed and nothing rejected after a fill |
| SessionFlatten.NothingListed | trading_agent/session_controller.py:100-120 | the three lists are empty exactly when the tables look flat |
| SessionFlatten.FlattenSession | trading_agent/session_controller.py:76-91 | whatever happens, entries stay blocked and nothing is taken back; it aborts only when the recovery was refused, the agent died or a covered position raised; otherwise every active order was asked about, every entry still active was pursued and every position still open had its turn, and FLAT is reported exactly when the tables look flat and every cancel is settled; FLAT is then true of the exchange exactly when it is at rest and the order rows are up to date |
| SessionFlatten.RecoverAndContinue | trading_agent/session_controller.py:88-91 | the same of what follows the first write: it asks for a session that is FLATTENING, so recovery, cancels and exits come after the block |
| SessionFlatten.ContinueFlatten | trading_agent/session_controller.py:93-98 | nothing happens exactly when the session is not FLATTENING; otherwise the repeated part of a flatten, with the same guarantee, which keeps FLATTENING until the tables are flat |
| SessionFlatten.PauseSession | trading_agent/session_controller.py:43-57 | a session not yet paused is left disarmed, and only then are its entries cancelled: nothing is sent, each active entry is pursued, and each report is true |
| SessionFlatten.StopSession | trading_agent/session_controller.py:59-74 | the same for a stop, which cancels pending entries even when already STOPPED |
| SessionFlatten.CancelAfterLeaving | trading_agent/session_controller.py:56-57 | the pending entries are pursued only in a session that was paused or stopped before |
| Pricing.QuantizedUp | risk/price_quantization.py:6-12 | rounding up gives the first tick at or above the price, less than a tick away |
| Pricing.QuantizedDown | risk/price_quantization.py:6-12 | rounding down gives the last tick at or below the price, less than a tick away |
| Pricing.QuantizedIsCautious | risk/price_quantization.py:15-24 | quantized prices are ordered, on the grid, and off the asked ones by less than a tick to the cautious side |
| Pricing.QuantizedIff | risk/price_quantization.py:15-24 | prices are quantized exactly when tick and prices are positive and cautious ones exist, and to exactly those |
| Pricing.BudgetIsRaw | risk/position_sizing.py:70-75 | a quantity is within the risk, position and funds budgets exactly when it is at most the raw quantity |
| Pricing.SizeIsLargest | risk/position_sizing.py:58-83 | an approved size is at least the minimum and exactly the largest number of lots within every budget, unless the quantity is negative, which needs an instrument without a minimum size: then it is rounded over a budget |
| Pricing.SizedIff | risk/position_sizing.py:58-83 | with a positive minimum size, a size is approved exactly when some whole number of lots meets the minimum and every budget |
| Pricing.SizeRefuses | risk/position_sizing.py:58-83 | which refusal each input gets, and when a size counts as capped |
| Pricing.CapOnlyLowers | risk/position_sizing.py:35-55 | a capped size is exactly the largest number of lots within the size and the cap, and at least the minimum |
| Pricing.CappedIff | risk/position_sizing.py:35-55 | a capped size is approved exactly when some whole number of lots meets the minimum, the size and the cap |
| Pricing.CapRefuses | risk/position_sizing.py:26-55 | a cap keeps a refusal, raises exactly without size rules, and marks what it leaves as capped |
| Pricing.WalletExposure | risk/exposure.py:25-45 | the loop returns the value of the priced holdings, and exactly the unpriced and the dust currencies |
| Pricing.ValueMeans | risk/exposure.py:31-44 | which balances count, which need a price, and at what value |
| Pricing.PassMeans | risk/risk_manager.py:22-77 | a signal passes the veto exactly when no guard objects |
| Pricing.ExecutableIsSafe | risk/execution_revalidation.py:27-100 | an executable plan has cautious prices, the minimum reward, free slot, exposure within the limit, and exactly the largest lot count within every budget |
| Orchestration.ExposureBound | risk/exposure.py:48-72 | an exposure share within the limit bounds wallet plus reserved plus proposed by the limit times equity |
| Orchestration.ExposureIff | risk/exposure.py:48-72 | the exposure check of an order passes exactly when every holding has a price and wallet, reserved and proposed notional together are within the limit |
| Orchestration.SamePlan | trading_agent/orchestrator.py:264-300 | neither the clock nor the exposure changes an executable plan |
| Orchestration.ExecutableTerms | risk/execution_revalidation.py:27-100 | an executable plan's lots are exactly those every budget allows |
| Orchestration.ExecutableIff | risk/execution_revalidation.py:27-100 | a plan is executable at given prices and lots exactly when every guard passes, the exposure is within its limit, the prices are the cautious ones with the minimum reward, and the lots the largest within every budget, at least the minimum |
| Orchestration.CappedLots | trading_agent/orchestrator.py:301-324 | with a cap, the lots are exactly those every budget and the cap allow |
| Orchestration.CapIs | trading_agent/orchestrator.py:301-324 | a cap gives exactly the largest lots that it and the budgets allow, if they meet the minimum |
| Orchestration.AgreeTerms | trading_agent/orchestrator.py:262-329 | terms are agreed exactly when there are terms to agree to: cautious prices, minimum reward, the largest allowed lots, a free slot, total exposure within the limit, bounded deviation and slippage; a moved price is reported exactly when the deviation of the fresh price is over the limit, and for a plan without a price when the limit is under 100 percent |
| Orchestration.SettleTerms | trading_agent/orchestrator.py:287-329 | the checks at the planned price: agreed exactly when there are such terms |
| Orchestration.CapTerms | trading_agent/orchestrator.py:301-324 | the cap and the second veto: the largest capped lots, or a refusal when they are under the minimum or the guards object |
| Orchestration.PriceMovedWithoutAPrice | trading_agent/orchestrator.py:273-286 | a signal without a stop and an ask equal to the planned entry is reported as a price that moved too far |
| Orchestration.ApprovePlan | trading_agent/orchestrator.py:236-371 | an order is placed exactly for a pending, unexpired plan that has terms, agreed to and authorized, and then it is exactly those lots and slots and wallet plus reserved notional are within their limits; each other outcome exactly under its own condition, which sends nothing and changes at most the plan's status |
| Orchestration.Place | trading_agent/orchestrator.py:364-371 | the submission under agreed terms: exactly this entry is sent, for the agreed lots at the agreed notional, and the order becomes what the reply says |
| Candles.SortOrders | data/realtime/candle_buffer.py:37-38 | sorting puts the same candles in the order of time |
| Candles.DistinctCount | data/realtime/candle_buffer.py:41-43 | as many timestamps as candles exactly when no timestamp repeats |
| Candles.NoGapSteps | data/realtime/candle_buffer.py:49-54 | no gap is counted exactly when neighbours are one interval apart |
| CandleBuffers.CandleBuffer.Bootstrap | data/realtime/candle_buffer.py:37-58 | a refused history leaves the buffer as it was, an accepted one replaces it |
| CandleBuffers.CandleBuffer.Apply | data/realtime/candle_buffer.py:60-96 | merges one update, with the loop that evicts the oldest bars |
| CandleBuffers.CandleBuffer.LastConfirmed | data/realtime/candle_buffer.py:101-104 | the newest confirmed bar, or none |
| CandleBuffers.CandleBuffer.EvictOldest | data/realtime/candle_buffer.py:91-92 | the eviction loop drops the oldest bars down to the capacity |
| CandleBuffers.CandleBuffer.Emit | data/realtime/candle_buffer.py:93-95 | a bar is announced the first time it is seen confirmed |
| CandleBuffers.ValidMeans | data/realtime/candle_buffer.py:60-69 | a bar is valid exactly when it starts on the grid with positive, ordered prices and a volume that is not negative |
| CandleBuffers.EvictOne | data/realtime/candle_buffer.py:90-92 | after one new bar at most the oldest is evicted |
| CandleBuffers.AppendKeeps | data/realtime/candle_buffer.py:83-96 | a new newest bar keeps everything a buffer always is |
| CandleBuffers.ApplyKeeps | data/realtime/candle_buffer.py:60-96 | any update keeps it, settles confirmed and evicted bars, and announces only a bar not announced before |
| CandleBuffers.GapIsReported | data/realtime/candle_buffer.py:85-89 | a buffer that stops being complete reports a positive gap |
| CandleBuffers.ReplayKeeps | data/realtime/candle_buffer.py:60-96 | over any updates since a bootstrap: every grid point from the first bar on was accepted or counted missing, confirmed bars never change, evicted bars never return, each bar is announced at most once |
| CandleBuffers.CompleteIsGrid | data/realtime/candle_buffer.py:98-99 | a complete buffer is exactly the grid points between its oldest and newest bar, between minimum and capacity of them |
| CandleBuffers.BootstrapTakes | data/realtime/candle_buffer.py:37-54 | a bootstrap accepts exactly distinct, gap-free histories on the grid with enough confirmed bars, in any order |
| CandleBuffers.NoGapMeansFull | data/realtime/candle_buffer.py:49-54 | the gap count is zero exactly when no grid point between two bars is missing |
| CandleBuffers.BootstrapKeeps | data/realtime/candle_buffer.py:55-58 | after a bootstrap the buffer is complete and holds the newest bars |
| MarketFeeds.SymbolFeed.PromoteIfReady | data/realtime/market_state.py:292-302 | CONNECTED as soon as connections, instrument, quotes and buffers are there, without asking for a book or fresh bars |
| MarketFeeds.SymbolFeed.ApplyTicker | data/realtime/market_state.py:167-197 | invalid raises, older and repeated are dropped, any other is taken |
| MarketFeeds.SymbolFeed.ApplyBook | data/realtime/market_state.py:199-243 | a sequence that falls by the threshold forgets the book, drops the public connection and raises |
| MarketFeeds.SymbolFeed.ApplyCandles | data/realtime/market_state.py:245-290 | the rows of a message up to the first unreadable one, and the bars they announce |
| MarketFeeds.SymbolFeed.BootstrapSymbol | data/realtime/market_state.py:45-70 | the buffers in turn; only a complete bootstrap forgets the book and waits |
| MarketFeeds.SymbolFeed.Watchdog | data/realtime/market_state.py:304-334 | anything invalid makes the feed STALE, except that DISCONNECTED stays |
| MarketFeeds.SymbolFeed.AssertEntryReady | data/realtime/market_state.py:358-364 | with nothing in between, the gate passes exactly when the watchdog left the feed CONNECTED, and then with a book and fresh bars |
| MarketFeeds.SymbolFeed.Mark | data/realtime/market_state.py:72-131 | the connection marks and the reconnect seed |
| MarketFeeds.SymbolFeed.BootstrapTimeframe | data/realtime/market_state.py:53-61 | one buffer is refused, or taken and checked for bars from the future |
| MarketFeeds.SymbolFeed.CheckFresh | data/realtime/market_state.py:321-326 | a timeframe is fresh while its last confirmed bar closed at most one interval and the tolerance ago |
| MarketFeeds.QuotesMean | data/realtime/market_state.py:292-302 | quotes are good exactly with a positive price and a positive bid at most the ask |
| MarketFeeds.DatesMean | data/realtime/market_state.py:167-271 | which quotes and rows are refused: unordered, not positive, undated, or more than five seconds ahead |
| MarketFeeds.HandledKeeps | data/realtime/market_state.py:292-302 | every event keeps it: CONNECTED implies both endpoints up, instrument known, positive prices with bid at most ask, all buffers complete |
| MarketFeeds.RowsKeep | data/realtime/market_state.py:251-286 | the rows of a message report a buffer that stops being complete |
| MarketFeeds.BookIsCurrent | data/realtime/market_state.py:199-243 | over any run, a book timestamp is never left over from before a bootstrap or a regression |
| MarketFeeds.GateMeans | data/realtime/market_state.py:358-364 | over any run, a gate that passes undisturbed means a ready feed, fresh timeframes and a book since the last bootstrap or regression |
| MarketFeeds.TickerReopensGate | data/realtime/market_state.py:358-364 | with a newer ticker between watchdog and check, the gate passes exactly when connections, instrument and buffers are there, with or without book and freshness |
| MarketFeeds.ConnectedIff | data/realtime/market_state.py:285-303 | after any event the feed is CONNECTED exactly when the event promoted it and it is ready, or it was CONNECTED and the event did not take that away |
| MarketFeeds.DisturbedGateIff | data/realtime/market_state.py:358-364 | with any event between watchdog and check, the gate passes exactly when the event promotes a ready feed, or the watchdog left it CONNECTED and the event did not take that away |
| MarketFeeds.GatePassesWithoutBook | data/realtime/market_state.py:122-132 | a reachable feed that never had a book passes the gate after a connection mark between watchdog and check |
| MarketFeeds.RaisedStays | data/realtime/market_state.py:252-271 | once a row was bad the rest of the message is not read |
| EventIntakes.RememberKeeps | trading_agent/service.py:402-412 | remembering a new key keeps set and deque equal |
| EventIntakes.TakeBackKeepsIff | trading_agent/service.py:415-419 | taking a key back keeps them equal exactly when no other key was remembered in between |
| EventIntakes.IntakeKeeps | trading_agent/service.py:402-428 | over any arrivals one after the other, with any overflows: set and deque agree, and a key is admitted again only after at least 255 other admitted keys |
| EventIntakes.UndisturbedKeeps | trading_agent/service.py:406-419 | with the two critical sections interleaved, the same holds while no new key is remembered before a waiting one is taken back |
| EventIntakes.DisturbedBreaksBound | trading_agent/service.py:415-419 | a concrete interleaving after which the same key is admitted again after one other key |
| EventIntakes.EventIntake.OnConfirmedCandle | trading_agent/service.py:402-428 | which answer each event gets, and the memory afterwards key by key: unchanged, with the new key, or without its oldest when a full memory made room for a key that was then dropped |
| EventIntakes.EventIntake.Take | trading_agent/service.py:430-439 | what was taken and what waits is exactly what was admitted, in order |
| EventIntakes.EventIntake.Admit | trading_agent/service.py:406-412 | the first critical section: a full memory forgets its oldest key and remembers the new one |
| EventIntakes.EventIntake.Rollback | trading_agent/service.py:415-419 | the second critical section takes the key back |
| EventIntakes.EventIntake.DropNew | trading_agent/service.py:402-428 | an event that finds the queue full leaves the memory without its key, and without the oldest if it was full |
| EventIntakes.EventIntake.PutNew | trading_agent/service.py:402-428 | a new key with room is queued and remembered, and only the oldest of a full memory is forgotten |
| Backtests.FindExit | backtest/backtester.py:151-163 | the inner loop finds the first bar that touches the stop or the target |
| Backtests.Simulate | backtest/backtester.py:60-184 | the outer loop computes the simulation, whose every trade has the books TradeBooks pins |
| Backtests.TradeShape | backtest/backtester.py:146-178 | a trade exits at the first touch, at the stop when a bar touches both, and at the last bar otherwise |
| Backtests.TradeBooks | backtest/backtester.py:146-178 | the books of every trade, each number by itself: exit price, fees on both sides, pnl as what the sale leaves less what the purchase cost, slippage cost, times and size |
| Backtests.CostsOnlyCost | backtest/backtester.py:164-171 | with costs that are shares, a trade earns at most (touched - reference) * size, and neither fees nor slippage cost are negative |
| Backtests.TurnEarnsNoMore | backtest/backtester.py:116-171 | the same of every trade the simulator decides, from the reference at the next open |
| Backtests.EntersWhen | backtest/backtester.py:110-145 | an entry, a skip or an error exactly when the signal passes at the close and the plan at the next open is executable, refused or raises |
| Backtests.MarketsMean | backtest/backtester.py:92-128 | both simulated markets keep half the spread on either side, and an entry pays half the spread and the slippage on top of the open |
| Backtests.StepKeeps | backtest/backtester.py:80-183 | one turn keeps the books and the order of trades |
| Backtests.RunKeeps | backtest/backtester.py:80-184 | over the whole simulation equity is initial equity plus all results, and no two trades overlap |
| Backtests.SimulationAccounts | backtest/backtester.py:77-184 | final equity is initial equity plus the sum of pnl, trades never overlap, and only the last can be a time exit |
| Backtests.SimulationEnds | backtest/backtester.py:80-184 | a simulation goes on to the last bar but one, unless a decision on its way raises, and then it ends there |
| Backtests.DecideAgrees | backtest/backtester.py:86-145 | the same decision on the same closed bars, whatever comes later |
| Backtests.DecidesOnClosed | backtest/backtester.py:86-91 | a decision sees its own bars up to the close, exactly the higher bars that ended by then, and the next open |
| Backtests.ClosedMeans | backtest/backtester.py:88-89 | the visible higher bars are exactly those that ended by the close |
| Backtests.ClosedIsFirst | backtest/backtester.py:88-89 | of bars in the order of time they are the first, in that order |
| Backtests.TouchAgrees | backtest/backtester.py:151-163 | a touch before a bar is found in both histories or in neither |
| Backtests.RunAgrees | backtest/backtester.py:80-184 | from the same state on agreed bars both simulations make the same early trades |
| Backtests.Causal | backtest/backtester.py:77-184 | histories that agree up to a bar, and on higher bars closed by then, give the same stop and target trades exiting by its close |
| Backtests.EarlyIsEveryEarly | backtest/backtester.py:172-183 | the leading early trades are all the early trades there are |
| Backtests.FirstTouch | backtest/backtester.py:151-163 | no bar before the result touches stop or target, and the result does |
| Backtests.FirstFrom | backtest/backtester.py:78-79 | the first bar of the evaluation period |
| Backtests.StartMeans | backtest/backtester.py:77-79 | the simulation starts after fifty bars, and at the first bar of the period if that is later |
| Backtests.Turn | backtest/backtester.py:80-183 | one turn of the outer loop is one step: the day's books, the decision, the trade and what it does to equity, result, streak and last trade |
| Backtests.MakeTrade | backtest/backtester.py:146-178 | the trade at the first touch, with books that balance: fees and slippage are taken from the result, never added |
| BacktestDays.RolloverKeeps | backtest/backtester.py:82-85 | before a decision the day's result and losing streak are those of the day the bar closes on |
| BacktestDays.StepKeepsDay | backtest/backtester.py:82-183 | one turn keeps them: they count exactly the trades decided on that day |
| BacktestDays.RunKeepsDay | backtest/backtester.py:80-184 | over the whole simulation the day's result is the sum, and the streak the trailing losses, of the trades decided that day |
| BacktestDays.SimulationKeepsDay | backtest/backtester.py:77-184 | the same from the start of any simulation |
| Performance.HigherPeakFallsDeeper | backtest/performance.py:28-31 | a fall from a higher peak to the same positive end is a larger share |
| Performance.MaximumDrawdown | backtest/performance.py:22-33 | the drawdowns are the falls from the highest point so far, and the result the greatest of them; with positive equity it is the deepest fall between any two points |
| Performance.BelowZeroPeakIsNotDeepest | backtest/performance.py:28-31 | a curve that ends below zero, on which the fall from a lower point is the larger share |
| Performance.MaxStreak | backtest/performance.py:10-15 | the loop returns the length of the longest run of trues |
| HistoricalData.ValidateHistory | data/historical.py:40-62 | valid exactly for a non-empty series of confirmed, well-formed bars one step apart; each counter is zero exactly when its fault is absent |
| HistoricalData.HistoricalDataService.CollectPages | data/historical.py:102-136 | the paging loop ends, because the oldest timestamp falls, and keeps only bars it was given |
| HistoricalData.HistoricalDataService.Fetch | data/historical.py:91-166 | a returned series is flawless, known, and has exactly the target number of bars if and only if that number is at least one; a flawless cache is answered without the backend |
| HistoricalData.HistoricalDataService.FetchFresh | data/historical.py:102-166 | the same with one repair of up to twenty gaps |
| HistoricalData.EverythingForNothing | data/historical.py:92-101 | seven days of an eight day step are no bars, and the whole cache of two is returned |
| HistoricalData.HistoricalDataService.GetPage | data/historical.py:107-119 | at most five requests, repeated only while the backend says to wait |
| HistoricalData.HistoricalDataService.Save | data/historical.py:83-89 | the cache then holds only collected candles |
| HistoricalData.HistoricalDataService.Repair | data/historical.py:147-158 | asking around each gap loses nothing and takes only delivered bars |
| HistoricalData.GapsMean | data/historical.py:144-146 | the gaps a repair asks around are exactly the bars that do not follow the one before by one step |
| HistoricalData.SortedValues | data/historical.py:137 | the collected candles in the order of time, each once |
| HistoricalData.Collect | data/historical.py:123-125 | confirmed bars of a page replace what was collected under their timestamp, and nothing is lost |
| HistoricalData.ServedFromCache | data/historical.py:95-101 | a flawless cache is already sorted and its end is flawless |
| HistoricalData.LastBars | data/historical.py:140 | the last bars of a series, and all of them for a count of zero |

## Left out

- SQLite, JSON, schema migration, redaction, logging, metrics, the web interface, the command line and the frontend: the store is maps with atomic steps.
- Clocks, sleeping and identifiers: times are parameters, client ids are injective by construction.
- Floating-point rounding: lots are integers, so the tolerances of 1e-12 are exact comparisons, and prices are reals.
- `_protection_state`: its verdict and the protective ids it finds are inputs to the protocol.
- Fees, slippage columns, signal calibration and the profit of real trades: they do not steer the protocol.
- Liveness of flatten and recovery: the code blocks on uncertain states on purpose, so none is claimed.
- Death of the process anywhere but at a submission, between ledger and cursor, between attempt and ledger row, and between order and position row: the remaining writes of one operation are taken as one step.
- The `order_submissions` table: its plans are among those of the order table.
- The approval text, `risk_approved` and `approval_preview_change` (trading_agent/orchestrator.py:45-71): two Boolean inputs of a request.
- The day's results in `daily_state`: inputs, except for the number of slots, which is read from the store.
- Several symbols: a market feed is one symbol, and a connection mark applies to each in turn.
- `analyze`, `scan`, dashboards and the strategies themselves: the simulator's strategy is any function of what it sees.
- Walk-forward windows, regimes and the remaining performance figures: easy members.
- Message parsing in the feed: a candle row is readable or not, other malformed messages change nothing.
- SessionControl.TradingService.Pause: the transition alone; SessionFlatten.PauseSession and StopSession add the cancelling of pending entries.
- ExitHistory.LoadExitFills: a backend that raises is not modelled; such a pass is refused and changes nothing. Fill keys and page cursors are taken to be distinct, and recent and archived fills to be one history.
- OrderManagers.OrderManager.ReconcileExit: takes the fills of one history pass as given; ExitHistory proves what such a pass reads.
- OrderManagers.OrderManager.ReconcileManagedPositions: the same for each position in turn, without the cursor row; ExitHistory.ExitLedger keeps it.
- Exchanges.Exchange.Lookup: a row of an earlier moment cannot come back, because every guarantee here rests on filled quantities that do not fall; the code takes a lagging row that lowers filled_size as it is.
- Orchestration.ApprovePlan: needs an instrument with a positive minimum size, which the instrument cache enforces (data/realtime/instrument_cache.py:58-60).
- Orchestration.AgreeTerms: the same, and so do ExecutableTerms and Place.
- Pricing.ExecutableIsSafe: the same; Pricing.SizeIsLargest says what happens without one.
- ExitHistory.FillPages: needs distinct fill keys and page cursors; the code keeps the first row of a repeated key and stops at a repeated cursor.
- HistoricalData.HistoricalDataService.CollectPages: needs a backend whose timestamps are not negative, or its oldest timestamp could fall for ever.
- HistoricalData.Backend.GetCandles: drops waiting times and page contents; any page of bars since the epoch may come back.
