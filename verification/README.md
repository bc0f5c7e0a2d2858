# A Dafny model of the trading adapter

The adapter stands between a durable decision engine and a broker (IBKR) whose lists forget things. This
project models its hardest parts and proves what they promise over every run: orders handed over at most once
per permission, streams delivered exactly once, untagged broker answers matched to their questions, derived
books and ledgers that agree with their definitions, and the framed protocol that carries it all.

`dafny verify dfyconfig.toml` checks the whole project.

## How it is modelled

- **Hand-over and its settlements** (`Handover*.dfy`, `EndedRun*.dfy`). A `World` is everything a stop can
  leave: the adapter's files, the engine's committed inputs, and a history no program reads (sends, last
  results, queued IDs). An operation (one drain of the outbox with its pass over the released orders, or an
  owner's command) is the list of atomic acts it performs; a stop leaves any prefix. IBKR's view, the sender's
  result and the engine's reply are parameters of each operation, so a run is any sequence of operations, each
  cut anywhere. `HandoverTorn.dfy` and `HandoverQueued.dfy` hold the two places where the code falls short,
  each with its exact condition. `HandoverPass.dfy`, `HandoverOwner.dfy`, `EndedRunSettled.dfy` and
  `EndedRunEnded.dfy` say of each operation, in files, lists and history alone, when it is accepted or goes on and
  exactly what it leaves. `HandoverProgram.Adapter` is the same program as methods over the files: each performs
  exactly those acts, and `Safe` says that the invariant held at every one of them since the first start.
- **Stream delivery** (`Delivery*.dfy`) is modelled the same way: record, outbox, waiting input, settlements,
  the engine's committed inputs for each run, and steps cut at any write. `DeliveryResults.dfy` and
  `DeliveryTurns.dfy` say which files a delivery takes up and what each turn of the drain leaves.
  `DeliveryProgram.Adapter` is its imperative form, with the same `Safe`.
- **Open orders** (`OpenOrders.dfy`, `OpenOrdersLink.dfy`) and **order callbacks** (`OrderTracker.dfy`,
  `OrderReports.dfy`) are classes over the counters, queues and maps the source updates; what the link or the sink does is a
  parameter of each call. Rows, ends and statuses carry a history tag the adapter never reads.
- **Books and ledgers**: `BookBasis.dfy`, `BookBasisWalk.dfy` (two bases found back through the chain of runs, with
  a kept file) and `BookBasisChain.dfy` (what they are, from the runs' groups); `FlexEquity.dfy`, `FlexTaken.dfy` and
  `FlexReadings.dfy` (equity before a transfer, the snapshot it is taken from, the out-of-order note, the cash
  ledger); `FlexCosts.dfy` and `FlexCostsStated.dfy` (the costs ledger and its restatements); and `FlexCoverage.dfy`
  (the days each ledger covers).
- **Protocol and small cores**: `Frames.dfy`, `Pairing.dfy`, `Pacing.dfy`, `Maintenance.dfy`, and `Replay.dfy`,
  `ReplayTheorems.dfy`, `ReplayProgram.dfy` (comparing a replayed month).

What is taken for granted: each file replace or append is one atomic durable step under its lock; one client
order ID is released by one input and an input's reply is fixed; a reply to a retirement releases nothing
(internal/targetweight/handler.go:601-602); producers' input IDs and new snapshot IDs are new; the session date
does not change within one pass; a fresh run comes after the runs before it; a run's approval fixes the runs
before it by their hash.

## Results that are not what the documentation says

- `EndedRunTheorems.TornSettlementMisleads`: `settle_ended_run` settles an order as never sent although the
  sender returned, after `resolve --never-sent` was cut between its decision and its mark and the relay then
  sent the unmarked order. `EndedRunTheorems.SettlementCutTears` is a second way in: `settle_ended_run` itself cut
  between the two. The condition is `HandoverTorn.Torn`, read from the files before a pass begins: the order is
  unmarked, the last decision on it says never sent for the waiting input, no retirement of it was begun, and no
  order before it blocks the pass. `HandoverTorn.SettledIfNeverTorn`: where no pass of a run begins so, every
  settled order was not handed over or its hand-over reached nothing. `HandoverTorn.TornMisleads`: from every
  reachable world that is so, with no report on the order queued, some run leads to a wrong settlement.
- `DeliveryLoss.SettledCloseIsLost`: stream input IDs name no run, so a settlement of an ended run's stream
  input makes the loop strike the fresh run's own input of the same ID off unsent. `DeliveryTheorems.NoInputLost`
  and `DeliveryTheorems.SettledIsNeverSent` state the exact condition from both sides.
- `EndedRunTheorems.QueuedTwice`: a run in which the owner's retirement of an order is queued a second time
  under one ID, after a run-ended settlement cut between its strike and its clear. `HandoverQueued.QueuedAgainExactly`:
  in every reachable world an operation queues an ID again if and only if it is the owner's retirement, accepted,
  of an order whose retirement a settlement of an ended run names and the outbox no longer holds; so it is never
  exchanged.
- `EndedRunTheorems.RerunLeavesEntry`: a run-ended settlement cut right before its strike and run again leaves in the
  outbox an entry it strikes when it is not cut. `EndedRunReruns.EndingConverges`: that is the only stop and the only
  difference; the settlement, the set-aside file and the entries left for the fresh run are always the same, and what
  stays is named by the settlement, so the drain strikes it unsent.
- `FlexEquity.OneSecondDoesNotChain`: two consecutive transfers' figures do not chain when both fall on the very
  second of a first snapshot that is no close; `FlexEquity.ConsecutiveFigures` proves that they chain by the
  first's amount if and only if the first is not there.
- `Frames.PartOfFrame`: a peer that dies inside an oversized frame is reported as a clean end of the stream.

## Model

| member | source | states |
|---|---|---|
| `HandoverTheorems.AtMostOncePerPermission` | adapter/ibkr/relay.py:1321-1428 | over every run of passes, stops at any write, restarts and owner settlements, an order is handed to the sender at most once plus once per recorded resend; unmarked while its input awaits means never handed over; a resend mark means a send is left |
| `HandoverTheorems.RunKeeps` | adapter/ibkr/relay.py:1304-1428 | every operation cut anywhere keeps the invariant of files, outbox, marks and history |
| `HandoverTheorems.RetiredIsNeverSent` | adapter/ibkr/relay.py:1335-1369 | once a retirement of an order is queued or recorded for the waiting input, no later step ever sends it |
| `HandoverTheorems.QueuedOnce` | adapter/ibkr/relay.py:1646-1682 | an ID is queued at most once, unless it is a retirement an ended run's settlement names, and never while the first is still queued |
| `HandoverQueued.QueuedAgainExactly` | adapter/ibkr/relay.py:1956-2013 | in every reachable world and for every operation, an ID is queued again if and only if the owner's retirement is accepted for an order whose retirement a recorded settlement names and the outbox no longer holds |
| `HandoverQueued.RunNames` | adapter/ibkr/relay.py:2275-2296 | in every run, whatever a run-ended settlement names was queued |
| `HandoverQueued.DrainFirst` | adapter/ibkr/loop.py:1830-1900 | a drain queues no ID that was queued before |
| `EndedRunTheorems.QueuedTwice` | adapter/ibkr/relay.py:2275-2300 | a run that meets every assumption and queues one retirement twice |
| `HandoverTheorems.EndedIsNeverExchanged` | adapter/ibkr/loop.py:1842-1849 | nothing a run-ended settlement names is ever given to the engine now running |
| `HandoverTheorems.EveryPassStops` | adapter/ibkr/relay.py:1340-1369 | an at-broker mark stops every pass over its input and survives it, whatever IBKR shows |
| `HandoverTheorems.OnlySentLifts` | adapter/ibkr/relay.py:1588-1610 | while its input awaits, only the owner's `--sent` changes an at-broker mark, under any operation cut anywhere |
| `HandoverTheorems.AtBrokerActsFinish` | adapter/ibkr/relay.py:1756-1784 | the three writes leave the finding recorded, the mark made and no retirement of the order in the outbox |
| `HandoverTheorems.AnyCutReadsAtBroker` | adapter/ibkr/relay.py:1756-1792 | a stop after any of the three writes leaves an order that still reads as at the broker |
| `HandoverTheorems.RestartFinishesAtBroker` | adapter/ibkr/relay.py:1685-1748 | the order's turn in a pass stops there with all three writes finished |
| `HandoverTheorems.RestartedPassFinishes` | adapter/ibkr/relay.py:1304-1369 | from every reachable world in which such an order awaits, a restarted relay's pass stops, at an order before it or at it with all three writes finished |
| `HandoverKeeps.AllowedKeeps` | adapter/ibkr/relay.py:699-1205 | every allowed write of the adapter's files keeps the invariant |
| `HandoverLegal.OrderLegal` | adapter/ibkr/relay.py:1335-1428 | each branch for one released order performs only allowed writes, in an allowed order |
| `HandoverLegal.DrainLegal` | adapter/ibkr/loop.py:1830-1900 | taking the next outbox entry, striking it or exchanging it performs only allowed writes |
| `HandoverLegal.ResolveLegal` | adapter/ibkr/relay.py:1534-1630 | each of the owner's resolve decisions performs only allowed writes |
| `HandoverLegal.OwnerRetireLegal` | adapter/ibkr/relay.py:1956-2013 | the owner's retirement performs only allowed writes |
| `EndedRunLegal.SettleEndedRunLegal` | adapter/ibkr/relay.py:2441-2556 | the settlement of an ended run performs only allowed writes |
| `EndedRunLegal.ResolveRunEndedLegal` | adapter/ibkr/relay.py:2137-2300 | the run-ended settlement performs only allowed writes |
| `EndedRunTheorems.SettledUnlessOverruled` | adapter/ibkr/relay.py:2559-2621 | in every run an order `settle_ended_run` settles may be at IBKR only if a pass handed it over against a recorded never-sent decision |
| `HandoverTorn.OverruledOnlyByTornPass` | adapter/ibkr/relay.py:1335-1428 | one operation, cut anywhere, hands an order over against its last decision only if it is a pass that begins in a world the files show to be torn for it |
| `HandoverTorn.SettledIfNeverTorn` | adapter/ibkr/relay.py:2441-2621 | in every run whose passes begin in no such world, an order `settle_ended_run` settles was never handed over or its last hand-over reached nothing |
| `HandoverTorn.TornMisleads` | adapter/ibkr/relay.py:1560-1583 | from every reachable world torn for an order with no report on it queued, a run follows after which `settle_ended_run` accepts and settles it though the sender took it |
| `EndedRunTheorems.TornSettlementMisleads` | adapter/ibkr/relay.py:1560-1583 | a concrete run in which the settlement says never sent of an order the sender returned for |
| `EndedRunTheorems.TornRunIsSound` | adapter/ibkr/relay.py:1560-1583 | that run meets every assumption of the general theorem |
| `EndedRunTheorems.TornRunIsTorn` | adapter/ibkr/relay.py:1560-1583 | the world that cut leaves is torn, as read from its files |
| `EndedRunTheorems.SettlementCutTears` | adapter/ibkr/relay.py:2500-2556 | `settle_ended_run` cut after its decision leaves such a world too |
| `EndedRunConverges.RerunConverges` | adapter/ibkr/relay.py:2441-2556 | run again after a stop at any write, the command settles the same orders and reaches the same file, marks and outbox |
| `EndedRunConverges.CommandResult` | adapter/ibkr/relay.py:2500-2556 | the whole command leaves exactly the final settlement file, marks and outbox |
| `EndedRunConverges.ReachableIsConsistent` | adapter/ibkr/relay.py:982-1047 | every reachable world meets the premise of convergence |
| `EndedRunConverges.FinalLinesCover` | adapter/ibkr/relay.py:2500-2556 | in the final file the ended log's lines are exactly the settled orders' |
| `EndedRunConserves.EvidenceConserved` | adapter/ibkr/relay.py:2223-2298 | at every stop of the run-ended settlement each outbox entry is in the outbox, the set-aside file or a recorded settlement |
| `EndedRunConserves.StruckExactly` | adapter/ibkr/relay.py:2223-2275 | exactly which entries it strikes: earlier runs' reports, malformed retirements, retirements of no order the fresh run released or of one IBKR showed |
| `EndedRunReruns.EndingConverges` | adapter/ibkr/relay.py:2137-2300 | run again after a stop at any write, the run-ended settlement is accepted exactly while the input awaits, records the same settlement, sets the same entries aside and leaves the same entries for the fresh run; the outbox is the same unless the stop fell right before the strike with other entries settled |
| `EndedRunReruns.FromRecord` | adapter/ibkr/relay.py:2276-2296 | from the stop right before the strike: nothing is recorded or set aside again, and the outbox differs if and only if other entries were settled |
| `EndedRunTheorems.RerunLeavesEntry` | adapter/ibkr/relay.py:2276-2296 | a reachable world and that stop, after which the rerun leaves the retirement it had settled |
| `HandoverProgram.Adapter.Settle` | adapter/ibkr/relay.py:1304-1428 | one exchange and pass performs the specified acts, the invariant holds at each of them, and no order was handed over more often than once plus its resends, an unmarked one of the waiting input not at all; when it goes on, every order released is in the relay's memory, marked sent, shown by IBKR, taken by the sender in this pass, or marked or retired as never sent on a record that says so |
| `HandoverProgram.Adapter.DrainOnce` | adapter/ibkr/loop.py:1830-1900 | one turn of the drain, whatever the link, IBKR and the sender answer, keeps the invariant at every act and the bound on hand-overs; where it exchanges an input and goes on, every order of it is accounted for in the same way |
| `HandoverProgram.HeldAtEveryCut` | adapter/ibkr/relay.py:699-1205 | where the invariant was held so, a stop after any act leaves it, and the bound |
| `HandoverProgram.HoldsOn` | adapter/ibkr/relay.py:1304-1428 | acts that follow the discipline extend a history in which the invariant held |
| `HandoverProgram.Adapter.Orders` | adapter/ibkr/relay.py:1335-1428 | the loop over released orders stops where the specification stops, with its acts |
| `HandoverProgram.Adapter.Turn` | adapter/ibkr/relay.py:1335-1428 | one turn of that loop |
| `HandoverPass.OrderStops` | adapter/ibkr/relay.py:1335-1428 | one order's turn goes on if and only if nothing on file, in IBKR's lists or in the sender's answer stops it, and stops for exactly the reason they give |
| `HandoverPass.OrderLeaves` | adapter/ibkr/relay.py:1335-1428 | one order's turn hands it over, retires it, marks it, notes it and records it exactly when the files, IBKR and the sender call for it, and leaves every other entry and mark |
| `HandoverPass.OrdersOutcome` | adapter/ibkr/relay.py:1335-1428 | the loop goes on if and only if none of the orders stops it, and stops for the reason of the first that does |
| `HandoverPass.PassResult` | adapter/ibkr/relay.py:1304-1428 | a pass that goes on leaves each order's turn done, the entry struck and the input cleared; one that stops leaves the turns before it done, the orders behind it as they were, and the input waiting with its entry queued |
| `HandoverPass.DrainResult` | adapter/ibkr/loop.py:1830-1900 | one turn of the drain exchanges the input that is due and no other, or strikes at most an entry that is done with |
| `HandoverPass.NoReplyKeeps` | adapter/ibkr/loop.py:1830-1900 | without a reply the input is left waiting, sent to the running run, and nothing is handed over, decided or marked |
| `HandoverPass.GoesOnAccounted` | adapter/ibkr/relay.py:1321-1428 | in every reachable world, a pass over the waiting input that goes on leaves no order it releases unaccounted for: remembered, marked sent, shown by IBKR, taken by the sender now, or never sent on a record |
| `HandoverPass.UnconfirmedStops` | adapter/ibkr/relay.py:1373-1374 | an order still marked as being handed over that the relay does not remember and IBKR does not show stops every pass over its input, which keeps its mark and its input |
| `HandoverProgram.Adapter.FinishOne` | adapter/ibkr/relay.py:1685-1748 | finishing a retirement a stop left part way performs the specified acts |
| `HandoverProgram.Adapter.RecordAtBroker` | adapter/ibkr/relay.py:1756-1784 | records, strikes and marks in the order stated |
| `HandoverProgram.Adapter.HandOver` | adapter/ibkr/relay.py:1400-1428 | marks before the send and after it, and records what an unconfirmed send says |
| `HandoverProgram.Adapter.OwnerResolves` | adapter/ibkr/relay.py:1534-1630 | accepted exactly when the marks and the relay's notes call for the decision, and then leaves exactly its mark, its decision and no retirement of an order found sent; its acts keep the invariant at each of them and the bound on hand-overs |
| `HandoverProgram.Adapter.OwnerRetires` | adapter/ibkr/relay.py:1956-2013 | accepted exactly for the order the relay stopped at as one IBKR can never accept, which it leaves marked, recorded and queued; the same at each act |
| `HandoverProgram.Adapter.OwnerSettlesEndedRun` | adapter/ibkr/relay.py:2441-2556 | accepted exactly for the log of the run that ended, settles exactly the orders the log and the files show never sent, with the evidence they give, and nothing else; the same at each act |
| `HandoverProgram.Adapter.OwnerEndsRun` | adapter/ibkr/relay.py:2137-2300 | accepted exactly when an earlier run's input awaits and nothing malformed is left out, and then records, sets aside, strikes and clears exactly that; the same at each act |
| `HandoverOwner.ResolveResult` | adapter/ibkr/relay.py:1534-1630 | each owner's decision on an order is accepted if and only if its mark, the relay's note and the session call for it; what it leaves of marks, decisions and outbox, `--sent` leaving no retirement of the order queued |
| `HandoverOwner.AcceptedIsTrue` | adapter/ibkr/relay.py:1534-1630 | in every run, an order accepted as not handed over was last handed over to a sender that said nothing left it, and one accepted as never sent was never handed over |
| `HandoverOwner.RetireResult` | adapter/ibkr/relay.py:1956-2013 | the owner's retirement is accepted if and only if the relay stopped at the order as one IBKR can never accept; what it leaves |
| `HandoverOwner.RetiredUnsent` | adapter/ibkr/relay.py:1956-2013 | in every run it is of an order released by the waiting input and never handed over |
| `EndedRunSettled.JudgedExactly` | adapter/ibkr/relay.py:2559-2621 | an order of the ended log is judged never sent if and only if the log released it once, neither the log nor a queued report shows IBKR's answer, the log does not retire it, its mark says never sent or is absent, its last decision is no finding and no other run's, and the records claim never sent for that input; with the evidence named |
| `EndedRunSettled.RefusedExactly` | adapter/ibkr/relay.py:2559-2621 | otherwise it is taken as simply sent exactly when its records say so and nothing claims otherwise, and refused else |
| `EndedRunSettled.SettledExactly` | adapter/ibkr/relay.py:2441-2556 | the command is accepted if and only if the log is the ended run's, and leaves lines, marks, decisions and outbox for exactly the orders so judged |
| `EndedRunEnded.EndedExactly` | adapter/ibkr/relay.py:2137-2300 | the run-ended settlement is accepted if and only if an input of an ended run awaits and nothing malformed is left out; what it records, the released orders never sent included, what it sets aside and what it strikes |
| `DeliveryTheorems.FilesNamedOnce` | adapter/ibkr/delivery.py:297-356 | over every run, each file of a run is named by at most one batch not dropped, and only the last batch is queuing |
| `DeliveryTheorems.OneBatchAtATime` | adapter/ibkr/delivery.py:616-658 | the outbox holds what is left, in order, of the last batch's one write and of no other |
| `DeliveryTheorems.NoInputLost` | adapter/ibkr/delivery.py:763-802 | every input of every queued batch is committed for its run, in the outbox, or settled by the owner; no run commits an input twice |
| `DeliveryTheorems.SettledIsNeverSent` | adapter/ibkr/loop.py:1842-1849 | an input settled, not waiting and not committed for a run is never committed for it, whatever follows |
| `DeliveryTheorems.RunKeeps` | adapter/ibkr/loop.py:963-974 | every step, start, producer's entry and settlement, cut at any write, keeps the invariant |
| `DeliveryTheorems.DeliverLeaves` | adapter/ibkr/delivery.py:616-658 | a delivery that goes on leaves no batch queuing in the outbox, so none is sent before it is queued |
| `DeliveryLoss.SettledCloseIsLost` | adapter/ibkr/loop.py:1842-1849 | for any two runs, a sound run after which the running run's queued batch holds an input neither committed nor in the outbox |
| `DeliveryKeeps.AllowedKeeps` | adapter/ibkr/delivery.py:331-356 | every allowed write of the record, the outbox and the pending input keeps the invariant |
| `DeliveryLegal.RecordedIsInOutbox` | adapter/ibkr/delivery.py:763-769 | the test of a batch left queuing is exact: its snapshot or reconciliation is found if and only if its write was made |
| `DeliveryLegal.DeliverLegal` | adapter/ibkr/delivery.py:616-658 | finishing a batch and beginning the next perform only allowed writes |
| `DeliveryLegal.DrainLegal` | adapter/ibkr/loop.py:1830-1900 | every turn of the drain performs only allowed writes |
| `DeliveryLegal.ForeignLegal` | adapter/ibkr/loop.py:1850-1869 | another run's batch is marked dropped, then struck whole, leaving none of it |
| `DeliveryProgram.Adapter.StepOnce` | adapter/ibkr/loop.py:963-974 | a step makes exactly the specified writes, the invariant holds at each of them, and every input of a queued batch is then committed, in the outbox or settled, none committed twice for a run; with the account read and no stream in the outbox it leaves every listed file in a batch not dropped |
| `DeliveryProgram.Adapter.Begins` | adapter/ibkr/loop.py:1802-1824 | a start asks again for its run's input that awaits a reply, with the same at each write |
| `DeliveryProgram.HeldAtEveryCut` | adapter/ibkr/delivery.py:331-356 | a stop after any write leaves the invariant and every input accounted for |
| `DeliveryProgram.Adapter.Deliver` | adapter/ibkr/delivery.py:616-658 | settles a batch left queuing, then begins one exactly when some listed file is in no batch not dropped, nothing of the stream is queued and the account was read; stops exactly for new files out of order, unreadable or already queued |
| `DeliveryProgram.Adapter.Finish` | adapter/ibkr/delivery.py:763-802 | a batch left queuing is marked where it was written, dropped where it is another run's, written where its reading is to be had, and left otherwise |
| `DeliveryProgram.Adapter.BeginBatch` | adapter/ibkr/delivery.py:616-658 | the new batch names exactly the files no batch not dropped names, in session order, and is written and marked in one go |
| `DeliveryProgram.Adapter.Drain` | adapter/ibkr/loop.py:1830-1900 | the drain's loop makes exactly the specified writes |
| `DeliveryProgram.Adapter.TakeNext` | adapter/ibkr/loop.py:1838-1900 | one turn takes the entry that is next, strikes it where it is done with, drops another run's batch whole, waits, or exchanges it |
| `DeliveryResults.BeginResult` | adapter/ibkr/delivery.py:616-658 | when a batch is begun, with which files and entries, and when a delivery stops, from the record, the listing and the outbox |
| `DeliveryResults.FinishResult` | adapter/ibkr/delivery.py:763-802 | what becomes of a batch a stop left queuing, from the same |
| `DeliveryResults.EveryFileTaken` | adapter/ibkr/delivery.py:616-658 | a delivery that goes on with no stream in the outbox and the account read leaves every listed file in a batch of the running run that is not dropped, and begins a batch if and only if some listed file was in none |
| `DeliveryTurns.TurnResult` | adapter/ibkr/loop.py:405-411 | which entry a turn takes and what it leaves of outbox, record, waiting input and commitments |
| `DeliveryTurns.DrainEmpties` | adapter/ibkr/loop.py:1830-1900 | a drain in which everything is answered empties the outbox, commits every input of the running run and every report in it, and commits nothing for another run |
| `DeliveryTurns.StepNamesFiles` | adapter/ibkr/loop.py:963-974 | whatever the engine answers, such a step leaves every listed file in a batch not dropped |
| `DeliveryTurns.StepDelivers` | adapter/ibkr/loop.py:963-974 | a step in which everything is answered ends with the outbox empty and the inputs of every new file committed for the run |
| `DeliveryTurns.StartResult` | adapter/ibkr/loop.py:1802-1824 | a start asks again for its own run's waiting input and for no other run's |
| `DeliveryProgram.Adapter.SettleRunEnded` | adapter/ibkr/relay.py:2275-2296 | a settlement is recorded, struck off and cleared in that order, with the same at each write |
| `OpenOrders.CleanReadIsWhole` | adapter/ibkr/connection.py:910-943 | from the request on, if no stray was counted, every row of the list's own answer in the account was taken as the list's |
| `OpenOrders.ReadingTakesAll` | adapter/ibkr/connection.py:553-563 | with no stray, the end that ends a list is its own |
| `OpenOrders.LateEndStrays` | adapter/ibkr/connection.py:930-943 | an end with no list outstanding is always counted |
| `OpenOrders.StraysAre` | adapter/ibkr/connection.py:910-943 | with no list outstanding every row and end is a stray, but for one row of each order this client placed: a second one, or another client's of its number, is counted |
| `OpenOrdersLink.NothingHidesAStray` | adapter/ibkr/connection.py:918-929 | what a session's start put by hides no row or end that came after |
| `OpenOrdersLink.PendingTaken` | adapter/ibkr/connection.py:735-739 | ends <= noted <= requested <= ends + 1 and the count put by are kept by every kept message taken |
| `OpenOrdersLink.InboxTaken` | adapter/ibkr/connection.py:910-943 | the same for every message of the inbox |
| `OpenOrdersLink.Link.Apply` | adapter/ibkr/connection.py:910-943 | the counters as a function of the message |
| `OpenOrdersLink.Link.Pump` | adapter/ibkr/connection.py:881-897 | takes the kept messages first and keeps the counters aligned |
| `OpenOrdersLink.Link.AwaitListEnd` | adapter/ibkr/connection.py:497-506 | ends level with no list outstanding, or the link is dropped |
| `OpenOrdersLink.Link.Resync` | adapter/ibkr/connection.py:508-551 | a quiet link has nothing left to take and counts every stray taken |
| `OpenOrdersLink.Link.Ask` | adapter/ibkr/connection.py:371-399 | one list outstanding, its note ahead of its answer and of all still on its way |
| `OpenOrdersLink.Link.Collect` | adapter/ibkr/orders.py:431-483 | a read gives exactly the rows taken while its list was read, and all of its own answer if nothing left is a stray |
| `OpenOrders.AnswerEnds` | adapter/ibkr/connection.py:910-943 | once its answer is taken the list has ended, whatever else came |
| `OpenOrders.UndisturbedRead` | adapter/ibkr/connection.py:910-943 | an answer with nothing spurious among it is read without a stray and as exactly its rows |
| `OpenOrdersLink.Link.ReadOnce` | adapter/ibkr/orders.py:486-518 | one read and the quiet pump after it: it succeeds when it is answered in its time and the link stays open, is clean exactly when no stray was counted, and then holds every row of its own list |
| `OpenOrdersLink.AgreeingSettles` | adapter/ibkr/orders.py:486-518 | reads on a level link that begin with two undisturbed ones showing the same rows are accepted with those rows |
| `OpenOrdersLink.Link.CollectSettled` | adapter/ibkr/orders.py:486-518 | the read accepted is the later of the first two clean reads in a row that agree, is exactly what its list was read as, and holds every row of its own list; no read fails that is answered in its time, and on a level link each undisturbed read gives exactly the rows of its answer |
| `OrderTracker.Tracker.OnOpenOrder` | adapter/ibkr/orders.py:318-329 | keeps arrival order and seen-once-accepted; another account's order drops its held statuses, ours releases them in order |
| `OrderTracker.Tracker.OnOrderStatus` | adapter/ibkr/orders.py:331-345 | a status goes behind every one still held, or is held, or is recorded; none overtakes a held one |
| `OrderTracker.Tracker.Release` | adapter/ibkr/orders.py:347-357 | the held statuses are recorded in order up to the first failure, which stays held with all behind it |
| `OrderTracker.Tracker.RecordStatus` | adapter/ibkr/orders.py:359-378 | the report, or none for a word that cannot be classified |
| `OrderTracker.Tracker.OnError` | adapter/ibkr/orders.py:380-400 | a rejection follows the statuses held before it and is remembered even if its report fails |
| `OrderTracker.Tracker.Emit` | adapter/ibkr/orders.py:402-410 | a report counts as seen exactly when the sink accepted it, and the log never says the same of an order, or that it is invalid, twice in a row |
| `OrderTracker.Tracker.OnExecution` | adapter/ibkr/orders.py:412-418 | each execution of the account is recorded once |
| `OrderTracker.Tracker.OnCommission` | adapter/ibkr/orders.py:420-428 | each commission once, after its execution |
| `OrderTracker.ReportOrdered` | adapter/ibkr/orders.py:331-357 | a status recorded after all before it keeps the order and stays ahead of every one held |
| `OrderTracker.CollapsedMore` | adapter/ibkr/orders.py:402-410 | a report that is no repeat of its order's last one keeps that |
| `OrderReports.EmitResult` | adapter/ibkr/orders.py:402-410 | a report is passed over if and only if the log's last word on the order is the same or an invalidity as it is; else it is the log's next record, or the sink takes none |
| `OrderReports.StatusResult` | adapter/ibkr/orders.py:359-378 | a status fails if its word is unknown, or Inactive with no rejection, and otherwise is reported with its word, figures, stage and IBKR's reason |
| `OrderReports.ReleaseResult` | adapter/ibkr/orders.py:347-357 | of the statuses held, those up to the first that fails are told in the log, and it and all behind it stay held |
| `OrderReports.RejectionSays` | adapter/ibkr/orders.py:380-400 | a rejection's report is an invalidity for IBKR's reason, with the figures last reported for the order |
| `BookBasis.FoundInStages` | adapter/ibkr/book_basis.py:318-343 | walking in two stages, the later fills put on top, finds the basis and fills one walk finds |
| `BookBasisWalk.Walk` | adapter/ibkr/book_basis.py:171-222 | the stopping walk finds, of each kind, the newest basis the runs' groups offer, an explained reconciliation or stated book and a snapshot or stated book, with exactly the newer fills stamped at or after it; none exactly where none is offered |
| `BookBasisWalk.FillsSince` | adapter/ibkr/book_basis.py:120-134 | the fills stamped, to the second, at or after a time, in order |
| `BookBasisWalk.ExplainedCash` | adapter/ibkr/book_basis.py:150-168 | the inputs some result of the run explained |
| `BookBasisWalk.KeptRoundTrip` | adapter/ibkr/book_basis.py:233-278 | keeping a basis of an earlier run loses nothing |
| `BookBasis.CashComesWithCash` | adapter/ibkr/book_basis.py:341-343 | a daily basis with cash always comes with an unexplained-cash basis with cash |
| `BookBasisWalk.Reader.PreviousClose` | adapter/ibkr/book_basis.py:323-343 | over any readings and any damage to the kept file: the daily basis is the newest snapshot or stated book with the cash of its own reading, the other the newest cash explained or stated; a chain with none of that takes the daily one's |
| `BookBasisWalk.Reader.Before` | adapter/ibkr/book_basis.py:281-315 | the kept bases, or those walked again and kept, are the newest the earlier runs offer |
| `BookBasisChain.ChainBasis` | adapter/ibkr/book_basis.py:171-222 | the walk's answer, from the runs' groups: the newest group that offers the book, its cash, positions, source and time, and the fills of newer groups stamped at or after it, newest first |
| `BookBasisChain.CloseIs` | adapter/ibkr/book_basis.py:323-343 | the two bases of previous_close, from the runs' groups |
| `BookBasisChain.ExplainedIs` | adapter/ibkr/book_basis.py:150-168 | an input counts as explained exactly when some result of the run that explained its cash names it, or names none in its own group |
| `FlexEquity.InsideIsChange` | adapter/ibkr/flex.py:1036-1054 | the window test holds exactly when adding the non-zero transfer changes the written figure, for all three bases |
| `FlexEquity.WrittenFirst` | adapter/ibkr/flex.py:1036-1054 | noted exactly when some written figure would change, and as earlier exactly when an earlier one would |
| `FlexEquity.EquityAnyOrder` | adapter/ibkr/flex.py:924-947 | the figure does not depend on the order of the transfers |
| `FlexEquity.IntervalPlaces` | adapter/ibkr/flex.py:899-921 | where a transfer stands to the snapshot it takes, for each basis |
| `FlexTaken.IntervalTakes` | adapter/ibkr/flex.py:908-921 | of snapshots in time order, the one taken is the last before the transfer or closing at its own second, else the first of all, and none only where none is given |
| `FlexTaken.NoneNearer` | adapter/ibkr/flex.py:908-921 | no other one behind the transfer is later; where none is behind it, none at all is earlier |
| `FlexTaken.FigureIsTheMoment` | adapter/ibkr/flex.py:924-947 | the figure is the account's equity just before the transfer: the snapshot's, with every earlier transfer it does not hold and without every other one it does; on the second of a snapshot that is no close the earlier ones of that second are left out |
| `FlexEquity.ConsecutiveFigures` | adapter/ibkr/flex.py:924-947 | the second figure is the first plus its amount if and only if the first is not on the second of a first snapshot that is no close; otherwise both are on that second and the figures are equal |
| `FlexEquity.OneSecondDoesNotChain` | adapter/ibkr/flex.py:899-947 | two transfers in that one second, with equal figures |
| `FlexReadings.NewMovements` | adapter/ibkr/flex.py:1057-1118 | writes exactly when every side is known, every recorded transfer agrees and every new one is writable; one record for each new transfer after the approval, in time order, with its note and the equity just before it, over every transfer of the ledger and the statement; names exactly the ambiguous ones |
| `FlexReadings.TakePosting` | adapter/ibkr/flex.py:1088-1117 | what one transfer does: nothing, its record, or a refusal |
| `FlexReadings.Sides` | adapter/ibkr/flex.py:1008-1033 | the contradicted and the unknown transfers, exactly |
| `FlexReadings.SideMeans` | adapter/ibkr/flex.py:1008-1033 | the side of a transfer by its time or day, the approval's day and close, and the owner's decision, which is never overruled |
| `FlexReadings.MovedAre` | adapter/ibkr/flex.py:1057-1118 | the transfers a figure counts are the ledger's and those the statement adds, each once |
| `FlexReadings.Appended` | adapter/ibkr/flex.py:1057-1118 | the ledger extended has distinct IDs and states every after-approval transfer of the statement |
| `FlexReadings.CashReader.ReadOnce` | adapter/ibkr/flex.py:1485-1496 | stopped at any write: no day from the approval to the last covered is missing from the accepted statements, and every after-approval transfer of each is in the ledger exactly once; a reading completed adds one record each with the equity just before it |
| `FlexReadings.CashReader.LoseCoverage` | adapter/ibkr/flex.py:1300-1329 | losing the coverage file keeps both |
| `FlexReadings.SortSorts` | adapter/ibkr/flex.py:1063-1070 | transfers in time order, the same ones |
| `FlexCosts.ReadCosts` | adapter/ibkr/flex.py:1138-1184 | accepts exactly the ledgers whose every line is as written, and reads the last value stated and the number of restatements |
| `FlexCosts.NewCosts` | adapter/ibkr/flex.py:1203-1225 | new costs, restatements and those before the first day, or a refusal exactly when one cannot be written |
| `FlexCostsStated.CostsResult` | adapter/ibkr/flex.py:1203-1237 | refused exactly when a posting to write is past a float or a new cost is nothing; else one new line, stating it in every field, for each posting that is new since the approval's day and of some amount or differs from the last line of its transaction, and none for any other |
| `FlexCosts.ExtendedIsAccepted` | adapter/ibkr/flex.py:1671-1678 | every ledger the writer extends is accepted by the reader |
| `FlexCosts.NumberedInTurn` | adapter/ibkr/flex.py:1187-1225 | after any readings from an empty ledger: a transaction's first line bears its own ID and no note, the n-th after it the n-th restatement's ID and, as its note, the value stated before it, which it changes |
| `FlexCosts.StatedLast` | adapter/ibkr/flex.py:1203-1225 | after a reading each posting's value is the last stated, and an unwritten transaction is untouched |
| `FlexCosts.RereadAppendsNothing` | adapter/ibkr/flex.py:1203-1225 | reading the same statement again is accepted and appends nothing |
| `FlexCosts.RereadAddsNone` | adapter/ibkr/flex.py:1652-1702 | after any readings, a statement read again straight after adds no line |
| `FlexCosts.LedgerAsWritten` | adapter/ibkr/flex.py:1138-1184 | every line of the ledger of any readings is as the writer numbers it |
| `FlexCosts.CostsLedger.ReadOnce` | adapter/ibkr/flex.py:1652-1702 | stopped at any write: refused at a gap, set aside when a cost cannot be written, else the ledger of the readings accepted extended in one write and then the covered days; the reader accepts what is left and no day from the first to the last covered is missing |
| `FlexCosts.CostsLedger.LoseCoverage` | adapter/ibkr/flex.py:1652-1702 | losing the coverage file keeps both |
| `FlexCoverage.CoverageKept` | adapter/ibkr/flex.py:1300-1329 | a statement accepted without a gap leaves no day uncovered, recorded or not |
| `FlexCoverage.GapIsADay` | adapter/ibkr/flex.py:1300-1329 | a current statement is refused exactly when some day not covered comes before its first; one accepted leaves open exactly the days from its last on, and none covered before |
| `Frames.FrameReader.Next` | transport/frame.go:45-67 | the next frame, rejection or error, and the position after it, however the buffer cuts the stream |
| `Frames.FrameReader.DiscardOversized` | transport/frame.go:75-89 | what is reported after the read that crossed the limit |
| `Frames.FrameReader.Drain` | transport/frame.go:93-110 | discards to the newline unless whole buffers spend the budget first |
| `Frames.ReadAll` | transport/frame.go:45-110 | calling next to the end gives the stream's results in order |
| `Frames.ReadsLines` | transport/frame.go:45-110 | a stream of lines reads as its lines in order, each a frame or a rejection by length alone, for every buffer size |
| `Frames.RoundTrip` | transport/frame.go:45-127 | every sequence of accepted frames reads back unchanged, then a clean end |
| `Frames.PartOfFrame` | transport/frame.go:57-67 | a part of a frame is told from a clean end if and only if it still fitted |
| `Frames.WriteFrame` | transport/frame.go:115-127 | one newline-terminated write, refused exactly when too long |
| `Frames.WriteFrames` | transport/frame.go:115-127 | what is on the wire is the joined lines of the frames that fit |
| `Pairing.AnswersWhatWasAsked` | transport/client.go:93-173 | over every run of calls, timeouts and server turns: a client not broken has nothing unread, and every decision or rejection returned, even one naming no request, answers its own call |
| `Pairing.RunInOrder` | transport/server.go:345-397 | one reply per frame, in order, each one `respond` may give |
| `Pairing.StillUsable` | transport/client.go:93-123 | a client not broken, whatever went before, gets what the server makes of its next request |
| `Pairing.ReadingOnMispairs` | transport/client.go:22-30 | without the broken flag a late rejection would be taken for the next answer |
| `Pairing.CallBreaks` | transport/client.go:93-124 | after any run: a decision, a rejection, a request too large or no deadline leaves the client usable with nothing unread, every other outcome breaks it, and a broken one asks nothing |
| `Pairing.EndToEnd` | transport/client.go:93-173 | from request to outcome over both sides: each reason of the engine reaches the caller of that very request, and exactly which of them break the client |
| `Pairing.Client.Call` | transport/client.go:93-111 | the outcome, the flag and the link of one call |
| `Pairing.Client.Ask` | transport/client.go:138-173 | one exchange |
| `Pairing.Server.Handle` | transport/server.go:345-378 | the server's loop over its turns |
| `Pacing.FlexPacer.Wait` | adapter/ibkr/flex.py:660-685 | any eleven requests span a minute and any two a second, recorded as they go |
| `Pacing.MessagePacer.Pace` | adapter/ibkr/connection.py:620-638 | any forty-one paced messages span a second |
| `Pacing.AnyWindow` | adapter/ibkr/flex.py:660-685 | so no window of that width, wherever it starts, holds more than the limit |
| `Maintenance.WindowEnd` | adapter/ibkr/maintenance.py:71-101 | nothing exactly when no candidate window holds now; else the end of the whole stretch of the union around now, refused exactly when it is longer than eight days |
| `Maintenance.Merge` | adapter/ibkr/maintenance.py:90-95 | merged intervals are apart, hold every interval and cover nothing more |
| `Maintenance.Candidates` | adapter/ibkr/maintenance.py:81-89 | exactly the windows of the days within reach |
| `Maintenance.OneComponent` | adapter/ibkr/maintenance.py:71-101 | the stretch around an instant is unique |
| `Maintenance.UnionOfTheSchedule` | adapter/ibkr/maintenance.py:82-101 | for the schedule repeated for ever: no result means no window holds now; every instant from now to the end is in a window; the end is in none, except exactly when a window of the first day not looked at holds it, which needs an end within the clock change of eight days |
| `ReplayTheorems.RenamingEquivalence` | deploy/ira-replay.py:143-192 | for every accepted list and any other, the other normalises alike if and only if it is the first under a one-to-one renaming of its orders, the four dropped fields aside |
| `ReplayTheorems.RenamedNormalizesAlike` | deploy/ira-replay.py:143-192 | a renamed list is accepted and has the same normal form |
| `ReplayTheorems.AlikeIsRenamed` | deploy/ira-replay.py:143-192 | equal normal forms give the renaming |
| `ReplayProgram.DifferenceExact` | deploy/ira-replay.py:113-130 | no difference exactly when the values are equal, and one found is there at the first place of its list |
| `ReplayProgram.NormalizeOrders` | deploy/ira-replay.py:143-192 | the two loops over dictionaries and sets compute the normal form or refuse |
| `ReplayProgram.Gather` | deploy/ira-replay.py:145-170 | the first loop's dictionaries hold exactly the orders seen, or the list is refused |
| `ReplayProgram.NormalizeRow` | deploy/ira-replay.py:178-191 | one row renamed, or refused for an unresolved reference |
| `ReplayProgram.CompareMonth` | deploy/ira-replay.py:195-202 | for a well-formed recorded list, the comparison passes if and only if the replay is its renaming |

## Left out

- adapter/ibkr/relay.py: comparing an input's content with the committed one (`InputChanged`, the outbox's content check), malformed run identifiers, torn last lines and the syntax of records; entries are compared by ID.
- adapter/ibkr/relay.py: acknowledgements of corrections and late fills, and seeding the report journal from the logs; independent records with shallow properties.
- adapter/ibkr/delivery.py: reading a stream file strictly and finding a run's folder by its identity (`stream_run`); a batch's entries are given as `_entries` builds them.
- adapter/ibkr/loop.py: the account reading's judgement and the Gateway clock checks; a conjunction of independent conditions.
- Locks, fsync and temporary files; sockets, threads and HTTP; the engine's own decisions; time zones and the NYSE calendar's content, which are parameters.
- `OpenOrdersLink.Link.Resync`: quiet is what drains all that is in flight; the seconds that judge it are not modelled.
- `OpenOrdersLink.Link.Collect`: an executions list is only waited for; its rows carry a request ID and are not collected here.
- `BookBasisWalk.Reader.PreviousClose`: a kept file that reads but was edited to other values is outside the model; a lost or unreadable one is inside.
- `HandoverTorn.TornMisleads`: assumes no report on the order is queued; the command refuses an order with one.
- `FlexCosts.CostsLedger.ReadOnce`: the staleness test of the statement against the session calendar is not part of it.
- `FlexReadings.CashReader.ReadOnce`: the session calendar's part of the staleness test is a parameter, the session before the last one.
- `ReplayProgram.CompareMonth`: takes the two selected lists; choosing a month's decisions (`month_decisions`) and the withheld outcome are not part of it.
- `Pairing.AnswersWhatWasAsked`: messages are whole; how bytes become frames is in `Frames`.
