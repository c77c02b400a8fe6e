# Lightning ↔ EVM HTLC relay — a Dafny model

The system lets a wallet pay a Lightning invoice by locking funds in a
hash-time-locked contract (HTLC) on an EVM chain, and lets a relay server
claim such a contract with the preimage. This project models its core:

- **Relay** (`relay.dfy`): the relay server's `/relay` handler. It runs the
  shape test, keeps the bounded `recentRequests` / `recentResponses` lists
  (newest first, at most 10) and the duplicate-free `pendingContracts` list,
  caches every ledger read in `contractDetails`, validates the claim
  (record present, `hashlock == "0x" + sha256(preimage)`, not withdrawn, not
  refunded, in that order) and withdraws only after validation passes. The
  class `RelayServer` holds the server state and its methods update it in
  place.
- **History** (`history.dfy`): the wallet's transaction history. It derives
  each HTLC's status from the created / withdrawn / refunded event lists
  (completed > refunded > expired > pending), sets the direction against
  the connected account, and provides the reclaimable-only view sorted by
  date and the refund guards.
- **Dashboard** (`dashboard.ts` → `dashboard.dfy`): the operator console's
  bounded log buffer, the log filter on a related id, and the pending and
  recent relay tables. The tables are built by loops that are proved
  against their specification functions.
- **Logging** (`logger.ts` → `logger.dfy`): extraction of a contract id
  (`0x` followed by 40 or more hex digits) from a log message, level
  routing to the file, the dashboard or the console, message joining, and
  the transport bookkeeping of `setDashboard` / `uninstall`.
- **Indexer** (`indexer.dfy`): the three event handlers that turn
  `LogHTLCNew`, `LogHTLCRefund` and `LogHTLCWithdraw` events into entities
  keyed by `chainId_blockNumber_logIndex`.
- **WebSocket** (`websocket.dfy`): the wallet hook's message routing
  (first present key wins), the send guard and the connected flag with its
  reconnect timer.
- **SendModal** (`send_modal.dfy`): the send flow. It accepts an invoice,
  computes the timelock `min(now + 600, expiry)` and the `newContract`
  call, and moves through steps 1–4 on transaction updates.
- **ReceiveStep**, **PaymentInvoice**, **Connected**: the receive amount
  limits and service fee, the Pay button and the step markers, and the
  status-change notifications and balance display of the main screen.

`shared.dfy` holds the datatypes the modules share (relay messages,
contract details, wallet transactions), and `strings.dfy` holds the string
helpers the source takes from JavaScript (lower-casing, `includes`,
decimal rendering, `join`).

Time is an integer parameter: milliseconds (`nowMs`) where the source
compares with `Date.now()`, whole seconds (`now`) where it divides by 1000.
SHA-256 is a function parameter `digest`. What the ledger returns and how
the withdrawal ends are input datatypes (`LedgerRead`, `WithdrawOutcome`).

## Model

| member | source | states |
|---|---|---|
| Relay.PushRecent | packages/relay-server/src/app.ts:73-76 | the new item is first, the older items follow in order, and only the oldest is dropped once the list holds 10 |
| Relay.PushAllKeepsNewest | packages/relay-server/src/app.ts:73-76 | after any run of requests the list holds at most 10 items, and they are the newest, newest first |
| Relay.AddPending | packages/relay-server/src/app.ts:79-81 | an id already pending leaves the list unchanged; a new id is appended once, at the end |
| Relay.AddPendingNoDuplicates | packages/relay-server/src/app.ts:79-81 | the guarded push keeps `pendingContracts` free of duplicates |
| Relay.RemovePending | packages/relay-server/src/app.ts:108 | the filter drops every occurrence of the id and keeps all other ids |
| Relay.RemovePendingAppend | packages/relay-server/src/app.ts:108 | the filter distributes over concatenation, so the other ids keep their order |
| Relay.RemovePendingAbsent | packages/relay-server/src/app.ts:117 | removing an id that is not pending changes nothing |
| Relay.AddThenRemovePending | packages/relay-server/src/app.ts:79-81 | inserting an id and then filtering it out gives the list before the insert, minus that id |
| Relay.RemovePendingNoDuplicates | packages/relay-server/src/app.ts:108 | the filter keeps the list duplicate-free |
| Relay.CheckContract | packages/relay-server/src/app.ts:149-171 | a claim is accepted iff the record exists, its hashlock is `"0x"` + the preimage's digest, and it is neither withdrawn nor refunded; the first failing check gives the reason |
| Relay.SecondClaimRefused | packages/relay-server/src/app.ts:161-164 | a contract the ledger reports withdrawn is never accepted again, whatever the preimage |
| Relay.RelayServer.constructor | packages/relay-server/src/types/index.ts:4-14 | all four collections start empty and the state invariant holds |
| Relay.RelayServer.ValidateContractAndPreimage | packages/relay-server/src/app.ts:141-172 | the ledger read is cached before any check, even when it is empty, and the answer is true iff `CheckContract` accepts |
| Relay.RelayServer.RecordRequest | packages/relay-server/src/app.ts:73-81 | the request is pushed onto the recent list and the id is added to pending, with the invariant kept |
| Relay.RelayServer.CompleteWithdrawal | packages/relay-server/src/app.ts:86-120 | confirmed: cache refreshed, success response pushed, id no longer pending; failed: answer 500, responses and cache untouched, id no longer pending |
| Relay.RelayServer.HandleRelay | packages/relay-server/src/app.ts:59-132 | a malformed request gets 400 and changes nothing; the withdrawal is submitted iff validation passed; a failed validation answers 400, keeps the id pending and leaves the read cached; a failed ledger read answers 500 |
| History.FindCreated | packages/nextjs/components/HistoryTable.tsx:68-72 | the FIRST HTLC of the list with the contract id (no earlier one has it); none is found iff no HTLC has it |
| History.GetTransactionStatus | packages/nextjs/components/HistoryTable.tsx:63-91 | withdrawn wins over refunded, refunded over expired, expired over pending; an unknown contract id is pending |
| History.ExpiryIsStrict | packages/nextjs/components/HistoryTable.tsx:82-90 | a contract that is neither withdrawn nor refunded is expired exactly when its timelock is strictly before now |
| History.StatusIgnoresEventOrder | packages/nextjs/components/HistoryTable.tsx:65-79 | the status depends only on which events exist, not on their order or repetition |
| History.Transform | packages/nextjs/components/HistoryTable.tsx:93-123 | one transaction per created HTLC, sent ones first, in order, each with its derived status and its direction |
| History.TransformWithdrawnIsCompleted | packages/nextjs/components/HistoryTable.tsx:75-76 | an HTLC with a withdraw event is shown COMPLETED |
| History.DirectionIgnoresCase | packages/nextjs/components/HistoryTable.tsx:56 | the direction is SENT when the sender equals the account up to case |
| History.FilterReclaimable | packages/nextjs/components/HistoryTable.tsx:197 | the result holds exactly the SENT transactions that are EXPIRED or FAILED, with their multiplicities |
| History.SortByDateDesc | packages/nextjs/components/HistoryTable.tsx:198-200 | the result is sorted by date, newest first, and is a permutation of the input |
| History.GetFilteredTransactions | packages/nextjs/components/HistoryTable.tsx:194-202 | the view is sorted by date, newest first; without the filter it is a permutation of the stored list, with it a permutation of the reclaimable ones |
| History.ReclaimableViewMembers | packages/nextjs/components/HistoryTable.tsx:194-202 | a transaction appears in the reclaimable view iff it is stored and reclaimable |
| History.InitiateRefund | packages/nextjs/components/HistoryTable.tsx:142-148 | a refund is submitted iff the status is EXPIRED or FAILED, the contract id is non-empty, the timelock has passed and the contract handle exists |
| History.RefundFromRow | packages/nextjs/components/HistoryTable.tsx:302 | the refund of a clicked row concerns the transaction displayed on that row |
| History.RefundRowMismatch | packages/nextjs/components/HistoryTable.tsx:428 | with the reclaimable view sorted differently from the stored list, the clicked row refunds a different transaction than the one displayed |
| History.TooltipText | packages/nextjs/components/HistoryTable.tsx:150-167 | every status has a text, "" only for RELAYED, and the expired and failed texts are those of the source |
| Dashboard.OrDefault | packages/relay-server/src/dashboard.ts:21-22 | an absent or zero option gives the default, any other value is kept |
| Dashboard.KeepLast | packages/relay-server/src/dashboard.ts:275-278 | the result is a suffix of the input of at most `maxLogs` items, and an input that fits is kept whole |
| Dashboard.AppendAndTrim | packages/relay-server/src/dashboard.ts:273-278 | after adding an entry the new entry is last, the survivors keep their order, and nothing is dropped below the cap |
| Dashboard.ShouldDisplayIff | packages/relay-server/src/dashboard.ts:281-285 | a new entry is shown iff no filter is set, or its related id is the filter, or its message contains it |
| Dashboard.MatchingLogs | packages/relay-server/src/dashboard.ts:139-142 | a log is selected iff its related id equals the id or its message contains it; the selection keeps the log order |
| Dashboard.MatchingLogsAppend | packages/relay-server/src/dashboard.ts:139-142 | selecting from a concatenation selects from each part, in order |
| Dashboard.ShortContractId | packages/relay-server/src/dashboard.ts:221 | an id longer than 34 becomes its first 31 characters and "...", exactly 34; a shorter id is unchanged |
| Dashboard.ShortPreimage | packages/relay-server/src/dashboard.ts:248 | an empty preimage shows "N/A", any other its first 10 characters and "..." |
| Dashboard.PendingRows | packages/relay-server/src/dashboard.ts:219-232 | one row per pending id, in order, with the cached amount or "Unknown"; an empty list gives only the placeholder row |
| Dashboard.BuildPendingRows | packages/relay-server/src/dashboard.ts:219-232 | the loop builds exactly `PendingRows` |
| Dashboard.CompletedRows | packages/relay-server/src/dashboard.ts:244-254 | only requests whose cached record is withdrawn get a row, in order; none is found iff no request is withdrawn |
| Dashboard.CompletedRowsAppend | packages/relay-server/src/dashboard.ts:244-254 | the rows of a concatenation are the rows of each part, in order |
| Dashboard.BuildRecentRows | packages/relay-server/src/dashboard.ts:237-261 | the loop builds the withdrawn rows, or the placeholder when there are none |
| Dashboard.RelayServerDashboard.constructor | packages/relay-server/src/dashboard.ts:20-22 | the defaults 1000 and 100 apply, and the log holds only the "Dashboard initialized" entry |
| Dashboard.RelayServerDashboard.AddLogEntry | packages/relay-server/src/dashboard.ts:263-294 | the log is the old log with the entry appended and trimmed to `maxLogs`; the entry is shown iff the filter lets it through |
| Dashboard.RelayServerDashboard.FilterLogsByRelatedId | packages/relay-server/src/dashboard.ts:134-153 | the filter is set to the id and the log box shows exactly the matching logs, in order |
| Dashboard.RelayServerDashboard.ClearFilter | packages/relay-server/src/dashboard.ts:170-180 | the filter is cleared and the log box shows the last `maxLogs` logs |
| Dashboard.RelayServerDashboard.UpdatePendingRelaysTable | packages/relay-server/src/dashboard.ts:212-235 | the pending table is `PendingRows` of the server's current state |
| Dashboard.RelayServerDashboard.UpdateRecentRelaysTable | packages/relay-server/src/dashboard.ts:237-261 | the recent table is `RecentRows` of the server's current state |
| Logging.LevelOf | packages/relay-server/src/logger.ts:99-172 | `log` and `info` route to info, `error` to error, `warn` to warn, `debug` to debug |
| Logging.HexRun | packages/relay-server/src/logger.ts:93 | the run of hex digits is maximal: every character in it is hex and the next one is not |
| Logging.FirstMatchFrom | packages/relay-server/src/logger.ts:93-95 | the match found is the leftmost one from the start position, and none is found iff there is none |
| Logging.ExtractRelatedId | packages/relay-server/src/logger.ts:91-96 | nothing is returned iff the message has no match; a returned id starts with "0x", has at least 42 characters, only hex after the prefix, and occurs in the message |
| Logging.ExtractedIsLeftmostAndMaximal | packages/relay-server/src/logger.ts:93-95 | the returned id is the text of the leftmost match, extended over all the hex digits that follow |
| Logging.ExtractBareContractId | packages/relay-server/src/logger.ts:91-96 | a message that is a contract id gives back that id |
| Logging.ExtractAfterPlainText | packages/relay-server/src/logger.ts:91-96 | a contract id after text without a "0" and before a non-hex character is extracted exactly |
| Logging.FormatMessageAppend | packages/relay-server/src/logger.ts:73-88 | one more argument adds a single space and that argument, in order |
| Logging.FormatMessageLength | packages/relay-server/src/logger.ts:73-88 | the joined message has the arguments' lengths plus one space between each two |
| Logging.WithoutConsole | packages/relay-server/src/logger.ts:62-70 | removing the console transport drops every console entry, keeps exactly the other transports, and leaves a list without console unchanged |
| Logging.WithoutConsoleAppend | packages/relay-server/src/logger.ts:62-70 | the removal works piecewise over concatenation, so the remaining transports keep their order |
| Logging.WithoutConsoleKeepsCounts | packages/relay-server/src/logger.ts:62-70 | every other transport keeps its number of occurrences |
| Logging.ConsoleRestored | packages/relay-server/src/logger.ts:190-193 | the old transports stay first and in order; a list that has the console is returned unchanged, otherwise at most one transport is added, and the console is present afterwards |
| Logging.ConsoleRestoredOnce | packages/relay-server/src/logger.ts:190-193 | from a transport list without duplicate consoles, the console is present exactly once afterwards |
| Logging.Deliver | packages/relay-server/src/logger.ts:110-111 | one record per transport of the list, in the list's order |
| Logging.FileAlwaysWritten | packages/relay-server/src/logger.ts:110-111 | as long as the rotating file transport is in the list, it receives the delivered message, whether a dashboard is set or not |
| Logging.DashboardSilencesConsole | packages/relay-server/src/logger.ts:62-70 | once a dashboard is set no record reaches the console |
| Logging.Logger.constructor | packages/relay-server/src/logger.ts:29-59 | the transports are the rotating file and the console, and nothing has been logged |
| Logging.Logger.SetDashboard | packages/relay-server/src/logger.ts:62-70 | with a dashboard the console transport is removed; without one the console transport is added |
| Logging.Logger.Dispatch | packages/relay-server/src/logger.ts:99-172 | with a dashboard the message and its extracted id go to the dashboard at the method's level (its log and log box change as `AddLogEntry` says, its other fields stay) and the console gets nothing; without one the arguments go to the original console; every transport gets the message unless it is a debug one |
| Logging.Logger.Uninstall | packages/relay-server/src/logger.ts:184-194 | the console transport is added back only when absent; the other transports are kept |
| Indexer.EntityIdInjective | packages/indexer/src/EventHandlers.ts:13 | two events with different chain, block or log index get different entity ids |
| Indexer.NewEntity | packages/indexer/src/EventHandlers.ts:12-22 | sender and receiver are lowercased; contract id, amount, hashlock and timelock are copied; timestamp and hash come from the block and the transaction |
| Indexer.SettleEntityOf | packages/indexer/src/EventHandlers.ts:28-33 | a refund or withdraw entity carries the event's id, contract id, block timestamp and transaction hash |
| Indexer.OnHtlcNew | packages/indexer/src/EventHandlers.ts:11-25 | exactly one entity is written, under the event's id; the other keys and tables are untouched |
| Indexer.OnHtlcRefund | packages/indexer/src/EventHandlers.ts:27-36 | exactly one refund entity is written, under the event's id; the other keys and tables are untouched |
| Indexer.OnHtlcWithdraw | packages/indexer/src/EventHandlers.ts:38-47 | exactly one withdraw entity is written, under the event's id; the other keys and tables are untouched |
| Indexer.ReplayIsIdempotent | packages/indexer/src/EventHandlers.ts:24-46 | processing the same event twice gives the same store as processing it once |
| Indexer.DistinctEventsBothKept | packages/indexer/src/EventHandlers.ts:13-24 | two events at different positions both stay in the store |
| Indexer.AddressCaseIgnored | packages/indexer/src/EventHandlers.ts:15-16 | events whose addresses differ only in case give the same entity |
| WebSocket.Classify | packages/nextjs/hooks/useWebSocket.tsx:55-94 | each route is taken iff its key is present and no earlier key is; unparsable, falsy or keyless messages are dropped |
| WebSocket.Close | packages/nextjs/hooks/useWebSocket.tsx:48-53 | disconnected; a reconnect timer is started only when the ref holds none |
| WebSocket.OpenAsWritten | packages/nextjs/hooks/useWebSocket.tsx:42-47 | connected and the timer is cleared, but the ref keeps its old value |
| WebSocket.SecondCloseHasNoTimer | packages/nextjs/hooks/useWebSocket.tsx:42-53 | close, open, close leaves the socket disconnected with no reconnect timer running |
| WebSocket.Open | packages/nextjs/hooks/useWebSocket.tsx:42-47 | connected, with the timer cleared and the ref emptied |
| WebSocket.ReplayCoherent | packages/nextjs/hooks/useWebSocket.tsx:42-53 | with the corrected open, the ref is set exactly when a timer runs, so every disconnect leaves a reconnect timer running |
| WebSocket.WebSocketClient.constructor | packages/nextjs/hooks/useWebSocket.tsx:14-23 | status INACTIVE, signer active, empty receive contract id, nothing received, not connected |
| WebSocket.WebSocketClient.OnMessage | packages/nextjs/hooks/useWebSocket.tsx:55-94 | exactly the state group `Classify` names changes; a server status sets status, uuid and signer flag together |
| WebSocket.WebSocketClient.SendMessage | packages/nextjs/hooks/useWebSocket.tsx:109-118 | nothing is sent while disconnected; otherwise the message is sent |
| WebSocket.WebSocketClient.OnOpen | packages/nextjs/hooks/useWebSocket.tsx:42-47 | the connection becomes `OpenAsWritten` of the old one: connected, timer cleared, ref left as it was |
| WebSocket.WebSocketClient.OnClose | packages/nextjs/hooks/useWebSocket.tsx:48-53 | the connection becomes `Close` of the old one |
| SendModal.GetMinTimelock | packages/nextjs/components/SendModalPopup.tsx:127-130 | the timelock is at most now + 600 and at most the invoice expiry, and equals one of them |
| SendModal.GetPaymentHash | packages/nextjs/components/SendModalPopup.tsx:140-146 | "0x" and the data of the first payment_hash tag, or nothing iff there is no such tag |
| SendModal.AcceptInvoice | packages/nextjs/components/SendModalPopup.tsx:207-228 | an invoice is accepted iff it decodes with an amount, a payment hash and an expiry; the recorded amount and expiry are the decoded ones and the recorded hash is `GetPaymentHash` of the decoded tags, the hash `SubmitPayment` then locks to |
| SendModal.InvoiceRecordedOnlyWhenComplete | packages/nextjs/components/SendModalPopup.tsx:213-215 | an invoice missing the amount, the expiry or the hash tag is never accepted |
| SendModal.SendModalState.constructor | packages/nextjs/components/SendModalPopup.tsx:25-29 | no invoice, no hash, not processing, step 1 |
| SendModal.SendModalState.CleanAndClose | packages/nextjs/components/SendModalPopup.tsx:31-45 | step 1, input and contract id cleared, close requested; the recorded invoice and hash survive only while a payment is processed |
| SendModal.SendModalState.HandleInvoiceChange | packages/nextjs/components/SendModalPopup.tsx:207-228 | the input is stored; the recorded invoice is replaced only by an accepted one |
| SendModal.SendModalState.Finish | packages/nextjs/components/SendModalPopup.tsx:54-91 | step 4, not processing, the toast shown, and a delayed close when the modal is open, the invoice forgotten when it is closed |
| SendModal.SendModalState.OnTransactions | packages/nextjs/components/SendModalPopup.tsx:47-92 | steps move only when the newest transaction is for the recorded invoice: PENDING with a contract id gives step 3, COMPLETED or FAILED gives step 4 |
| SendModal.SendModalState.OnData | packages/nextjs/components/SendModalPopup.tsx:94-117 | only the "Invoice withdrawn successfully." success message finishes the payment |
| SendModal.SendModalState.SubmitPayment | packages/nextjs/components/SendModalPopup.tsx:148-165 | no contract handle or no recorded invoice: nothing happens; otherwise one `newContract` call to the provider, with the invoice's hash, the minimum timelock and the amount in wei |
| SendModal.SendModalState.OnSubmitted | packages/nextjs/components/SendModalPopup.tsx:166-170 | step 2 and the transaction hash is recorded |
| SendModal.SendModalState.OnSubmitRejected | packages/nextjs/components/SendModalPopup.tsx:171-181 | the error toast, not processing, and the modal cleaned and closed |
| SendModal.SendModalState.OnReceipt | packages/nextjs/components/SendModalPopup.tsx:184-205 | with a log, step 3 and the contract id is sent with the invoice and hash; without one, nothing changes |
| SendModal.SendModalState.CancelPayment | packages/nextjs/components/SendModalPopup.tsx:282-286 | the invoice, input and contract id are cleared |
| ReceiveStep.MaxAmount | packages/nextjs/components/receive-steps/Step1.tsx:41 | there is an upper bound iff a configuration with a non-zero maximum exists, and that bound is the configured `maxSats` |
| ReceiveStep.AmountError | packages/nextjs/components/receive-steps/Step1.tsx:39-49 | no error iff the amount is neither below the minimum nor above the maximum; the below-minimum message comes first |
| ReceiveStep.UnconfiguredAcceptsAll | packages/nextjs/components/receive-steps/Step1.tsx:40-43 | without limits every amount is accepted |
| ReceiveStep.InRangeAccepted | packages/nextjs/components/receive-steps/Step1.tsx:42-43 | an amount within the limits, and the amount 0, have no error |
| ReceiveStep.GenerateEnabledIffAsWritten | packages/nextjs/components/receive-steps/Step1.tsx:42-53 | as written, the invoice button is on iff the signed amount is non-zero and within limits, there is no invoice yet, the signer is active and the recipient is a non-empty valid address |
| ReceiveStep.NegativeAmountEnabled | packages/nextjs/components/receive-steps/Step1.tsx:42-53 | the amount -5 with minimum 1000 has no error and enables the button as written, and the corrected button is off |
| ReceiveStep.GenerateEnabledIff | packages/nextjs/components/receive-steps/Step1.tsx:51-53 | the corrected invoice button is on iff the amount is positive and within limits, there is no invoice yet, the signer is active and the recipient is a non-empty valid address; on non-negative amounts it agrees with the button as written |
| ReceiveStep.ServiceFee | packages/nextjs/components/receive-steps/Step1.tsx:56-58 | no configuration costs 0; an amount of 0 costs the base fee |
| ReceiveStep.ServiceFeeMonotone | packages/nextjs/components/receive-steps/Step1.tsx:56-58 | a larger amount never costs less, and the difference is the basis-point share of the amount difference |
| PaymentInvoice.SatoshiBalance | packages/nextjs/components/PaymentInvoice.tsx:45 | an unknown balance counts as 0 sats; a known one is its BTC value times 10^8 |
| PaymentInvoice.UnknownBalanceInsufficient | packages/nextjs/components/PaymentInvoice.tsx:45-63 | an unknown balance never covers a positive invoice |
| PaymentInvoice.PayLabel | packages/nextjs/components/PaymentInvoice.tsx:131 | "Already Paid" first, then "Insufficient Balance", and "Pay" iff neither holds |
| PaymentInvoice.EnabledPayReadsPay | packages/nextjs/components/PaymentInvoice.tsx:128-131 | an enabled Pay button always reads "Pay" |
| PaymentInvoice.PayEnabledIff | packages/nextjs/components/PaymentInvoice.tsx:62-63 | Pay is on iff the step is not 2 or 3, the signer is active, no transaction carries the invoice and the balance covers it |
| PaymentInvoice.StepMarkersConsistent | packages/nextjs/components/PaymentInvoice.tsx:95-100 | at most one marker is loading and it is not done; at step 4 all are done |
| Connected.FindByContractId | packages/nextjs/components/ConnectedInterface.tsx:42 | the first previous transaction with the contract id, or nothing iff there is none |
| Connected.NotificationFor | packages/nextjs/components/ConnectedInterface.tsx:41-55 | a notification iff the transaction had a previous entry with another status and is now COMPLETED or FAILED; "Payment" for sent, "Receipt" otherwise |
| Connected.NotesHaveCause | packages/nextjs/components/ConnectedInterface.tsx:41-56 | every notification of a run comes from a transaction of the new list that changed status |
| Connected.UnchangedListIsQuiet | packages/nextjs/components/ConnectedInterface.tsx:41-56 | comparing a list with distinct contract ids with itself gives no notification |
| Connected.CollectNotifications | packages/nextjs/components/ConnectedInterface.tsx:41-56 | the loop emits exactly the notifications of the specification, in list order |
| Connected.StatusWatcher.constructor | packages/nextjs/components/ConnectedInterface.tsx:30 | the snapshot is the initial list and nothing is shown |
| Connected.StatusWatcher.OnTransactions | packages/nextjs/components/ConnectedInterface.tsx:34-59 | the snapshot becomes the current list, and notifications are added only when both lists are non-empty |
| Connected.NextVisibility | packages/nextjs/components/ConnectedInterface.tsx:99 | a click moves 0 to 1, 1 to 2 and 2 back to 0 |
| Connected.VisibilityCycles | packages/nextjs/components/ConnectedInterface.tsx:99 | three clicks restore the display, and one always changes it |
| Connected.BalanceShown | packages/nextjs/components/ConnectedInterface.tsx:80-91 | "loading" iff the balance is unknown; with a balance, 0 shows sats, 1 USD, 2 hidden, each iff, and nothing only for a visibility outside 0–2 |
| Connected.ButtonsEnabledIff | packages/nextjs/components/ConnectedInterface.tsx:119 | Send and Receive are on iff connected, with a known balance and an address |
| Connected.EnabledButtonsShowBalance | packages/nextjs/components/ConnectedInterface.tsx:80-136 | whenever Send and Receive are on, the balance display is past its loading state and shows one of its three forms |
| Relay.IsRelayRequest | packages/relay-server/src/app.ts:63 | the shape test: kind RELAY_REQUEST with a non-empty contract id and preimage |
| History.TimelockPassed | packages/nextjs/components/HistoryTable.tsx:86 | `Number(timelock) < Date.now() / 1000`, with now in milliseconds |
| History.ToTxStatus | packages/nextjs/components/HistoryTable.tsx:102 | the upper-cased derived status |
| History.ToTransaction | packages/nextjs/components/HistoryTable.tsx:110-118 | the fields of one displayed transaction: derived status, date in ms, amount in sats, hash, contract id, timelock, sender and direction |
| History.Reclaimable | packages/nextjs/components/HistoryTable.tsx:197 | SENT and EXPIRED or FAILED |
| History.RefundFromRowAsWritten | packages/nextjs/components/HistoryTable.tsx:428 | the click on a displayed row as written: the refund guards are applied to, and the refund made for, the STORED list's transaction at that index |
| Dashboard.LevelColor | packages/relay-server/src/dashboard.ts:155-168 | the colour tag of each level |
| Dashboard.RenderLine | packages/relay-server/src/dashboard.ts:286 | a log line: grey timestamp, level colour, message |
| Dashboard.ShouldDisplay | packages/relay-server/src/dashboard.ts:281-285 | the display test, with an empty filter counting as none |
| Logging.FileLoggerAccepts | packages/relay-server/src/logger.ts:46 | the file logger's level "info" keeps every level but debug |
| Logging.FormatMessage | packages/relay-server/src/logger.ts:73-88 | the arguments joined with single spaces |
| Indexer.EntityId | packages/indexer/src/EventHandlers.ts:13 | `chainId_blockNumber_logIndex` in decimal |
| SendModal.Tracks | packages/nextjs/components/SendModalPopup.tsx:48-50 | the newest transaction exists and carries the recorded invoice |
| ReceiveStep.MinAmount | packages/nextjs/components/receive-steps/Step1.tsx:40 | `minSats || 0` |
| ReceiveStep.IsBelowMin | packages/nextjs/components/receive-steps/Step1.tsx:42 | `0 < amount < minAmount` |
| ReceiveStep.IsAboveMax | packages/nextjs/components/receive-steps/Step1.tsx:43 | a finite maximum exists and the amount exceeds it |
| ReceiveStep.IsGenerateQRDisabledAsWritten | packages/nextjs/components/receive-steps/Step1.tsx:51-53 | amount 0, an invoice already made, or an amount error |
| ReceiveStep.IsGenerateQRDisabled | packages/nextjs/components/receive-steps/Step1.tsx:51-53 | corrected: an amount that is not positive, an invoice already made, or an amount error |
| ReceiveStep.GenerateButtonDisabledAsWritten | packages/nextjs/components/receive-steps/Step1.tsx:114 | `isGenerateQRDisabled` as written, or no recipient, an inactive signer or an invalid address |
| ReceiveStep.GenerateButtonDisabled | packages/nextjs/components/receive-steps/Step1.tsx:114 | the corrected `isGenerateQRDisabled`, or no recipient, an inactive signer or an invalid address |
| PaymentInvoice.IsPaid | packages/nextjs/components/PaymentInvoice.tsx:41-44 | some transaction carries the invoice |
| PaymentInvoice.InsufficientBalance | packages/nextjs/components/PaymentInvoice.tsx:63 | the balance in sats is below the invoice amount |
| PaymentInvoice.IsPaymentDisabled | packages/nextjs/components/PaymentInvoice.tsx:62 | step 2 or 3, or an inactive signer |
| PaymentInvoice.PayDisabled | packages/nextjs/components/PaymentInvoice.tsx:128 | `isPaymentDisabled`, paid, or insufficient balance |
| PaymentInvoice.StepDone | packages/nextjs/components/PaymentInvoice.tsx:95 | marker i is done iff i < step |
| PaymentInvoice.StepLoading | packages/nextjs/components/PaymentInvoice.tsx:100 | marker i is loading iff i == step |
| PaymentInvoice.ShowsPayActions | packages/nextjs/components/PaymentInvoice.tsx:107 | Cancel and Pay are shown iff step < 2 |
| Connected.ButtonsDisabled | packages/nextjs/components/ConnectedInterface.tsx:119 | not connected, no balance or no address |

## Left out

- SHA-256 and the hex decoding of the preimage are the function parameter `digest`; only the comparison with the hashlock is modelled.
- The ledger reads, `withdraw`, `tx.wait`, RPC, the HTTP layer, cors, dotenv and `process.exit` are left out; what the ledger returns and how the withdrawal ends are inputs.
- Relay.RelayServer.HandleRelay: handles one request at a time; interleaving of concurrent requests across `await` points is not modelled, and neither are the handler's log lines.
- The dashboard's blessed widgets, key bindings, click handlers, `setInterval` refresh, balance fetch and `formatEther` are not modelled; the log box and the tables are sequences of strings and rows.
- Dashboard.RelayServerDashboard.constructor: does not call `logger.setDashboard(this)`; the caller does so with `Logging.Logger.SetDashboard`.
- Dashboard.RelayServerDashboard.AddLogEntry: the `try`/`catch` around widget updates is not modelled, because widget errors are not part of the model.
- Winston's internals, daily file rotation, `JSON.stringify` of object arguments and the console patching of `install` are not modelled; arguments arrive as strings.
- Floating-point amounts are reals, with exact arithmetic (wei to sats, BTC to sats, the service fee); USD conversions and display formatting are not modelled.
- Lower-casing is ASCII-only; JavaScript's full Unicode case mapping is not modelled.
- The `kind` values and server-status names are symbolic; a field missing from a request body is the empty string.
- The decoded invoice, `JSON.parse`, `randomBytes`, clipboard, toasts' rendering, GraphQL queries and the WebSocket object itself are inputs or are not modelled.
- Timers are not modelled: a delayed `cleanAndClose` is the flag `closeScheduled`, and `setDbUpdated` is left out.
- SendModal.SendModalState: every handler reads the current state; React's stale closures (a delayed close that sees an old `processingPayment`) are not modelled.
- The constant `GWEIPERSAT` is the parameter `weiPerSat` of `SendModal.SendModalState.SubmitPayment`, and the LSP address setting is the parameter `lspAddress`.
- The WebSocket reconnect attempt, `checkAndReconnect`, `onerror` and the hook's cleanup are not modelled; `WebSocket.WebSocketClient.OnOpen` follows the hook as written, and the corrected `WebSocket.Open` is what `WebSocket.ReplayCoherent` is proved about.
- The balance-change animation effect of ConnectedInterface.tsx (lines 61-78) is not modelled.
- History.TooltipText: the locale date text is the parameter `redeemableAt`.
- History.GetFilteredTransactions: states sorted and a permutation, but not the order among transactions with equal dates that the stable JavaScript sort keeps.
- The history refetch effect and the GraphQL query are left out; query results are the input `QueryData`.
- ReceiveModalPopup.tsx (relay call, secret generation, UI steps) and the pure UI files are not part of this model.
- packages/indexer/test/Test.ts is not part of this model; only the id format it shows is used.
- ReceiveStep: `Number(amount)` is taken as exact; the rounding of amounts beyond 2^53 when a `bigint` becomes a JavaScript number is not modelled.

## Findings

| source | as written | input that shows it | evidently intended | confidence | as-written member | corrected member |
|---|---|---|---|---|---|---|
| packages/nextjs/components/HistoryTable.tsx:428 | the refund button passes the row index of the sorted, filtered view to `initiateRefund`, which looks it up in the stored list | stored list [a EXPIRED at date 1000, b PENDING at date 2000], filter off: the view shows [b, a], so a's button is on row 1, and the click looks up stored[1] = b and refunds nothing (`History.RefundRowMismatch`) | the refund concerns the transaction displayed on the clicked row | not executed | History.RefundFromRowAsWritten | History.RefundFromRow |
| packages/nextjs/hooks/useWebSocket.tsx:42-53 | `onopen` clears the reconnect interval but leaves the ref set, and `onclose` starts a timer only when the ref is empty | close, open, close: after the second close no reconnect timer runs (see `WebSocket.SecondCloseHasNoTimer`) | the ref is emptied when the interval is cleared, so each disconnect starts a reconnect timer | not executed | WebSocket.OpenAsWritten | WebSocket.Open |
| packages/nextjs/components/receive-steps/Step1.tsx:42-52 | the amount is a signed `bigint`; `isBelowMin` needs a positive amount and `isGenerateQRDisabled` refuses only 0, so a negative amount passes the limit check | amount -5, no invoice, `minSats` 1000, no maximum, active signer, valid address: no amount error and the "Generate Service Fee Invoice" button is enabled (`ReceiveStep.NegativeAmountEnabled`) | only a positive amount within the limits enables the button | not executed | ReceiveStep.GenerateEnabledIffAsWritten | ReceiveStep.GenerateEnabledIff |
