# Pending requests, reviewer buttons and order flows of a Telegram shop bot

This project models the core of a Telegram bot that sells game top-ups, phone units and bill
payments against a wallet. Customers build an order step by step in a per-user state
(`user_net_state`, `user_states`, `user_orders`/`pending_orders`). When they confirm, a row is
added to the pending-requests table. The reviewer is offered the oldest pending row with
*postpone* and *approve* buttons. Approving shows *cancel* and *confirm*. Confirming deducts
the row's total from the customer's wallet and deletes the row. Cancelling deletes it and moves
no money. The admin handlers do several jobs:
- delete rows by `/done_N` and `/cancel_N`;
- approve or reject rows by button;
- credit wallets from `confirm_add_…` buttons;
- log agents' secret-code transfers and report them.

The modules follow the source files:

- `Common`: `Option`, and `Outcome` (how a handler ends: completed, refused, ignored, raised).
- `PyText`: the Python string behaviour the handlers rely on: `str(int)`, `int(str)` (with `strip`, sign, `_` groups), `split`/`join`, `startswith`, the `\d+` run, negative indexing, the `,` thousands format.
- `Backend`: the request table, the wallets and the outgoing messages: a pure `Store` value with one function per table operation, and the classes `RequestStore` and `Outbox` whose methods are proved equal to those functions.
- `QueueService` (services/queue_service.py): `process_queue` and the four reviewer buttons.
- `Admin` (handlers/admin.py): `/done_N`, `/cancel_N`, admin approve/reject, wallet top-up confirm/reject, secret codes, the agents' report.
- `InternetProviders` (handlers/internet_providers.py): commission, phone normalisation, the ADSL payment steps.
- `Products` (handlers/products.py): catalogue, price tiers, product lookup, the order steps and the one-open-order guard.
- `BillAndUnits` (handlers/bill_and_units.py): unit price lists and labels, the units menu steps, the unit confirm, the bill balance check.

Each handler is written twice:
- a pure *step function* from the old state (store, message log, per-user dictionary) to the new state and an `Outcome`; the lemmas state what the source promises about these functions;
- a method on the class that holds the state, doing the effects one after the other in the source's order, and proved equal to the step function.

Three product handlers have a defect (see Findings): `on_select_product`, `handle_player_id` and `final_confirm_order`. For these, `SelectProductStep`, `PlayerIdStep` and `FinalConfirmStep`, and the `Products.Orders` methods built on them, model the corrected behaviour. `SelectProductAsWritten`, `PlayerIdAsWritten` and `FinalConfirmAsWritten` model the code as it stands, and lemmas compare the two.

A Python exception that escapes a handler is the outcome `Raised`, and effects made before it are kept. Where a handler's registration filter tests the callback data or the message text (a prefix, a pattern, one button text), its step function takes that data or text and ends `Ignored` exactly when the filter does not match. This includes the `^postpone_`, `^approve_`, `^confirm_` and `^cancel_` patterns of `setup_dispatcher`. A handler registered for one exact callback or one exact button text takes no data or text and never ends `Ignored`: it is modelled as called only for that callback or text. Examples are `syr_unit_final_confirm`, the internet-providers menu button (`OpenMenuStep`), the units menu buttons (`ResetStep`) and the products menu buttons (`MainMenuStep`).

The database module is not part of this model. The handlers import `add_pending_request` and `delete_pending_request` from services/queue_service.py, which does not define them (see Left out). These functions are modelled from how the handlers use them:
- `get_next_request` returns the oldest row, in creation order, whose status is pending.
- `postpone_request` moves the row to the back of that order.
- `delete_request` and `delete_pending_request` remove the row. Deleting a missing row does nothing.
- `add_pending_request` adds a pending row with a fresh id at the back of the order.

How the queue behaves in the code:
- The reviewer handlers delete a resolved row. The queue has no `processing` status, no single-flight claim, no cooldown and no retry.
- Postpone keeps the row and moves it to the back of the queue.
- A confirm or cancel button for a missing id raises, because `req` is `None`. It is not acknowledged as "already handled". Either way no money moves and nothing is deleted twice.
- `final_confirm_order` adds the user to `pending_orders` but never checks it, so as written a second press queues the order again. `FinalConfirmStep` adds the missing check (see Findings).

## Model

| member | source | states |
|---|---|---|
| `PyText.NatStrValue` | services/queue_service.py:43-44 | the decimal text written for a natural number consists of digits and reads back as that number |
| `PyText.ParseIntStr` | services/queue_service.py:70 | `int(str(n)) == n` for every integer n, negative ones included |
| `PyText.StripNoSpaceEnds` | handlers/admin.py:210 | stripping a text that has no whitespace at either end leaves it unchanged |
| `PyText.Strip` | handlers/admin.py:210 | the stripped text begins and ends with a non-space character, or is empty |
| `PyText.StripSlice` | handlers/admin.py:210 | `strip` keeps one slice of the text and drops only whitespace on either side of it |
| `PyText.StrIsStripped` | handlers/admin.py:219 | `str(n)` has nothing for `strip` to remove |
| `PyText.Split` | services/queue_service.py:70 | `split` always yields at least one part |
| `PyText.SplitJoin` | handlers/admin.py:123 | splitting the joined parts gives the parts back when no part contains the separator |
| `PyText.JoinSplit` | handlers/admin.py:123 | joining the parts of a split gives the text back |
| `PyText.DigitRun` | handlers/admin.py:53 | the `\d+` match is a prefix, all digits, and stops at the first non-digit |
| `PyText.DigitRunOf` | handlers/admin.py:53 | the digit run of digits followed by a non-digit is exactly those digits |
| `PyText.PyIndex` | handlers/internet_providers.py:125 | Python indexing: defined exactly for `-len <= i < len`, counting from the end for negative i |
| `Backend.Remove` | services/queue_service.py:128 | the queue order without the id: the same other ids, still distinct |
| `Backend.MoveToBack` | services/queue_service.py:75-76 | the postponed id is last, the others keep their relative order |
| `Backend.Postponed` | services/queue_service.py:76 | postponing keeps every row and every balance and the table's invariant |
| `Backend.Deleted` | services/queue_service.py:128 | deleting removes exactly that key; other rows and all balances are unchanged |
| `Backend.Added` | handlers/internet_providers.py:197-210 | a new pending row with a fresh id, at the back of the queue, chat = user, no balance change |
| `Backend.DistinctAppend` | handlers/internet_providers.py:197 | appending a fresh id keeps the queue order free of repeats |
| `Backend.Deducted` | services/queue_service.py:125 | exactly that user's balance goes down by the amount; rows and order untouched |
| `Backend.Credited` | handlers/admin.py:127 | exactly that user's balance goes up by the amount; rows and order untouched |
| `Backend.Registered` | handlers/admin.py:126 | registering creates the wallet if missing and changes no balance |
| `Backend.WithAdminMessage` | services/queue_service.py:50 | only that row's admin message id is set |
| `Backend.WithDetailMessage` | services/queue_service.py:115 | only that row's detail message id is set |
| `Backend.WithStatus` | handlers/admin.py:128-131 | only that row's status changes; a missing id changes nothing |
| `Backend.FirstPending` | services/queue_service.py:29 | the first pending position of the queue order, or none when nothing is pending |
| `Backend.NextRequestIsOldestPending` | services/queue_service.py:28-31 | the next request is none exactly when no row is pending; otherwise it is a stored pending row with no pending row before it |
| `Backend.PostponedIsOfferedLast` | services/queue_service.py:75-76 | after postponing, if another row is pending, the next request is not the postponed one |
| `Backend.FirstPendingAt` | services/queue_service.py:29 | a pending position with nothing pending before it is the one selected |
| `Backend.FirstInFirstOut` | services/queue_service.py:28-29 | on an idle queue, of two added requests the first is offered first and the second once the first is deleted |
| `Backend.FifoFromIdle` | services/queue_service.py:28-29 | the same first-in-first-out order, from only the facts it needs: nothing queued is pending and the fresh id is not queued |
| `Backend.FirstOfTwoOffered` | services/queue_service.py:28-29 | of two requests queued behind rows that are not pending, the first is offered |
| `Backend.SecondOfTwoOffered` | services/queue_service.py:28-29 | once the first of the two is deleted, the second is offered |
| `Backend.OnlyPendingOffered` | services/queue_service.py:29 | when exactly one queued row is pending, it is the next one offered |
| `Backend.RequestStore.constructor` | services/queue_service.py:4 | an empty table with ids from 1 |
| `Backend.RequestStore.Get` | services/queue_service.py:82 | `get_request`: the row or none |
| `Backend.RequestStore.Next` | services/queue_service.py:29 | `get_next_request` is `NextRequest` of the table |
| `Backend.RequestStore.Postpone` | services/queue_service.py:76 | the new table is `Postponed` of the old |
| `Backend.RequestStore.Delete` | services/queue_service.py:128 | the new table is `Deleted` of the old |
| `Backend.RequestStore.Add` | handlers/admin.py:233 | returns the fresh id; the new table is `Added` of the old |
| `Backend.RequestStore.Deduct` | services/queue_service.py:125 | the new table is `Deducted` of the old |
| `Backend.RequestStore.Credit` | handlers/admin.py:127 | the new table is `Credited` of the old |
| `Backend.RequestStore.Register` | handlers/admin.py:126 | the new table is `Registered` of the old |
| `Backend.RequestStore.GetBalance` | handlers/bill_and_units.py:196 | the user's balance, 0 without a wallet |
| `Backend.RequestStore.SetAdminMessage` | services/queue_service.py:50 | the new table is `WithAdminMessage` of the old |
| `Backend.RequestStore.SetDetailMessage` | services/queue_service.py:115 | the new table is `WithDetailMessage` of the old |
| `Backend.RequestStore.SetStatus` | handlers/admin.py:128-131 | the new table is `WithStatus` of the old |
| `Backend.Outbox.constructor` | services/queue_service.py:47 | no message sent yet |
| `Backend.Outbox.Send` | services/queue_service.py:47 | appends one message and returns its position as the message id |
| `QueueService.CallbackRoundTrip` | services/queue_service.py:43-44 | `int(f"{prefix}_{id}".split("_")[1]) == id` for every id when the prefix has no `_` |
| `QueueService.OfferButtonsCarryId` | services/queue_service.py:42-45 | both queue buttons parse back to the offered request's id |
| `QueueService.CallbackDataStartsWith` | services/queue_service.py:158-162 | a button's data begins with its prefix and `_`, so it matches the pattern registered for that prefix |
| `QueueService.OfferButtonsRouted` | services/queue_service.py:42-45 | the postpone button reaches only `handle_postpone` and the approve button only `handle_approve` |
| `QueueService.OfferKeepsRequests` | services/queue_service.py:47-50 | offering a request only records the message id: no row's user, status or payload changes, nor the next id |
| `QueueService.DetailButtonsCarryId` | services/queue_service.py:107-110 | both detail buttons parse back to the approved request's id |
| `QueueService.DetailButtonsRouted` | services/queue_service.py:107-110 | the cancel button reaches only `handle_cancel` and the confirm button only `handle_confirm` |
| `QueueService.ProcessQueueStep` | services/queue_service.py:24-50 | offering never changes the queue order, the keys or the balances, and sends at most one message |
| `QueueService.FirstPendingSameStatus` | services/queue_service.py:50 | recording a message id does not change which request is next |
| `QueueService.ProcessQueueOffersOldest` | services/queue_service.py:24-50 | empty queue: nothing sent and nothing changed. Otherwise one offer of the oldest pending request is sent to the queue admin, with its total and buttons carrying its id, and its message id is stored on that row alone |
| `QueueService.ApproveOnlyRecordsDetail` | services/queue_service.py:90-115 | approve moves no money and deletes nothing; it sends one detail message with cancel/confirm for that id and records its message id |
| `QueueService.ConfirmDeductsTotal` | services/queue_service.py:118-138 | confirm deducts exactly the row's total from its user and nobody else, removes that row only, and every other row keeps its user, status and payload; it tells the user, then offers the next request exactly when one is pending |
| `QueueService.CancelMovesNoMoney` | services/queue_service.py:141-155 | cancel removes the row with no balance change, tells the user, and offers the next request when one is pending |
| `QueueService.ResolvedButtonsAreNoOps` | services/queue_service.py:118-155 | approve, confirm and cancel for an id no longer in the table raise before changing anything |
| `QueueService.ConfirmTwiceDeductsOnce` | services/queue_service.py:118-138 | a second confirm of the same id raises and deducts nothing more |
| `QueueService.PostponeRequeuesAtBack` | services/queue_service.py:68-87 | postpone keeps the row and the money, puts the row last, notifies the reviewer then the user, and when another row is pending the next offer is for another row |
| `QueueService.ProcessQueue` | services/queue_service.py:24-50 | the method's effects equal `ProcessQueueStep` |
| `QueueService.PostponeStep` | services/queue_service.py:68-87 | ignored, with nothing changed, exactly when the data does not match the `^postpone_` pattern it is registered with (lines 158-162) |
| `QueueService.ApproveStep` | services/queue_service.py:90-115 | ignored, with nothing changed, exactly when the data does not match the `^approve_` pattern it is registered with (lines 158-162) |
| `QueueService.ConfirmStep` | services/queue_service.py:118-138 | ignored, with nothing changed, exactly when the data does not match the `^confirm_` pattern it is registered with (lines 158-162) |
| `QueueService.CancelStep` | services/queue_service.py:141-155 | ignored, with nothing changed, exactly when the data does not match the `^cancel_` pattern it is registered with (lines 158-162) |
| `QueueService.HandlePostpone` | services/queue_service.py:68-87 | the method's effects equal `PostponeStep` |
| `QueueService.HandleApprove` | services/queue_service.py:90-115 | the method's effects equal `ApproveStep` |
| `QueueService.HandleConfirm` | services/queue_service.py:118-138 | the method's effects equal `ConfirmStep` |
| `QueueService.HandleCancel` | services/queue_service.py:141-155 | the method's effects equal `CancelStep` |
| `Admin.CommandId` | handlers/admin.py:51-53 | a number is read exactly when the text starts with the command followed by a digit |
| `Admin.CommandIdRoundTrip` | handlers/admin.py:51-53 | `/done_` + N + text not starting with a digit reads back N |
| `Admin.CommandDeletesRow` | handlers/admin.py:51-61 | `/done_N…` and `/cancel_N…` delete row N whatever its state, touch no other row and no balance, and send one reply |
| `Admin.HandleCommand` | handlers/admin.py:51-61 | the method's effects equal `CommandStep` |
| `Admin.LastPartRoundTrip` | handlers/admin.py:66 | `int(data.split("_")[-1])` reads back the id written last |
| `Admin.AdminDecisionAbsentIsNoOp` | handlers/admin.py:63-74 | approving or rejecting an absent id only answers "not found": no message, no deletion |
| `Admin.AdminDecisionNotifiesOnce` | handlers/admin.py:63-116 | a present id gets one message, to that row's user, then the row is deleted; pressing again is a no-op |
| `Admin.HandleAdminDecision` | handlers/admin.py:63-116 | the method's effects equal `AdminDecisionStep` |
| `Admin.WalletAddFields` | handlers/admin.py:123-125 | the user and the amount are read from the third and fourth of exactly four `_` parts |
| `Admin.WalletAddRoundTrip` | handlers/admin.py:123-125 | four parts written with `_` read back as that user and amount |
| `Admin.MalformedTopUpChangesNothing` | handlers/admin.py:121-143 | data not splitting into four parts credits nothing, marks nothing, and reports the error |
| `Admin.TopUpCreditsAmount` | handlers/admin.py:121-140 | a well-formed top-up credits exactly the amount to exactly that user, marks the row done, and notifies the user then the admin |
| `Admin.ConfirmWalletAdd` | handlers/admin.py:120-143 | the method's effects equal `ConfirmWalletAddStep` |
| `Admin.RejectWalletAddStep` | handlers/admin.py:145-152 | a readable user id prompts for a reason; nothing else changes |
| `Admin.RejectionMovesNoMoney` | handlers/admin.py:154-166 | a rejection moves no money, marks only that row cancelled, and tells only that user the stripped reason |
| `Admin.ProcessRejection` | handlers/admin.py:154-166 | the method's effects equal `ProcessRejectionStep` |
| `Admin.VerifyCodeStep` | handlers/admin.py:209-215 | a code is accepted exactly when its stripped text is one of the valid codes; one reply either way |
| `Admin.Recorded` | handlers/admin.py:226-227 | `setdefault(code, []).append(entry)`: one entry appended under that code and other codes untouched; a new code is listed last |
| `Admin.NonIntegerAmountRefused` | handlers/admin.py:217-222 | a non-integer amount leaves the log, the wallets and the table unchanged |
| `Admin.StripIdempotent` | handlers/admin.py:219 | stripping before `int()` is the same as `int()` of the text |
| `PyText.ParseIntOfStripped` | handlers/admin.py:219 | two texts that strip to the same text parse to the same integer, or both fail |
| `Admin.AmountIsLoggedAndCredited` | handlers/admin.py:217-233 | for any text `int()` accepts (spaces around it, a sign, leading zeros, `_` groups), that amount is logged once under the code, credited to the wallet, and queued as one pending request at the back |
| `Admin.EntryLines` | handlers/admin.py:181-182 | one report line per operation, in order |
| `Admin.AppendEntries` | handlers/admin.py:181-182 | the inner report loop appends exactly the lines of that code's operations, in order |
| `Admin.ReportListsEveryEntry` | handlers/admin.py:178-183 | every code's heading and every logged operation appear in the report |
| `Admin.ReportInventsNothing` | handlers/admin.py:178-183 | every report line is a logged code's heading or one of its logged operations |
| `Admin.AgentLedger.constructor` | handlers/admin.py:32-34 | an empty log |
| `Admin.AgentLedger.ConfirmAmount` | handlers/admin.py:217-233 | the method's effects equal `ConfirmAmountStep` |
| `Admin.AgentLedger.Record` | handlers/admin.py:226-228 | the new log is `Recorded` of the old one: the entry appended under its code |
| `Admin.AgentLedger.GenerateReport` | handlers/admin.py:170-183 | non-admins get nothing. An empty log gets the "none yet" message. Otherwise one message lists every code and its operations |
| `InternetProviders.CalculateCommission` | handlers/internet_providers.py:37-41 | 0 for amounts ≤ 0; otherwise 600 for every started block of 5000 (the number of blocks is the amount divided by 5000, rounded up) |
| `InternetProviders.CommissionMonotone` | handlers/internet_providers.py:37-41 | a larger amount never has a smaller commission |
| `InternetProviders.KeepPhoneChars` | handlers/internet_providers.py:32 | the reference: only `+` and digit characters |
| `InternetProviders.RunsAreKeptChars` | handlers/internet_providers.py:79 | joining the `[+\d]+` runs gives exactly the `+`/digit characters |
| `InternetProviders.NormalizePhone` | handlers/internet_providers.py:77-79 | the result is exactly the `+`/digit characters of the input, in order |
| `InternetProviders.NormalizePhoneIdempotent` | handlers/internet_providers.py:77-79 | normalising twice is normalising once |
| `InternetProviders.OpenMenuStep` | handlers/internet_providers.py:87-119 | the user's entry is reset to `{step: choose_provider}` and nothing else; others untouched |
| `InternetProviders.ChooseProviderStep` | handlers/internet_providers.py:96-108 | accepted exactly when the name is a listed provider; a refused name leaves every entry unchanged |
| `InternetProviders.ChooseSpeedStep` | handlers/internet_providers.py:122-132 | ignored exactly when the data lacks the `ispeed:` prefix; completes exactly when the index after it is a number that indexes `INTERNET_SPEEDS` (negative ones too), and then stores that row's caption and price; provider and phone are kept |
| `InternetProviders.BackToSpeedStep` | handlers/internet_providers.py:135-143 | a user without an entry raises KeyError; otherwise only the step changes |
| `InternetProviders.CancelStep` | handlers/internet_providers.py:146-147 | the user's entry is gone and others untouched |
| `InternetProviders.CancelIdempotent` | handlers/internet_providers.py:146-147 | cancelling twice is cancelling once |
| `InternetProviders.PhoneEntryStep` | handlers/internet_providers.py:154-178 | refused exactly when the normalised number is shorter than 5, with nothing changed; a valid number in the phone step always moves the entry to confirm with that number, completing exactly when provider, speed and price are set |
| `InternetProviders.ConfirmStep` | handlers/internet_providers.py:181-215 | only an entry at the confirm step submits anything |
| `InternetProviders.ConfirmQueuesPricePlusCommission` | handlers/internet_providers.py:184-210 | confirm queues one request at the back whose total is the price plus its commission, for a listed speed and a valid phone; no money moves |
| `InternetProviders.ConfirmQueuesBill` | handlers/internet_providers.py:184-210 | confirm queues, at the back and pending, one request for that user whose payload is the session's bill; balances are untouched |
| `InternetProviders.NetSessions.constructor` | handlers/internet_providers.py:31 | no entries |
| `InternetProviders.NetSessions.OpenMenu` | handlers/internet_providers.py:87-93 | equals `OpenMenuStep` and keeps every entry valid |
| `InternetProviders.NetSessions.ChooseProvider` | handlers/internet_providers.py:96-108 | equals `ChooseProviderStep` and keeps every entry valid |
| `InternetProviders.NetSessions.ChooseSpeed` | handlers/internet_providers.py:122-132 | equals `ChooseSpeedStep` and keeps every entry valid |
| `InternetProviders.NetSessions.BackToSpeed` | handlers/internet_providers.py:135-143 | equals `BackToSpeedStep` and keeps every entry valid |
| `InternetProviders.NetSessions.Cancel` | handlers/internet_providers.py:146-147 | equals `CancelStep` and keeps every entry valid |
| `InternetProviders.NetSessions.PhoneEntry` | handlers/internet_providers.py:154-178 | equals `PhoneEntryStep` and keeps every entry valid |
| `InternetProviders.NetSessions.Confirm` | handlers/internet_providers.py:181-215 | the effects equal `ConfirmStep` |
| `Products.RatePerDollar` | handlers/products.py:46-53 | each tier exactly: 11800 up to $5, 11600 above $5 up to $10, 11300 above $10 up to $20, 11000 above $20 |
| `Products.RateNonIncreasing` | handlers/products.py:46-53 | a dearer product never gets a higher rate |
| `Products.ConvertPriceUsdToSyp` | handlers/products.py:46-53 | the pound price lies between 110 and 118 pounds per cent |
| `Products.FirstWithId` | handlers/products.py:152-159 | the product found has that id; none means no product has it |
| `Products.ProductIdsAreOneToSeventeen` | handlers/products.py:19-43 | the catalogue holds ids 1 to 17 in order |
| `Products.ProductIdsDistinct` | handlers/products.py:19-43 | two catalogue products with the same id are the same product |
| `Products.CatalogueEntry` | handlers/products.py:19-43 | every catalogue product has category "ألعاب" and a positive price |
| `Products.GamesIsNotAKey` | handlers/products.py:19-43 | "ألعاب" is not one of the game keys, so it lists no products |
| `Products.CatalogueFlattens` | handlers/products.py:19-43 | the game lists, in the dict's order, joined together are the whole catalogue |
| `Products.ProductByIdRange` | handlers/products.py:150-162 | a product is found exactly for ids 1 to 17, and it is the one with that id |
| `Products.OptionsInCatalogue` | handlers/products.py:62-63 | every listed option is a catalogue product |
| `Products.FindProduct` | handlers/products.py:150-162 | the nested search with `break` returns the first product with that id across the game lists in order; on the catalogue lists that is `ProductById` |
| `Products.KeyOf` | handlers/products.py:19-43 | each product is listed under its game |
| `Products.MainMenuStep` | handlers/products.py:107-114 | refused exactly when an order is waiting; orders untouched |
| `Products.GameMenuStep` | handlers/products.py:128-142 | ignored exactly for a text that is not a game button; for a game button, refused exactly while an order waits, with nothing changed, and otherwise always a fresh order for that game |
| `Products.SelectProductStep` | handlers/products.py:145-167 | corrected definition of Findings row 1: ignored exactly without the `select_` prefix; refused while an order waits; for a numeric id, completes exactly when a product has that id, storing it with the game it is listed under |
| `Products.SelectProductErrors` | handlers/products.py:150-162 | a non-numeric id raises, and a number no product carries is refused; either way nothing changes |
| `Products.SelectProductAsWritten` | handlers/products.py:145-167 | as written: a completed selection records the category "ألعاب" |
| `Products.SelectAsWrittenDiffersInCategoryOnly` | handlers/products.py:163 | the handler as written and the corrected one end alike on every update and store the same product; only the recorded category differs |
| `Products.SelectThenBackListsNothing` | handlers/products.py:163-174 | as written, after selecting any product the back button lists no product |
| `Products.SelectThenBackListsItsGame` | handlers/products.py:163-174 | with the game kept, the back button lists the selected product's game |
| `Products.BackToProductsOptions` | handlers/products.py:169-174 | the back button lists only catalogue products, and for a well-formed order with a product it lists a game that contains that product |
| `Products.PlayerIdStep` | handlers/products.py:75-85 | corrected definition of Findings row 3: refused exactly without an order with a product, with nothing changed; with one, always completes and stores the stripped player id |
| `Products.PlayerIdAsWritten` | handlers/products.py:75-76 | as written: raises before touching the orders, whatever the text |
| `Products.NoOrderEverQueuedAsWritten` | handlers/products.py:75-211 | as written, from orders without player ids, no sequence of product updates ever queues a request, adds to the message log or gives an order a player id |
| `Products.StepAsWrittenQueuesNothing` | handlers/products.py:75-211 | as written, one product update keeps every order without a player id, queues nothing and adds nothing to the message log |
| `Products.ConfirmRefusedWithoutPlayerId` | handlers/products.py:186-191 | confirm without a player id is refused with nothing changed |
| `Products.GameMenuGivesNoPlayerId` | handlers/products.py:128-142 | a game button never gives an order a player id, queues nothing and adds nothing to the message log |
| `Products.SelectGivesNoPlayerId` | handlers/products.py:145-167 | selecting a product as written never gives an order a player id |
| `Products.PlayerIdThenConfirmQueues` | handlers/products.py:75-211 | with the corrected player-id handler, a player id after a selection completes the order and the confirm queues one request carrying the stripped id |
| `Products.ClearUserOrder` | handlers/products.py:70-72 | the user leaves both the orders and the waiting set; others untouched |
| `Products.ClearUserOrderIdempotent` | handlers/products.py:70-72 | clearing twice is clearing once |
| `Products.DoubleConfirmQueuesTwice` | handlers/products.py:186-211 | as written, a second confirm queues the same order again |
| `Products.FinalConfirmStep` | handlers/products.py:186-211 | corrected definition of Findings row 2: only a complete order of a user not already waiting is confirmed. The user is then marked waiting and one request with the order's product, player id and converted price is queued; no money moves |
| `Products.FinalConfirmAsWritten` | handlers/products.py:186-211 | as written: completes exactly for a complete order, waiting or not; it agrees with `FinalConfirmStep` for a user not waiting, and for a waiting one still queues the order at the back |
| `Products.ConfirmWhileWaitingRefused` | handlers/products.py:186-211 | with the guard, a second confirm is refused |
| `Products.QueuedPriceIsConverted` | handlers/products.py:193-195 | the queued price is the catalogue price at its tier |
| `Products.Orders.constructor` | handlers/products.py:70-72 | no orders and nobody waiting |
| `Products.Orders.MainMenu` | handlers/products.py:107-114 | registers the wallet and refuses exactly when an order waits |
| `Products.Orders.GameMenu` | handlers/products.py:128-142 | equals `GameMenuStep` and keeps orders valid |
| `Products.Orders.SelectProduct` | handlers/products.py:145-167 | corrected definition of Findings row 1: equals `SelectProductStep` and keeps orders valid |
| `Products.Orders.PlayerId` | handlers/products.py:75-85 | corrected definition of Findings row 3: equals `PlayerIdStep` and keeps orders valid |
| `Products.Orders.CancelOrder` | handlers/products.py:180-184 | equals `ClearUserOrder` and keeps orders valid |
| `Products.Orders.FinalConfirm` | handlers/products.py:186-211 | corrected definition of Findings row 2: equals `FinalConfirmStep` and keeps orders valid |
| `BillAndUnits.UnitName` | handlers/bill_and_units.py:17-39 | a unit's name starts with its count |
| `BillAndUnits.UnitLabel` | handlers/bill_and_units.py:53-54 | a label starts with the unit's name |
| `BillAndUnits.LabelCount` | handlers/bill_and_units.py:53-54 | the digits a label starts with spell its unit count |
| `BillAndUnits.LabelsDistinct` | handlers/bill_and_units.py:53-54 | rows with increasing counts have different labels |
| `BillAndUnits.CatalogueLabelsDistinct` | handlers/bill_and_units.py:17-39 | the labels of each carrier's list are pairwise different |
| `BillAndUnits.FindByLabel` | handlers/bill_and_units.py:153 | the unit found has that label; none means no unit has it |
| `BillAndUnits.FindUnit` | handlers/bill_and_units.py:153 | the search returns what `FindByLabel` specifies |
| `BillAndUnits.LabelSelectsItsUnit` | handlers/bill_and_units.py:144-156 | on a list with increasing counts, each row's label finds that row |
| `BillAndUnits.ResetStep` | handlers/bill_and_units.py:65 | the entry holds only the new step; others untouched |
| `BillAndUnits.RouterStage` | handlers/bill_and_units.py:74-88 | only the four known actions lead to a step |
| `BillAndUnits.UbmRouterStep` | handlers/bill_and_units.py:69-92 | each known action sets its step; `back` and unknown actions leave every entry unchanged |
| `BillAndUnits.UnitsInlineStep` | handlers/bill_and_units.py:112-138 | data not of three `:` parts raises; only `sel` changes the entry, to the number step with a row of that carrier's list |
| `BillAndUnits.SelButtonPicksRow` | handlers/bill_and_units.py:119-121 | `sel:N` stores the N-th row |
| `BillAndUnits.SyrUnitSelectStep` | handlers/bill_and_units.py:150-158 | text matching no label leaves every entry unchanged; otherwise the entry is the final step with the unit carrying that label |
| `BillAndUnits.KeyboardSelectsShownRow` | handlers/bill_and_units.py:143-156 | every keyboard button selects the row it shows |
| `BillAndUnits.UnitFinalConfirmStep` | handlers/bill_and_units.py:160-188 | raises, with nothing changed, exactly when the user or the unit is missing; otherwise queues the carrier's request for the stored unit, its price and the stored number (empty when missing) and sends only the acknowledgement |
| `BillAndUnits.UnitConfirmQueuesListedPrice` | handlers/bill_and_units.py:160-188 | for either carrier, one pending request of that user at the back, carrying the stored unit, its price and the stored number (empty when missing); at `syr_unit_final` the unit is a Syriatel list row; no money moves; only the acknowledgement is sent |
| `BillAndUnits.FinalConfirmSyrBillStep` | handlers/bill_and_units.py:190-200 | raises without an entry; refused, with the balance reported and no change, exactly when the balance is below the total |
| `BillAndUnits.UnitSessions.constructor` | handlers/bill_and_units.py:42 | no entries |
| `BillAndUnits.UnitSessions.OpenMainMenu` | handlers/bill_and_units.py:62-66 | equals `ResetStep` with no step and keeps entries valid |
| `BillAndUnits.UnitSessions.SyrUnitsMenu` | handlers/bill_and_units.py:141-148 | equals `ResetStep` to `select_syr_unit` and keeps entries valid |
| `BillAndUnits.UnitSessions.UbmRouter` | handlers/bill_and_units.py:69-92 | equals `UbmRouterStep` and keeps entries valid |
| `BillAndUnits.UnitSessions.UnitsInline` | handlers/bill_and_units.py:112-138 | equals `UnitsInlineStep` and keeps entries valid |
| `BillAndUnits.UnitSessions.SyrUnitSelect` | handlers/bill_and_units.py:150-158 | equals `SyrUnitSelectStep` and keeps entries valid |
| `BillAndUnits.UnitSessions.UnitFinalConfirm` | handlers/bill_and_units.py:160-188 | the effects equal `UnitFinalConfirmStep` |
| `BillAndUnits.UnitSessions.FinalConfirmSyrBill` | handlers/bill_and_units.py:190-200 | the effects equal `FinalConfirmSyrBillStep` |

## Left out

- The Telegram transport is not modelled: message texts, keyboards, `answer_callback_query`, `edit_message_*`, `delete_message`, the navigation `history` and the usernames. A sent message is a `Message(chat, notice)` appended to a log, and a notice carries only the numbers and ids of its text. `register_next_step_handler` is the caller passing the next message to the right step function.
- `add_pending_request` and `delete_pending_request` are imported from services/queue_service.py (handlers/products.py:9, handlers/bill_and_units.py:14, handlers/admin.py:19, handlers/internet_providers.py:10), which does not define them, so as shipped those imports fail. The model gives them the behaviour their callers expect.
- The database module, wallet service and Supabase queries are not part of this model. They are an abstract table with the behaviour described above. The two tables the source reads (the queue of `db` and `pending_requests`) are one table.
- The handlers queue `request_text`, free text, while the queue handlers read `product_info`, a dict with `name`, `quantity` and `total_price`. Both are modelled as one typed payload that carries the fields the text shows; `TotalPrice` of it is the dict's `total_price`, the price the text shows.
- JSON persistence of the secret-code log is not modelled; only the in-memory dictionary update is.
- Floating point is not modelled. Catalogue prices are exact US cents.
- `Products.ConvertPriceUsdToSyp`: computes `cents * rate / 100` exactly, without the float multiply and `int()` truncation.
- `Admin.WalletAddFields`: reads the amount with `int()`, so decimal and exponent amounts that `int(float(…))` accepts are treated as malformed.
- `PyText.IsDigit`: `\d` and `int()` accept ASCII, Arabic-Indic and Extended Arabic-Indic digits only; other Unicode decimal digits are not modelled.
- Report and summary formatting is not modelled (thousands separators, Markdown). Report lines keep their fields.
- `enqueue_request` is not modelled: it calls an undefined `save_request`.
- Pagination is not modelled. `_build_paged_inline_keyboard` is not part of this model, and a `page` button only checks its number.
- `BillAndUnits.FinalConfirmSyrBillStep`: ends at the balance check. The rest of `final_confirm_syr_bill` is beyond the end of the available file.
- The number, amount and fee of `user_states` are read but never written by the available handlers.
- `clear_pending_request` (its `recharge_pending` set) is not modelled: handlers/recharge.py is not part of this model.
- `handle_agents_entry`, `ask_for_secret_code` and `handle_games_menu` (handlers/products.py:116-121) are not modelled. The first two only send text and record history. `handle_games_menu` also registers the wallet, as `MainMenuStep` does, and then shows the game categories.
- The message log of the order flows in Products, InternetProviders and BillAndUnits holds only three kinds of message: the acknowledgement of a submitted request (`Submitted`), the balance refusal (`InsufficientBalance`) and the reviewer offers that `process_queue` sends. The menus, the option lists, the player-id prompt, the refusal and "not found" texts and the cancel notice that these handlers send are not in the log. Admin and QueueService log every message they send. So where a Products lemma says that the log is unchanged, it means that no request acknowledgement or reviewer offer was sent.
- The clock (`datetime.now()`), the sender's display label, the set `ADMINS` and the chat of the pressed button are not modelled; they are parameters.
- The report lists codes in first-use order. That is the order in which Python's dictionary, and the JSON object it is loaded from, keep their keys.

## Findings

| source | as written | input that shows it | evidently intended | confidence | as-written member | corrected member |
|---|---|---|---|---|---|---|
| handlers/products.py:163 | the order's category becomes `selected.category`, which is "ألعاب" for every product and is not a key of `PRODUCTS` | select product 1, then press the back button: `PRODUCTS.get("ألعاب", [])` lists no products | keep the game the product is listed under, so the back button lists that game | not executed; high | `Products.SelectThenBackListsNothing` | `Products.SelectThenBackListsItsGame` |
| handlers/products.py:186-211 | `final_confirm_order` adds the user to `pending_orders` but never checks it | a complete order whose confirm button is pressed twice queues two identical requests (reachable once `handle_player_id` is corrected, row 3) | refuse while the user already has an order waiting, as the menu and selection handlers do | not executed; medium | `Products.DoubleConfirmQueuesTwice` | `Products.ConfirmWhileWaitingRefused` |
| handlers/products.py:75-76 | `handle_player_id` begins with `bot = message.bot`, an attribute a telebot message does not have, so it raises AttributeError before storing the player id | select a product, then send any player id: no order ever gets a player id, and `final_confirm_order` refuses every confirm | send through the `bot` the handlers are registered with | not executed; medium | `Products.NoOrderEverQueuedAsWritten` | `Products.PlayerIdThenConfirmQueues` |
