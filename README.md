# Telegram matchmaking bot: store and conversation state machine

This project models the core of a small Telegram bot. The bot puts
*executors*, who offer services, in touch with *clients*, who post orders.

The model has two halves, and each is proved against a specification of
its own.

- **The order/profile store.** This is `JSONStorage` in `db.go`, modelled
  as the class `Store.JSONStorage` (file `store.dfy`).
  - It holds three pieces of state: profiles keyed by user id, orders keyed
    by order id, and the `NextID` counter.
  - Each method is proved to leave the tables exactly as one pure function
    of module `Store` says: `PutProfile`, `InsertOrder`, `RemoveOrder`,
    `ReplaceOrder` or `BumpComplaints`.
  - The store invariant `Store.Inv` has four parts: every profile is stored
    under its user id; at most one order per creator; every order is stored
    under its own id; every id lies in `[1, NextID)`.
  - `Inv` is proved to survive every mutating method. The exception is
    `UpdateOrder`, which keeps it exactly when its argument fits it.
- **The conversation state machine.** This is `handlers.go`, modelled as
  the class `Handlers.Bot` (file `handlers.dfy`).
  - Its fields are the per-user dialog map `inFlight` and an outbox, which
    records every message the bot sends in order. The global store becomes
    a field the bot holds.
  - Each handler is proved to move the bot's whole state exactly as one
    step function of module `Flow` says. The step functions are
    `UpdateStep`, `MessageStep`, `CallbackStep`, `ConnectStep`,
    `ComplaintStep` and a few others.
  - Module `Properties` proves what the bot promises about those steps:
    - button payloads carry their order id intact;
    - dialog strings decode to the phase that was stored;
    - every callback is acknowledged first;
    - failed validation changes nothing but the reply;
    - a connect consumes its order, so it is single use;
    - complaints warn the creator from the seventh on and remove the order
      at the tenth;
    - every update keeps the store invariant and the dialog strings well
      formed.

`GoStrings` models the parts of Go's `strings` and `strconv` that the
handlers rely on: `TrimSpace`, `HasPrefix`, `Split`, `FormatInt` and
`ParseInt`. The last two are proved to round-trip every int64.

`Locking` models the mutex discipline of `JSONStorage`. It is the basis of
the finding below.

Some things the bot does not do, and the model does not add:

- There is no update queue, no worker pool and no sweep of stale dialog
  states. A dialog entry stays until a handler deletes it.
- Order text is only checked for being non-empty after trimming. No length
  bound applies to it.
- The complaint warning at seven is always on; it is not a policy switch.

## Model

| member | source | states |
|---|---|---|
| Store.JSONStorage.constructor | db.go:43-55 | With no file to load, the store starts with empty tables and `NextID` = 1, and the invariant holds |
| Store.JSONStorage.CreateOrUpdateProfile | db.go:67-72 | Stores `p` under `p.UserID`, replacing any earlier profile, and changes nothing else. The result is an error exactly when the file write fails. Keeps the invariant |
| Store.JSONStorage.GetProfile | db.go:73-80 | Returns the stored profile exactly when one exists for the id, otherwise "not found". Under the invariant, the profile returned belongs to that user |
| Store.PutThenLookup | db.go:67-80 | After an upsert, `GetProfile(p.UserID)` returns exactly `p`. Other users' profiles, the orders and `NextID` are unchanged |
| Store.PutTwiceKeepsLatest | db.go:67-72 | Two upserts for one user leave only the second |
| Store.JSONStorage.CreateOrder | db.go:82-97 | The loop over all orders proves the creator has none before the insert. The result and the new tables are exactly `InsertOrder`'s. Keeps the invariant |
| Store.InsertOrderOutcome | db.go:86-96 | Refused, with the tables unchanged, exactly when the creator already has an order. Otherwise the order is stored under `NextID` with its id set to that key, the key is returned, `NextID` grows by exactly one, and every other order and all profiles stay |
| Store.InsertOrderFreshId | db.go:91-94 | Under the invariant, a new id is above every id in use, so ids are never reused. Afterwards the creator's order is exactly the new one |
| Store.InsertOrderKeepsInv | db.go:82-97 | CreateOrder keeps "one order per creator", "key = id" and "keys below `NextID`" |
| Store.JSONStorage.GetOrderByCreator | db.go:98-108 | Succeeds exactly when some order has that creator, and then returns a stored order of that creator. Otherwise it returns "not found". Under the invariant, the result is the creator's unique order |
| Store.OrderOfIsTheOne | db.go:98-108 | Under the invariant, any order of a creator is the one the creator lookup gives |
| Store.JSONStorage.GetOrderByID | db.go:109-117 | Returns the order stored under the id, or "not found" |
| Store.JSONStorage.DeleteOrderByID | db.go:118-123 | Removes key `id` and nothing else. The result is an error exactly when the file write fails. Keeps the invariant |
| Store.RemoveOrderOutcome | db.go:109-123 | The key set loses exactly `id`, and the remaining orders are unchanged. Deleting an absent id is a no-op. Afterwards `GetOrderByID(id)` is "not found" |
| Store.RemoveOrderKeepsInv | db.go:118-123 | Deleting keeps the store invariant |
| Store.JSONStorage.UpdateOrder | db.go:124-129 | Writes `o` at `o.ID` unconditionally. Given the invariant before, it holds after exactly when `o.ID` was issued and no other order has `o`'s creator |
| Store.ReplaceOrderInv | db.go:124-129 | Under the invariant, UpdateOrder keeps it if and only if its argument fits it |
| Store.ReplaceOrderCanBreakInv | db.go:124-129 | One update can give a creator a second order: UpdateOrder checks neither existence nor the creator rule |
| Store.JSONStorage.IncrementComplaint | db.go:130-141 | Exactly `BumpComplaints`: a missing id is "not found", otherwise one counter goes up. Keeps the invariant |
| Store.BumpComplaintsOutcome | db.go:130-141 | A missing id is an error that changes nothing. Otherwise only that order's `Complaints` rises by one, every other field and order stays, and the new count is returned |
| Store.BumpComplaintsKeepsInv | db.go:130-141 | Incrementing keeps the store invariant |
| Store.JSONStorage.ListOrdersByCategory | db.go:142-152 | Returns exactly the stored orders of that category, each stored key contributing once |
| GoStrings.TrimSpace | handlers.go:80-81 | The result is the slice `s[i..j]` with only white space before `i` and after `j`, and it neither starts nor ends with white space. It is empty exactly when the text is all white space |
| GoStrings.ParseInt | handlers.go:179-180 | Always an int64. On an error the value is 0, or the int64 bound on the numeral's side: the lower bound only after a leading '-', the upper bound only without one |
| GoStrings.Split | handlers.go:179 | There is always at least one field, and no field contains the separator |
| GoStrings.SplitThenJoin | handlers.go:179 | Joining the fields of a split with the separator gives back the string |
| GoStrings.JoinThenSplit | handlers.go:277-281 | Splitting a join of separator-free fields gives back exactly those fields |
| GoStrings.FormatInt | handlers.go:278-279 | The numeral is non-empty and contains no colon, so it stays one payload field |
| GoStrings.ParseIntOfFormatInt | handlers.go:277-281 | For every int64, ParseInt(FormatInt(i)) gives back i without error |
| Flow.CategoryOf | handlers.go:108-109 | The category read back from "creating_order:<cat>" contains no colon |
| Flow.CategoryField | handlers.go:169-170 | The category read from a "cat:" payload contains no colon |
| Flow.IdField | handlers.go:179-180 | The id read from the third colon-separated field is an int64 |
| Flow.OrderStateIsWellFormed | handlers.go:169-174 | The state stored for "cat:<cat>" is a well-formed conversation state |
| Handlers.Bot.constructor | handlers.go:16-19 | The dialog map and the outbox start empty, and the bot invariant holds |
| Handlers.Bot.ProcessUpdate | handlers.go:37-43 | A message goes to handleMessage, otherwise a callback goes to handleCallback. The new state is `UpdateStep`'s, and the bot invariant is kept |
| Handlers.Bot.HandleMessage | handlers.go:45-144 | Commands come first, then the sender's dialog state, then the "press /start" fallback. The new state is `MessageStep`'s |
| Handlers.Bot.HandleCommand | handlers.go:50-71 | The /start, /delete_order, /my_profile and unknown-command branches, as `CommandStep` |
| Handlers.Bot.HandleProfileText | handlers.go:78-104 | The length check, the profile upsert, and clearing the state only on success, as `ProfileTextStep` |
| Handlers.Bot.HandleOrderText | handlers.go:106-140 | A reprompt on blank text; otherwise the order is built and posted, as `OrderTextStep` |
| Handlers.Bot.PostOrder | handlers.go:125-139 | CreateOrder, then either the conflict reply or the group post and confirmation. The dialog ends in both cases (`PostOrderStep`) |
| Handlers.Bot.HandleCallback | handlers.go:146-227 | Acknowledges, then dispatches on the payload. The new state is `CallbackStep`'s |
| Handlers.Bot.HandleOrderButton | handlers.go:178-226 | The connect, complain, confirm and cancel branches, as `OrderButtonStep` |
| Handlers.Bot.HandleComplaint | handlers.go:197-222 | Increment, reply, then delete at 10 or more, or warn at 7 or more, as `ComplaintStep` |
| Handlers.Bot.HandleConnect | handlers.go:283-299 | Not-found reply, or creator notice, connector's profile, delete and confirmation, as `ConnectStep` |
| Handlers.Bot.DeleteOrderByCreator | handlers.go:250-256 | Looks up the caller's order and deletes it by id, passing on either error |
| Handlers.Bot.SendOrderToGroup | handlers.go:258-275 | Sends one post to the category's group with the order's connect and complain buttons |
| Handlers.Bot.SendProfileToChat | handlers.go:240-248 | Sends the profile card, then the photo if the profile has one |
| Properties.IdFieldOfPayload | handlers.go:178-199 | "<a>:<b>:" followed by FormatInt(id) passes the branch's prefix test, has a third field, and that field parses back to id |
| Properties.ConnectPayloadRoundTrip | handlers.go:277-281 | The connect button's payload for any int64 id is recognised as a connect payload and yields that id |
| Properties.ComplainPayloadRoundTrip | handlers.go:277-281 | The complain button's payload for any int64 id is recognised as a complain payload and yields that id |
| Properties.ConfirmPayloadRoundTrip | handlers.go:184-199 | The confirmation button's payload carries the id through to the confirm branch |
| Properties.DecodeEncode | handlers.go:106-109 | handleMessage decodes the phase that handleCallback stored, including a colon-free category unchanged |
| Properties.EncodeDecode | handlers.go:154-177 | Every stored dialog string is the encoding of the phase it decodes to |
| Properties.CallbackFrame | handlers.go:146-227 | Every callback is acknowledged before anything else is sent. Only the presser's dialog state can change, and only connect and confirm touch the store |
| Properties.InertCallbacks | handlers.go:162-226 | role:client, order:complain, complain:cancel and unrecognised payloads change neither the store nor any dialog state |
| Properties.PressExecutor | handlers.go:154-161 | role:executor sets the presser's state to creating_profile and asks for a description |
| Properties.PressCategory | handlers.go:169-177 | cat:<x> sets creating_order:<x>, which decodes back to category x |
| Properties.PressConnect | handlers.go:178-183 | Pressing a post's connect button runs handleConnect on that post's order |
| Properties.PressComplain | handlers.go:184-196 | The complain button only asks for confirmation, with a confirm button for the same id |
| Properties.PressConfirm | handlers.go:197-222 | The confirm button files one complaint against the order it names |
| Properties.PressBack | keyboards.go:28 | "back:to_start" has no handler: it is acknowledged and nothing else happens |
| Properties.ComplaintOutcome | handlers.go:197-222 | A store error gives only an error reply. At 10 or more complaints the order is deleted and its creator told. From 7 to 9 the creator is warned and the order kept. Below 7 only the reporter hears back. The dialog map never changes |
| Properties.ComplaintsAccumulate | handlers.go:197-222 | n confirmed complaints in a row raise the count by n, and the order exists until the tenth removes it |
| Properties.ConnectOutcome | handlers.go:283-299 | A missing order gives a not-found reply and no other change. Otherwise the creator is told, gets the connector's profile if there is one, and the order is deleted. Either way the id is then not found |
| Properties.ConnectIsSingleUse | handlers.go:283-299 | A second connect on the same id only gets the not-found reply |
| Properties.CommandOutcome | handlers.go:50-71 | No command reads or changes a dialog state. Only /delete_order touches the store. Each command sends the reply it should |
| Properties.DeleteOrderCommand | handlers.go:54-59 | /delete_order removes the sender's order and no other. It reports removal only when there was one and the write succeeded |
| Properties.LastPhotoIsLargest | handlers.go:85-88 | The photo kept is the largest size of a non-empty list, and "" when there is none |
| Properties.ProfileTextOutcome | handlers.go:78-104 | A trimmed description outside [150, 200] changes nothing but the reply. Otherwise it becomes the sender's profile, and the dialog ends only if the write succeeded |
| Properties.OrderTextOutcome | handlers.go:106-140 | Blank text keeps the dialog open with no store call. Otherwise the dialog ends. A conflict stores and posts nothing. Success stores the order under a fresh id and posts it with its buttons to the category's group |
| Properties.PhotoMessagesAreRefused | handlers.go:78-118 | A photo message as Telegram sends it, with its words in the caption, is refused by both dialogs, so nothing is stored from it |
| Properties.OneOrderPerClient | handlers.go:106-140 | After one posted order, a client's second order text is refused and stores nothing |
| Properties.ProfileThenMyProfile | handlers.go:60-67 | After a saved profile, /my_profile shows exactly that profile |
| Properties.MessageStepKeepsInv | handlers.go:45-144 | Every message keeps the store invariant and well-formed dialog strings |
| Properties.CallbackStepKeepsInv | handlers.go:146-227 | Every callback keeps the store invariant and well-formed dialog strings |
| Properties.UpdateStepKeepsInv | handlers.go:37-43 | Every update keeps the store invariant and well-formed dialog strings |
| Locking.MutatorBlocksAsWritten | db.go:57-65 | As written, every store call that reaches persist is still holding the mutex at persist's Lock, and blocks |
| Locking.MutatorCompletesCorrected | db.go:57-65 | With persist running under the caller's lock, every mutating call completes with the mutex released and every access guarded |

## Left out

- Concurrency is not modelled. This covers the goroutine per update, `inFlight.mu` and `j.mu`. Each update and each store call is one atomic step.
- The JSON file is not modelled. `InitJSONStorage` loading it and `persist` writing it are file I/O. A write's success is the input `writeOk`. The tables change before the write, so a failed write only changes the result. CreateOrder and IncrementComplaint discard that result, as do the deletions inside the handlers; the model does the same.
- The webhook HTTP handler, main.go, bot.go and the Telegram API client are transport. Each send is an entry appended to the outbox. Failed sends are not modelled, since the code ignores them too.
- config.go reads the environment. The three group ids are a constructor parameter of the bot. Re-reading them on every post is not modelled.
- The Postgres backend is not part of this model. Only the JSON store's semantics are modelled.
- keyboards.go is button layout. Only its payload strings are modelled.
- Message wording is not modelled. The Russian text and the `fmt.Sprintf` rendering become a `Notice` tag with the values it shows.
- Integer width: user ids, order ids, `NextID` and the complaint counter are unbounded integers. The int64 and int overflow of `NextID++` and `Complaints++` is not modelled. Parsed ids are int64, through `ParseInt`.
- Flow.Message: the handlers read only `text`, as the code does. The dialog lemmas (ProfileTextOutcome, OrderTextOutcome, ProfileThenMyProfile) range over every message, including messages with both text and photos, which Telegram never sends. For messages as Telegram sends them, PhotoMessagesAreRefused shows that a photo message is always refused, so no stored profile or order ever gets a photo. Reading the caption is not modelled, because the code does not read it.
- Strings are sequences of Unicode scalar values. A decoded update is valid UTF-8, so `len([]rune(txt))` is the sequence length.
- Store.JSONStorage.GetOrderByCreator: without the invariant, several orders can match. The method then returns one of them, and which one is left open, as Go's map iteration order leaves it open.
- Store.JSONStorage.ListOrdersByCategory: the order of the returned orders is left open, as Go's map iteration order leaves it open.
- Store.JSONStorage.IncrementComplaint: `reporterId` is accepted and unused, as in the code. Nothing limits one user to one complaint.
- Store.JSONStorage.UpdateOrder: nothing in the core calls it. Its contract keeps the invariant only under `FitsInvariant`, because the code checks nothing.

## Findings

| source | as written | input that shows it | evidently intended | confidence | as-written member | corrected member |
|---|---|---|---|---|---|---|
| db.go:57-65 | `persist` calls `j.mu.Lock()`, but every mutating method (db.go:67-72, 82-97, 118-123, 124-129, 130-141) calls it while already holding `j.mu` under a deferred unlock. `sync.Mutex` is not reentrant, so the call waits forever | any `CreateOrUpdateProfile(p)` | `persist` runs under the caller's lock and does not lock again | not executed | Locking.MutatorBlocksAsWritten | Locking.MutatorCompletesCorrected |

Calls that return before persist do not block: CreateOrder's refusal
(db.go:88) and IncrementComplaint's not-found path (db.go:135). A call that
blocks keeps `j.mu`, so every later store call then blocks at its first Lock.
The store and the handlers model the corrected behaviour: each mutating call
completes and returns the write's outcome.
