# telegram-hyip admin ledger, modelled in Dafny

The repository is a Telegram bot plus a Flask admin app that keep a small
crypto deposit ledger: users with a wallet, top-ups (incoming transfers,
credited to a user or left unmatched) and withdrawals (waiting for admin
approval). This project models the parts of `flask_app.py` and `config.py`
whose rules can be stated exactly:

- **Store and routes** (`ledger.dfy`, module `Ledger`). The database is a
  `Store` object holding maps from id to `User`, `TopUp` and `Withdrawal`,
  plus the id the next top-up gets. Each route is a method that returns an
  `Outcome`: `Ok` (200), `BadRequest` with a reason (400), or `ServerError`.
  `ServerError` stands for an exception the route does not catch, which
  Flask answers with 500. `Store.Valid()` is the ledger invariant every route
  keeps:
  - a top-up is received exactly when it is linked to a user;
  - a linked user exists;
  - every withdrawal belongs to an existing user.
- **Webhook crediting** (`Store.TopUpBalance`). The first output address is
  lower-cased and compared with `project_eth_address()[2:]`. As written, that
  address keeps the parentheses of the literal in `config.py`. The model keeps
  this literal comparison, and `Config.HexNeverMatchesHook` proves what
  follows from it: no address made of hex digits ever matches. So a real
  payload never creates a top-up, and `transaction_hook_exists` never finds a
  real hook.
- **Paging links** of the user list (`user_lookup.dfy`), the **per-day
  charts** of the statistics page (`statistics.dfy`), the **hook lookup**
  (`hooks.dfy`) and the **conversation-resolution loop** of `save_data`
  (`conversations.dfy`).
- **Python built-ins** these rely on (`py_builtins.dfy`): `str.lower()`,
  `int()` on a JSON value or on text, and `str()` of an integer. `int()`
  distinguishes TypeError from ValueError, because the routes catch only one
  of them.

Amounts are integers. The webhook stores the payload's `total` in wei, not
`total / 10**18` as a float. A zero total is exactly the case in which the
source's float amount is falsy.

## Model

| member | source | states |
|---|---|---|
| Config.ProjectEthAddress | config.py:15-16 | the project address is the literal lower-cased: same length (44), enclosing `(` and `)` kept, and lower-casing it again changes nothing |
| Config.HookAddress | config.py:1 | `project_eth_address()[2:]` has 42 characters, starts with `x` and ends with `)` |
| Config.HexNeverMatchesHook | flask_app.py:204 | no hex-digit address, lower-cased or not, equals the sliced project address |
| Config.GetSupportAccount | config.py:7-8 | returns the support account `@master_long` unchanged |
| Config.DbName | config.py:11-12 | returns the database name `ascension.db` unchanged |
| PyBuiltins.LowerStrIdempotent | config.py:16 | lower-casing twice equals lower-casing once |
| PyBuiltins.ParseFormatInt | flask_app.py:387 | reading back a page number written with `str()` gives the same integer |
| PyBuiltins.PyInt | flask_app.py:261-262 | `int()` raises TypeError exactly on null, lists and dicts, and ValueError exactly on text that is not a decimal integer; decimal text converts to its value, integers and booleans to themselves, and a float to its integer part |
| PyBuiltins.Truncate | flask_app.py:261 | `int()` of a finite float drops the fraction toward zero: the result has the float's sign and lies less than 1 from it |
| PyBuiltins.PyIntOfFormatted | flask_app.py:367 | `int(str(n)) == n` |
| Ledger.FindUser | flask_app.py:222 | `User.get`: the id returned names a user that satisfies the condition; None only when no user does |
| Ledger.Store.Create | flask_app.py:223-233 | `TopUp.create`: exactly one record is added, under an id not used before |
| Ledger.Store.TopUpBalance | flask_app.py:200-239 | another recipient, or a zero total, changes nothing and answers 200. Otherwise exactly one top-up is added, from `0x` + the lower-cased sender address: linked and received when a user has that wallet, unmatched and not received otherwise. A missing indexed address is a server error. A hex recipient is never credited |
| Ledger.Store.IncreaseUserDeposit | flask_app.py:254-294 | checks in order: id conversion (TypeError gives 400, ValueError escapes), user by chat id (400), amount conversion (ValueError gives 400, TypeError escapes). Only full success adds one received top-up for that user; users and withdrawals never change |
| Ledger.Store.ApproveWithdrawal | flask_app.py:297-314 | unknown id is a server error; an approved withdrawal gives 400 and the store is unchanged; otherwise only that withdrawal's `approved` becomes true |
| Ledger.Store.DeleteTopUp | flask_app.py:344-356 | removes exactly the given top-up and nothing else; an unknown id is a server error |
| Ledger.Store.TopUpReceived | flask_app.py:403-441 | checks in order: id conversion, top-up exists, not yet received (400), user by chat id (400). Any failure leaves the top-ups unchanged; success sets `user` and `received` on that top-up only |
| Ledger.ApproveTwice | flask_app.py:302-307 | approving an existing withdrawal twice: the second request gets 400 and the withdrawal stays approved |
| Ledger.ReceiveTwice | flask_app.py:418-423 | after a successful reconciliation, repeating it gets 400 "already received" |
| UserLookup.ParsePage | flask_app.py:363-369 | a page argument that is missing or not a decimal integer means page 1; otherwise its value |
| UserLookup.PageLinks | flask_app.py:384-392 | `prev_link` is absent iff `page <= 1`; `next_link` is absent iff `users_count < page * 15`, i.e. iff `(page+1)*15 - users_count > 15` |
| UserLookup.FollowLinks | flask_app.py:387-392 | the next link's page argument parses to `page + 1`, the previous link's to `page - 1` |
| UserLookup.NextLinkPastFullLastPage | flask_app.py:384 | as written, 15 users on page 1 still produce a next link, though no user lies past page 1 |
| UserLookup.IntendedNextLink | flask_app.py:384-387 | intended next link: present iff some user lies past the current page |
| UserLookup.IntendedDiffersOnFullLastPage | flask_app.py:384 | the written and intended next links differ exactly when `users_count == page * 15` |
| Statistics.FirstSeen | flask_app.py:451-452 | the chart's days are distinct, and a day appears iff some record has it |
| Statistics.BucketsAddUp | flask_app.py:447-459 | the per-day totals of a chart add up to the total of all amounts |
| Statistics.SumByDay | flask_app.py:448-453 | the dictionary holds exactly the days met, in first-seen order, each with the sum of its amounts |
| Statistics.ChartData | flask_app.py:447-459 | header row first, then one row per distinct day in first-seen order, holding that day's total |
| Statistics.RegistrationData | flask_app.py:490-505 | header `Day`/`Registrations` first, then one row per distinct day in first-seen order, holding that day's number of registrations |
| Statistics.RegistrationsAddUp | flask_app.py:490-505 | the registration counts add up to the number of registrations |
| Statistics.Dashboard | flask_app.py:471-505 | the three charts carry the headers `Withdrawals`, `TopUps` and `Registrations`; after the header each holds one row per distinct day in first-seen order, with that day's withdrawal total, top-up total and number of registrations |
| Hooks.TransactionHookExists | flask_app.py:515-520 | true iff some hook's address equals `project_eth_address()[2:]`; false whenever all hook addresses are hex digits |
| Conversations.ResolveConversations | flask_app.py:44-54 | the resolved map has exactly the keys of the conversations. A 2-tuple with a promise becomes the promise's result, or the tuple's first element when the promise raises. Every other value is copied unchanged |

## Findings

| source | as written | input that shows it | evidently intended | confidence | as-written member | corrected member |
|---|---|---|---|---|---|---|
| flask_app.py:384 | `next_link` is omitted only when `(page + 1) * 15 - users_count > 15` | `users_count = 15`, `page = 1`: a link to page 2, which is empty | a next link only when some user lies past the current page (`>=` in place of `>`) | medium, not executed | UserLookup.NextLinkPastFullLastPage | UserLookup.IntendedNextLink |

## Left out

- Telegram transport, the conversation handler wiring, job scheduling and webhook/polling start-up: library plumbing whose state handlers are not part of this model.
- File and pickle I/O of `load_data`/`save_data`, folder creation and `config.json` loading. Only the resolution loop of `save_data` is modelled.
- `blockcypher_webhook`: HTTP calls to the blockchain API and to the IP lookup service. Only the hook lookup it calls is modelled.
- Flask routing, basic auth, template rendering, and the `withdrawals` and `lost_top_ups` listing pages. These are read-only queries rendered into HTML.
- Peewee queries: lookups become `FindUser` over the user map, and a new top-up gets a fresh id instead of SQLite's row id. The 30-day window and the `created_at` ordering of the statistics queries are done by the database; the charts take the selected records in that order.
- Ledger.Store.IncreaseUserDeposit: `float(amount)` is an input that is already converted (`Conversion<int>`). Parsing float text is not modelled, and amounts are integers rather than floats.
- Ledger.Store.TopUpBalance: amounts are kept in wei as integers, not divided into a float. A missing `total` key or a non-string address is not modelled.
- Request bodies that are missing or lack a key (KeyError, or TypeError on `None`) are not modelled. Each route receives its fields. Record ids are integers.
- `ReceivedByDefault`: `models.py` is not part of this model. The default of `TopUp.received` is taken to be true, because the webhook passes `received=False` explicitly for unmatched transfers.
- PyBuiltins.Lower: only ASCII capitals are lower-cased; Unicode case mapping of other letters is not modelled.
- PyBuiltins.ParseInt: accepts an optional sign and ASCII digits only. Python's `int()` also strips surrounding whitespace and accepts underscores between digits and non-ASCII digits; those inputs are not modelled.
- Statistics: a day is an abstract key standing for `strftime("%d %B")`. Amounts are summed as integers, not floats.
- Hooks: a hook object without an `address` key (KeyError) is not modelled.
- PyBuiltins.PyInt: JSON's non-finite extensions are not modelled. Python's decoder accepts `NaN` and `Infinity`; `int()` raises ValueError on the first and OverflowError on the second. Only finite floats are `JFloat` values.
- Ledger.Store.TopUpBalance: `created_at` is not set by the route; the model takes its default to be the time of the request (`now`), because `models.py` is not part of this model.
- Ledger.Store.IncreaseUserDeposit: `created_at` is likewise taken to default to the time of the request (`now`).
- Conversations.ResolveConversations: `result()` waits until the promise settles; the model takes every promise as already settled, so waiting and time-outs are not modelled.
- Conversations.ResolveConversations: the two `print` lines after the backup is written are console output and are dropped.
- Hooks.TransactionHookExists: the `print` of "Webhook exists" is console output and is dropped.
