# Subscription ledger and lifecycle handlers, in Dafny

A model of the billing core of a Telegram bot that sells VPN subscriptions
managed by a remote directory (Remnawave). It covers:

- the persisted records: users and purchased subscriptions, with the schema's constraints (`ledger.dfy`);
- the store operations: upsert, expiry update, removal-counter update, user creation, sync-time stamp, and the lookup and listing queries (`store.dfy`);
- three user-facing lifecycle operations built on the store:
  - renewal from the caller's balance (`renewal.dfy`);
  - device removal under a quota of four per rolling 30-day window (`device_removal.dfy`, with callback parsing and hwid-prefix lookup in `callbacks.dfy`);
  - ownership transfer through a two-state conversation (`transfer.dfy`).

Every operation that changes state has two parts. The first is a pure
transition function on the ledger value `Db`; its `ensures` clauses say what it
answers, what it changes and what it leaves alone. The second is a method on
the live objects. `Store` holds the two tables as maps that the methods
reassign, and `FsmContext` holds one chat's conversation state. Each method is
proved to agree with its transition function.

Time is a whole number of seconds. A "whole days" count is the Euclidean
quotient by 86400, which floors like Python's `timedelta.days`. Money is a
whole number of cents, the exact value of a `Numeric(10, 2)` column. The remote
directory is an oracle whose answers are parameters:
- the live device list;
- whether the remote removal succeeded;
- whether the subscription lookup returned an error.

For `create_user`, whether the insert fails for a reason other than the
unique constraint is also a parameter. The upsert's insert fails only on the
foreign-key and expiry constraints; its `username` declaration is discussed
below. The insert in `update_last_sync_time` does not fail in the model.

Where the code and its surroundings disagree, the model follows the code,
with one exception, the sync-time lookup, listed under "Left out":

- The transfer cooldown is compared against 30 days
  (`modules/user/control_subscription/handlers.py:230-233`). The constant
  `TRANSFER_COOLDOWN_DAYS` and the user-facing texts say 14
  (`modules/user/control_subscription/texts.py:45-56`). So a transfer 10 days after the last one reports 20
  days left, not 4. A transfer 15 days after is still refused.
- No handler checks that the person acting owns the subscription. Renewal
  debits whoever pressed the button. A transfer can be started for any uuid.
- The cooldown is checked only when a transfer starts, not when the contact
  arrives.
- `PurchasedSubscription.username` is declared NOT NULL, but the upsert never
  sets it. The model keeps it optional and does not enforce the declaration.
  `UpsertCreatesNullUsername` shows that every created record breaks it. A
  database that enforced the declaration would reject every creation.
- `get_active_purchased_subscriptions` converts both prices with `float(...)`.
  A null price raises, and the whole query then returns an empty list. The
  model returns the empty list in that case. The upsert never writes a null
  price (`UpsertKeepsPricesSet`). So a null price, and with it the "renewal
  price not set" refusal, can only come from rows written outside these
  operations.
- A device-removal request made 30 or more whole days after the window anchor
  resets and re-anchors the window, and commits that reset. The commit stands
  even when the request is then refused for another reason.
- A device's remove button carries only the first eight characters of its
  hwid, and the handler removes the first listed device whose hwid starts
  with them. So when two devices share those eight characters, the second
  one's button removes the first one (`SharedShortHwidRemovesFirst`).
- A successful transfer is committed
  (`modules/user/control_subscription/handlers.py:288`), but the success
  message that follows formats `TRANSFER_SUCCESS_TEXT` with `contact_id`
  only. That template also needs `subscription_name` and `next_transfer_date`
  (`modules/user/control_subscription/texts.py:38-41`), so the call raises. The generic branch
  (`handlers.py:301-304`) then sends the sender the generic error and clears
  the conversation. The recipient notification at `handlers.py:295` is never
  sent. The ledger and the conversation end as `Submission`'s `Transferred`
  case states.
- When the remote lookup fails during a transfer, the session is never
  committed. So a recipient user created earlier in the same request is not
  kept.

## Model

| member | source | states |
|---|---|---|
| `Ledger.WholeDays` | modules/user/control_subscription/handlers.py:175 | the floored whole-day count: `d*86400 <= now - since < (d+1)*86400`, and it is non-negative when `since <= now` |
| `Ledger.ParseRole` | core/database/model.py:18-21 | a role text parses exactly when the `check_user_role` constraint admits it, and parses to the role whose stored name it is |
| `Ledger.RoleNameParses` | core/database/model.py:18-21 | every role is stored as an admitted text and reads back as itself |
| `Ledger.NewUser` | core/database/model.py:24-31 | a fresh user has role USER, no sync time, and the given id, username and balance |
| `Store.UserCreated` | core/database/crud.py:12-41 | an existing telegram_id returns the existing user and changes nothing; otherwise a fault returns None and changes nothing; otherwise exactly one USER row is added; the schema invariants hold afterwards |
| `Store.GetUserByTelegramId` | core/database/crud.py:43-55 | a user is found exactly when the id is stored, and it is the stored user with that id |
| `Store.CreateThenGet` | core/database/crud.py:12-55 | after `create_user` answers a user, the lookup by telegram_id returns that user; after a failure it finds none |
| `Store.GetLastSyncTime` | core/database/crud.py:356-375 | None for an unknown user, otherwise the stored sync time |
| `Store.SyncTimeStamped` | core/database/crud.py:377-401 | an existing user changes only `last_sync_time`; an unknown one is inserted with balance 0, role USER and the stamp; subscriptions are untouched |
| `Store.SyncTimeRoundTrip` | core/database/crud.py:356-401 | reading the sync time after stamping it returns the stamp |
| `Store.GetPurchasedSubscriptionByUuid` | core/database/crud.py:171-189 | found exactly when the uuid is stored; the result is the stored record, carrying that uuid and an existing owner |
| `Store.Upserted` | core/database/crud.py:224-281 | fails with no change exactly when the owner is not a user (foreign key) or a new record lacks an expiry; an existing record gets the new owner and each given price or expiry, keeping the rest; a new record has absent prices as 0, counter 0, no anchor, no transfer time and no username |
| `Store.UpsertIdempotent` | core/database/crud.py:244-276 | two identical upserts answer and leave the same as one |
| `Store.UpsertKeepsPricesSet` | core/database/crud.py:246-270 | the upsert never writes a null price |
| `Store.UpsertCreatesNullUsername` | core/database/crud.py:262-270 | every created record has a null username, against the NOT NULL declaration at core/database/model.py:52 |
| `Store.UpsertThenGet` | core/database/crud.py:171-281 | after a successful upsert the lookup by uuid returns the upserted record; after a failed one it returns what it returned before |
| `Store.ExpirationThenGet` | core/database/crud.py:171-222 | after an expiry update the lookup returns the stored record with only the new expiry changed |
| `Store.ExpirationUpdated` | core/database/crud.py:191-222 | false with no change for an unknown uuid; otherwise only that record's expiry changes |
| `Store.RemovalCountUpdated` | core/database/crud.py:403-439 | false with no change for an unknown uuid; increment adds exactly one and keeps the anchor; reset sets the count to 0 and the anchor to now; nothing else changes |
| `Store.Listing` | core/database/crud.py:146-150 | returns the owner's selected records, each once, with every such record present, in descending order of expiry |
| `Store.PurchasedSubscriptions` | core/database/crud.py:94-113 | returns exactly the owner's stored records, each once, in descending order of expiry |
| `Store.ActivePurchasedSubscriptions` | core/database/crud.py:135-169 | returns only the owner's stored records that expire after now, each once, in descending order of expiry; when each of those records has both prices set, every one of them is returned; when one has a null price, the result is empty |
| `Store.ActiveIsUnexpiredListing` | core/database/crud.py:146-164 | when no price is null, the active query holds exactly the plain query's records that expire after now |
| `Store.Store.CreateUser` | core/database/crud.py:12-41 | the live insert agrees with `UserCreated` and keeps the schema invariants |
| `Store.Store.UpdateLastSyncTime` | core/database/crud.py:377-401 | the live update agrees with `SyncTimeStamped` |
| `Store.Store.CreateOrUpdatePurchasedSubscription` | core/database/crud.py:224-281 | the live upsert agrees with `Upserted` |
| `Store.Store.UpdateSubscriptionExpiration` | core/database/crud.py:191-222 | the live update agrees with `ExpirationUpdated` |
| `Store.Store.UpdateDeviceRemovalCount` | core/database/crud.py:403-439 | the live update agrees with `RemovalCountUpdated` |
| `Callbacks.Split` | modules/user/control_subscription/handlers.py:159-163 | `str.split(":")` yields at least one part, and no part contains the separator |
| `Callbacks.JoinSplit` | modules/user/control_subscription/handlers.py:159 | splitting loses nothing: joining the parts with ':' gives back the text |
| `Callbacks.SplitJoin` | modules/user/control_subscription/keyboards.py:124 | parts without ':' that are joined with ':' split back into the same parts |
| `Callbacks.SplitLength` | modules/user/control_subscription/handlers.py:159 | `str.split(":")` gives one more part than there are separators |
| `Callbacks.RemoveCallbackPartCount` | modules/user/control_subscription/keyboards.py:124 | a remove button's data splits into at least three parts, and into exactly three when neither the uuid nor the short hwid holds ':' |
| `Callbacks.ShortHwid` | modules/user/control_subscription/keyboards.py:124 | `hwid[:8]` is a prefix of the hwid, of length min(8, len(hwid)) |
| `Callbacks.FirstMatch` | modules/user/control_subscription/handlers.py:197-200 | None exactly when no hwid starts with the prefix; otherwise the least index whose hwid does |
| `Callbacks.RemoveDeviceCallback` | modules/user/control_subscription/keyboards.py:124 | a remove button's data starts with `remove_device:`, the prefix the router dispatches on (router.py:22) |
| `Callbacks.RemoveCallbackParses` | modules/user/control_subscription/keyboards.py:124 | when neither the uuid nor the short hwid holds ':', a remove button's data splits into exactly three parts: the action, the uuid and the short hwid |
| `Callbacks.ShortHwidFindsDevice` | modules/user/control_subscription/handlers.py:197 | a listed device's short hwid always finds a device, at or before that one |
| `Renewal.RenewalStep` | modules/user/control_subscription/handlers.py:65-103 | each refusal happens exactly under its guard and changes nothing; renewal happens exactly when the record, the caller and the price exist and the balance covers the price; the caller's balance then drops by exactly the price and stays >= 0, the expiry becomes now + 30 days, and nothing else changes |
| `Renewal.RenewalAllOrNothing` | modules/user/control_subscription/handlers.py:90-93 | either the ledger is unchanged, or both the debit and the new expiry happened |
| `Renewal.RenewalIgnoresRemainingTime` | modules/user/control_subscription/handlers.py:91 | the old expiry affects neither the answer nor the ledger after a renewal, so unexpired time is discarded |
| `Renewal.RenewalWithEnoughBalance` | modules/user/control_subscription/handlers.py:82-93 | a balance of 100.00 against a price of 80.00 renews and leaves 20.00 |
| `Renewal.RenewalWithShortBalance` | modules/user/control_subscription/handlers.py:82-89 | a balance of 50.00 against a price of 80.00 is refused and changes nothing |
| `Renewal.RenewSubscription` | modules/user/control_subscription/handlers.py:65-103 | the handler on the live store agrees with `RenewalStep` |
| `DeviceRemoval.WindowExpired` | modules/user/control_subscription/handlers.py:175 | the window is expired exactly when it is anchored and at least 30 days of seconds have passed since the anchor |
| `DeviceRemoval.DaysLeft` | modules/user/control_subscription/handlers.py:181 | 30 when there is no anchor; otherwise 30 less the floored whole days since the anchor, so at most 30 for an anchor in the past and at least 1 while the window has not expired |
| `DeviceRemoval.RolledOver` | modules/user/control_subscription/handlers.py:175-177 | an anchored window at least 30 whole days old gets count 0 and anchor now; otherwise nothing changes |
| `DeviceRemoval.RollOverOnce` | modules/user/control_subscription/handlers.py:175-177 | a window is reset at most once at a given moment |
| `DeviceRemoval.RemovalChecks` | modules/user/control_subscription/handlers.py:179-211 | on the ledger the roll-over left: refused with the days left exactly at count >= 4; below that, each refusal exactly under its own guard in the handler's order; a removal exactly with at least two devices, a prefix match and remote success, naming the first match, counting one more and anchoring an unanchored window at now; refusals leave the ledger as it was |
| `DeviceRemoval.DeviceRemovalStep` | modules/user/control_subscription/handlers.py:156-219 | a malformed callback or unknown uuid changes nothing; otherwise, after the roll-over, the request is refused with the days left exactly when the count is at least 4; below the limit, no devices, exactly one device, no prefix match and a failed remote removal each give their own refusal exactly under that condition, and the removal happens exactly when there are at least two devices, a prefix match and remote success; every refusal leaves the rolled-over ledger; a removal names the first matching device, adds one to the count, anchors an unanchored window at now, and touches nothing else; users never change |
| `DeviceRemoval.DeviceRemovalKeepsQuota` | modules/user/control_subscription/handlers.py:180-211 | whatever the outcome, every removal count stays <= 4 |
| `DeviceRemoval.LastDeviceProtected` | modules/user/control_subscription/handlers.py:193-195 | with exactly one connected device, no removal happens and the ledger ends as the window roll-over left it (a reset of an expired window is still committed) |
| `DeviceRemoval.QuotaExhaustedScenario` | modules/user/control_subscription/handlers.py:180-187 | count 4 with an anchor 5 days old is refused with 25 days left and no change |
| `DeviceRemoval.StaleWindowScenario` | modules/user/control_subscription/handlers.py:175-211 | count 3 with an anchor 31 days old resets, then removes, ending at count 1 anchored now |
| `DeviceRemoval.SeparatorInHwidBlocksRemoval` | modules/user/control_subscription/keyboards.py:124 | when a device's first eight hwid characters hold ':', its own remove button is always refused as malformed (handlers.py:159-163), with the ledger unchanged |
| `DeviceRemoval.SharedShortHwidRemovesFirst` | modules/user/control_subscription/handlers.py:197-211 | when the first listed device's hwid starts with a later device's short hwid, that later device's remove button (with no ':' in the uuid or the short hwid, under the limit after the roll-over, remote removal succeeding) removes the first listed device |
| `DeviceRemoval.SharedShortHwidScenario` | modules/user/control_subscription/handlers.py:197-211 | devices `abcdefgh1` and `abcdefgh2`, count 0, no anchor: the second one's remove button removes `abcdefgh1` |
| `DeviceRemoval.RemoveDevice` | modules/user/control_subscription/handlers.py:156-219 | the handler on the live store agrees with `DeviceRemovalStep` |
| `Transfer.CoolingDown` | modules/user/control_subscription/handlers.py:230-232 | the cooldown applies exactly when there is a last transfer and fewer than 30 days of seconds have passed since it |
| `Transfer.Initiation` | modules/user/control_subscription/handlers.py:221-248 | the ledger never changes; an unknown uuid is refused; the request is refused exactly when the last transfer was under 30 whole days ago, with 30 - d >= 1 days left; otherwise the conversation waits for a contact and holds the uuid |
| `Transfer.Submission` | modules/user/control_subscription/handlers.py:250-304 | handled only while waiting; a bad contact or one's own contact keeps the conversation and the ledger; a missing or empty pending uuid, an unknown subscription, a recipient that cannot be created and a remote error each give their own refusal exactly under that condition, and every later refusal clears the conversation and changes no record; the transfer happens exactly when the contact names another user, the pending uuid is stored, the recipient exists or can be created and the remote lookup succeeds; success creates the recipient if absent, sets owner := recipient and last transfer := now, changes nothing else, and clears the conversation; the schema invariants hold afterwards |
| `Transfer.Cancellation` | modules/user/control_subscription/handlers.py:306-314 | the conversation ends with no state and no data |
| `Transfer.CooldownAfterTenDays` | modules/user/control_subscription/handlers.py:230-233 | 10 days after a transfer, initiation is refused with 20 days left and nothing changes |
| `Transfer.CooldownLongerThanAdvertised` | modules/user/control_subscription/handlers.py:230-233 | 15 days after a transfer, beyond the advertised 14, initiation is still refused |
| `Transfer.InitiationAfterCooldown` | modules/user/control_subscription/handlers.py:230-240 | 30 or more days after a transfer, or with none, initiation waits for a contact for that uuid |
| `Transfer.SelfTransferKeepsWaiting` | modules/user/control_subscription/handlers.py:259-261 | one's own contact is refused, and the conversation and ledger are unchanged |
| `Transfer.SubmissionChecksNeitherOwnerNorCooldown` | modules/user/control_subscription/handlers.py:262-288 | a waiting conversation hands over a subscription the sender does not own, even one transferred at this moment |
| `Transfer.InitiateThenSubmit` | modules/user/control_subscription/handlers.py:239-300 | an accepted initiation followed by another user's contact transfers ownership, stamps now and clears the conversation |
| `Transfer.TransferToNewUser` | modules/user/control_subscription/handlers.py:274-300 | a contact naming someone not yet a user creates them with no username and zero balance and hands the subscription to them |
| `Transfer.FsmContext.Clear` | modules/user/control_subscription/handlers.py:310 | `state.clear()` leaves no state and no data |
| `Transfer.InitiateTransferSubscription` | modules/user/control_subscription/handlers.py:221-248 | the handler changes only the conversation, as `Initiation` says |
| `Transfer.ProcessTransferContact` | modules/user/control_subscription/handlers.py:250-304 | the handler on the live store and conversation agrees with `Submission`, rolling back a recipient created before a remote error |
| `Transfer.CancelTransfer` | modules/user/control_subscription/handlers.py:306-314 | the handler agrees with `Cancellation` |

## Left out

- `Store.GetLastSyncTime`, `Store.SyncTimeStamped`: look the user up by `telegram_id`, as the documentation of `get_last_sync_time` and `update_last_sync_time` says. The code passes the telegram id to `session.get(User, ...)`, which looks up the primary key `id` (core/database/crud.py:371, 391). So the code reads and stamps whichever user has that `id`, possibly another user. When no user has that `id`, `update_last_sync_time` inserts a new row. If the `telegram_id` is already stored, the unique constraint then fails the commit and the stamp is lost. The model does not capture this mismatch.

- Remote directory client (core/api/remnawave_client.py): only its answers are modelled, as parameters. It returns an empty device list on every error, so "no devices" also stands for a failed fetch.
- Sessions, commits, rollbacks and concurrency: each handler is one atomic step. Two requests racing on the same subscription are not modelled.
- Clock: the store's own `datetime.now()` in the counter reset and each handler's own `now` are one value, and time is whole seconds with no microseconds.
- Handlers' generic exception branches, and the index errors they catch, are not modelled. The dispatcher's prefix filters guarantee that `split(":")[1]` exists, so renewal and initiation take the uuid directly.
- The `IsNotBanned` filter on every route (modules/user/control_subscription/router.py:18-25): core/filters is not part of this model. `BANNED` is only a role value here.
- `Numeric(10, 2)` range overflow is not modelled; amounts are unbounded integers of cents. With a negative renewal price, the debit could overflow the column and make the commit fail.
- Columns no operation reads: `created_at`, `updated_at`, users' `username` index, and the `SubscriptionPlan`, `Promocode` and `UsedPromocode` tables with their queries.
- `get_user_full_data` and `get_purchased_subscription_uuids`: read-only queries that the lifecycle handlers do not use.
- `create_purchased_subscription` (core/database/crud.py:283-300) only forwards to the upsert, so `Store.Upserted` covers it.
- Display-only handlers (`manage_subscription_menu`, `view_devices`, `show_device_details` rendering), keyboards, texts and messages. The recipient notification is never reached in the source (see above) and is not modelled.
- `sub_uuid` is not declared unique. The model keys subscriptions by uuid, since the upsert is the only writer and keeps them unique.
- A reconciliation routine that folds the remote directory into the ledger does not exist in this code beyond the sync-time accessors, and is not modelled.
