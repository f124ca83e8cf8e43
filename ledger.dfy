/**
 * The persisted records of the bot: users and the subscriptions they own
 * (core/database/model.py), with the constraints the schema declares.
 *
 * Money is a count of cents, the exact value of a `Numeric(10, 2)` column.
 * Time is a count of seconds; a Python `timedelta(...).days` is the floored
 * number of whole days, which Dafny's Euclidean division by a positive
 * divisor computes.
 */
module Ledger {
  import opened Wrappers

  type Cents = int
  type Time = int

  const SecondsPerDay: int := 86400

  /** `(now - since).days`: whole days elapsed, rounded towards minus infinity. */
  function WholeDays(now: Time, since: Time): (d: int)
    ensures d * SecondsPerDay <= now - since < (d + 1) * SecondsPerDay
    ensures now >= since ==> d >= 0
  {
    (now - since) / SecondsPerDay
  }

  /** The values the `check_user_role` constraint admits. */
  datatype Role = Admin | Support | Regular | Banned

  /** The text stored in the `role` column. */
  function RoleName(r: Role): string {
    match r
    case Admin => "ADMIN"
    case Support => "SUPPORT"
    case Regular => "USER"
    case Banned => "BANNED"
  }

  /** The `check_user_role` constraint on a stored role text. */
  predicate RoleAllowed(s: string) {
    s == "ADMIN" || s == "SUPPORT" || s == "USER" || s == "BANNED"
  }

  /** Reads a stored role text; exactly the texts the constraint admits parse. */
  function ParseRole(s: string): (r: Option<Role>)
    ensures r.Some? <==> RoleAllowed(s)
    ensures r.Some? ==> RoleName(r.value) == s
  {
    if s == "ADMIN" then Some(Admin)
    else if s == "SUPPORT" then Some(Support)
    else if s == "USER" then Some(Regular)
    else if s == "BANNED" then Some(Banned)
    else None
  }

  /** Every role is stored as a text the constraint admits, and reads back as itself. */
  lemma RoleNameParses(r: Role)
    ensures RoleAllowed(RoleName(r)) && ParseRole(RoleName(r)) == Some(r)
  {
  }

  /** A row of `users`; `created_at`/`updated_at` are server-managed and not modelled. */
  datatype User = User(
    telegramId: int,
    username: Option<string>,
    role: Role,
    balance: Cents,
    lastSyncTime: Option<Time>)

  /** A user inserted with only the given columns: role USER, no sync time. */
  function NewUser(telegramId: int, username: Option<string>, balance: Cents): (u: User)
    ensures u.telegramId == telegramId && u.username == username && u.balance == balance
    ensures RoleName(u.role) == "USER" && u.lastSyncTime == None
  {
    User(telegramId, username, Regular, balance, None)
  }

  /**
   * A row of `purchased_subscriptions`. `owner` is the `telegram_id` foreign
   * key. Prices are nullable (a null renewal price means renewal is not
   * configured); `expiredAt` is not. `username` is declared NOT NULL but the
   * store's upsert never sets it, so it is kept optional here.
   */
  datatype Subscription = Subscription(
    uuid: string,
    owner: int,
    username: Option<string>,
    purchasePrice: Option<Cents>,
    renewalPrice: Option<Cents>,
    expiredAt: Time,
    lastTransferTime: Option<Time>,
    removalCount: nat,
    lastRemovalReset: Option<Time>)

  /** The NOT NULL declaration of the subscription's `username` column. */
  predicate SatisfiesUsernameNotNull(s: Subscription) {
    s.username.Some?
  }

  /** The whole ledger: users keyed by their unique `telegram_id`, subscriptions by uuid. */
  datatype Db = Db(users: map<int, User>, subs: map<string, Subscription>)

  /** An operation's answer together with the ledger it leaves behind. */
  datatype Step<+T> = Step(result: T, db: Db)

  /**
   * The schema's invariants: a user is stored under its own `telegram_id`
   * (unique, not null), a subscription under its own uuid, and every
   * subscription's owner is an existing user (the foreign key).
   */
  ghost predicate Consistent(db: Db) {
    && (forall t :: t in db.users ==> db.users[t].telegramId == t)
    && (forall u :: u in db.subs ==> db.subs[u].owner in db.users)
    && KeyedByUuid(db.subs)
  }

  /** Every subscription is stored under its own uuid. */
  ghost predicate KeyedByUuid(subs: map<string, Subscription>) {
    forall u :: u in subs ==> subs[u].uuid == u
  }

  /** Both prices of the record are set (not null). */
  predicate PricedRecord(s: Subscription) {
    s.purchasePrice.Some? && s.renewalPrice.Some?
  }

  /** Every subscription has both prices set. */
  ghost predicate PricesSet(db: Db) {
    forall u :: u in db.subs ==> PricedRecord(db.subs[u])
  }
}
