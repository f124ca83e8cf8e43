/**
 * The store operations on the ledger (core/database/crud.py).
 *
 * Each mutator is a pure transition `Db -> Step` stating what the call answers
 * and what it leaves behind, and a method of `Store` that changes the tables
 * in place and is proved to agree with it. A failed commit is an answer of
 * `None`/`false` with the ledger unchanged (the rollback). Sessions, flushes
 * and the `datetime.now()` inside the store are folded into one atomic step
 * whose clock is the `now` parameter.
 */
module Store {
  import opened Wrappers
  import opened Ledger

  // ---------------------------------------------------------------- users

  /**
   * `create_user`: inserts a new USER with the given balance. An existing
   * `telegram_id` violates uniqueness, and the existing user is returned
   * instead; any other failure of the insert (`fault`) returns `None`.
   */
  function UserCreated(db: Db, telegramId: int, username: Option<string>, balance: Cents, fault: bool)
    : (s: Step<Option<User>>)
    requires Consistent(db)
    ensures Consistent(s.db)
    ensures telegramId in db.users ==> s == Step(Some(db.users[telegramId]), db)
    ensures telegramId !in db.users && fault ==> s == Step(None, db)
    ensures telegramId !in db.users && !fault ==>
      && s.result == Some(NewUser(telegramId, username, balance))
      && s.db.subs == db.subs
      && s.db.users == db.users[telegramId := NewUser(telegramId, username, balance)]
    ensures s.result.Some? ==> telegramId in s.db.users && s.db.users[telegramId] == s.result.value
  {
    if telegramId in db.users then Step(Some(db.users[telegramId]), db)
    else if fault then Step(None, db)
    else
      var u := NewUser(telegramId, username, balance);
      Step(Some(u), db.(users := db.users[telegramId := u]))
  }

  /** `get_user_by_telegram_id`. */
  function GetUserByTelegramId(db: Db, telegramId: int): (r: Option<User>)
    requires Consistent(db)
    ensures r.Some? <==> telegramId in db.users
    ensures r.Some? ==> r.value.telegramId == telegramId && r.value == db.users[telegramId]
  {
    if telegramId in db.users then Some(db.users[telegramId]) else None
  }

  /** Looking a user up after `create_user` returns what `create_user` answered, when it answered a user. */
  lemma CreateThenGet(db: Db, telegramId: int, username: Option<string>, balance: Cents, fault: bool)
    requires Consistent(db)
    ensures var s := UserCreated(db, telegramId, username, balance, fault);
      && (s.result.Some? ==> GetUserByTelegramId(s.db, telegramId) == s.result)
      && (s.result.None? ==> GetUserByTelegramId(s.db, telegramId) == None)
  {
  }

  /** `get_last_sync_time`: `None` for an unknown user or one never synced. */
  function GetLastSyncTime(db: Db, telegramId: int): (r: Option<Time>)
    ensures telegramId !in db.users ==> r == None
    ensures telegramId in db.users ==> r == db.users[telegramId].lastSyncTime
  {
    if telegramId in db.users then db.users[telegramId].lastSyncTime else None
  }

  /**
   * `update_last_sync_time`: stamps an existing user, or inserts a new user
   * (balance 0, role USER) carrying the stamp.
   */
  function SyncTimeStamped(db: Db, telegramId: int, syncTime: Time): (db': Db)
    requires Consistent(db)
    ensures Consistent(db')
    ensures db'.subs == db.subs
    ensures telegramId in db'.users && db'.users[telegramId].lastSyncTime == Some(syncTime)
    ensures telegramId in db.users ==>
      db'.users == db.users[telegramId := db.users[telegramId].(lastSyncTime := Some(syncTime))]
    ensures telegramId !in db.users ==>
      && db'.users == db.users[telegramId := db'.users[telegramId]]
      && db'.users[telegramId].balance == 0
      && db'.users[telegramId].role == Regular
      && db'.users[telegramId].username == None
  {
    var u := if telegramId in db.users then db.users[telegramId] else NewUser(telegramId, None, 0);
    db.(users := db.users[telegramId := u.(lastSyncTime := Some(syncTime))])
  }

  /** Stamping and then reading the sync time returns the stamp. */
  lemma SyncTimeRoundTrip(db: Db, telegramId: int, syncTime: Time)
    requires Consistent(db)
    ensures GetLastSyncTime(SyncTimeStamped(db, telegramId, syncTime), telegramId) == Some(syncTime)
  {
  }

  // -------------------------------------------------------- subscriptions

  /** `get_purchased_subscription_by_uuid`. */
  function GetPurchasedSubscriptionByUuid(db: Db, uuid: string): (r: Option<Subscription>)
    requires Consistent(db)
    ensures r.Some? <==> uuid in db.subs
    ensures r.Some? ==> r.value.uuid == uuid && r.value.owner in db.users && r.value == db.subs[uuid]
  {
    if uuid in db.subs then Some(db.subs[uuid]) else None
  }

  /**
   * `create_or_update_purchased_subscription`. An existing record gets the new
   * owner, and each of the two prices and the expiry only when that argument
   * is given. A new record takes price 0 for an absent price, a zero removal
   * counter and no window anchor; it needs an expiry (NOT NULL), and its
   * `username` is left unset. The commit fails, changing nothing, when the
   * owner is not a user (foreign key) or a new record has no expiry.
   */
  function Upserted(db: Db, owner: int, uuid: string,
                    purchasePrice: Option<Cents>, renewalPrice: Option<Cents>, expiredAt: Option<Time>)
    : (s: Step<Option<Subscription>>)
    requires Consistent(db)
    ensures Consistent(s.db)
    ensures s.result.None? <==> owner !in db.users || (uuid !in db.subs && expiredAt.None?)
    ensures s.result.None? ==> s.db == db
    ensures s.result.Some? ==>
      var r := s.result.value;
      && s.db.users == db.users
      && s.db.subs == db.subs[uuid := r]
      && r.uuid == uuid && r.owner == owner
      && (purchasePrice.Some? ==> r.purchasePrice == purchasePrice)
      && (renewalPrice.Some? ==> r.renewalPrice == renewalPrice)
      && (expiredAt.Some? ==> r.expiredAt == expiredAt.value)
    ensures s.result.Some? && uuid in db.subs ==>
      var (r, old_) := (s.result.value, db.subs[uuid]);
      && (purchasePrice.None? ==> r.purchasePrice == old_.purchasePrice)
      && (renewalPrice.None? ==> r.renewalPrice == old_.renewalPrice)
      && (expiredAt.None? ==> r.expiredAt == old_.expiredAt)
      && r.removalCount == old_.removalCount
      && r.lastRemovalReset == old_.lastRemovalReset
      && r.lastTransferTime == old_.lastTransferTime
      && r.username == old_.username
    ensures s.result.Some? && uuid !in db.subs ==>
      var r := s.result.value;
      && r.purchasePrice == Some(purchasePrice.GetOr(0))
      && r.renewalPrice == Some(renewalPrice.GetOr(0))
      && r.removalCount == 0 && r.lastRemovalReset == None
      && r.lastTransferTime == None && r.username == None
  {
    if owner !in db.users then Step(None, db)
    else if uuid in db.subs then
      var old_ := db.subs[uuid];
      var r := old_.(owner := owner,
                     purchasePrice := if purchasePrice.Some? then purchasePrice else old_.purchasePrice,
                     renewalPrice := if renewalPrice.Some? then renewalPrice else old_.renewalPrice,
                     expiredAt := expiredAt.GetOr(old_.expiredAt));
      Step(Some(r), db.(subs := db.subs[uuid := r]))
    else if expiredAt.None? then Step(None, db)
    else
      var r := Subscription(uuid, owner, None, Some(purchasePrice.GetOr(0)), Some(renewalPrice.GetOr(0)),
                            expiredAt.value, None, 0, None);
      Step(Some(r), db.(subs := db.subs[uuid := r]))
  }

  /** Two identical upserts leave the same ledger, and answer the same, as one. */
  lemma UpsertIdempotent(db: Db, owner: int, uuid: string,
                         purchasePrice: Option<Cents>, renewalPrice: Option<Cents>, expiredAt: Option<Time>)
    requires Consistent(db)
    ensures var once := Upserted(db, owner, uuid, purchasePrice, renewalPrice, expiredAt);
            Upserted(once.db, owner, uuid, purchasePrice, renewalPrice, expiredAt) == once
  {
    var once := Upserted(db, owner, uuid, purchasePrice, renewalPrice, expiredAt);
    if once.result.Some? {
      var twice := Upserted(once.db, owner, uuid, purchasePrice, renewalPrice, expiredAt);
      assert twice.result == once.result;
      assert twice.db.subs == once.db.subs[uuid := once.result.value] == once.db.subs;
    }
  }

  /** The upsert never writes a null price, so a ledger with every price set keeps them set. */
  lemma UpsertKeepsPricesSet(db: Db, owner: int, uuid: string,
                             purchasePrice: Option<Cents>, renewalPrice: Option<Cents>, expiredAt: Option<Time>)
    requires Consistent(db) && PricesSet(db)
    ensures PricesSet(Upserted(db, owner, uuid, purchasePrice, renewalPrice, expiredAt).db)
  {
  }

  /**
   * Every record the upsert creates has a null `username`, against the
   * column's NOT NULL declaration.
   */
  lemma UpsertCreatesNullUsername(db: Db, owner: int, uuid: string,
                                  purchasePrice: Option<Cents>, renewalPrice: Option<Cents>, expiredAt: Option<Time>)
    requires Consistent(db) && uuid !in db.subs
    requires Upserted(db, owner, uuid, purchasePrice, renewalPrice, expiredAt).result.Some?
    ensures !SatisfiesUsernameNotNull(Upserted(db, owner, uuid, purchasePrice, renewalPrice, expiredAt).result.value)
  {
  }

  /** Reading a record back after a successful upsert returns the record the upsert answered. */
  lemma UpsertThenGet(db: Db, owner: int, uuid: string,
                      purchasePrice: Option<Cents>, renewalPrice: Option<Cents>, expiredAt: Option<Time>)
    requires Consistent(db)
    ensures var s := Upserted(db, owner, uuid, purchasePrice, renewalPrice, expiredAt);
      && (s.result.Some? ==> GetPurchasedSubscriptionByUuid(s.db, uuid) == s.result)
      && (s.result.None? ==> GetPurchasedSubscriptionByUuid(s.db, uuid) == GetPurchasedSubscriptionByUuid(db, uuid))
  {
  }

  /** `update_subscription_expiration`: `false` for an unknown uuid, else only `expiredAt` changes. */
  function ExpirationUpdated(db: Db, uuid: string, newExpiration: Time): (s: Step<bool>)
    requires Consistent(db)
    ensures Consistent(s.db)
    ensures s.result <==> uuid in db.subs
    ensures !s.result ==> s.db == db
    ensures s.result ==>
      s.db == db.(subs := db.subs[uuid := db.subs[uuid].(expiredAt := newExpiration)])
  {
    if uuid !in db.subs then Step(false, db)
    else Step(true, db.(subs := db.subs[uuid := db.subs[uuid].(expiredAt := newExpiration)]))
  }

  /** After an expiry update of a stored record, the lookup shows the new expiry and the rest unchanged. */
  lemma ExpirationThenGet(db: Db, uuid: string, newExpiration: Time)
    requires Consistent(db) && uuid in db.subs
    ensures GetPurchasedSubscriptionByUuid(ExpirationUpdated(db, uuid, newExpiration).db, uuid)
      == Some(GetPurchasedSubscriptionByUuid(db, uuid).value.(expiredAt := newExpiration))
  {
  }

  /**
   * `update_device_removal_count`: `false` for an unknown uuid. Incrementing
   * adds one and keeps the window anchor; resetting zeroes the counter and
   * anchors the window at `now`. Nothing else changes.
   */
  function RemovalCountUpdated(db: Db, uuid: string, increment: bool, now: Time): (s: Step<bool>)
    requires Consistent(db)
    ensures Consistent(s.db)
    ensures s.result <==> uuid in db.subs
    ensures !s.result ==> s.db == db
    ensures s.result ==>
      && s.db.users == db.users
      && uuid in s.db.subs
      && s.db.subs == db.subs[uuid := s.db.subs[uuid]]
      && var (r, old_) := (s.db.subs[uuid], db.subs[uuid]);
         && (increment ==> r == old_.(removalCount := old_.removalCount + 1))
         && (!increment ==> r == old_.(removalCount := 0, lastRemovalReset := Some(now)))
  {
    if uuid !in db.subs then Step(false, db)
    else
      var old_ := db.subs[uuid];
      var r := if increment then old_.(removalCount := old_.removalCount + 1)
               else old_.(removalCount := 0, lastRemovalReset := Some(now));
      Step(true, db.(subs := db.subs[uuid := r]))
  }

  // -------------------------------------------------------------- queries

  /** The filter of the two listing queries: the owner's records, expiring after `after` if given. */
  predicate Selected(s: Subscription, owner: int, after: Option<Time>) {
    s.owner == owner && (after.None? || s.expiredAt > after.value)
  }

  /** Ordered by `expired_at` descending. */
  predicate ExpiryDescending(r: seq<Subscription>) {
    forall i, j :: 0 <= i < j < |r| ==> r[i].expiredAt >= r[j].expiredAt
  }

  /** A non-empty set of uuids has one whose record expires latest. */
  lemma {:induction false} LatestExists(subs: map<string, Subscription>, picked: set<string>)
    requires picked != {} && picked <= subs.Keys
    ensures exists u :: u in picked && forall v :: v in picked ==> subs[v].expiredAt <= subs[u].expiredAt
  {
    var x :| x in picked;
    var rest := picked - {x};
    if rest != {} {
      LatestExists(subs, rest);
      var y :| y in rest && forall v :: v in rest ==> subs[v].expiredAt <= subs[y].expiredAt;
      if subs[x].expiredAt <= subs[y].expiredAt {
        assert forall v :: v in picked ==> subs[v].expiredAt <= subs[y].expiredAt;
      } else {
        assert forall v :: v in picked ==> subs[v].expiredAt <= subs[x].expiredAt;
      }
    } else {
      assert picked == {x};
    }
  }

  /**
   * `r` lists the selected records of `subs`, each once, latest expiry first;
   * records with equal expiry may come in any order, as the database leaves them.
   */
  ghost predicate IsListing(subs: map<string, Subscription>, owner: int, after: Option<Time>, r: seq<Subscription>) {
    && (forall i :: 0 <= i < |r| ==> r[i].uuid in subs && subs[r[i].uuid] == r[i] && Selected(r[i], owner, after))
    && (forall u :: u in subs && Selected(subs[u], owner, after) ==> subs[u] in r)
    && (forall i, j :: 0 <= i < j < |r| ==> r[i].uuid != r[j].uuid)
    && ExpiryDescending(r)
  }

  /** Putting the latest selected record in front of a listing of the others lists them all. */
  lemma ListingCons(subs: map<string, Subscription>, owner: int, after: Option<Time>,
                    u: string, tail: seq<Subscription>)
    requires KeyedByUuid(subs) && u in subs && Selected(subs[u], owner, after)
    requires forall v :: v in subs && Selected(subs[v], owner, after) ==> subs[v].expiredAt <= subs[u].expiredAt
    requires IsListing(subs - {u}, owner, after, tail)
    ensures IsListing(subs, owner, after, [subs[u]] + tail)
  {
    var rest := subs - {u};
    var r := [subs[u]] + tail;
    forall v | v in subs && Selected(subs[v], owner, after)
      ensures subs[v] in r
    {
      if v != u {
        assert v in rest && rest[v] == subs[v];
      }
    }
    forall i, j | 0 <= i < j < |r|
      ensures r[i].uuid != r[j].uuid && r[i].expiredAt >= r[j].expiredAt
    {
      if i == 0 {
        assert r[j] == tail[j - 1] && tail[j - 1].uuid in rest;
      } else {
        assert r[i] == tail[i - 1] && r[j] == tail[j - 1];
      }
    }
  }

  /** The rows a listing query returns, computed by repeatedly taking the latest selected record. */
  ghost function Listing(subs: map<string, Subscription>, owner: int, after: Option<Time>): (r: seq<Subscription>)
    requires KeyedByUuid(subs)
    ensures IsListing(subs, owner, after, r)
    decreases |subs|
  {
    var picked := set u | u in subs && Selected(subs[u], owner, after);
    if picked == {} then
      assert forall u :: u in subs && Selected(subs[u], owner, after) ==> u in picked;
      []
    else
      LatestExists(subs, picked);
      var u :| u in picked && forall v :: v in picked ==> subs[v].expiredAt <= subs[u].expiredAt;
      var rest := subs - {u};
      assert |rest| < |subs| by { assert rest.Keys == subs.Keys - {u}; }
      var tail := Listing(rest, owner, after);
      ListingCons(subs, owner, after, u, tail);
      [subs[u]] + tail
  }

  /** `get_purchased_subscriptions`: all of the owner's records, latest expiry first. */
  ghost function PurchasedSubscriptions(db: Db, owner: int): (r: seq<Subscription>)
    requires Consistent(db)
    ensures forall s :: s in r <==> s.uuid in db.subs && db.subs[s.uuid] == s && s.owner == owner
    ensures forall i, j :: 0 <= i < j < |r| ==> r[i].uuid != r[j].uuid
    ensures ExpiryDescending(r)
  {
    Listing(db.subs, owner, None)
  }

  /**
   * `get_active_purchased_subscriptions`: the owner's records with
   * `expired_at > now`, latest expiry first. Converting a null price to
   * `float` raises, and the query then answers the empty list.
   */
  ghost function ActivePurchasedSubscriptions(db: Db, owner: int, now: Time): (r: seq<Subscription>)
    requires Consistent(db)
    ensures ExpiryDescending(r)
    ensures forall i, j :: 0 <= i < j < |r| ==> r[i].uuid != r[j].uuid
    ensures forall s :: s in r ==> s.uuid in db.subs && db.subs[s.uuid] == s && s.owner == owner && s.expiredAt > now
    ensures (forall u :: u in db.subs && Selected(db.subs[u], owner, Some(now)) ==> PricedRecord(db.subs[u])) ==>
      forall u :: u in db.subs && db.subs[u].owner == owner && db.subs[u].expiredAt > now ==> db.subs[u] in r
    ensures (exists u :: u in db.subs && Selected(db.subs[u], owner, Some(now)) && !PricedRecord(db.subs[u])) ==>
      r == []
  {
    var found := Listing(db.subs, owner, Some(now));
    if exists i :: 0 <= i < |found| && !PricedRecord(found[i]) then []
    else found
  }

  /**
   * With every price set, the active query is exactly the plain query's
   * records that expire after `now`.
   */
  lemma ActiveIsUnexpiredListing(db: Db, owner: int, now: Time)
    requires Consistent(db) && PricesSet(db)
    ensures forall s :: s in ActivePurchasedSubscriptions(db, owner, now) <==>
      s in PurchasedSubscriptions(db, owner) && s.expiredAt > now
  {
    var found := Listing(db.subs, owner, Some(now));
    forall i | 0 <= i < |found|
      ensures found[i].purchasePrice.Some? && found[i].renewalPrice.Some?
    {
      assert found[i].uuid in db.subs;
    }
    assert ActivePurchasedSubscriptions(db, owner, now) == found;
  }

  // ------------------------------------------------------- the live store

  /** The database session's view of the two tables, updated in place. */
  class Store {
    var users: map<int, User>
    var subs: map<string, Subscription>

    function State(): Db
      reads this
    {
      Db(users, subs)
    }

    ghost predicate Valid()
      reads this
    {
      Consistent(State())
    }

    constructor ()
      ensures Valid() && users == map[] && subs == map[]
    {
      users := map[];
      subs := map[];
    }

    method CreateUser(telegramId: int, username: Option<string>, balance: Cents, fault: bool)
      returns (user: Option<User>)
      requires Valid()
      modifies this
      ensures Valid()
      ensures Step(user, State()) == UserCreated(old(State()), telegramId, username, balance, fault)
    {
      if telegramId in users {
        return Some(users[telegramId]);
      }
      if fault {
        return None;
      }
      var u := NewUser(telegramId, username, balance);
      users := users[telegramId := u];
      user := Some(u);
    }

    method UpdateLastSyncTime(telegramId: int, syncTime: Time)
      requires Valid()
      modifies this
      ensures Valid()
      ensures State() == SyncTimeStamped(old(State()), telegramId, syncTime)
    {
      if telegramId in users {
        users := users[telegramId := users[telegramId].(lastSyncTime := Some(syncTime))];
      } else {
        var u := NewUser(telegramId, None, 0);
        users := users[telegramId := u.(lastSyncTime := Some(syncTime))];
      }
    }

    method CreateOrUpdatePurchasedSubscription(owner: int, uuid: string, purchasePrice: Option<Cents>,
                                               renewalPrice: Option<Cents>, expiredAt: Option<Time>)
      returns (sub: Option<Subscription>)
      requires Valid()
      modifies this
      ensures Valid()
      ensures Step(sub, State()) == Upserted(old(State()), owner, uuid, purchasePrice, renewalPrice, expiredAt)
    {
      if owner !in users {
        return None;
      }
      var r: Subscription;
      if uuid in subs {
        r := subs[uuid].(owner := owner);
        if purchasePrice.Some? {
          r := r.(purchasePrice := purchasePrice);
        }
        if renewalPrice.Some? {
          r := r.(renewalPrice := renewalPrice);
        }
        if expiredAt.Some? {
          r := r.(expiredAt := expiredAt.value);
        }
      } else {
        if expiredAt.None? {
          return None;
        }
        r := Subscription(uuid, owner, None, Some(purchasePrice.GetOr(0)), Some(renewalPrice.GetOr(0)),
                          expiredAt.value, None, 0, None);
      }
      subs := subs[uuid := r];
      sub := Some(r);
    }

    method UpdateSubscriptionExpiration(uuid: string, newExpiration: Time) returns (ok: bool)
      requires Valid()
      modifies this
      ensures Valid()
      ensures Step(ok, State()) == ExpirationUpdated(old(State()), uuid, newExpiration)
    {
      if uuid !in subs {
        return false;
      }
      subs := subs[uuid := subs[uuid].(expiredAt := newExpiration)];
      ok := true;
    }

    method UpdateDeviceRemovalCount(uuid: string, increment: bool, now: Time) returns (ok: bool)
      requires Valid()
      modifies this
      ensures Valid()
      ensures Step(ok, State()) == RemovalCountUpdated(old(State()), uuid, increment, now)
    {
      if uuid !in subs {
        return false;
      }
      var sub := subs[uuid];
      if increment {
        sub := sub.(removalCount := sub.removalCount + 1);
      } else {
        sub := sub.(removalCount := 0, lastRemovalReset := Some(now));
      }
      subs := subs[uuid := sub];
      ok := true;
    }
  }
}
