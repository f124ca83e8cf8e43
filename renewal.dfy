/**
 * Renewal of a subscription from the caller's balance
 * (`renew_subscription` in modules/user/control_subscription/handlers.py).
 *
 * The caller is whoever pressed the button; the handler does not check that
 * the caller owns the subscription, and neither does the model. A renewal
 * sets the expiry to thirty days from now, whatever time was left.
 */
module Renewal {
  import opened Wrappers
  import opened Ledger
  import opened Store

  /** `timedelta(days=30)` in seconds. */
  const RenewalPeriod: int := 30 * SecondsPerDay

  datatype RenewOutcome =
    | NoSubscription
    | UserNotFound
    | RenewalPriceNotSet
    | InsufficientBalance(required: Cents, balance: Cents)
    | Renewed(expiration: Time, amount: Cents)

  /** The guards of the handler, in order, and the debit with the new expiry when all pass. */
  function RenewalStep(db: Db, uuid: string, caller: int, now: Time): (s: Step<RenewOutcome>)
    requires Consistent(db)
    ensures Consistent(s.db)
    ensures s.result.Renewed? <==>
      && uuid in db.subs && caller in db.users
      && db.subs[uuid].renewalPrice.Some?
      && db.users[caller].balance >= db.subs[uuid].renewalPrice.value
    ensures !s.result.Renewed? ==> s.db == db
    ensures s.result == NoSubscription <==> uuid !in db.subs
    ensures s.result == UserNotFound <==> uuid in db.subs && caller !in db.users
    ensures s.result == RenewalPriceNotSet <==>
      uuid in db.subs && caller in db.users && db.subs[uuid].renewalPrice.None?
    ensures s.result.InsufficientBalance? <==>
      && uuid in db.subs && caller in db.users
      && db.subs[uuid].renewalPrice.Some?
      && db.users[caller].balance < db.subs[uuid].renewalPrice.value
    ensures s.result.InsufficientBalance? ==>
      && s.result.required == db.subs[uuid].renewalPrice.value
      && s.result.balance == db.users[caller].balance
      && s.result.balance < s.result.required
    ensures s.result.Renewed? ==>
      var (price, user, sub) := (db.subs[uuid].renewalPrice.value, db.users[caller], db.subs[uuid]);
      && s.result == Renewed(now + RenewalPeriod, price)
      && s.db.users == db.users[caller := user.(balance := user.balance - price)]
      && s.db.subs == db.subs[uuid := sub.(expiredAt := now + RenewalPeriod)]
      && s.db.users[caller].balance >= 0
  {
    var localSub := GetPurchasedSubscriptionByUuid(db, uuid);
    var found := GetUserByTelegramId(db, caller);
    if localSub.None? then Step(NoSubscription, db)
    else if found.None? then Step(UserNotFound, db)
    else
      var (sub, user) := (localSub.value, found.value);
      if sub.renewalPrice.None? then Step(RenewalPriceNotSet, db)
      else
        var price := sub.renewalPrice.value;
        if user.balance < price then Step(InsufficientBalance(price, user.balance), db)
        else
          var debited := db.(users := db.users[caller := user.(balance := user.balance - price)]);
          Step(Renewed(now + RenewalPeriod, price), ExpirationUpdated(debited, uuid, now + RenewalPeriod).db)
  }

  /**
   * Renewal is all or nothing: either the balance drops by the price and the
   * expiry moves to now + 30 days, or the ledger is untouched.
   */
  lemma RenewalAllOrNothing(db: Db, uuid: string, caller: int, now: Time)
    requires Consistent(db)
    ensures var s := RenewalStep(db, uuid, caller, now);
      || s.db == db
      || (&& uuid in db.subs && caller in db.users
          && s.db.users[caller].balance == db.users[caller].balance - db.subs[uuid].renewalPrice.value
          && s.db.subs[uuid].expiredAt == now + RenewalPeriod)
  {
  }

  /**
   * The old expiry plays no part: two ledgers that differ only in the
   * subscription's expiry get the same answer, and a renewal leaves them
   * identical, so unexpired time is discarded.
   */
  lemma RenewalIgnoresRemainingTime(db: Db, uuid: string, caller: int, now: Time, otherExpiry: Time)
    requires Consistent(db) && uuid in db.subs
    ensures var db' := db.(subs := db.subs[uuid := db.subs[uuid].(expiredAt := otherExpiry)]);
      && RenewalStep(db', uuid, caller, now).result == RenewalStep(db, uuid, caller, now).result
      && (RenewalStep(db, uuid, caller, now).result.Renewed? ==>
            RenewalStep(db', uuid, caller, now).db == RenewalStep(db, uuid, caller, now).db)
  {
    var db' := db.(subs := db.subs[uuid := db.subs[uuid].(expiredAt := otherExpiry)]);
    var s, s' := RenewalStep(db, uuid, caller, now), RenewalStep(db', uuid, caller, now);
    if s.result.Renewed? {
      assert s'.db.subs == s.db.subs;
    }
  }

  /** Balance 100.00 against a renewal price of 80.00: renewed, 20.00 left, expiry now + 30 days. */
  lemma RenewalWithEnoughBalance(db: Db, uuid: string, caller: int, now: Time)
    requires Consistent(db) && uuid in db.subs && caller in db.users
    requires db.subs[uuid].renewalPrice == Some(8000) && db.users[caller].balance == 10000
    ensures RenewalStep(db, uuid, caller, now).result == Renewed(now + 30 * 86400, 8000)
    ensures RenewalStep(db, uuid, caller, now).db.users[caller].balance == 2000
  {
  }

  /** Balance 50.00 against a renewal price of 80.00: refused, balance unchanged. */
  lemma RenewalWithShortBalance(db: Db, uuid: string, caller: int, now: Time)
    requires Consistent(db) && uuid in db.subs && caller in db.users
    requires db.subs[uuid].renewalPrice == Some(8000) && db.users[caller].balance == 5000
    ensures RenewalStep(db, uuid, caller, now) == Step(InsufficientBalance(8000, 5000), db)
  {
  }

  /** The handler: look up, check, debit the caller in place, then store the new expiry. */
  method RenewSubscription(store: Store, uuid: string, caller: int, now: Time) returns (r: RenewOutcome)
    requires store.Valid()
    modifies store
    ensures store.Valid()
    ensures Step(r, store.State()) == RenewalStep(old(store.State()), uuid, caller, now)
  {
    if uuid !in store.subs {
      return NoSubscription;
    }
    var sub := store.subs[uuid];
    if caller !in store.users {
      return UserNotFound;
    }
    var user := store.users[caller];
    if sub.renewalPrice.None? {
      return RenewalPriceNotSet;
    }
    var price := sub.renewalPrice.value;
    if user.balance < price {
      return InsufficientBalance(price, user.balance);
    }
    store.users := store.users[caller := user.(balance := user.balance - price)];
    var newExpiration := now + RenewalPeriod;
    var _ := store.UpdateSubscriptionExpiration(uuid, newExpiration);
    r := Renewed(newExpiration, price);
  }
}
