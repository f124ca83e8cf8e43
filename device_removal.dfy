/**
 * Removal of a connected device under a monthly quota
 * (`remove_device_callback` in modules/user/control_subscription/handlers.py).
 *
 * A subscription may remove at most four devices per rolling window of thirty
 * whole days. The window is anchored at the first removal, not at purchase,
 * and rolls over lazily: the next request made thirty or more whole days
 * after the anchor zeroes the counter and re-anchors it at that moment before
 * anything else is checked, and that roll-over is committed even when the
 * request is then refused. The live device list and the outcome of the remote
 * removal come from the remote directory and are parameters here.
 */
module DeviceRemoval {
  import opened Wrappers
  import opened Ledger
  import opened Store
  import opened Callbacks

  /** `DEVICE_REMOVAL_LIMIT`. */
  const DeviceRemovalLimit: nat := 4
  /** Length of the removal window in whole days. */
  const RemovalWindowDays: int := 30

  datatype RemovalOutcome =
    | InvalidRequest
    | NoSubscription
    | LimitReached(daysLeft: int)
    | NoDevices
    | LastDevice
    | DeviceNotFound
    | RemoteFailure
    | Removed(hwid: string)

  /** The window is anchored and at least thirty whole days old. */
  function WindowExpired(sub: Subscription, now: Time): (b: bool)
    ensures b <==> sub.lastRemovalReset.Some?
                   && now - sub.lastRemovalReset.value >= RemovalWindowDays * SecondsPerDay
  {
    sub.lastRemovalReset.Some? && WholeDays(now, sub.lastRemovalReset.value) >= RemovalWindowDays
  }

  /** The days the refusal message reports: thirty less the whole days since the anchor, or thirty. */
  function DaysLeft(sub: Subscription, now: Time): (d: int)
    ensures sub.lastRemovalReset.None? ==> d == RemovalWindowDays
    ensures sub.lastRemovalReset.Some? && sub.lastRemovalReset.value <= now ==> d <= RemovalWindowDays
    ensures sub.lastRemovalReset.Some? && !WindowExpired(sub, now) ==> d >= 1
    ensures sub.lastRemovalReset.Some? ==>
      var elapsed := now - sub.lastRemovalReset.value;
      (RemovalWindowDays - d) * SecondsPerDay <= elapsed < (RemovalWindowDays - d + 1) * SecondsPerDay
  {
    if sub.lastRemovalReset.Some? then RemovalWindowDays - WholeDays(now, sub.lastRemovalReset.value)
    else RemovalWindowDays
  }

  /** The roll-over step: an expired window is reset through the store, otherwise nothing happens. */
  function RolledOver(db: Db, uuid: string, now: Time): (db': Db)
    requires Consistent(db) && uuid in db.subs
    ensures Consistent(db') && db'.users == db.users
    ensures uuid in db'.subs && db'.subs == db.subs[uuid := db'.subs[uuid]]
    ensures WindowExpired(db.subs[uuid], now) ==>
      db'.subs[uuid] == db.subs[uuid].(removalCount := 0, lastRemovalReset := Some(now))
    ensures !WindowExpired(db.subs[uuid], now) ==> db' == db
  {
    if WindowExpired(db.subs[uuid], now) then RemovalCountUpdated(db, uuid, false, now).db else db
  }

  /** A window just reset is not expired again at the same moment: it is reset once. */
  lemma RollOverOnce(db: Db, uuid: string, now: Time)
    requires Consistent(db) && uuid in db.subs
    ensures RolledOver(RolledOver(db, uuid, now), uuid, now) == RolledOver(db, uuid, now)
  {
  }

  /**
   * The handler from the limit check on, on the ledger the roll-over left:
   * each refusal under its own guard, in the handler's order, leaving that
   * ledger; a removal counts one more and anchors a window not yet anchored.
   */
  function RemovalChecks(db1: Db, uuid: string, shortHwid: string, now: Time, devices: seq<Device>,
                         remoteRemoved: bool)
    : (s: Step<RemovalOutcome>)
    requires Consistent(db1) && uuid in db1.subs
    ensures Consistent(s.db) && s.db.users == db1.users
    ensures uuid in s.db.subs && s.db.subs == db1.subs[uuid := s.db.subs[uuid]]
    ensures var before := db1.subs[uuid];
      && (s.result.LimitReached? <==> before.removalCount >= DeviceRemovalLimit)
      && (s.result.LimitReached? ==> s.result.daysLeft == DaysLeft(before, now))
      && (before.removalCount < DeviceRemovalLimit ==>
            var found := FirstMatch(devices, shortHwid);
            && (s.result == NoDevices <==> |devices| == 0)
            && (s.result == LastDevice <==> |devices| == 1)
            && (s.result == DeviceNotFound <==> |devices| >= 2 && found.None?)
            && (s.result == RemoteFailure <==> |devices| >= 2 && found.Some? && !remoteRemoved)
            && (s.result.Removed? <==> |devices| >= 2 && found.Some? && remoteRemoved))
      && (!s.result.Removed? ==> s.db == db1)
      && (s.result.Removed? ==>
            && before.removalCount < DeviceRemovalLimit
            && |devices| >= 2 && remoteRemoved
            && FirstMatch(devices, shortHwid).Some?
            && s.result.hwid == devices[FirstMatch(devices, shortHwid).value].hwid
            && s.db.subs[uuid].removalCount == before.removalCount + 1
            && s.db.subs[uuid].lastRemovalReset == Some(before.lastRemovalReset.GetOr(now))
            && s.db.subs[uuid] == before.(removalCount := s.db.subs[uuid].removalCount,
                                          lastRemovalReset := s.db.subs[uuid].lastRemovalReset))
    ensures s.result != InvalidRequest && s.result != NoSubscription
  {
    var sub := GetPurchasedSubscriptionByUuid(db1, uuid).value;
    if sub.removalCount >= DeviceRemovalLimit then Step(LimitReached(DaysLeft(sub, now)), db1)
    else if |devices| == 0 then Step(NoDevices, db1)
    else if |devices| <= 1 then Step(LastDevice, db1)
    else
      match FirstMatch(devices, shortHwid)
      case None => Step(DeviceNotFound, db1)
      case Some(i) =>
        if !remoteRemoved then Step(RemoteFailure, db1)
        else
          var db2 := RemovalCountUpdated(db1, uuid, true, now).db;
          var counted := db2.subs[uuid];
          var db3 := if counted.lastRemovalReset.None?
                     then db2.(subs := db2.subs[uuid := counted.(lastRemovalReset := Some(now))])
                     else db2;
          Step(Removed(devices[i].hwid), db3)
  }

  /**
   * The handler on a given clock, remote device list and remote removal
   * result. Refusals after the roll-over leave the ledger as the roll-over
   * left it; a removal counts one more and anchors a window not yet anchored.
   */
  function DeviceRemovalStep(db: Db, callbackData: string, now: Time, devices: seq<Device>, remoteRemoved: bool)
    : (s: Step<RemovalOutcome>)
    requires Consistent(db)
    ensures Consistent(s.db) && s.db.users == db.users
    ensures s.result == InvalidRequest <==> |Split(callbackData)| != 3
    ensures s.result == InvalidRequest || s.result == NoSubscription ==> s.db == db
    ensures |Split(callbackData)| == 3 ==>
      var uuid := Split(callbackData)[1];
      && (s.result == NoSubscription <==> uuid !in db.subs)
      && (uuid in db.subs ==>
            var before := RolledOver(db, uuid, now).subs[uuid];
            && uuid in s.db.subs
            && s.db.subs == db.subs[uuid := s.db.subs[uuid]]
            && (s.result.LimitReached? <==> before.removalCount >= DeviceRemovalLimit)
            && (s.result.LimitReached? ==> s.result.daysLeft == DaysLeft(before, now))
            && (before.removalCount < DeviceRemovalLimit ==>
                  var found := FirstMatch(devices, Split(callbackData)[2]);
                  && (s.result == NoDevices <==> |devices| == 0)
                  && (s.result == LastDevice <==> |devices| == 1)
                  && (s.result == DeviceNotFound <==> |devices| >= 2 && found.None?)
                  && (s.result == RemoteFailure <==> |devices| >= 2 && found.Some? && !remoteRemoved)
                  && (s.result.Removed? <==> |devices| >= 2 && found.Some? && remoteRemoved))
            && (!s.result.Removed? ==> s.db == RolledOver(db, uuid, now))
            && (s.result.Removed? ==>
                  && before.removalCount < DeviceRemovalLimit
                  && |devices| >= 2 && remoteRemoved
                  && FirstMatch(devices, Split(callbackData)[2]).Some?
                  && s.result.hwid == devices[FirstMatch(devices, Split(callbackData)[2]).value].hwid
                  && s.db.subs[uuid].removalCount == before.removalCount + 1
                  && s.db.subs[uuid].lastRemovalReset == Some(before.lastRemovalReset.GetOr(now))
                  && s.db.subs[uuid] == before.(removalCount := s.db.subs[uuid].removalCount,
                                                lastRemovalReset := s.db.subs[uuid].lastRemovalReset)))
    ensures |devices| <= 1 ==> !s.result.Removed?
  {
    var parts := Split(callbackData);
    if |parts| != 3 then Step(InvalidRequest, db)
    else
      var (uuid, shortHwid) := (parts[1], parts[2]);
      var localSub := GetPurchasedSubscriptionByUuid(db, uuid);
      if localSub.None? then Step(NoSubscription, db)
      else RemovalChecks(RolledOver(db, uuid, now), uuid, shortHwid, now, devices, remoteRemoved)
  }

  /** No subscription has removed more than four devices in its window. */
  ghost predicate WithinQuota(db: Db) {
    forall u :: u in db.subs ==> db.subs[u].removalCount <= DeviceRemovalLimit
  }

  /** Every request, whatever its outcome, keeps every counter within the quota. */
  lemma DeviceRemovalKeepsQuota(db: Db, callbackData: string, now: Time, devices: seq<Device>, remoteRemoved: bool)
    requires Consistent(db) && WithinQuota(db)
    ensures WithinQuota(DeviceRemovalStep(db, callbackData, now, devices, remoteRemoved).db)
  {
    var s := DeviceRemovalStep(db, callbackData, now, devices, remoteRemoved);
    var parts := Split(callbackData);
    if |parts| == 3 && parts[1] in db.subs {
      var uuid := parts[1];
      forall u | u in s.db.subs
        ensures s.db.subs[u].removalCount <= DeviceRemovalLimit
      {
        if u != uuid {
          assert s.db.subs[u] == db.subs[u];
        } else if !s.result.Removed? {
          assert s.db.subs[u] == RolledOver(db, uuid, now).subs[u];
        }
      }
    }
  }

  /**
   * With a single connected device the removal is always refused, and the
   * ledger ends as the window roll-over left it (a reset of an expired window
   * is still committed).
   */
  lemma LastDeviceProtected(db: Db, callbackData: string, now: Time, device: Device, remoteRemoved: bool)
    requires Consistent(db)
    ensures var s := DeviceRemovalStep(db, callbackData, now, [device], remoteRemoved);
      && !s.result.Removed?
      && (|Split(callbackData)| == 3 && Split(callbackData)[1] in db.subs ==>
            s.db == RolledOver(db, Split(callbackData)[1], now))
  {
  }

  /** Four removals with the window anchored five days ago: refused, 25 days left, nothing changes. */
  lemma QuotaExhaustedScenario(db: Db, callbackData: string, now: Time, devices: seq<Device>, remoteRemoved: bool)
    requires Consistent(db) && |Split(callbackData)| == 3 && Split(callbackData)[1] in db.subs
    requires db.subs[Split(callbackData)[1]].removalCount == 4
    requires db.subs[Split(callbackData)[1]].lastRemovalReset == Some(now - 5 * SecondsPerDay)
    ensures DeviceRemovalStep(db, callbackData, now, devices, remoteRemoved) == Step(LimitReached(25), db)
  {
    assert WholeDays(now, now - 5 * SecondsPerDay) == 5;
  }

  /**
   * Three removals with the window anchored 31 days ago: the window resets,
   * the removal goes through, and the counter ends at one anchored now.
   */
  lemma StaleWindowScenario(db: Db, callbackData: string, now: Time, devices: seq<Device>)
    requires Consistent(db) && |Split(callbackData)| == 3 && Split(callbackData)[1] in db.subs
    requires db.subs[Split(callbackData)[1]].removalCount == 3
    requires db.subs[Split(callbackData)[1]].lastRemovalReset == Some(now - 31 * SecondsPerDay)
    requires |devices| >= 2 && FirstMatch(devices, Split(callbackData)[2]).Some?
    ensures var s := DeviceRemovalStep(db, callbackData, now, devices, true);
      && s.result.Removed?
      && s.db.subs[Split(callbackData)[1]].removalCount == 1
      && s.db.subs[Split(callbackData)[1]].lastRemovalReset == Some(now)
  {
    assert WholeDays(now, now - 31 * SecondsPerDay) == 31;
  }

  /**
   * The remove button of a device whose first eight hwid characters hold ':'
   * is always refused as malformed: its data splits into more than three parts.
   */
  lemma SeparatorInHwidBlocksRemoval(db: Db, uuid: string, hwid: string, now: Time, devices: seq<Device>,
                                     remoteRemoved: bool)
    requires Consistent(db) && Separator in ShortHwid(hwid)
    ensures DeviceRemovalStep(db, RemoveDeviceCallback(uuid, hwid), now, devices, remoteRemoved)
      == Step(InvalidRequest, db)
  {
    RemoveCallbackPartCount(uuid, hwid);
  }

  /**
   * A device whose first eight hwid characters the first listed device also
   * starts with: its remove button removes the first listed device instead.
   */
  lemma SharedShortHwidRemovesFirst(db: Db, uuid: string, now: Time, devices: seq<Device>, k: nat)
    requires Consistent(db) && uuid in db.subs && Separator !in uuid
    requires 0 < k < |devices| && Separator !in ShortHwid(devices[k].hwid)
    requires ShortHwid(devices[k].hwid) <= devices[0].hwid
    requires RolledOver(db, uuid, now).subs[uuid].removalCount < DeviceRemovalLimit
    ensures DeviceRemovalStep(db, RemoveDeviceCallback(uuid, devices[k].hwid), now, devices, true).result
      == Removed(devices[0].hwid)
  {
    RemoveCallbackParses(uuid, devices[k].hwid);
  }

  /** Devices `abcdefgh1` and `abcdefgh2`: the second one's remove button removes the first. */
  lemma SharedShortHwidScenario(db: Db, uuid: string, now: Time)
    requires Consistent(db) && uuid in db.subs && Separator !in uuid
    requires db.subs[uuid].removalCount == 0 && db.subs[uuid].lastRemovalReset.None?
    ensures var devices := [Device("abcdefgh1"), Device("abcdefgh2")];
      DeviceRemovalStep(db, RemoveDeviceCallback(uuid, "abcdefgh2"), now, devices, true).result
        == Removed("abcdefgh1")
  {
    var devices := [Device("abcdefgh1"), Device("abcdefgh2")];
    assert ShortHwid(devices[1].hwid) == "abcdefgh";
    assert "abcdefgh" <= devices[0].hwid;
    SharedShortHwidRemovesFirst(db, uuid, now, devices, 1);
  }

  /** The handler, on the live store. */
  method RemoveDevice(store: Store, callbackData: string, now: Time, devices: seq<Device>, remoteRemoved: bool)
    returns (r: RemovalOutcome)
    requires store.Valid()
    modifies store
    ensures store.Valid()
    ensures Step(r, store.State()) == DeviceRemovalStep(old(store.State()), callbackData, now, devices, remoteRemoved)
  {
    var parts := Split(callbackData);
    if |parts| != 3 {
      return InvalidRequest;
    }
    var uuid, shortHwid := parts[1], parts[2];
    if uuid !in store.subs {
      return NoSubscription;
    }
    var sub := store.subs[uuid];
    if WindowExpired(sub, now) {
      var _ := store.UpdateDeviceRemovalCount(uuid, false, now);
      sub := store.subs[uuid];
    }
    if sub.removalCount >= DeviceRemovalLimit {
      return LimitReached(DaysLeft(sub, now));
    }
    if |devices| == 0 {
      return NoDevices;
    }
    if |devices| <= 1 {
      return LastDevice;
    }
    var found := FirstMatch(devices, shortHwid);
    if found.None? {
      return DeviceNotFound;
    }
    if !remoteRemoved {
      return RemoteFailure;
    }
    var _ := store.UpdateDeviceRemovalCount(uuid, true, now);
    if sub.lastRemovalReset.None? {
      store.subs := store.subs[uuid := store.subs[uuid].(lastRemovalReset := Some(now))];
    }
    r := Removed(devices[found.value].hwid);
  }
}
