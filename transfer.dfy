/**
 * Ownership transfer through a two-state conversation
 * (`initiate_transfer_subscription`, `process_transfer_contact`,
 * `cancel_transfer` and `TransferSubscriptionStates` in
 * modules/user/control_subscription/handlers.py).
 *
 * Initiating checks the cooldown since the subscription's last transfer and
 * moves the conversation to `waiting_for_contact`, remembering the uuid. The
 * next message in that state is read as the recipient's contact. The cooldown
 * is compared against 30 days, although `TRANSFER_COOLDOWN_DAYS` and the
 * user-facing text say 14. No step checks that the person transferring owns
 * the subscription, and the cooldown is not checked again when the contact
 * arrives.
 */
module Transfer {
  import opened Wrappers
  import opened Ledger
  import opened Store

  /** The number of days the handler compares the cooldown against. */
  const TransferCooldownDays: int := 30
  /** `TRANSFER_COOLDOWN_DAYS`, which the handler does not use. */
  const AdvertisedCooldownDays: int := 14

  /** `TransferSubscriptionStates`: no state, or `waiting_for_contact`. */
  datatype FsmState = NoState | WaitingForContact

  /** A conversation's state and the `subscription_uuid` entry of its data. */
  datatype Conversation = Conversation(state: FsmState, subscriptionUuid: Option<string>)

  /** The state after `state.clear()`. */
  const Cleared: Conversation := Conversation(NoState, None)

  /** What the sender shared: no contact at all, or a contact whose `user_id` may be missing. */
  datatype ContactMessage = NotAContact | SharedContact(userId: Option<int>)

  datatype InitiateOutcome = NoSubscription | OnCooldown(daysLeft: int) | AwaitingContact

  datatype SubmitOutcome =
    | NotDispatched
    | InvalidContact
    | SelfTransfer
    | MissingPendingSubscription
    | SubscriptionGone
    | RecipientNotCreated
    | RemoteError
    | Transferred(recipient: int)

  /** A conversation outcome with the conversation and ledger it leaves. */
  datatype Turn<+T> = Turn(outcome: T, db: Db, conv: Conversation)

  /** The transfer happened within the cooldown, with this many whole days elapsed. */
  function CoolingDown(sub: Subscription, now: Time): (b: bool)
    ensures b <==> sub.lastTransferTime.Some?
                   && now - sub.lastTransferTime.value < TransferCooldownDays * SecondsPerDay
  {
    sub.lastTransferTime.Some? && WholeDays(now, sub.lastTransferTime.value) < TransferCooldownDays
  }

  /**
   * `initiate_transfer_subscription`: refuses an unknown uuid or a transfer
   * within the cooldown, reporting the days left; otherwise waits for a contact
   * for this uuid. The ledger never changes.
   */
  function Initiation(db: Db, conv: Conversation, uuid: string, now: Time): (t: Turn<InitiateOutcome>)
    requires Consistent(db)
    ensures t.db == db
    ensures t.outcome == NoSubscription <==> uuid !in db.subs
    ensures t.outcome.OnCooldown? <==> uuid in db.subs && CoolingDown(db.subs[uuid], now)
    ensures t.outcome.OnCooldown? ==>
      t.outcome.daysLeft == TransferCooldownDays - WholeDays(now, db.subs[uuid].lastTransferTime.value)
      && t.outcome.daysLeft >= 1
    ensures t.outcome == AwaitingContact ==> t.conv == Conversation(WaitingForContact, Some(uuid))
    ensures t.outcome != AwaitingContact ==> t.conv == conv
  {
    var localSub := GetPurchasedSubscriptionByUuid(db, uuid);
    if localSub.None? then Turn(NoSubscription, db, conv)
    else
      var sub := localSub.value;
      if CoolingDown(sub, now) then
        Turn(OnCooldown(TransferCooldownDays - WholeDays(now, sub.lastTransferTime.value)), db, conv)
      else Turn(AwaitingContact, db, Conversation(WaitingForContact, Some(uuid)))
  }

  /**
   * `process_transfer_contact`, delivered only in `waiting_for_contact`.
   * Contact errors and self-transfer keep the conversation waiting; every
   * later refusal clears it and changes no record. A recipient created along
   * the way is only flushed, so the remote error rolls it back too. Success
   * creates the recipient if needed, hands the subscription over, stamps the
   * transfer time and clears the conversation.
   */
  function Submission(db: Db, conv: Conversation, sender: int, contact: ContactMessage, now: Time,
                      createFault: bool, remoteOk: bool)
    : (t: Turn<SubmitOutcome>)
    requires Consistent(db)
    ensures Consistent(t.db)
    ensures t.outcome == NotDispatched <==> conv.state != WaitingForContact
    ensures t.outcome in {NotDispatched, InvalidContact, SelfTransfer} ==> t.db == db && t.conv == conv
    ensures !(t.outcome in {NotDispatched, InvalidContact, SelfTransfer}) ==> t.conv == Cleared
    ensures !t.outcome.Transferred? ==> t.db == db
    ensures conv.state == WaitingForContact ==>
      (t.outcome == InvalidContact <==> contact.NotAContact? || contact.userId.None? || contact.userId == Some(0))
    ensures t.outcome == SelfTransfer ==> contact == SharedContact(Some(sender))
    ensures conv.state == WaitingForContact && contact.SharedContact? && contact.userId.Some?
            && contact.userId.value != 0 ==>
      var recipient := contact.userId.value;
      && (t.outcome == SelfTransfer <==> recipient == sender)
      && (recipient != sender ==>
            && (t.outcome == MissingPendingSubscription <==>
                  conv.subscriptionUuid.None? || conv.subscriptionUuid.value == "")
            && (conv.subscriptionUuid.Some? && conv.subscriptionUuid.value != "" ==>
                  var uuid := conv.subscriptionUuid.value;
                  && (t.outcome == SubscriptionGone <==> uuid !in db.subs)
                  && (uuid in db.subs ==>
                        && (t.outcome == RecipientNotCreated <==> recipient !in db.users && createFault)
                        && (t.outcome == RemoteError <==> (recipient in db.users || !createFault) && !remoteOk))))
    ensures t.outcome.Transferred? <==>
      && conv.state == WaitingForContact
      && contact.SharedContact? && contact.userId.Some?
      && contact.userId.value != 0 && contact.userId.value != sender
      && conv.subscriptionUuid.Some? && conv.subscriptionUuid.value != ""
      && conv.subscriptionUuid.value in db.subs
      && (contact.userId.value in db.users || !createFault)
      && remoteOk
    ensures t.outcome.Transferred? ==>
      && contact == SharedContact(Some(t.outcome.recipient))
      && t.outcome.recipient != sender && t.outcome.recipient != 0
      && conv.subscriptionUuid.Some?
      && var uuid := conv.subscriptionUuid.value;
      && uuid in db.subs && remoteOk
      && t.outcome.recipient in t.db.users
      && (t.outcome.recipient in db.users ==> t.db.users == db.users)
      && (t.outcome.recipient !in db.users ==>
            t.db.users == db.users[t.outcome.recipient := NewUser(t.outcome.recipient, None, 0)])
      && t.db.subs == db.subs[uuid := db.subs[uuid].(owner := t.outcome.recipient, lastTransferTime := Some(now))]
  {
    if conv.state != WaitingForContact then Turn(NotDispatched, db, conv)
    else if contact.NotAContact? || contact.userId.None? || contact.userId == Some(0) then
      Turn(InvalidContact, db, conv)
    else
      var recipient := contact.userId.value;
      if recipient == sender then Turn(SelfTransfer, db, conv)
      else if conv.subscriptionUuid.None? || conv.subscriptionUuid.value == "" then
        Turn(MissingPendingSubscription, db, Cleared)
      else
        var uuid := conv.subscriptionUuid.value;
        if GetPurchasedSubscriptionByUuid(db, uuid).None? then Turn(SubscriptionGone, db, Cleared)
        else
          var existing := GetUserByTelegramId(db, recipient);
          var created := if existing.Some? then Step(existing, db) else UserCreated(db, recipient, None, 0, createFault);
          if created.result.None? then Turn(RecipientNotCreated, db, Cleared)
          else if !remoteOk then Turn(RemoteError, db, Cleared)
          else
            var db1 := created.db;
            var sub := db1.subs[uuid];
            Turn(Transferred(recipient),
                 db1.(subs := db1.subs[uuid := sub.(owner := recipient, lastTransferTime := Some(now))]),
                 Cleared)
  }

  /** `cancel_transfer`: the conversation is cleared, the ledger untouched. */
  function Cancellation(conv: Conversation): (c: Conversation)
    ensures c.state == NoState && c.subscriptionUuid == None
  {
    Cleared
  }

  /** A transfer ten days after the previous one is refused with 20 days left (not the advertised 4). */
  lemma CooldownAfterTenDays(db: Db, conv: Conversation, uuid: string, now: Time)
    requires Consistent(db) && uuid in db.subs && db.subs[uuid].lastTransferTime == Some(now - 10 * SecondsPerDay)
    ensures Initiation(db, conv, uuid, now) == Turn(OnCooldown(20), db, conv)
  {
    assert WholeDays(now, now - 10 * SecondsPerDay) == 10;
  }

  /**
   * Fifteen days after a transfer, past the advertised 14-day cooldown, a new
   * transfer is still refused, with 15 days left.
   */
  lemma CooldownLongerThanAdvertised(db: Db, conv: Conversation, uuid: string, now: Time)
    requires Consistent(db) && uuid in db.subs && db.subs[uuid].lastTransferTime == Some(now - 15 * SecondsPerDay)
    ensures WholeDays(now, now - 15 * SecondsPerDay) > AdvertisedCooldownDays
    ensures Initiation(db, conv, uuid, now).outcome == OnCooldown(15)
  {
    assert WholeDays(now, now - 15 * SecondsPerDay) == 15;
  }

  /** Thirty or more days after the last transfer, or with none, initiation waits for a contact. */
  lemma InitiationAfterCooldown(db: Db, conv: Conversation, uuid: string, now: Time)
    requires Consistent(db) && uuid in db.subs
    requires db.subs[uuid].lastTransferTime.Some? ==> db.subs[uuid].lastTransferTime.value <= now - 30 * SecondsPerDay
    ensures Initiation(db, conv, uuid, now) == Turn(AwaitingContact, db, Conversation(WaitingForContact, Some(uuid)))
  {
    if db.subs[uuid].lastTransferTime.Some? {
      var last := db.subs[uuid].lastTransferTime.value;
      assert WholeDays(now, last) >= 30;
    }
  }

  /** Sending one's own contact is refused, and the conversation keeps waiting. */
  lemma SelfTransferKeepsWaiting(db: Db, conv: Conversation, sender: int, now: Time, createFault: bool, remoteOk: bool)
    requires Consistent(db) && conv.state == WaitingForContact && sender != 0
    ensures Submission(db, conv, sender, SharedContact(Some(sender)), now, createFault, remoteOk)
      == Turn(SelfTransfer, db, conv)
  {
  }

  /**
   * Neither ownership nor the cooldown is checked on submission: a
   * subscription transferred at this very moment, owned by someone else, is
   * handed over by any waiting conversation that names it.
   */
  lemma SubmissionChecksNeitherOwnerNorCooldown(db: Db, uuid: string, sender: int, recipient: int, now: Time)
    requires Consistent(db) && uuid in db.subs && recipient in db.users
    requires recipient != sender && recipient != 0 && uuid != ""
    requires db.subs[uuid].owner != sender && db.subs[uuid].lastTransferTime == Some(now)
    ensures Submission(db, Conversation(WaitingForContact, Some(uuid)), sender, SharedContact(Some(recipient)),
                       now, false, true).outcome == Transferred(recipient)
  {
  }

  /** A completed initiation followed by a valid contact hands the subscription to the recipient. */
  lemma InitiateThenSubmit(db: Db, conv: Conversation, uuid: string, sender: int, recipient: int, now: Time)
    requires Consistent(db) && uuid in db.subs && uuid != "" && recipient in db.users
    requires recipient != sender && recipient != 0
    requires Initiation(db, conv, uuid, now).outcome == AwaitingContact
    ensures var t := Submission(db, Initiation(db, conv, uuid, now).conv, sender,
                                SharedContact(Some(recipient)), now, false, true);
      && t.outcome == Transferred(recipient)
      && t.db.subs[uuid].owner == recipient
      && t.db.subs[uuid].lastTransferTime == Some(now)
      && t.conv == Cleared
  {
  }

  /**
   * A contact naming someone who is not yet a user creates that user with no
   * username and a zero balance, and hands the subscription to them.
   */
  lemma TransferToNewUser(db: Db, uuid: string, sender: int, recipient: int, now: Time)
    requires Consistent(db) && uuid in db.subs && uuid != "" && recipient !in db.users
    requires recipient != sender && recipient != 0
    ensures var t := Submission(db, Conversation(WaitingForContact, Some(uuid)), sender,
                                SharedContact(Some(recipient)), now, false, true);
      && t.outcome == Transferred(recipient)
      && t.db.users == db.users[recipient := NewUser(recipient, None, 0)]
      && t.db.subs[uuid].owner == recipient
      && t.conv == Cleared
  {
  }

  /** The conversation of one chat, held by the dispatcher between messages. */
  class FsmContext {
    var state: FsmState
    var subscriptionUuid: Option<string>

    function Snapshot(): Conversation
      reads this
    {
      Conversation(state, subscriptionUuid)
    }

    constructor ()
      ensures Snapshot() == Cleared
    {
      state := NoState;
      subscriptionUuid := None;
    }

    /** `state.clear()`. */
    method Clear()
      modifies this
      ensures Snapshot() == Cleared
    {
      state := NoState;
      subscriptionUuid := None;
    }
  }

  method InitiateTransferSubscription(store: Store, fsm: FsmContext, uuid: string, now: Time)
    returns (r: InitiateOutcome)
    requires store.Valid()
    modifies fsm
    ensures Turn(r, store.State(), fsm.Snapshot()) == Initiation(store.State(), old(fsm.Snapshot()), uuid, now)
  {
    if uuid !in store.subs {
      return NoSubscription;
    }
    var sub := store.subs[uuid];
    if CoolingDown(sub, now) {
      return OnCooldown(TransferCooldownDays - WholeDays(now, sub.lastTransferTime.value));
    }
    fsm.subscriptionUuid := Some(uuid);
    fsm.state := WaitingForContact;
    r := AwaitingContact;
  }

  method ProcessTransferContact(store: Store, fsm: FsmContext, sender: int, contact: ContactMessage, now: Time,
                                createFault: bool, remoteOk: bool)
    returns (r: SubmitOutcome)
    requires store.Valid()
    modifies store, fsm
    ensures store.Valid()
    ensures Turn(r, store.State(), fsm.Snapshot())
      == Submission(old(store.State()), old(fsm.Snapshot()), sender, contact, now, createFault, remoteOk)
  {
    if fsm.state != WaitingForContact {
      return NotDispatched;
    }
    if contact.NotAContact? || contact.userId.None? || contact.userId == Some(0) {
      return InvalidContact;
    }
    var recipient := contact.userId.value;
    if recipient == sender {
      return SelfTransfer;
    }
    if fsm.subscriptionUuid.None? || fsm.subscriptionUuid.value == "" {
      fsm.Clear();
      return MissingPendingSubscription;
    }
    var uuid := fsm.subscriptionUuid.value;
    if uuid !in store.subs {
      fsm.Clear();
      return SubscriptionGone;
    }
    var saved := store.users;
    if recipient !in store.users {
      var created := store.CreateUser(recipient, None, 0, createFault);
      if created.None? {
        fsm.Clear();
        return RecipientNotCreated;
      }
    }
    if !remoteOk {
      store.users := saved;
      fsm.Clear();
      return RemoteError;
    }
    var sub := store.subs[uuid];
    store.subs := store.subs[uuid := sub.(owner := recipient, lastTransferTime := Some(now))];
    fsm.Clear();
    r := Transferred(recipient);
  }

  method CancelTransfer(fsm: FsmContext)
    modifies fsm
    ensures fsm.Snapshot() == Cancellation(old(fsm.Snapshot()))
  {
    fsm.Clear();
  }
}
