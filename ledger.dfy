/**
 * The admin ledger of flask_app.py: users, top-ups and withdrawals held in a
 * store, and the routes that change it (the blockchain webhook that credits
 * incoming transfers, and the admin endpoints that approve withdrawals,
 * create deposits, reconcile and delete top-ups). Each route answers with an
 * HTTP outcome; an exception the route does not catch becomes a server error.
 */
module Ledger {
  import opened PyBuiltins
  import Config

  type Id = nat

  datatype User = User(chatId: int, wallet: string, createdAt: int)

  /** An incoming credit; `user` is None while the transfer is unmatched. */
  datatype TopUp = TopUp(user: Option<Id>, amount: int, received: bool, fromWallet: Option<string>, createdAt: int)

  datatype Withdrawal = Withdrawal(user: Id, amount: int, approved: bool, createdAt: int)

  /** The value the `received` column takes when a route does not set it. */
  const ReceivedByDefault: bool := true

  datatype Failure = InvalidUserId | NoSuchUser | NotANumber | AlreadyApproved | AlreadyReceived

  /** Ok is 200, BadRequest is 400, ServerError is the 500 of an uncaught exception. */
  datatype Outcome = Ok | BadRequest(failure: Failure) | ServerError

  // ---------------------------------------------------------------------
  // The webhook payload: `{outputs: [{addresses: [...]}], inputs: [...], total}`

  datatype Io = Io(addresses: seq<string>)
  datatype Payload = Payload(outputs: seq<Io>, inputs: seq<Io>, total: int)

  /** `ios[0]['addresses'][0]`, or None where that indexing raises. */
  function FirstAddress(ios: seq<Io>): Option<string>
  {
    if |ios| > 0 && |ios[0].addresses| > 0 then Some(ios[0].addresses[0]) else None
  }

  function Recipient(p: Payload): Option<string> { FirstAddress(p.outputs) }

  function Sender(p: Payload): Option<string> { FirstAddress(p.inputs) }

  /** The first output address, lower-cased, is the project's hook address. */
  predicate ForProject(p: Payload)
  {
    Recipient(p).Some? && LowerStr(Recipient(p).value) == Config.HookAddress()
  }

  /** A payload that leads to a new top-up. */
  predicate Credits(p: Payload)
  {
    ForProject(p) && p.total != 0 && Sender(p).Some?
  }

  /** The stored sender wallet: `0x` followed by the lower-cased input address. */
  function SenderWallet(address: string): string
  {
    "0x" + LowerStr(address)
  }

  // ---------------------------------------------------------------------
  // Lookups (`User.get(...)`)

  predicate HasWallet(users: map<Id, User>, wallet: string)
  {
    exists id :: id in users && users[id].wallet == wallet
  }

  predicate HasChatId(users: map<Id, User>, chatId: int)
  {
    exists id :: id in users && users[id].chatId == chatId
  }

  /**
   * `User.get(condition)`: some user satisfying the condition, or None
   * (DoesNotExist) when no user does.
   */
  method FindUser(users: map<Id, User>, matches: User -> bool) returns (found: Option<Id>)
    ensures found.Some? ==> found.value in users && matches(users[found.value])
    ensures found.None? ==> forall id :: id in users ==> !matches(users[id])
  {
    var unseen := users.Keys;
    while unseen != {}
      invariant unseen <= users.Keys
      invariant forall id :: id in users && id !in unseen ==> !matches(users[id])
      decreases unseen
    {
      var id :| id in unseen;
      if matches(users[id]) {
        return Some(id);
      }
      unseen := unseen - {id};
    }
    return None;
  }

  /** A top-up is received exactly when it is linked, and only to a known user. */
  predicate Linked(t: TopUp, users: map<Id, User>)
  {
    (t.received <==> t.user.Some?) && (t.user.Some? ==> t.user.value in users)
  }

  class Store {
    var users: map<Id, User>
    var topUps: map<Id, TopUp>
    var withdrawals: map<Id, Withdrawal>
    /** The id the next created top-up receives. */
    var nextTopUpId: Id

    ghost predicate Valid()
      reads this
    {
      && (forall id :: id in topUps ==> id < nextTopUpId && Linked(topUps[id], users))
      && (forall id :: id in withdrawals ==> withdrawals[id].user in users)
    }

    constructor (users: map<Id, User>, topUps: map<Id, TopUp>, withdrawals: map<Id, Withdrawal>, nextTopUpId: Id)
      requires forall id :: id in topUps ==> id < nextTopUpId && Linked(topUps[id], users)
      requires forall id :: id in withdrawals ==> withdrawals[id].user in users
      ensures Valid()
      ensures this.users == users && this.topUps == topUps
      ensures this.withdrawals == withdrawals && this.nextTopUpId == nextTopUpId
    {
      this.users := users;
      this.topUps := topUps;
      this.withdrawals := withdrawals;
      this.nextTopUpId := nextTopUpId;
    }

    /** Adds `t` under a fresh id. */
    method Create(t: TopUp)
      requires Valid() && Linked(t, users)
      modifies this`topUps, this`nextTopUpId
      ensures Valid()
      ensures old(nextTopUpId) !in old(topUps)
      ensures topUps == old(topUps)[old(nextTopUpId) := t]
      ensures nextTopUpId == old(nextTopUpId) + 1
    {
      topUps := topUps[nextTopUpId := t];
      nextTopUpId := nextTopUpId + 1;
    }

    /**
     * POST /confirmed_transaction. A payload for another address, or with a
     * zero total, changes nothing. Otherwise one top-up from the sender's
     * `0x` wallet is added: linked (and received) when a user has that
     * wallet, unmatched and not received otherwise. The answer is 200 unless
     * the payload lacks the address it indexes.
     */
    method TopUpBalance(payload: Payload, now: int) returns (o: Outcome)
      requires Valid()
      modifies this`topUps, this`nextTopUpId
      ensures Valid()
      ensures users == old(users) && withdrawals == old(withdrawals)
      ensures o == (if Recipient(payload).None? || (ForProject(payload) && payload.total != 0 && Sender(payload).None?)
                    then ServerError else Ok)
      ensures !Credits(payload) ==> topUps == old(topUps) && nextTopUpId == old(nextTopUpId)
      ensures Credits(payload) ==>
        var key := old(nextTopUpId);
        var wallet := SenderWallet(Sender(payload).value);
        && key !in old(topUps) && key in topUps
        && topUps == old(topUps)[key := topUps[key]]
        && topUps[key].amount == payload.total
        && topUps[key].fromWallet == Some(wallet)
        && topUps[key].createdAt == now
        && (topUps[key].user.Some? <==> HasWallet(users, wallet))
        && (topUps[key].user.Some? ==> users[topUps[key].user.value].wallet == wallet && topUps[key].received)
        && (topUps[key].user.None? ==> !topUps[key].received)
      // With the parenthesised project address, no real address is credited.
      ensures Recipient(payload).Some? && IsHexString(Recipient(payload).value) ==>
        o == Ok && topUps == old(topUps)
    {
      var recipient := Recipient(payload);
      if recipient.None? {
        return ServerError;
      }
      if IsHexString(recipient.value) {
        Config.HexNeverMatchesHook(recipient.value);
      }
      if LowerStr(recipient.value) != Config.HookAddress() {
        return Ok;
      }
      if payload.total == 0 {
        return Ok;
      }
      var sender := Sender(payload);
      if sender.None? {
        return ServerError;
      }
      var wallet := SenderWallet(sender.value);
      var owner := FindUser(users, (u: User) => u.wallet == wallet);
      if owner.Some? {
        Create(TopUp(owner, payload.total, ReceivedByDefault, Some(wallet), now));
      } else {
        Create(TopUp(None, payload.total, false, Some(wallet), now));
      }
      return Ok;
    }

    /**
     * POST /increase_user_deposit. Checks, in order: the user id converts
     * (TypeError is a 400, ValueError escapes), a user has that chat id, the
     * amount converts (ValueError is a 400, TypeError escapes). Only when all
     * pass is a received top-up for that user added.
     */
    method IncreaseUserDeposit(userId: JsonValue, amount: Conversion<int>, now: int) returns (o: Outcome)
      requires Valid()
      modifies this`topUps, this`nextTopUpId
      ensures Valid()
      ensures users == old(users) && withdrawals == old(withdrawals)
      ensures PyInt(userId).TypeError? ==> o == BadRequest(InvalidUserId)
      ensures PyInt(userId).ValueError? ==> o == ServerError
      ensures PyInt(userId).Converted? && !HasChatId(users, PyInt(userId).value) ==> o == BadRequest(NoSuchUser)
      ensures PyInt(userId).Converted? && HasChatId(users, PyInt(userId).value) ==>
        o == (match amount
              case Converted(_) => Ok
              case ValueError => BadRequest(NotANumber)
              case TypeError => ServerError)
      ensures o != Ok ==> topUps == old(topUps) && nextTopUpId == old(nextTopUpId)
      ensures o == Ok ==>
        var key := old(nextTopUpId);
        && key !in old(topUps) && key in topUps
        && topUps == old(topUps)[key := topUps[key]]
        && topUps[key].user.Some?
        && users[topUps[key].user.value].chatId == PyInt(userId).value
        && topUps[key].amount == amount.value
        && topUps[key].received && topUps[key].fromWallet.None? && topUps[key].createdAt == now
    {
      var parsed := PyInt(userId);
      if parsed.TypeError? {
        return BadRequest(InvalidUserId);
      } else if parsed.ValueError? {
        return ServerError;
      }
      var chatId := parsed.value;
      var owner := FindUser(users, (u: User) => u.chatId == chatId);
      if owner.None? {
        return BadRequest(NoSuchUser);
      }
      match amount
      case ValueError =>
        return BadRequest(NotANumber);
      case TypeError =>
        return ServerError;
      case Converted(value) =>
        Create(TopUp(owner, value, ReceivedByDefault, None, now));
        return Ok;
    }

    /**
     * POST /approve_withdrawal. An unknown id escapes as DoesNotExist; an
     * approved withdrawal is refused and nothing changes; otherwise only its
     * `approved` flag is set.
     */
    method ApproveWithdrawal(id: Id) returns (o: Outcome)
      requires Valid()
      modifies this`withdrawals
      ensures Valid()
      ensures users == old(users) && topUps == old(topUps) && nextTopUpId == old(nextTopUpId)
      ensures id !in old(withdrawals) ==> o == ServerError && withdrawals == old(withdrawals)
      ensures id in old(withdrawals) && old(withdrawals)[id].approved ==>
        o == BadRequest(AlreadyApproved) && withdrawals == old(withdrawals)
      ensures id in old(withdrawals) && !old(withdrawals)[id].approved ==>
        o == Ok && withdrawals == old(withdrawals)[id := old(withdrawals)[id].(approved := true)]
    {
      if id !in withdrawals {
        return ServerError;
      }
      var withdrawal := withdrawals[id];
      if withdrawal.approved {
        return BadRequest(AlreadyApproved);
      }
      withdrawals := withdrawals[id := withdrawal.(approved := true)];
      return Ok;
    }

    /**
     * DELETE /delete_top_up. Removes exactly the given top-up, whatever its
     * state; an unknown id escapes as DoesNotExist.
     */
    method DeleteTopUp(id: Id) returns (o: Outcome)
      requires Valid()
      modifies this`topUps
      ensures Valid()
      ensures users == old(users) && withdrawals == old(withdrawals) && nextTopUpId == old(nextTopUpId)
      ensures id !in old(topUps) ==> o == ServerError && topUps == old(topUps)
      ensures id in old(topUps) ==> o == Ok && topUps == old(topUps) - {id}
    {
      if id !in topUps {
        return ServerError;
      }
      topUps := topUps - {id};
      return Ok;
    }

    /**
     * POST /received_top_up. Checks, in order: the user id converts
     * (TypeError is a 400, ValueError escapes), the top-up exists (else
     * DoesNotExist escapes), it is not yet received, a user has that chat id.
     * Any failure leaves the top-up as it was; success links it to that user
     * and marks it received.
     */
    method TopUpReceived(id: Id, userId: JsonValue) returns (o: Outcome)
      requires Valid()
      modifies this`topUps
      ensures Valid()
      ensures users == old(users) && withdrawals == old(withdrawals) && nextTopUpId == old(nextTopUpId)
      ensures PyInt(userId).TypeError? ==> o == BadRequest(InvalidUserId)
      ensures PyInt(userId).ValueError? ==> o == ServerError
      ensures PyInt(userId).Converted? ==>
        o == (if id !in old(topUps) then ServerError
              else if old(topUps)[id].received then BadRequest(AlreadyReceived)
              else if !HasChatId(users, PyInt(userId).value) then BadRequest(NoSuchUser)
              else Ok)
      ensures o != Ok ==> topUps == old(topUps)
      ensures o == Ok ==>
        && id in old(topUps) && id in topUps
        && topUps[id].user.Some?
        && users[topUps[id].user.value].chatId == PyInt(userId).value
        && topUps == old(topUps)[id := old(topUps)[id].(user := topUps[id].user, received := true)]
    {
      var parsed := PyInt(userId);
      if parsed.TypeError? {
        return BadRequest(InvalidUserId);
      } else if parsed.ValueError? {
        return ServerError;
      }
      var chatId := parsed.value;
      if id !in topUps {
        return ServerError;
      }
      var topUp := topUps[id];
      if topUp.received {
        return BadRequest(AlreadyReceived);
      }
      var owner := FindUser(users, (u: User) => u.chatId == chatId);
      if owner.None? {
        return BadRequest(NoSuchUser);
      }
      topUps := topUps[id := topUp.(user := owner, received := true)];
      return Ok;
    }
  }

  /** Approving the same withdrawal twice: the second request is refused. */
  method ApproveTwice(store: Store, id: Id) returns (first: Outcome, second: Outcome)
    requires store.Valid()
    modifies store
    ensures store.Valid()
    ensures id in old(store.withdrawals) ==> second == BadRequest(AlreadyApproved) && id in store.withdrawals && store.withdrawals[id].approved
    ensures id !in old(store.withdrawals) ==> first == ServerError && second == ServerError
  {
    first := store.ApproveWithdrawal(id);
    second := store.ApproveWithdrawal(id);
  }

  /** Reconciling the same top-up twice: once it succeeded, the repeat is refused. */
  method ReceiveTwice(store: Store, id: Id, userId: JsonValue) returns (first: Outcome, second: Outcome)
    requires store.Valid()
    modifies store
    ensures store.Valid()
    ensures first == Ok ==> second == BadRequest(AlreadyReceived)
    ensures first == Ok ==> id in store.topUps && store.topUps[id].received
  {
    first := store.TopUpReceived(id, userId);
    second := store.TopUpReceived(id, userId);
  }
}
