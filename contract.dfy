// The deployed contract of src/lib.rs: the storage mappers as fields that the
// endpoints update in place, with the configuration storage of
// src/common/config.rs as its own object. Each endpoint is proved to leave the
// storage the functions of sale.dfy compute from the storage it started
// from, and to keep the storage invariant.

module Contract {
  import opened Common
  import opened Config
  import opened Sale

  class LaunchpadContract {
    /** The `state` and `template_dao` mappers and the host-fixed owner. */
    const config: ConfigModule
    /** `Launchpad::is_active`, whose definition is not part of this model. */
    const isActive: (Launchpad, nat) -> bool
    /** The scaling constant `ONE` of `buy`'s price arithmetic. */
    const one: nat

    var mainDao: Address
    var launchpads: map<nat, Launchpad>
    var lastLaunchpadId: nat
    var userParticipation: map<(Address, nat), nat>
    var userLaunchpads: map<Address, set<nat>>
    var launchpadUsers: map<nat, set<Address>>
    var whitelistedUsers: map<nat, set<Address>>
    var tokenLaunchpadId: map<TokenId, nat>
    /** Every transfer into and out of the contract so far, in order. */
    ghost var ledger: seq<Movement>

    /** The sale storage as a value. */
    ghost function Snapshot(): Store
      reads this
    {
      Store(launchpads, lastLaunchpadId, userParticipation, userLaunchpads,
            launchpadUsers, whitelistedUsers, tokenLaunchpadId, ledger)
    }

    ghost predicate Valid()
      reads this
    {
      Inv(Snapshot())
    }

    /** `init`, called by `deployer`, who becomes the owner: stores both DAO
        addresses and leaves the contract paused. */
    constructor (deployer: Address, mainDaoAddress: Address, templateDaoAddress: Address,
                 isActive: (Launchpad, nat) -> bool, one: nat)
      ensures Valid() && Snapshot() == EmptyStore()
      ensures fresh(config)
      ensures config.Current() == Settings(deployer, Inactive, Some(templateDaoAddress))
      ensures mainDao == mainDaoAddress
      ensures this.isActive == isActive && this.one == one
    {
      config := new ConfigModule(deployer);
      this.isActive := isActive;
      this.one := one;
      mainDao := mainDaoAddress;
      launchpads := map[];
      lastLaunchpadId := 0;
      userParticipation := map[];
      userLaunchpads := map[];
      launchpadUsers := map[];
      whitelistedUsers := map[];
      tokenLaunchpadId := map[];
      ledger := [];
      new;
      config.templateDao := Some(templateDaoAddress);
      var paused := config.SetStateInactive(deployer);
      EmptyStoreInv();
    }

    /** `upgrade`, which only the owner can trigger: pauses the contract and keeps all storage. */
    method Upgrade()
      modifies config
      ensures config.Current() == old(config.Current()).(state := Inactive)
    {
      var paused := config.SetStateInactive(config.owner);
    }

    /** `newLaunchpad`, with the sale-token deposit attached, at block time `now`. */
    method NewLaunchpad(
      daoApproves: bool, now: nat,
      owner: Address, kycEnforced: bool, title: string, paymentToken: TokenId,
      price: nat, minBuyAmount: nat, maxBuyAmount: nat, startTime: nat, endTime: nat,
      deposit: Payment) returns (r: Result<nat>)
      requires Valid()
      modifies this`lastLaunchpadId, this`launchpads, this`ledger
      ensures Valid()
      ensures match Sale.NewLaunchpad(old(Snapshot()), config.state, daoApproves, now, owner, kycEnforced, title,
                                      paymentToken, price, minBuyAmount, maxBuyAmount, startTime, endTime, deposit)
              case Ok(created) => r == Ok(created.0) && Snapshot() == created.1
              case Err(e) => r == Err(e) && Snapshot() == old(Snapshot())
    {
      if config.state != Active {
        return Err(NotActive);
      }
      if !daoApproves {
        return Err(NotApprovedByDao);
      }
      if price == 0 {
        return Err(ZeroPrice);
      }
      if minBuyAmount > maxBuyAmount {
        return Err(WrongMinMaxAmounts);
      }
      if !(now < startTime) {
        return Err(WrongStartTime);
      }
      if !(startTime < endTime) {
        return Err(WrongEndTime);
      }
      if deposit.token in tokenLaunchpadId {
        return Err(TokenAlreadyLaunched);
      }
      if deposit.amount == 0 {
        return Err(ZeroPayment);
      }
      var newId := lastLaunchpadId + 1;
      var launchpad := Launchpad(newId, owner, kycEnforced, title, deposit.token, deposit.amount,
                                 paymentToken, price, minBuyAmount, maxBuyAmount,
                                 startTime, endTime, 0, 0, false);
      Install(launchpad);
      NewLaunchpadPreservesInv(old(Snapshot()), config.state, daoApproves, now, owner, kycEnforced, title,
                               paymentToken, price, minBuyAmount, maxBuyAmount, startTime, endTime, deposit);
      r := Ok(newId);
    }

    /** The effects of an accepted `newLaunchpad`: the deposit comes in and
        `launchpad` is stored under its id, which becomes the last id. */
    method Install(launchpad: Launchpad)
      modifies this`lastLaunchpadId, this`launchpads, this`ledger
      ensures Snapshot() == Launched(old(Snapshot()), launchpad)
    {
      ledger := ledger + [Movement(launchpad.id, Deposit, launchpad.owner, launchpad.token, launchpad.amount)];
      lastLaunchpadId := launchpad.id;
      launchpads := launchpads[launchpad.id := launchpad];
    }

    /** `buy` of sale `id` by `caller` with `payment` attached, at block time `now`. */
    method Buy(caller: Address, payment: Payment, now: nat, id: nat) returns (r: Outcome)
      requires Valid()
      modifies this`launchpads, this`ledger, this`userParticipation, this`userLaunchpads, this`launchpadUsers
      ensures Valid()
      ensures match Sale.Buy(old(Snapshot()), config.state, isActive, one, id, caller, payment, now)
              case Ok(s') => r == Pass && Snapshot() == s'
              case Err(e) => r == Fail(e) && Snapshot() == old(Snapshot())
    {
      var tokenAmount := CheckPurchase(caller, payment, now, id);
      if tokenAmount.Err? {
        return Fail(tokenAmount.error);
      }
      ghost var before := Snapshot();
      Record(id, caller, payment, tokenAmount.value);
      PurchasedKeepsInv(before, id, caller, payment, tokenAmount.value);
      r := Pass;
    }

    /** The checks of `buy`, in source order, on the current storage; on success
        the number of sale-token units the payment buys, which fits the caller's
        quota and the unsold inventory. */
    method CheckPurchase(caller: Address, payment: Payment, now: nat, id: nat) returns (r: Result<nat>)
      requires RecordsInv(Snapshot())
      ensures r.Err? ==> Sale.Buy(Snapshot(), config.state, isActive, one, id, caller, payment, now) == Err(r.error)
      ensures r.Ok? ==>
        && id in launchpads
        && launchpads[id].totalSold + r.value <= launchpads[id].amount
        && launchpads[id].minBuyAmount <= Bought(Snapshot(), caller, id) + r.value <= launchpads[id].maxBuyAmount
        && Sale.Buy(Snapshot(), config.state, isActive, one, id, caller, payment, now)
             == Ok(Purchased(Snapshot(), id, caller, payment, r.value))
    {
      if config.state != Active {
        return Err(NotActive);
      }
      if id !in launchpads {
        return Err(LaunchpadNotFound);
      }
      var launchpad := launchpads[id];
      if !isActive(launchpad, now) {
        return Err(LaunchpadInactive);
      }
      if payment.token != launchpad.paymentToken {
        return Err(WrongToken);
      }
      var tokenAmount := payment.amount * one / launchpad.price;
      var whitelist := if id in whitelistedUsers then whitelistedUsers[id] else {};
      if launchpad.kycEnforced && caller !in whitelist {
        return Err(NotWhitelisted);
      }
      var oldBoughtAmount := if (caller, id) in userParticipation then userParticipation[(caller, id)] else 0;
      if tokenAmount + oldBoughtAmount < launchpad.minBuyAmount {
        return Err(LowAmount);
      }
      if tokenAmount + oldBoughtAmount > launchpad.maxBuyAmount {
        return Err(HighAmount);
      }
      if tokenAmount + launchpad.totalSold > launchpad.amount {
        return Err(InsufficientFunds);
      }
      r := Ok(tokenAmount);
    }

    /** The effects of an accepted `buy`. */
    method Record(id: nat, caller: Address, payment: Payment, tokenAmount: nat)
      requires id in launchpads
      modifies this`launchpads, this`ledger, this`userParticipation, this`userLaunchpads, this`launchpadUsers
      ensures Snapshot() == Purchased(old(Snapshot()), id, caller, payment, tokenAmount)
    {
      RecordBuyer(id, caller, tokenAmount);
      RecordSale(id, caller, payment, tokenAmount);
    }

    /** The effects of an accepted `buy` on the sale: the payment comes in, the
        units go out, and both totals grow. */
    method RecordSale(id: nat, caller: Address, payment: Payment, tokenAmount: nat)
      requires id in launchpads
      modifies this`launchpads, this`ledger
      ensures var l := old(launchpads[id]);
        launchpads == old(launchpads)[id := l.(totalRaised := l.totalRaised + payment.amount,
                                               totalSold := l.totalSold + tokenAmount)]
      ensures ledger == old(ledger) + [Movement(id, Purchase, caller, payment.token, payment.amount)]
                                    + [Movement(id, Delivery, caller, old(launchpads[id]).token, tokenAmount)]
    {
      var launchpad := launchpads[id];
      ledger := ledger + [Movement(id, Purchase, caller, payment.token, payment.amount)];
      ledger := ledger + [Movement(id, Delivery, caller, launchpad.token, tokenAmount)];
      launchpad := launchpad.(totalRaised := launchpad.totalRaised + payment.amount,
                              totalSold := launchpad.totalSold + tokenAmount);
      launchpads := launchpads[id := launchpad];
    }

    /** The effects of an accepted `buy` on the buyer: the participation grows and
        the buyer and the sale are listed in each other's membership set. */
    method RecordBuyer(id: nat, caller: Address, tokenAmount: nat)
      modifies this`userParticipation, this`userLaunchpads, this`launchpadUsers
      ensures userParticipation == old(userParticipation)[(caller, id) := Bought(old(Snapshot()), caller, id) + tokenAmount]
      ensures userLaunchpads == old(userLaunchpads)[caller := LaunchpadsOf(old(Snapshot()), caller) + {id}]
      ensures launchpadUsers == old(launchpadUsers)[id := UsersOf(old(Snapshot()), id) + {caller}]
    {
      var oldBoughtAmount := if (caller, id) in userParticipation then userParticipation[(caller, id)] else 0;
      userParticipation := userParticipation[(caller, id) := oldBoughtAmount + tokenAmount];
      var joined := if caller in userLaunchpads then userLaunchpads[caller] else {};
      userLaunchpads := userLaunchpads[caller := joined + {id}];
      var users := if id in launchpadUsers then launchpadUsers[id] else {};
      launchpadUsers := launchpadUsers[id := users + {caller}];
    }

    /** `redeem` of sale `id` at block time `now`; anyone may call it. */
    method Redeem(id: nat, now: nat) returns (r: Outcome)
      requires Valid()
      modifies this`launchpads, this`ledger
      ensures Valid()
      ensures match Sale.Redeem(old(Snapshot()), config.state, id, now)
              case Ok(s') => r == Pass && Snapshot() == s'
              case Err(e) => r == Fail(e) && Snapshot() == old(Snapshot())
    {
      if config.state != Active {
        return Fail(NotActive);
      }
      if id !in launchpads {
        return Fail(MissingRecord);
      }
      var launchpad := launchpads[id];
      if !(launchpad.endTime < now) {
        return Fail(LaunchpadNotEnded);
      }
      if launchpad.redeemed {
        return Fail(AlreadyRedeemed);
      }
      PayOwner(launchpad);
      launchpad := launchpad.(redeemed := true);
      launchpads := launchpads[id := launchpad];
      RedeemPreservesInv(old(Snapshot()), config.state, id, now);
      r := Pass;
    }

    /** The transfers of `redeem` to the owner of `launchpad`: the amount raised,
        if any, then the unsold inventory, if any. */
    method PayOwner(launchpad: Launchpad)
      requires launchpad.totalSold <= launchpad.amount
      modifies this`ledger
      ensures ledger == old(ledger) + Payout(launchpad)
    {
      if launchpad.totalRaised > 0 {
        ledger := ledger + [Movement(launchpad.id, Proceeds, launchpad.owner, launchpad.paymentToken, launchpad.totalRaised)];
      }
      var leftAmount := launchpad.amount - launchpad.totalSold;
      if leftAmount > 0 {
        ledger := ledger + [Movement(launchpad.id, Leftover, launchpad.owner, launchpad.token, leftAmount)];
      }
    }
  }
}
