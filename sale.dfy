// The sale engine of src/lib.rs as functions over values: one record per
// launchpad id, the participation and membership mappers, and a ledger of every
// token movement the contract takes part in. The class in contract.dfy updates
// the same storage in place and is proved against the functions here.

module Sale {
  import opened Common
  import opened Config

  /** One fixed-price sale: the `Launchpad` struct stored under `launchpads(id)`.
      `token` is the sale token, `amount` the deposited inventory of it. */
  datatype Launchpad = Launchpad(
    id: nat,
    owner: Address,
    kycEnforced: bool,
    title: string,
    token: TokenId,
    amount: nat,
    paymentToken: TokenId,
    price: nat,
    minBuyAmount: nat,
    maxBuyAmount: nat,
    startTime: nat,
    endTime: nat,
    totalRaised: nat,
    totalSold: nat,
    redeemed: bool)

  /** The single ESDT payment attached to a call (its nonce is always 0 here). */
  datatype Payment = Payment(token: TokenId, amount: nat)

  /** Why tokens moved: the inventory deposited at creation and the payments of
      buyers come in; deliveries to buyers and the proceeds and leftover inventory
      paid to the owner at redemption go out. */
  datatype Flow = Deposit | Purchase | Delivery | Proceeds | Leftover

  /** One token movement, tagged with the launchpad it belongs to. */
  datatype Movement = Movement(launchpad: nat, flow: Flow, party: Address, token: TokenId, amount: nat)

  /** The storage of the contract that lib.rs reads and writes. A missing key of
      `userParticipation`, `userLaunchpads`, `launchpadUsers` or `whitelistedUsers`
      reads as 0 or as the empty set, as an empty mapper does. `ledger` is not
      storage: it records the transfers in and out, in order. */
  datatype Store = Store(
    launchpads: map<nat, Launchpad>,
    lastLaunchpadId: nat,
    userParticipation: map<(Address, nat), nat>,
    userLaunchpads: map<Address, set<nat>>,
    launchpadUsers: map<nat, set<Address>>,
    whitelistedUsers: map<nat, set<Address>>,
    tokenLaunchpadId: map<TokenId, nat>,
    ledger: seq<Movement>)

  /** The storage of a freshly deployed contract. */
  function EmptyStore(): Store
  {
    Store(map[], 0, map[], map[], map[], map[], map[], [])
  }

  /** `user_participation(user, id)`: how much of the sale token `user` has bought in sale `id`. */
  function Bought(s: Store, user: Address, id: nat): nat
  {
    if (user, id) in s.userParticipation then s.userParticipation[(user, id)] else 0
  }

  /** `user_launchpads(user)`. */
  function LaunchpadsOf(s: Store, user: Address): set<nat>
  {
    if user in s.userLaunchpads then s.userLaunchpads[user] else {}
  }

  /** `launchpad_users(id)`. */
  function UsersOf(s: Store, id: nat): set<Address>
  {
    if id in s.launchpadUsers then s.launchpadUsers[id] else {}
  }

  /** `whitelisted_users(id)`. */
  function Whitelist(s: Store, id: nat): set<Address>
  {
    if id in s.whitelistedUsers then s.whitelistedUsers[id] else {}
  }

  /** The sale-token allocation for a payment, `payment * ONE / price` in BigUint
      arithmetic: the largest whole number of units whose cost does not exceed the payment. */
  function TokenAmount(payment: nat, one: nat, price: nat): (r: nat)
    requires price > 0
    ensures r * price <= payment * one < (r + 1) * price
  {
    var q := payment * one / price;
    assert payment * one == q * price + (payment * one) % price;
    q
  }

  /** How much of `flow` for launchpad `id` the movement `m` accounts for. */
  function Share(m: Movement, id: nat, flow: Flow): nat
  {
    if m.launchpad == id && m.flow == flow then m.amount else 0
  }

  /** The total amount moved for launchpad `id` under `flow` in `ledger`. */
  function Moved(ledger: seq<Movement>, id: nat, flow: Flow): nat
  {
    if ledger == [] then 0 else Share(ledger[0], id, flow) + Moved(ledger[1..], id, flow)
  }

  /** Recording one more movement adds its share to the running total. */
  lemma {:induction false} MovedAppend(ledger: seq<Movement>, m: Movement, id: nat, flow: Flow)
    ensures Moved(ledger + [m], id, flow) == Moved(ledger, id, flow) + Share(m, id, flow)
  {
    if ledger == [] {
      assert [m][1..] == [];
    } else {
      assert (ledger + [m])[1..] == ledger[1..] + [m];
      MovedAppend(ledger[1..], m, id, flow);
    }
  }

  lemma {:induction false} MovedConcat(a: seq<Movement>, b: seq<Movement>, id: nat, flow: Flow)
    ensures Moved(a + b, id, flow) == Moved(a, id, flow) + Moved(b, id, flow)
  {
    if a == [] {
      assert a + b == b;
    } else {
      assert (a + b)[1..] == a[1..] + b;
      MovedConcat(a[1..], b, id, flow);
    }
  }

  /** `MovedAppend` for every launchpad and flow at once. */
  lemma MovedAppendAll(ledger: seq<Movement>, m: Movement)
    ensures forall id: nat, flow :: Moved(ledger + [m], id, flow) == Moved(ledger, id, flow) + Share(m, id, flow)
  {
    forall id: nat, flow
      ensures Moved(ledger + [m], id, flow) == Moved(ledger, id, flow) + Share(m, id, flow)
    {
      MovedAppend(ledger, m, id, flow);
    }
  }

  /** A launchpad that no movement mentions has moved nothing. */
  lemma {:induction false} MovedUnmentioned(ledger: seq<Movement>, id: nat, flow: Flow)
    requires forall i :: 0 <= i < |ledger| ==> ledger[i].launchpad != id
    ensures Moved(ledger, id, flow) == 0
  {
    if ledger != [] {
      MovedUnmentioned(ledger[1..], id, flow);
    }
  }

  /** What the record promises about itself: `new_launchpad` only stores records
      passing its checks, and `buy` never sells past the inventory. */
  ghost predicate WellFormed(l: Launchpad)
  {
    && l.price > 0
    && l.minBuyAmount <= l.maxBuyAmount
    && l.startTime < l.endTime
    && l.amount > 0
    && l.totalSold <= l.amount
  }

  /** The ledger accounts for launchpad `l` unit for unit: the deposit is the
      inventory, the payments are the amount raised, the deliveries are the amount
      sold, and nothing has been paid to the owner before redemption. */
  ghost predicate Audited(ledger: seq<Movement>, l: Launchpad)
  {
    && Moved(ledger, l.id, Deposit) == l.amount
    && Moved(ledger, l.id, Purchase) == l.totalRaised
    && Moved(ledger, l.id, Delivery) == l.totalSold
    && (!l.redeemed ==> Moved(ledger, l.id, Proceeds) == 0 && Moved(ledger, l.id, Leftover) == 0)
  }

  /** The owner of `l` has been paid everything raised and everything unsold. */
  ghost predicate PaidOut(ledger: seq<Movement>, l: Launchpad)
  {
    && Moved(ledger, l.id, Proceeds) == l.totalRaised
    && Moved(ledger, l.id, Leftover) + l.totalSold == l.amount
  }

  /** Every stored record sits under its own id, which has been allocated, and is well formed. */
  ghost predicate RecordsInv(s: Store)
  {
    forall id :: id in s.launchpads ==>
      && 1 <= id <= s.lastLaunchpadId
      && s.launchpads[id].id == id
      && WellFormed(s.launchpads[id])
  }

  /** Every recorded participation belongs to an existing sale and lies within its quota. */
  ghost predicate QuotasInv(s: Store)
  {
    forall k :: k in s.userParticipation ==>
      && k.1 in s.launchpads
      && s.launchpads[k.1].minBuyAmount <= s.userParticipation[k] <= s.launchpads[k.1].maxBuyAmount
  }

  /** The two membership sets list exactly the recorded participations. */
  ghost predicate MembersInv(s: Store)
  {
    && (forall k :: k in s.userParticipation ==> k.1 in LaunchpadsOf(s, k.0) && k.0 in UsersOf(s, k.1))
    && (forall user, id: nat :: id in LaunchpadsOf(s, user) ==> (user, id) in s.userParticipation)
    && (forall id: nat, user :: user in UsersOf(s, id) ==> (user, id) in s.userParticipation)
  }

  ghost predicate ParticipationInv(s: Store)
  {
    QuotasInv(s) && MembersInv(s)
  }

  /** Every movement belongs to an existing sale, and every sale is audited by the ledger. */
  ghost predicate LedgerInv(s: Store)
    requires RecordsInv(s)
  {
    && (forall i :: 0 <= i < |s.ledger| ==> s.ledger[i].launchpad in s.launchpads)
    && (forall id :: id in s.launchpads ==> Audited(s.ledger, s.launchpads[id]))
  }

  /** The storage invariant that every endpoint preserves. */
  ghost predicate Inv(s: Store)
  {
    RecordsInv(s) && ParticipationInv(s) && LedgerInv(s)
  }

  lemma EmptyStoreInv()
    ensures Inv(EmptyStore())
  {
  }

  // ---------------------------------------------------------------------------
  // new_launchpad

  /** `newLaunchpad`: the checks in source order, then a record with zero totals
      under the next id. `deposit` is the sale-token payment attached to the call
      and `daoApproves` the verdict of the governance module's `only_dao`. The
      result is the new id with the new storage. */
  function NewLaunchpad(
    s: Store, state: State, daoApproves: bool, now: nat,
    owner: Address, kycEnforced: bool, title: string, paymentToken: TokenId,
    price: nat, minBuyAmount: nat, maxBuyAmount: nat, startTime: nat, endTime: nat,
    deposit: Payment): (r: Result<(nat, Store)>)
    ensures state != Active ==> r == Err(NotActive)
    ensures r.Ok? <==>
      && state == Active && daoApproves
      && price > 0 && minBuyAmount <= maxBuyAmount
      && now < startTime && startTime < endTime
      && deposit.token !in s.tokenLaunchpadId && deposit.amount > 0
    ensures r.Ok? ==>
      var (id, s') := r.value;
      && id == s.lastLaunchpadId + 1
      && s'.lastLaunchpadId == id
      && s'.launchpads.Keys == s.launchpads.Keys + {id}
      && s'.launchpads[id] == Launchpad(id, owner, kycEnforced, title, deposit.token, deposit.amount,
                                        paymentToken, price, minBuyAmount, maxBuyAmount,
                                        startTime, endTime, 0, 0, false)
      && (forall other :: other in s.launchpads && other != id ==> s'.launchpads[other] == s.launchpads[other])
      && s'.userParticipation == s.userParticipation
      && s'.userLaunchpads == s.userLaunchpads
      && s'.launchpadUsers == s.launchpadUsers
      && s'.whitelistedUsers == s.whitelistedUsers
      && s'.tokenLaunchpadId == s.tokenLaunchpadId
      && s'.ledger == s.ledger + [Movement(id, Deposit, owner, deposit.token, deposit.amount)]
  {
    if state != Active then Err(NotActive)
    else if !daoApproves then Err(NotApprovedByDao)
    else if price == 0 then Err(ZeroPrice)
    else if minBuyAmount > maxBuyAmount then Err(WrongMinMaxAmounts)
    else if !(now < startTime) then Err(WrongStartTime)
    else if !(startTime < endTime) then Err(WrongEndTime)
    else if deposit.token in s.tokenLaunchpadId then Err(TokenAlreadyLaunched)
    else if deposit.amount == 0 then Err(ZeroPayment)
    else
      var newId := s.lastLaunchpadId + 1;
      var launchpad := Launchpad(newId, owner, kycEnforced, title, deposit.token, deposit.amount,
                                 paymentToken, price, minBuyAmount, maxBuyAmount,
                                 startTime, endTime, 0, 0, false);
      Ok((newId, Launched(s, launchpad)))
  }

  /** The effects of a creation: `l` is stored under its id, which becomes the last
      id, and its inventory comes in from the owner. */
  function Launched(s: Store, l: Launchpad): (s': Store)
    ensures s'.lastLaunchpadId == l.id
    ensures s'.launchpads.Keys == s.launchpads.Keys + {l.id} && s'.launchpads[l.id] == l
    ensures forall other :: other in s.launchpads && other != l.id ==> s'.launchpads[other] == s.launchpads[other]
    ensures Moved(s'.ledger, l.id, Deposit) == Moved(s.ledger, l.id, Deposit) + l.amount
    ensures forall other: nat, flow :: (other, flow) != (l.id, Deposit) ==> Moved(s'.ledger, other, flow) == Moved(s.ledger, other, flow)
    ensures s'.userParticipation == s.userParticipation && s'.userLaunchpads == s.userLaunchpads
    ensures s'.launchpadUsers == s.launchpadUsers && s'.whitelistedUsers == s.whitelistedUsers
    ensures s'.tokenLaunchpadId == s.tokenLaunchpadId
  {
    MovedAppendAll(s.ledger, Movement(l.id, Deposit, l.owner, l.token, l.amount));
    s.(lastLaunchpadId := l.id,
       launchpads := s.launchpads[l.id := l],
       ledger := s.ledger + [Movement(l.id, Deposit, l.owner, l.token, l.amount)])
  }

  /** Which check of `newLaunchpad` rejects the call, in the order the source makes them. */
  lemma NewLaunchpadRejections(
    s: Store, state: State, daoApproves: bool, now: nat,
    owner: Address, kycEnforced: bool, title: string, paymentToken: TokenId,
    price: nat, minBuyAmount: nat, maxBuyAmount: nat, startTime: nat, endTime: nat,
    deposit: Payment)
    requires state == Active
    ensures var r := NewLaunchpad(s, state, daoApproves, now, owner, kycEnforced, title, paymentToken,
                                  price, minBuyAmount, maxBuyAmount, startTime, endTime, deposit);
      var priceOk := price > 0;
      var quotaOk := minBuyAmount <= maxBuyAmount;
      var startOk := now < startTime;
      var endOk := startTime < endTime;
      var tokenOk := deposit.token !in s.tokenLaunchpadId;
      && (!daoApproves ==> r == Err(NotApprovedByDao))
      && (daoApproves && !priceOk ==> r == Err(ZeroPrice))
      && ((daoApproves && priceOk && !quotaOk) ==> r == Err(WrongMinMaxAmounts))
      && ((daoApproves && priceOk && quotaOk && !startOk) ==> r == Err(WrongStartTime))
      && ((daoApproves && priceOk && quotaOk && startOk && !endOk) ==> r == Err(WrongEndTime))
      && ((daoApproves && priceOk && quotaOk && startOk && endOk && !tokenOk) ==> r == Err(TokenAlreadyLaunched))
      && ((daoApproves && priceOk && quotaOk && startOk && endOk && tokenOk && deposit.amount == 0)
            ==> r == Err(ZeroPayment))
  {
  }

  /** A successful creation uses an id no record had, and keeps the invariant. */
  lemma NewLaunchpadPreservesInv(
    s: Store, state: State, daoApproves: bool, now: nat,
    owner: Address, kycEnforced: bool, title: string, paymentToken: TokenId,
    price: nat, minBuyAmount: nat, maxBuyAmount: nat, startTime: nat, endTime: nat,
    deposit: Payment)
    requires Inv(s)
    requires NewLaunchpad(s, state, daoApproves, now, owner, kycEnforced, title, paymentToken,
                          price, minBuyAmount, maxBuyAmount, startTime, endTime, deposit).Ok?
    ensures var (id, s') := NewLaunchpad(s, state, daoApproves, now, owner, kycEnforced, title, paymentToken,
                                         price, minBuyAmount, maxBuyAmount, startTime, endTime, deposit).value;
      id !in s.launchpads && Inv(s')
  {
    var (id, s') := NewLaunchpad(s, state, daoApproves, now, owner, kycEnforced, title, paymentToken,
                                 price, minBuyAmount, maxBuyAmount, startTime, endTime, deposit).value;
    LaunchedKeepsInv(s, s'.launchpads[id]);
  }

  /** Storing a fresh, well-formed record with zero totals under the next id keeps the invariant. */
  lemma LaunchedKeepsInv(s: Store, l: Launchpad)
    requires Inv(s)
    requires l.id == s.lastLaunchpadId + 1 && WellFormed(l)
    requires l.totalRaised == 0 && l.totalSold == 0 && !l.redeemed
    ensures l.id !in s.launchpads
    ensures Inv(Launched(s, l))
  {
    LaunchedKeepsLedger(s, l);
    ParticipationUnchanged(s, Launched(s, l));
  }

  lemma LaunchedKeepsLedger(s: Store, l: Launchpad)
    requires RecordsInv(s) && LedgerInv(s)
    requires l.id == s.lastLaunchpadId + 1 && WellFormed(l)
    requires l.totalRaised == 0 && l.totalSold == 0 && !l.redeemed
    ensures RecordsInv(Launched(s, l)) && LedgerInv(Launched(s, l))
  {
    var s' := Launched(s, l);
    var m := Movement(l.id, Deposit, l.owner, l.token, l.amount);
    assert RecordsInv(s');
    forall other | other in s'.launchpads
      ensures Audited(s'.ledger, s'.launchpads[other])
    {
      if other == l.id {
        forall flow: Flow
          ensures Moved(s'.ledger, l.id, flow) == Share(m, l.id, flow)
        {
          MovedAppend(s.ledger, m, l.id, flow);
          MovedUnmentioned(s.ledger, l.id, flow);
        }
      } else {
        MovedElsewhere(s.ledger, [m], other);
      }
    }
  }

  // ---------------------------------------------------------------------------
  // buy

  /** The effects of an accepted purchase of `amount` sale-token units by `caller`
      in sale `id`: the totals, the caller's participation, both membership sets,
      and the payment received and the units delivered. */
  function Purchased(s: Store, id: nat, caller: Address, payment: Payment, amount: nat): (s': Store)
    requires id in s.launchpads
    ensures var l := s.launchpads[id];
      && s'.launchpads.Keys == s.launchpads.Keys
      && s'.launchpads[id] == l.(totalRaised := l.totalRaised + payment.amount, totalSold := l.totalSold + amount)
      && (forall other :: other in s.launchpads && other != id ==> s'.launchpads[other] == s.launchpads[other])
    ensures Bought(s', caller, id) == Bought(s, caller, id) + amount
    ensures forall other: nat, user :: (user, other) != (caller, id) ==> Bought(s', user, other) == Bought(s, user, other)
    ensures LaunchpadsOf(s', caller) == LaunchpadsOf(s, caller) + {id}
    ensures forall user :: user != caller ==> LaunchpadsOf(s', user) == LaunchpadsOf(s, user)
    ensures UsersOf(s', id) == UsersOf(s, id) + {caller}
    ensures forall other: nat :: other != id ==> UsersOf(s', other) == UsersOf(s, other)
    ensures Moved(s'.ledger, id, Purchase) == Moved(s.ledger, id, Purchase) + payment.amount
    ensures Moved(s'.ledger, id, Delivery) == Moved(s.ledger, id, Delivery) + amount
    ensures forall other: nat, flow :: (other, flow) != (id, Purchase) && (other, flow) != (id, Delivery) ==>
              Moved(s'.ledger, other, flow) == Moved(s.ledger, other, flow)
    ensures s'.lastLaunchpadId == s.lastLaunchpadId && s'.whitelistedUsers == s.whitelistedUsers
    ensures s'.tokenLaunchpadId == s.tokenLaunchpadId
  {
    var l := s.launchpads[id];
    MovedAppendAll(s.ledger, Movement(id, Purchase, caller, payment.token, payment.amount));
    MovedAppendAll(s.ledger + [Movement(id, Purchase, caller, payment.token, payment.amount)],
                   Movement(id, Delivery, caller, l.token, amount));
    s.(launchpads := s.launchpads[id := l.(totalRaised := l.totalRaised + payment.amount,
                                           totalSold := l.totalSold + amount)],
       userParticipation := s.userParticipation[(caller, id) := Bought(s, caller, id) + amount],
       userLaunchpads := s.userLaunchpads[caller := LaunchpadsOf(s, caller) + {id}],
       launchpadUsers := s.launchpadUsers[id := UsersOf(s, id) + {caller}],
       ledger := s.ledger + [Movement(id, Purchase, caller, payment.token, payment.amount)]
                          + [Movement(id, Delivery, caller, l.token, amount)])
  }

  /** `buy`: the checks in source order, then the purchase. `isActive` stands for
      `Launchpad::is_active`, `one` for the constant `ONE`, `caller` and `payment`
      for the caller and the payment attached to the call. */
  function Buy(
    s: Store, state: State, isActive: (Launchpad, nat) -> bool, one: nat,
    id: nat, caller: Address, payment: Payment, now: nat): (r: Result<Store>)
    requires RecordsInv(s)
    ensures state != Active ==> r == Err(NotActive)
    ensures state == Active && id !in s.launchpads ==> r == Err(LaunchpadNotFound)
    ensures r.Ok? ==> id in s.launchpads
    ensures id in s.launchpads ==>
      var l := s.launchpads[id];
      var amount := TokenAmount(payment.amount, one, l.price);
      var total := Bought(s, caller, id) + amount;
      && (r.Ok? <==>
            && state == Active && isActive(l, now) && payment.token == l.paymentToken
            && (!l.kycEnforced || caller in Whitelist(s, id))
            && l.minBuyAmount <= total <= l.maxBuyAmount
            && l.totalSold + amount <= l.amount)
      && (r.Ok? ==>
            && r.value.launchpads == s.launchpads[id := l.(totalRaised := l.totalRaised + payment.amount,
                                                           totalSold := l.totalSold + amount)]
            && Bought(r.value, caller, id) == total
            && (forall other: nat, user :: (user, other) != (caller, id) ==> Bought(r.value, user, other) == Bought(s, user, other))
            && LaunchpadsOf(r.value, caller) == LaunchpadsOf(s, caller) + {id}
            && UsersOf(r.value, id) == UsersOf(s, id) + {caller}
            && r.value.lastLaunchpadId == s.lastLaunchpadId
            && r.value.whitelistedUsers == s.whitelistedUsers
            && r.value.tokenLaunchpadId == s.tokenLaunchpadId
            && (forall user :: user != caller ==> LaunchpadsOf(r.value, user) == LaunchpadsOf(s, user))
            && (forall other: nat :: other != id ==> UsersOf(r.value, other) == UsersOf(s, other))
            && r.value.ledger == s.ledger + [Movement(id, Purchase, caller, payment.token, payment.amount)]
                                          + [Movement(id, Delivery, caller, l.token, amount)])
  {
    if state != Active then Err(NotActive)
    else if id !in s.launchpads then Err(LaunchpadNotFound)
    else
      var l := s.launchpads[id];
      if !isActive(l, now) then Err(LaunchpadInactive)
      else if payment.token != l.paymentToken then Err(WrongToken)
      else
        var amount := TokenAmount(payment.amount, one, l.price);
        if l.kycEnforced && caller !in Whitelist(s, id) then Err(NotWhitelisted)
        else
          var oldBought := Bought(s, caller, id);
          if amount + oldBought < l.minBuyAmount then Err(LowAmount)
          else if amount + oldBought > l.maxBuyAmount then Err(HighAmount)
          else if amount + l.totalSold > l.amount then Err(InsufficientFunds)
          else
            Ok(Purchased(s, id, caller, payment, amount))
  }

  /** Which check of `buy` rejects the call once the sale is found, in source order. */
  lemma BuyRejections(
    s: Store, state: State, isActive: (Launchpad, nat) -> bool, one: nat,
    id: nat, caller: Address, payment: Payment, now: nat)
    requires RecordsInv(s)
    requires state == Active && id in s.launchpads
    ensures var l := s.launchpads[id];
      var r := Buy(s, state, isActive, one, id, caller, payment, now);
      var amount := TokenAmount(payment.amount, one, l.price);
      var total := Bought(s, caller, id) + amount;
      var open := isActive(l, now);
      var tokenOk := payment.token == l.paymentToken;
      var eligible := !l.kycEnforced || caller in Whitelist(s, id);
      && (!open ==> r == Err(LaunchpadInactive))
      && ((open && !tokenOk) ==> r == Err(WrongToken))
      && ((open && tokenOk && !eligible) ==> r == Err(NotWhitelisted))
      && ((open && tokenOk && eligible && total < l.minBuyAmount) ==> r == Err(LowAmount))
      && ((open && tokenOk && eligible && l.minBuyAmount <= total && l.maxBuyAmount < total)
            ==> r == Err(HighAmount))
      && ((open && tokenOk && eligible && l.minBuyAmount <= total <= l.maxBuyAmount
           && l.amount < l.totalSold + amount) ==> r == Err(InsufficientFunds))
  {
  }

  /** A successful purchase keeps the invariant; in particular the sale never
      sells more than its inventory and the buyer stays within the quota. */
  lemma BuyPreservesInv(
    s: Store, state: State, isActive: (Launchpad, nat) -> bool, one: nat,
    id: nat, caller: Address, payment: Payment, now: nat)
    requires Inv(s)
    requires Buy(s, state, isActive, one, id, caller, payment, now).Ok?
    ensures Inv(Buy(s, state, isActive, one, id, caller, payment, now).value)
  {
    var l := s.launchpads[id];
    PurchasedKeepsInv(s, id, caller, payment, TokenAmount(payment.amount, one, l.price));
  }

  /** Recording a purchase that stays within the quota and the inventory keeps the invariant. */
  lemma PurchasedKeepsInv(s: Store, id: nat, caller: Address, payment: Payment, amount: nat)
    requires Inv(s) && id in s.launchpads
    requires s.launchpads[id].totalSold + amount <= s.launchpads[id].amount
    requires s.launchpads[id].minBuyAmount <= Bought(s, caller, id) + amount <= s.launchpads[id].maxBuyAmount
    ensures Inv(Purchased(s, id, caller, payment, amount))
  {
    PurchasedKeepsLedger(s, id, caller, payment, amount);
    PurchasedKeepsQuotas(s, id, caller, payment, amount);
    PurchasedKeepsMembers(s, id, caller, payment, amount);
  }

  lemma PurchasedKeepsLedger(s: Store, id: nat, caller: Address, payment: Payment, amount: nat)
    requires RecordsInv(s) && LedgerInv(s) && id in s.launchpads
    requires s.launchpads[id].totalSold + amount <= s.launchpads[id].amount
    ensures RecordsInv(Purchased(s, id, caller, payment, amount))
    ensures LedgerInv(Purchased(s, id, caller, payment, amount))
  {
    PurchasedKeepsRecords(s, id, caller, payment, amount);
    var s' := Purchased(s, id, caller, payment, amount);
    forall other | other in s'.launchpads
      ensures Audited(s'.ledger, s'.launchpads[other])
    {
      PurchasedAudits(s, id, caller, payment, amount, other);
    }
  }

  /** A purchase in sale `id` keeps the books of every sale balanced against its record. */
  lemma PurchasedAudits(s: Store, id: nat, caller: Address, payment: Payment, amount: nat, other: nat)
    requires id in s.launchpads && s.launchpads[id].id == id
    requires other in s.launchpads && s.launchpads[other].id == other && Audited(s.ledger, s.launchpads[other])
    ensures var s' := Purchased(s, id, caller, payment, amount);
      Audited(s'.ledger, s'.launchpads[other])
  {
    var s' := Purchased(s, id, caller, payment, amount);
    assert forall flow :: flow != Purchase && flow != Delivery ==>
             Moved(s'.ledger, other, flow) == Moved(s.ledger, other, flow);
  }

  lemma PurchasedKeepsRecords(s: Store, id: nat, caller: Address, payment: Payment, amount: nat)
    requires RecordsInv(s) && (forall i :: 0 <= i < |s.ledger| ==> s.ledger[i].launchpad in s.launchpads)
    requires id in s.launchpads && s.launchpads[id].totalSold + amount <= s.launchpads[id].amount
    ensures RecordsInv(Purchased(s, id, caller, payment, amount))
    ensures var s' := Purchased(s, id, caller, payment, amount);
      forall i :: 0 <= i < |s'.ledger| ==> s'.ledger[i].launchpad in s'.launchpads
  {
    var s' := Purchased(s, id, caller, payment, amount);
    forall i | 0 <= i < |s'.ledger|
      ensures s'.ledger[i].launchpad in s'.launchpads
    {
      if i >= |s.ledger| {
        assert s'.ledger[i].launchpad == id;
      }
    }
  }

  /** A purchase adds its payment to the sale's payments and its allocation to the deliveries. */
  lemma AuditedAfterPurchase(ledger: seq<Movement>, l: Launchpad, caller: Address, token: TokenId, paid: nat, amount: nat)
    requires l.totalSold + amount <= l.amount
    requires Audited(ledger, l)
    ensures Audited(ledger + [Movement(l.id, Purchase, caller, token, paid)] + [Movement(l.id, Delivery, caller, l.token, amount)],
                    l.(totalRaised := l.totalRaised + paid, totalSold := l.totalSold + amount))
  {
    var m1 := Movement(l.id, Purchase, caller, token, paid);
    var m2 := Movement(l.id, Delivery, caller, l.token, amount);
    forall flow: Flow
      ensures Moved(ledger + [m1] + [m2], l.id, flow) == Moved(ledger, l.id, flow) + Share(m1, l.id, flow) + Share(m2, l.id, flow)
    {
      MovedAppend(ledger, m1, l.id, flow);
      MovedAppend(ledger + [m1], m2, l.id, flow);
    }
  }

  /** Movements that belong to other sales leave the totals of sale `id` as they were. */
  lemma MovedElsewhere(ledger: seq<Movement>, extra: seq<Movement>, id: nat)
    requires forall i :: 0 <= i < |extra| ==> extra[i].launchpad != id
    ensures forall flow :: Moved(ledger + extra, id, flow) == Moved(ledger, id, flow)
  {
    forall flow: Flow
      ensures Moved(ledger + extra, id, flow) == Moved(ledger, id, flow)
    {
      MovedConcat(ledger, extra, id, flow);
      MovedUnmentioned(extra, id, flow);
    }
  }

  /** Recording a purchase within the quota keeps every participation within its quota. */
  lemma PurchasedKeepsQuotas(s: Store, id: nat, caller: Address, payment: Payment, amount: nat)
    requires QuotasInv(s) && id in s.launchpads
    requires s.launchpads[id].minBuyAmount <= Bought(s, caller, id) + amount <= s.launchpads[id].maxBuyAmount
    ensures QuotasInv(Purchased(s, id, caller, payment, amount))
  {
  }

  /** Recording a purchase lists the buyer and the sale in each other's membership set. */
  lemma PurchasedKeepsMembers(s: Store, id: nat, caller: Address, payment: Payment, amount: nat)
    requires MembersInv(s) && id in s.launchpads
    ensures MembersInv(Purchased(s, id, caller, payment, amount))
  {
    var s' := Purchased(s, id, caller, payment, amount);
    assert forall user :: LaunchpadsOf(s', user) == if user == caller then LaunchpadsOf(s, user) + {id} else LaunchpadsOf(s, user);
    assert forall other :: UsersOf(s', other) == if other == id then UsersOf(s, other) + {caller} else UsersOf(s, other);
  }

  // ---------------------------------------------------------------------------
  // redeem

  /** The transfers `redeem` makes to the owner of `l`: the amount raised, if any,
      then the unsold inventory, if any. */
  function Payout(l: Launchpad): (payout: seq<Movement>)
    requires l.totalSold <= l.amount
    ensures forall m :: m in payout ==> m.launchpad == l.id && m.party == l.owner && m.amount > 0
    ensures forall m :: m in payout ==>
              (m.flow == Proceeds && m.token == l.paymentToken) || (m.flow == Leftover && m.token == l.token)
  {
    var proceeds := if l.totalRaised > 0 then [Movement(l.id, Proceeds, l.owner, l.paymentToken, l.totalRaised)] else [];
    var left := l.amount - l.totalSold;
    proceeds + if left > 0 then [Movement(l.id, Leftover, l.owner, l.token, left)] else []
  }

  /** Over the whole payout the owner receives exactly the amount raised, in the
      payment token, and exactly the unsold inventory, in the sale token. */
  lemma PayoutMoves(l: Launchpad, other: nat, flow: Flow)
    requires l.totalSold <= l.amount
    ensures Moved(Payout(l), other, flow) ==
              if other != l.id then 0
              else if flow == Proceeds then l.totalRaised
              else if flow == Leftover then l.amount - l.totalSold
              else 0
  {
    var proceeds := Movement(l.id, Proceeds, l.owner, l.paymentToken, l.totalRaised);
    var leftover := Movement(l.id, Leftover, l.owner, l.token, l.amount - l.totalSold);
    var first: seq<Movement> := if l.totalRaised > 0 then [] + [proceeds] else [];
    MovedAppend([], proceeds, other, flow);
    if l.amount - l.totalSold > 0 {
      MovedAppend(first, leftover, other, flow);
      assert Payout(l) == first + [leftover];
    } else {
      assert Payout(l) == first;
    }
  }

  /** `PayoutMoves` for every launchpad and flow at once, after any earlier ledger. */
  lemma PayoutMovesAll(ledger: seq<Movement>, l: Launchpad)
    requires l.totalSold <= l.amount
    ensures forall other: nat, flow :: Moved(ledger + Payout(l), other, flow) ==
              Moved(ledger, other, flow) +
              if other != l.id then 0
              else if flow == Proceeds then l.totalRaised
              else if flow == Leftover then l.amount - l.totalSold
              else 0
  {
    forall other: nat, flow
      ensures Moved(ledger + Payout(l), other, flow) ==
                Moved(ledger, other, flow) +
                if other != l.id then 0
                else if flow == Proceeds then l.totalRaised
                else if flow == Leftover then l.amount - l.totalSold
                else 0
    {
      MovedConcat(ledger, Payout(l), other, flow);
      PayoutMoves(l, other, flow);
    }
  }

  /** `redeem`: after the sale has ended and only once, pay the owner. A missing
      record fails when its empty storage entry is decoded. */
  function Redeem(s: Store, state: State, id: nat, now: nat): (r: Result<Store>)
    requires RecordsInv(s)
    ensures state != Active ==> r == Err(NotActive)
    ensures state == Active && id !in s.launchpads ==> r == Err(MissingRecord)
    ensures id in s.launchpads ==>
      var l := s.launchpads[id];
      && (state == Active && now <= l.endTime ==> r == Err(LaunchpadNotEnded))
      && (state == Active && l.endTime < now && l.redeemed ==> r == Err(AlreadyRedeemed))
      && (r.Ok? <==> state == Active && l.endTime < now && !l.redeemed)
      && (r.Ok? ==>
            && r.value.launchpads == s.launchpads[id := l.(redeemed := true)]
            && r.value.ledger == s.ledger + Payout(l)
            && r.value.lastLaunchpadId == s.lastLaunchpadId
            && r.value.userParticipation == s.userParticipation
            && r.value.userLaunchpads == s.userLaunchpads
            && r.value.launchpadUsers == s.launchpadUsers
            && r.value.whitelistedUsers == s.whitelistedUsers
            && r.value.tokenLaunchpadId == s.tokenLaunchpadId)
  {
    if state != Active then Err(NotActive)
    else if id !in s.launchpads then Err(MissingRecord)
    else
      var l := s.launchpads[id];
      if !(l.endTime < now) then Err(LaunchpadNotEnded)
      else if l.redeemed then Err(AlreadyRedeemed)
      else
        Ok(Closed(s, l))
  }

  /** The effects of a redemption: `l` is marked redeemed and its owner is paid. */
  function Closed(s: Store, l: Launchpad): (s': Store)
    requires l.totalSold <= l.amount
    ensures s'.launchpads.Keys == s.launchpads.Keys + {l.id} && s'.launchpads[l.id].redeemed
    ensures s'.launchpads[l.id] == l.(redeemed := true)
    ensures forall other :: other in s.launchpads && other != l.id ==> s'.launchpads[other] == s.launchpads[other]
    ensures Moved(s'.ledger, l.id, Proceeds) == Moved(s.ledger, l.id, Proceeds) + l.totalRaised
    ensures Moved(s'.ledger, l.id, Leftover) == Moved(s.ledger, l.id, Leftover) + (l.amount - l.totalSold)
    ensures forall other: nat, flow :: (other, flow) != (l.id, Proceeds) && (other, flow) != (l.id, Leftover) ==>
              Moved(s'.ledger, other, flow) == Moved(s.ledger, other, flow)
    ensures s'.lastLaunchpadId == s.lastLaunchpadId
    ensures s'.userParticipation == s.userParticipation && s'.userLaunchpads == s.userLaunchpads
    ensures s'.launchpadUsers == s.launchpadUsers && s'.whitelistedUsers == s.whitelistedUsers
    ensures s'.tokenLaunchpadId == s.tokenLaunchpadId
  {
    PayoutMovesAll(s.ledger, l);
    s.(launchpads := s.launchpads[l.id := l.(redeemed := true)],
       ledger := s.ledger + Payout(l))
  }


  lemma RedeemPreservesInv(s: Store, state: State, id: nat, now: nat)
    requires Inv(s)
    requires Redeem(s, state, id, now).Ok?
    ensures Inv(Redeem(s, state, id, now).value)
  {
    ClosedKeepsInv(s, s.launchpads[id]);
  }

  /** Marking a stored, unredeemed record redeemed and paying its owner keeps the invariant. */
  lemma ClosedKeepsInv(s: Store, l: Launchpad)
    requires Inv(s)
    requires l.id in s.launchpads && s.launchpads[l.id] == l && !l.redeemed
    ensures Inv(Closed(s, l))
  {
    var s' := Closed(s, l);
    ClosedKeepsLedger(s, l);
    ParticipationUnchanged(s, s');
  }

  lemma ClosedKeepsLedger(s: Store, l: Launchpad)
    requires RecordsInv(s) && LedgerInv(s)
    requires l.id in s.launchpads && s.launchpads[l.id] == l && !l.redeemed
    ensures RecordsInv(Closed(s, l)) && LedgerInv(Closed(s, l))
  {
    ClosedKeepsRecords(s, l);
    var s' := Closed(s, l);
    forall other | other in s'.launchpads
      ensures Audited(s'.ledger, s'.launchpads[other])
    {
      ClosedAudits(s, l, other);
    }
  }

  /** Paying out sale `l` keeps the books of every sale balanced against its record. */
  lemma ClosedAudits(s: Store, l: Launchpad, other: nat)
    requires l.totalSold <= l.amount
    requires other in s.launchpads && s.launchpads[other].id == other && Audited(s.ledger, s.launchpads[other])
    requires l.id in s.launchpads ==> s.launchpads[l.id] == l
    ensures var s' := Closed(s, l);
      Audited(s'.ledger, s'.launchpads[other])
  {
    var s' := Closed(s, l);
    assert forall flow :: flow != Proceeds && flow != Leftover ==>
             Moved(s'.ledger, other, flow) == Moved(s.ledger, other, flow);
  }

  lemma ClosedKeepsRecords(s: Store, l: Launchpad)
    requires RecordsInv(s) && (forall i :: 0 <= i < |s.ledger| ==> s.ledger[i].launchpad in s.launchpads)
    requires l.id in s.launchpads && s.launchpads[l.id] == l
    ensures RecordsInv(Closed(s, l))
    ensures forall i :: 0 <= i < |Closed(s, l).ledger| ==> Closed(s, l).ledger[i].launchpad in Closed(s, l).launchpads
  {
    var s' := Closed(s, l);
    assert s'.launchpads.Keys == s.launchpads.Keys;
    forall i | 0 <= i < |s'.ledger|
      ensures s'.ledger[i].launchpad in s'.launchpads
    {
      if i >= |s.ledger| {
        assert s'.ledger[i] in Payout(l);
      }
    }
  }

  /** A change that keeps the participation records and the quotas keeps the participation invariant. */
  lemma ParticipationUnchanged(s: Store, s': Store)
    requires ParticipationInv(s)
    requires s'.userParticipation == s.userParticipation
    requires s'.userLaunchpads == s.userLaunchpads && s'.launchpadUsers == s.launchpadUsers
    requires forall id :: id in s.launchpads ==>
               && id in s'.launchpads
               && s'.launchpads[id].minBuyAmount == s.launchpads[id].minBuyAmount
               && s'.launchpads[id].maxBuyAmount == s.launchpads[id].maxBuyAmount
    ensures ParticipationInv(s')
  {
    assert forall user :: LaunchpadsOf(s', user) == LaunchpadsOf(s, user);
    assert forall other :: UsersOf(s', other) == UsersOf(s, other);
  }

  /** Redemption happens at most once: after a successful `redeem`, every later
      call for the same id fails, whatever the time and the pause state. */
  lemma RedeemExactlyOnce(s: Store, state: State, id: nat, now: nat, later: State, laterNow: nat)
    requires Inv(s)
    requires Redeem(s, state, id, now).Ok?
    ensures Inv(Redeem(s, state, id, now).value)
    ensures Redeem(Redeem(s, state, id, now).value, later, id, laterNow).Err?
    ensures later == Active && now <= laterNow ==>
              Redeem(Redeem(s, state, id, now).value, later, id, laterNow) == Err(AlreadyRedeemed)
  {
    RedeemPreservesInv(s, state, id, now);
  }


  // ---------------------------------------------------------------------------
  // runs of calls and the books of each sale

  /** `Launchpad::is_active` admits no purchase after the sale's end time. */
  ghost predicate ClosesAtEnd(isActive: (Launchpad, nat) -> bool)
  {
    forall l: Launchpad, now: nat :: isActive(l, now) ==> now <= l.endTime
  }

  /** Every redeemed sale ended before `clock`, and its owner has been paid
      everything it raised and everything it did not sell. */
  ghost predicate SettledBy(s: Store, clock: nat)
  {
    forall id :: id in s.launchpads && s.launchpads[id].redeemed ==>
      s.launchpads[id].endTime < clock && PaidOut(s.ledger, s.launchpads[id])
  }

  lemma NewLaunchpadKeepsSettled(
    s: Store, clock: nat, state: State, daoApproves: bool, now: nat,
    owner: Address, kycEnforced: bool, title: string, paymentToken: TokenId,
    price: nat, minBuyAmount: nat, maxBuyAmount: nat, startTime: nat, endTime: nat,
    deposit: Payment)
    requires Inv(s) && SettledBy(s, clock) && clock <= now
    requires NewLaunchpad(s, state, daoApproves, now, owner, kycEnforced, title, paymentToken,
                          price, minBuyAmount, maxBuyAmount, startTime, endTime, deposit).Ok?
    ensures SettledBy(NewLaunchpad(s, state, daoApproves, now, owner, kycEnforced, title, paymentToken,
                                   price, minBuyAmount, maxBuyAmount, startTime, endTime, deposit).value.1, now)
  {
    var (id, s') := NewLaunchpad(s, state, daoApproves, now, owner, kycEnforced, title, paymentToken,
                                 price, minBuyAmount, maxBuyAmount, startTime, endTime, deposit).value;
    NewLaunchpadPreservesInv(s, state, daoApproves, now, owner, kycEnforced, title, paymentToken,
                             price, minBuyAmount, maxBuyAmount, startTime, endTime, deposit);
    var extra := [Movement(id, Deposit, owner, deposit.token, deposit.amount)];
    assert s'.ledger == s.ledger + extra;
    forall other | other in s'.launchpads && s'.launchpads[other].redeemed
      ensures s'.launchpads[other].endTime < now && PaidOut(s'.ledger, s'.launchpads[other])
    {
      MovedElsewhere(s.ledger, extra, other);
    }
  }

  /** With a clock that never goes back, a purchase is never accepted for a
      redeemed sale, so the books of redeemed sales stay closed. */
  lemma BuyKeepsSettled(
    s: Store, clock: nat, state: State, isActive: (Launchpad, nat) -> bool, one: nat,
    id: nat, caller: Address, payment: Payment, now: nat)
    requires Inv(s) && SettledBy(s, clock) && clock <= now && ClosesAtEnd(isActive)
    requires Buy(s, state, isActive, one, id, caller, payment, now).Ok?
    ensures !s.launchpads[id].redeemed
    ensures SettledBy(Buy(s, state, isActive, one, id, caller, payment, now).value, now)
  {
    var l := s.launchpads[id];
    var amount := TokenAmount(payment.amount, one, l.price);
    assert isActive(l, now);
    PurchasedKeepsSettled(s, clock, id, caller, payment, amount, now);
  }

  /** A purchase in an unredeemed sale leaves the payouts of the redeemed ones as they were. */
  lemma PurchasedKeepsSettled(s: Store, clock: nat, id: nat, caller: Address, payment: Payment, amount: nat, now: nat)
    requires SettledBy(s, clock) && clock <= now
    requires id in s.launchpads && !s.launchpads[id].redeemed
    ensures SettledBy(Purchased(s, id, caller, payment, amount), now)
  {
    var s' := Purchased(s, id, caller, payment, amount);
    forall other | other in s'.launchpads && s'.launchpads[other].redeemed
      ensures s'.launchpads[other].endTime < now && PaidOut(s'.ledger, s'.launchpads[other])
    {
      assert other != id;
    }
  }

  lemma RedeemKeepsSettled(s: Store, clock: nat, state: State, id: nat, now: nat)
    requires Inv(s) && SettledBy(s, clock) && clock <= now
    requires Redeem(s, state, id, now).Ok?
    ensures SettledBy(Redeem(s, state, id, now).value, now)
  {
    var s' := Redeem(s, state, id, now).value;
    var l := s.launchpads[id];
    forall other | other in s'.launchpads && s'.launchpads[other].redeemed
      ensures s'.launchpads[other].endTime < now && PaidOut(s'.ledger, s'.launchpads[other])
    {
      forall flow: Flow
        ensures Moved(s'.ledger, other, flow) == Moved(s.ledger, other, flow) + Moved(Payout(l), other, flow)
      {
        MovedConcat(s.ledger, Payout(l), other, flow);
        PayoutMoves(l, other, flow);
      }
      PayoutMoves(l, other, Proceeds);
      PayoutMoves(l, other, Leftover);
    }
  }

  /** One call to an endpoint of lib.rs, with the pause state and the block
      timestamp at the moment it runs. */
  datatype Call =
    | NewLaunchpadCall(state: State, daoApproves: bool, now: nat,
                       owner: Address, kycEnforced: bool, title: string, paymentToken: TokenId,
                       price: nat, minBuyAmount: nat, maxBuyAmount: nat, startTime: nat, endTime: nat,
                       deposit: Payment)
    | BuyCall(state: State, id: nat, caller: Address, payment: Payment, now: nat)
    | RedeemCall(state: State, id: nat, now: nat)

  /** The storage after `call`: the new storage if it succeeds, the old one if it fails. */
  function Step(s: Store, isActive: (Launchpad, nat) -> bool, one: nat, call: Call): (s': Store)
    requires Inv(s)
    ensures Inv(s')
  {
    match call
    case NewLaunchpadCall(state, dao, now, owner, kyc, title, pt, price, minB, maxB, start, end, deposit) =>
      var r := NewLaunchpad(s, state, dao, now, owner, kyc, title, pt, price, minB, maxB, start, end, deposit);
      if r.Err? then s
      else
        NewLaunchpadPreservesInv(s, state, dao, now, owner, kyc, title, pt, price, minB, maxB, start, end, deposit);
        r.value.1
    case BuyCall(state, id, caller, payment, now) =>
      var r := Buy(s, state, isActive, one, id, caller, payment, now);
      if r.Err? then s
      else
        BuyPreservesInv(s, state, isActive, one, id, caller, payment, now);
        r.value
    case RedeemCall(state, id, now) =>
      var r := Redeem(s, state, id, now);
      if r.Err? then s
      else
        RedeemPreservesInv(s, state, id, now);
        r.value
  }

  /** The storage after the calls, in order. */
  function Run(s: Store, isActive: (Launchpad, nat) -> bool, one: nat, calls: seq<Call>): (s': Store)
    requires Inv(s)
    ensures Inv(s')
    decreases |calls|
  {
    if calls == [] then s else Run(Step(s, isActive, one, calls[0]), isActive, one, calls[1..])
  }

  /** The calls' timestamps never go back, starting from `clock`. */
  ghost predicate Chronological(clock: nat, calls: seq<Call>)
    decreases |calls|
  {
    calls != [] ==> clock <= calls[0].now && Chronological(calls[0].now, calls[1..])
  }

  /** The timestamp of the last call, or `clock` if there is none. */
  function Latest(clock: nat, calls: seq<Call>): nat
    decreases |calls|
  {
    if calls == [] then clock else Latest(calls[0].now, calls[1..])
  }

  lemma StepKeepsSettled(s: Store, clock: nat, isActive: (Launchpad, nat) -> bool, one: nat, call: Call)
    requires Inv(s) && SettledBy(s, clock) && clock <= call.now && ClosesAtEnd(isActive)
    ensures SettledBy(Step(s, isActive, one, call), call.now)
  {
    match call
    case NewLaunchpadCall(state, dao, now, owner, kyc, title, pt, price, minB, maxB, start, end, deposit) =>
      if NewLaunchpad(s, state, dao, now, owner, kyc, title, pt, price, minB, maxB, start, end, deposit).Ok? {
        NewLaunchpadKeepsSettled(s, clock, state, dao, now, owner, kyc, title, pt, price, minB, maxB, start, end, deposit);
      }
    case BuyCall(state, id, caller, payment, now) =>
      if Buy(s, state, isActive, one, id, caller, payment, now).Ok? {
        BuyKeepsSettled(s, clock, state, isActive, one, id, caller, payment, now);
      }
    case RedeemCall(state, id, now) =>
      if Redeem(s, state, id, now).Ok? {
        RedeemKeepsSettled(s, clock, state, id, now);
      }
  }

  /** Over any run whose clock never goes back, every redeemed sale has paid its
      owner exactly what it raised and what it did not sell. */
  lemma {:induction false} RunKeepsSettled(
    s: Store, clock: nat, isActive: (Launchpad, nat) -> bool, one: nat, calls: seq<Call>)
    requires Inv(s) && SettledBy(s, clock) && ClosesAtEnd(isActive) && Chronological(clock, calls)
    ensures SettledBy(Run(s, isActive, one, calls), Latest(clock, calls))
    decreases |calls|
  {
    if calls != [] {
      StepKeepsSettled(s, clock, isActive, one, calls[0]);
      RunKeepsSettled(Step(s, isActive, one, calls[0]), calls[0].now, isActive, one, calls[1..]);
    }
  }

  /** The books of sale `id` in a store reached from a fresh deployment: the
      contract never pays out more of a sale than it took in for it; before
      redemption the owner has been paid nothing, and after it both balances are
      zero, with every unit either delivered to a buyer or returned to the owner. */
  lemma Conservation(isActive: (Launchpad, nat) -> bool, one: nat, calls: seq<Call>, id: nat)
    requires ClosesAtEnd(isActive) && Chronological(0, calls)
    ensures var s := Run(EmptyStore(), isActive, one, calls);
      id in s.launchpads ==>
        && Moved(s.ledger, id, Delivery) + Moved(s.ledger, id, Leftover) <= Moved(s.ledger, id, Deposit)
        && Moved(s.ledger, id, Proceeds) <= Moved(s.ledger, id, Purchase)
        && (!s.launchpads[id].redeemed ==>
              Moved(s.ledger, id, Proceeds) == 0 && Moved(s.ledger, id, Leftover) == 0)
        && (s.launchpads[id].redeemed ==>
              && Moved(s.ledger, id, Delivery) + Moved(s.ledger, id, Leftover) == Moved(s.ledger, id, Deposit)
              && Moved(s.ledger, id, Proceeds) == Moved(s.ledger, id, Purchase))
  {
    EmptyStoreInv();
    RunKeepsSettled(EmptyStore(), 0, isActive, one, calls);
  }

  /** What `Conservation` rests on: once a sale has been redeemed (its proceeds and
      its unsold inventory paid to the owner), a purchase that `is_active` still lets
      through delivers tokens that were already handed back, so the sale pays out
      more of its token than was deposited. */
  lemma BuyAfterRedeemOverpays(
    s: Store, state: State, isActive: (Launchpad, nat) -> bool, one: nat,
    id: nat, caller: Address, payment: Payment, now: nat)
    requires Inv(s)
    requires Buy(s, state, isActive, one, id, caller, payment, now).Ok?
    requires s.launchpads[id].redeemed && PaidOut(s.ledger, s.launchpads[id])
    ensures var l := s.launchpads[id];
      var s' := Buy(s, state, isActive, one, id, caller, payment, now).value;
      Moved(s'.ledger, id, Delivery) + Moved(s'.ledger, id, Leftover)
        == Moved(s'.ledger, id, Deposit) + TokenAmount(payment.amount, one, l.price)
  {
    var l := s.launchpads[id];
    var amount := TokenAmount(payment.amount, one, l.price);
    assert Audited(s.ledger, l);
    var m1 := Movement(id, Purchase, caller, payment.token, payment.amount);
    var m2 := Movement(id, Delivery, caller, l.token, amount);
    assert Buy(s, state, isActive, one, id, caller, payment, now).value.ledger == s.ledger + [m1] + [m2];
    forall flow: Flow
      ensures Moved(s.ledger + [m1] + [m2], id, flow)
           == Moved(s.ledger, id, flow) + Share(m1, id, flow) + Share(m2, id, flow)
    {
      MovedAppend(s.ledger, m1, id, flow);
      MovedAppend(s.ledger + [m1], m2, id, flow);
    }
  }

  /** `is_active` is always willing to sell. */
  function AlwaysOpen(l: Launchpad, now: nat): bool
  {
    true
  }

  /** With an `is_active` that ignores the end time, the premise of
      `BuyAfterRedeemOverpays` is reachable from a fresh deployment: a sale of 10 units
      at price 1 ending at time 2 is redeemed at time 3, and a purchase of 5 units is
      then accepted at time 4. */
  lemma LateBuyAccepted()
    ensures var create := NewLaunchpadCall(Active, true, 0, "owner", false, "sale", "USDC", 1, 0, 10, 1, 2, Payment("SALE", 10));
      var s := Step(Step(EmptyStore(), AlwaysOpen, 1, create), AlwaysOpen, 1, RedeemCall(Active, 1, 3));
      && 1 in s.launchpads && s.launchpads[1].redeemed && PaidOut(s.ledger, s.launchpads[1])
      && Buy(s, Active, AlwaysOpen, 1, 1, "buyer", Payment("USDC", 5), 4).Ok?
      && TokenAmount(5, 1, s.launchpads[1].price) == 5
  {
    var create := NewLaunchpadCall(Active, true, 0, "owner", false, "sale", "USDC", 1, 0, 10, 1, 2, Payment("SALE", 10));
    EmptyStoreInv();
    var s0 := EmptyStore();
    var r1 := NewLaunchpad(s0, Active, true, 0, "owner", false, "sale", "USDC", 1, 0, 10, 1, 2, Payment("SALE", 10));
    assert r1.Ok?;
    var s1 := r1.value.1;
    assert Step(s0, AlwaysOpen, 1, create) == s1;
    NewLaunchpadKeepsSettled(s0, 0, Active, true, 0, "owner", false, "sale", "USDC", 1, 0, 10, 1, 2, Payment("SALE", 10));
    var r2 := Redeem(s1, Active, 1, 3);
    assert r2.Ok?;
    var s2 := r2.value;
    assert Step(s1, AlwaysOpen, 1, RedeemCall(Active, 1, 3)) == s2;
    RedeemKeepsSettled(s1, 0, Active, 1, 3);
    assert TokenAmount(5, 1, 1) == 5;
  }
}
