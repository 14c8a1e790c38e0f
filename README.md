# Launchpad sale engine: a Dafny model

This project models the fixed-price token sale contract of `src/lib.rs` and the
pause switch of `src/common/config.rs`, and proves properties of the model.

- The DAO (the caller that passes `only_dao`) opens a sale under the next numeric id.
  It attaches the inventory of the sale token to the call and names the sale's owner.
- Buyers pay in the payment token and receive `payment * ONE / price` units.
  Each buyer must stay within the per-user quota `[min_buy_amount, max_buy_amount]`.
  Together, buyers cannot take more than the inventory.
- After the end time, anyone may redeem the sale once. Redeeming pays the owner the
  amount raised and returns the unsold inventory.
- The contract owner pauses and unpauses the whole contract. Unpausing needs a
  template DAO address to be stored first.

Files:

- `common.dfy` (module `Common`): addresses, token ids, error tags and result shapes.
  Each error tag is named after the error constant that `require!` raises.
- `config.dfy` (module `Config`):
  - the `State` enum;
  - the configuration storage as a value (`Settings`), with the three owner-only
    endpoints as functions over it;
  - the class `ConfigModule`, whose methods update the `state` and `template_dao`
    mappers in place and are proved equal to those functions.
- `sale.dfy` (module `Sale`):
  - the storage of `src/lib.rs` as a value (`Store`), with one field per mapper and
    `last_launchpad_id`;
  - `newLaunchpad`, `buy` and `redeem` as functions over it, with the checks in
    source order;
  - the storage invariant `Inv` and proofs that every endpoint keeps it.
  - `Store` also carries a ledger of every token movement into or out of the
    contract. Over whole runs of calls, the ledger is used to prove that each sale's
    books balance.
- `contract.dfy` (module `Contract`):
  - the class `LaunchpadContract`, with the mappers as fields;
  - `init`, `upgrade`, `newLaunchpad`, `buy` and `redeem` as methods that check and
    then update the fields in place;
  - each method is proved to leave exactly the storage that the `Sale` function
    computes, and to keep `Inv`.

Three things the endpoints use are defined outside these files.

- `Launchpad::is_active` is a function-valued parameter (`isActive`).
- The constant `ONE` is a parameter (`one`). No proof needs it to be positive.
- The governance check `only_dao` is a boolean verdict (`daoApproves`). A refusal
  fails with `NotApprovedByDao`.

The owner-only guard is a comparison of the caller with the owner. A refusal fails
with `OnlyOwner` and changes nothing.

What the ledger shows: the books of every sale balance when `is_active` refuses
purchases after the sale's end time (`ClosesAtEnd`). `Conservation` proves this. `BuyAfterRedeemOverpays` and
`LateBuyAccepted` show what happens without it: a purchase accepted after
redemption delivers units that were already returned to the owner. The sale then
pays out more of its token than was deposited.

## Model

| member | source | states |
|---|---|---|
| Config.Activation | src/common/config.rs:16-22 | A caller other than the owner fails with OnlyOwner. The owner fails with TemplateDaoNotSet while no template DAO is stored. Success happens exactly when neither applies, and sets the state to Active with owner and template DAO unchanged. |
| Config.Deactivation | src/common/config.rs:24-28 | Fails exactly when the caller is not the owner, with OnlyOwner. Otherwise it unconditionally sets the state to Inactive and changes nothing else. |
| Config.TemplateDaoUpdate | src/common/config.rs:35-39 | Fails exactly when the caller is not the owner. Otherwise it stores the address and leaves the state and owner unchanged. |
| Config.ActivationIdempotent | src/common/config.rs:18-22 | Activating a second time gives the same settings as activating once. |
| Config.DeactivationIdempotent | src/common/config.rs:26-28 | Pausing a second time gives the same settings as pausing once. |
| Config.TemplateDaoEnablesActivation | src/common/config.rs:18-39 | After the owner stores a template DAO, the owner's activation succeeds and yields Active with that DAO. |
| Config.ConfigModule.constructor | src/common/config.rs:8-11 | Fresh configuration storage: the state is Inactive (an empty `state` entry decodes as the first variant) and no template DAO is stored. |
| Config.ConfigModule.SetStateActive | src/common/config.rs:16-22 | On success: returns Pass and the storage becomes what Activation computes. On refusal: returns that error and the storage is unchanged. |
| Config.ConfigModule.SetStateInactive | src/common/config.rs:24-28 | As above, against Deactivation. |
| Config.ConfigModule.SetTemplateDao | src/common/config.rs:35-39 | As above, against TemplateDaoUpdate. |
| Sale.EmptyStoreInv | src/lib.rs:13-22 | The empty storage left by `init` satisfies the storage invariant. |
| Sale.TokenAmount | src/lib.rs:93 | The allocation is the floor of `payment * ONE / price`: its cost never exceeds the payment, and one more unit would. |
| Sale.NewLaunchpad | src/lib.rs:43-78 | Fails with NotActive unless the contract is Active. Succeeds exactly when the DAO approves, the price is positive, min <= max, now < start < end, the deposit token is not indexed and the deposit is positive. On success the id is last id + 1 and becomes the last id. The new record holds the deposit, zero totals and is not redeemed. The ledger gains exactly the deposit, in the deposited token. No other record and no other mapper changes. |
| Sale.Launched | src/lib.rs:57-76 | Storing a record: it sits under its own id, which becomes the last id, and no other record changes. The sale's deposits grow by its inventory; every other total of every sale is unchanged. The participation, membership, whitelist and token-index mappers are unchanged. |
| Sale.NewLaunchpadRejections | src/lib.rs:43-55 | Which error a failing creation raises, in source order: NotApprovedByDao, ZeroPrice, WrongMinMaxAmounts, WrongStartTime, WrongEndTime, TokenAlreadyLaunched, ZeroPayment. |
| Sale.NewLaunchpadPreservesInv | src/lib.rs:57-76 | A successful creation uses an id that no record had, and keeps the storage invariant. |
| Sale.LaunchedKeepsInv | src/lib.rs:57-76 | Storing a fresh, well-formed record with zero totals under the next id keeps the invariant. The id was unused. |
| Sale.LaunchedKeepsLedger | src/lib.rs:57-76 | After a creation, every record is still well formed under its own id, every ledger entry belongs to a stored sale, and every sale, the new one included, is audited by the ledger. |
| Sale.Buy | src/lib.rs:83-124 | Fails with NotActive when paused and with LaunchpadNotFound for an unknown id. For a stored sale, succeeds exactly when all of these hold: `is_active`, the payment token matches, the caller is whitelisted if KYC applies, the cumulative amount is within [min, max], and the inventory suffices. On success: total_raised grows by the whole payment, total_sold by the allocation, and the caller's participation becomes old + allocation. The caller and the sale are added to each other's membership set. No other participation, no other user's sale set and no other sale's user set changes, and no other mapper changes. The ledger gains exactly the payment received (in the payment token) and then the units delivered (in the sale token). |
| Sale.BuyRejections | src/lib.rs:85-109 | Which error a failing purchase of a stored sale raises, in source order: LaunchpadInactive, WrongToken, NotWhitelisted, LowAmount, HighAmount, InsufficientFunds. |
| Sale.BuyPreservesInv | src/lib.rs:97-124 | A successful purchase keeps the invariant. In particular total_sold <= amount and every participation stays within its quota. |
| Sale.Purchased | src/lib.rs:111-124 | Recording a purchase: the sale's total_raised grows by the payment and total_sold by the allocation, and no other record changes. The caller's participation in this sale grows by the allocation and no other participation changes. Exactly the caller's sale set gains the sale and exactly the sale's user set gains the caller. The ledger's payments for the sale grow by the payment and its deliveries by the allocation; every other total is unchanged. |
| Sale.PurchasedKeepsInv | src/lib.rs:106-124 | Recording a purchase within the quota and the inventory keeps the invariant. |
| Sale.PurchasedKeepsMembers | src/lib.rs:122-124 | After a purchase, the membership sets still list exactly the recorded participations. |
| Sale.PurchasedKeepsLedger | src/lib.rs:111-120 | After a purchase, every sale is still audited by the ledger. |
| Sale.PurchasedKeepsRecords | src/lib.rs:111-120 | After a purchase within the inventory, every record is still well formed under its own id, and every ledger entry still belongs to a stored sale. |
| Sale.PurchasedAudits | src/lib.rs:111-120 | A purchase keeps each sale's books balanced against its record: deposits, payments and deliveries match the inventory and both totals. |
| Sale.AuditedAfterPurchase | src/lib.rs:111-119 | The payment received and the units delivered are reflected one for one in total_raised and total_sold. |
| Sale.Payout | src/lib.rs:135-152 | Every transfer made at redemption is for this sale, goes to its owner and is positive. Each one is either proceeds in the payment token or leftover in the sale token. |
| Sale.PayoutMoves | src/lib.rs:135-152 | Over the whole payout the owner receives exactly total_raised (in the payment token) and exactly amount - total_sold, and nothing else. The tokens of the two transfers are stated by Sale.Payout. |
| Sale.Redeem | src/lib.rs:128-156 | Fails with NotActive when paused and with MissingRecord for an unknown id. Fails with LaunchpadNotEnded unless end_time < now, and with AlreadyRedeemed once redeemed. Succeeds exactly otherwise. On success the record is marked redeemed, the payout is appended, and no mapper besides `launchpads` changes. |
| Sale.Closed | src/lib.rs:135-155 | Closing a sale: its record is marked redeemed and no other record changes. The ledger's proceeds for the sale grow by total_raised and its leftover by amount - total_sold; every other total is unchanged. No other mapper changes. |
| Sale.RedeemPreservesInv | src/lib.rs:144-155 | A successful redemption keeps the invariant. The inventory invariant guarantees that `amount - total_sold` does not underflow. |
| Sale.ClosedKeepsInv | src/lib.rs:135-155 | Marking a stored, unredeemed record redeemed and paying its owner keeps the invariant. |
| Sale.ClosedKeepsLedger | src/lib.rs:135-155 | After redemption, every sale is still audited by the ledger. |
| Sale.ClosedKeepsRecords | src/lib.rs:135-155 | After redemption every record is still well formed under its own id, and every ledger entry still belongs to a stored sale. |
| Sale.ClosedAudits | src/lib.rs:135-155 | A redemption keeps each sale's books balanced against its record. |
| Sale.RedeemExactlyOnce | src/lib.rs:132-155 | After a successful redemption, every later redemption of the same id fails, and with AlreadyRedeemed when the contract is active and the clock has not gone back. |
| Sale.NewLaunchpadKeepsSettled | src/lib.rs:57-76 | A creation leaves every already-redeemed sale paid out. |
| Sale.BuyKeepsSettled | src/lib.rs:84-124 | If `is_active` closes at the end time and the clock never goes back, a purchase is never accepted for a redeemed sale. Redeemed sales stay paid out. |
| Sale.PurchasedKeepsSettled | src/lib.rs:111-124 | A purchase in a sale that is not redeemed leaves every redeemed sale paid out. |
| Sale.RedeemKeepsSettled | src/lib.rs:128-155 | A redemption leaves the redeemed sale, and every other redeemed sale, paid out exactly. |
| Sale.Step | src/lib.rs:29-156 | Every endpoint call keeps the storage invariant, whether it succeeds or fails. |
| Sale.Run | src/lib.rs:29-156 | Any sequence of endpoint calls keeps the storage invariant. |
| Sale.StepKeepsSettled | src/lib.rs:29-156 | One call at a non-decreasing time keeps redeemed sales paid out. |
| Sale.RunKeepsSettled | src/lib.rs:29-156 | Any chronological run keeps redeemed sales paid out, by induction on the calls. |
| Sale.Conservation | src/lib.rs:111-152 | From a fresh deployment, over any chronological run, when `is_active` closes at the end time: no sale ever pays out more of its token than was deposited, or more of the payment token than it took in. Before redemption, nothing has been paid to the owner. After redemption, every deposited unit has been delivered or returned, and every payment has been passed on. |
| Sale.BuyAfterRedeemOverpays | src/lib.rs:84-124 | If `is_active` lets a purchase through after redemption, the sale's deliveries plus leftover exceed its deposit by exactly the units sold. |
| Sale.LateBuyAccepted | src/lib.rs:88 | With an `is_active` that ignores the end time, that situation is reachable: create, redeem after the end, then a purchase of 5 units is accepted. |
| Contract.LaunchpadContract.constructor | src/lib.rs:13-22 | `init` stores both DAO addresses and leaves the contract Inactive. The storage is empty, and the owner is the deployer. |
| Contract.LaunchpadContract.Upgrade | src/lib.rs:24-27 | `upgrade` sets the state to Inactive and keeps the owner, the template DAO and all sale storage. |
| Contract.LaunchpadContract.NewLaunchpad | src/lib.rs:29-79 | Returns the id and the storage that Sale.NewLaunchpad computes from the old storage. On failure: returns the same error and the storage is unchanged. Keeps the invariant. |
| Contract.LaunchpadContract.Install | src/lib.rs:57-76 | The writes of an accepted `newLaunchpad` leave the storage Sale.Launched describes. |
| Contract.LaunchpadContract.Buy | src/lib.rs:81-125 | The storage after the call is what Sale.Buy computes. On failure: the same error and unchanged storage (all checks precede all writes). Keeps the invariant. |
| Contract.LaunchpadContract.CheckPurchase | src/lib.rs:84-109 | The checks of `buy` raise the error Sale.Buy raises. When they pass, the allocation fits the quota and the inventory, and Sale.Buy's result is the purchase of that allocation. |
| Contract.LaunchpadContract.Record | src/lib.rs:111-124 | The writes of an accepted `buy` leave the storage Sale.Purchased describes. |
| Contract.LaunchpadContract.RecordSale | src/lib.rs:111-120 | The payment comes in, the units go out, and total_raised and total_sold of the record grow by them. |
| Contract.LaunchpadContract.RecordBuyer | src/lib.rs:122-124 | The caller's participation grows by the allocation. The caller and the sale enter each other's membership set. |
| Contract.LaunchpadContract.Redeem | src/lib.rs:127-156 | The storage after the call is what Sale.Redeem computes. On failure: the same error and unchanged storage. Keeps the invariant. |
| Contract.LaunchpadContract.PayOwner | src/lib.rs:135-152 | The transfers of `redeem` append exactly Sale.Payout to the ledger. |

## Left out

- Token transfers (`send().direct_esdt`, the incoming `single_esdt` payment) are not executed. They are recorded as entries of a ghost ledger, with the same recipient, token and amount. Nonces are always 0 and are not modelled.
- The block timestamp, the caller and the attached payment are host reads. They are parameters of each operation.
- `Launchpad::is_active`, the constant `ONE` and the governance check `only_dao` are defined outside these files. They are kept opaque: a function-valued parameter, a natural-number parameter and a boolean verdict.
- Error messages are tags of `Common.Error`, not byte strings.
- The `title` buffer is opaque metadata, modelled as a string.
- Storage encoding, ABI and attribute plumbing are not modelled.
- `last_launchpad_id` and the timestamps are `u64` in the source and `nat` here. Wrap-around of `last_launchpad_id + 1` after 2^64 - 1 sales is not modelled.
- `main_dao` is stored by `init` and never read by src/lib.rs or src/common/config.rs. It is a field, and no property is stated about it.
- The owner of a deployed contract is fixed by the host. `upgrade` can only be called by the owner, so its internal call of `set_state_inactive` always passes the owner check.
- `token_launchpad_id` is checked by `newLaunchpad` but never written by any endpoint of src/lib.rs or src/common/config.rs. No uniqueness of sale tokens is claimed.
- `whitelisted_users` is read by `buy` but never written by any endpoint of src/lib.rs or src/common/config.rs.
- Cancelling a sale, topping up its inventory, adding to the whitelist, list views and deployment of DAO templates are not endpoints of src/lib.rs or src/common/config.rs and are not modelled.
- A `redeem` of an id with no record fails when the empty storage entry is decoded. The source names no error for this, so it is modelled as the tag `MissingRecord`.
- Sale.Conservation: stated only under the hypothesis `ClosesAtEnd` (no purchase is admitted after a sale's end time), because the body of `is_active` is not part of this model. Without the hypothesis the books can fail, as Sale.BuyAfterRedeemOverpays and Sale.LateBuyAccepted show.
- Deposits are recorded in the ledger with the sale owner as the party, because `newLaunchpad` does not read its caller and the model does not take one.
- Behaviour of the code worth knowing:
  - sale ids start at 1 (`last_launchpad_id + 1`);
  - the inventory is deposited with the creation call;
  - `redeem` is not restricted to the owner;
  - `is_active` is not given a definition.
