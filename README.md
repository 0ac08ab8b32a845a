# Kitties pallet — a Dafny model

This project models the state-transition engine of the `kitties` FRAME pallet
(`pallets/kitties/src/lib.rs`). The pallet keeps a ledger of collectible
"kitties". Each kitty has an index and a 16-byte DNA. The pallet has four
storage items:

- the counter `KittiesCount`;
- the DNA map `Kitties`;
- the owner map `Owner`, a `ValueQuery`, so an id without an entry reads as the default account 0;
- the sale pool `KittiesTxPool`, where a price of 0 means "not listed".

It also uses a reservable currency and deposits events. The five dispatchables
are modelled as methods of the class `Kitties.Pallet`, which holds that storage
in fields and updates it in place:

- `create_kitty` → `CreateKitty`
- `transfer` → `Transfer`
- `breed_kitty` → `BreedKitty`
- `sell_kitties` → `SellKitties`
- `buy_kitties` → `BuyKitties`

Each method checks its guards in the source's order and then writes storage
in the source's order. Its postcondition states the full new state and which
error is returned exactly when.

Files:

- `types.dfy` (module `KittyTypes`): the index type, fixed to u32. It also holds accounts, balances, `Dna` (16 bytes), the pallet's `Error` variants under their own names, and the events.
- `currency.dfy` (module `Currency`): the reservable currency as an explicit ledger value. It has free and reserved balance per account and an existential deposit. The pallet relies on three rules, and the model states them as assumptions:
  - `reserve` succeeds exactly when the free balance covers the amount;
  - `unreserve` moves back at most the reserved amount and never fails;
  - a `KeepAlive` transfer succeeds exactly when the sender keeps at least the existential deposit.
- `genetics.dfy` (module `Genetics`): the crossover `breed_kitty` performs. `Crossover` is the loop that fills a zeroed 16-byte buffer. `Offspring` is the function that specifies it. The lemmas state the law bit by bit.
- `pallet.dfy` (module `Kitties`): the storage invariant and the `Pallet` class.
  - The invariant says `Kitties` has an entry exactly for the ids below the counter, and each such id has an `Owner` entry.
  - Every dispatchable keeps this invariant.
- `scenarios.dfy` (module `KittiesTests`): the pallet's unit tests as methods whose postconditions state the expected outcomes. Two extra scenarios cover listings that survive a transfer and the default-owner behaviour.
  - The genesis gives accounts 0, 1 and 2 a free balance of 100 each.
  - `ReserveValue` is 1 and the existential deposit is 1.

### Where the code departs from what one would expect (the model follows the code)

- **Reservation before the overflow check.** One would expect every check to come before any write. The code reserves the deposit in `create_kitty` (lib.rs:114) before it checks the counter (lib.rs:118). `CreateKitty` therefore returns `KittiesCountOverflow` with the deposit still reserved.
- **Owner entries without a kitty.** One would expect an owner record only for created kitties. Because `Owner` is a `ValueQuery`, account 0 passes the owner check for every id that has no `Owner` entry, which includes every id that no creation, breeding, transfer or purchase has written. It can list such an id, and it can transfer it, which writes an `Owner` entry with no kitty behind it (`KittiesTests.DefaultAccountOwnsUncreated`). The invariant the model proves is therefore one-directional: every kitty has an owner entry.
- **Breed's fallback id.** One would expect both allocators to start at zero. `breed_kitty` falls back to id 1 when the counter was never written (lib.rs:163), whereas `create_kitty` falls back to 0. Under the storage invariant breeding needs an existing kitty, so the counter is always set by then (`Kitties.ExistingKittyBelowCounter`).
- **Who must stay above the existential deposit.** One might expect the keep-alive floor to protect the seller. In the code, the `KeepAlive` transfer in `buy_kitties` is made from the buyer (lib.rs:204), so the floor applies to the buyer.
- **A listing outlives a transfer.** `transfer` never touches the sale pool (lib.rs:143), so a kitty stays listed at the price its previous owner set. `buy_kitties` then pays whoever owns the kitty at purchase time (lib.rs:199, lib.rs:204): the kitty can be sold at a price its current owner never set (`KittiesTests.ListingSurvivesTransfer`).

## Model

| member | source | states |
|---|---|---|
| `Currency.Reserve` | pallets/kitties/src/lib.rs:114 | reserving succeeds exactly when the free balance covers the amount; the amount then moves from free to reserved and no other account changes |
| `Currency.Unreserve` | pallets/kitties/src/lib.rs:142 | releasing moves `min(amount, reserved)` from reserved back to free and touches no other account |
| `Currency.TransferKeepAlive` | pallets/kitties/src/lib.rs:204 | a keep-alive transfer succeeds exactly when the sender keeps at least the existential deposit; it debits the sender and credits the receiver by exactly the amount, and a self-transfer changes nothing |
| `Currency.ReserveUnreserveRoundTrip` | pallets/kitties/src/lib.rs:141-142 | reserving a deposit and then releasing the same amount restores every account's balances |
| `Currency.ReservationsKeepTotals` | pallets/kitties/src/lib.rs:141-142 | reserving and releasing never change any account's total balance |
| `Currency.TransferMovesExactly` | pallets/kitties/src/lib.rs:204 | a successful payment lowers the buyer's total and raises the seller's total by exactly the price |
| `Genetics.MixByteBit` | pallets/kitties/src/lib.rs:173 | each bit of the mixed byte (sel AND a, OR, NOT sel AND b) is the bit of `a` where the selector bit is 1 and the bit of `b` otherwise |
| `Genetics.OffspringBits` | pallets/kitties/src/lib.rs:170-174 | for all 16 bytes and 8 bits, the child's bit comes from parent 1 where the selector bit is 1 and from parent 2 otherwise |
| `Genetics.IdenticalParents` | pallets/kitties/src/lib.rs:170-174 | parents with identical DNA yield a child with that same DNA, for every selector |
| `Genetics.ExtremeSelectors` | pallets/kitties/src/lib.rs:170-174 | an all-ones selector copies parent 1 and an all-zeros selector copies parent 2 |
| `Genetics.Crossover` | pallets/kitties/src/lib.rs:170-174 | the loop over a zeroed 16-byte buffer yields the byte-wise crossover, and so obeys the bit-level inheritance law |
| `Kitties.ExistingKittyBelowCounter` | pallets/kitties/src/lib.rs:154-165 | under the storage invariant an existing parent implies the counter is set and above the parent's id, so breed's fallback id is never used |
| `Kitties.AllocationKeepsInvariant` | pallets/kitties/src/lib.rs:128-130 | storing a kitty at the counter and advancing the counter by one overwrites no kitty and keeps "`Kitties[x]` exists iff x < counter" |
| `Kitties.Pallet.constructor` | pallets/kitties/src/lib.rs:57-74 | genesis storage is empty with the counter unset, which satisfies the storage invariant |
| `Kitties.Pallet.CreateKitty` | pallets/kitties/src/lib.rs:112-134 | fails `NotsufficientValue` with no change exactly when the deposit cannot be reserved; fails `KittiesCountOverflow` exactly when the counter is at the index maximum, with the deposit kept reserved; otherwise stores the DNA at the counter (0 if unset), owned by the caller, advances the counter by one, moves the deposit to reserved and logs `KittyCreated`; keeps the invariant and every existing kitty |
| `Kitties.Pallet.Transfer` | pallets/kitties/src/lib.rs:138-146 | fails `NotOwner` exactly when the caller is not `Owner::get(id)` (default account for an absent id); fails `NotsufficientValue` with no change when the new owner cannot reserve the deposit; otherwise reserves from the new owner, releases the sender's deposit, rewrites the owner and leaves the sale pool alone, so repeating the same call fails `NotOwner` whenever the new owner differs from the sender |
| `Kitties.Pallet.BreedKitty` | pallets/kitties/src/lib.rs:149-182 | `SameParentIndex` exactly for equal ids, before any existence check; `InvalidKittyIndex` exactly when a parent is absent; `KittiesCountOverflow` exactly at the index maximum; otherwise the child is the crossover of the parents' DNA, stored at the counter (1 if unset), owned by the caller, with the counter advanced by one; currency is never touched; keeps the invariant and every existing kitty |
| `Kitties.Pallet.SellKitties` | pallets/kitties/src/lib.rs:186-193 | fails `NotOwner` with no change unless the caller is `Owner::get(id)`; otherwise only the sale-pool entry changes, overwritten with the price, plus the `KittyListed` event |
| `Kitties.Pallet.BuyKitties` | pallets/kitties/src/lib.rs:196-212 | fails `NotKittyID` exactly when the price is 0; fails `NotsufficientValue` unless the buyer's free balance is strictly above the price and the keep-alive payment succeeds; otherwise the buyer pays exactly the price to the current owner, whose deposit is released, the listing is removed and the buyer becomes the owner |
| `KittiesTests.CreateKitties` | pallets/kitties/src/tests.rs:17-26 | creating from account 0 succeeds, leaves it 99 free, makes it owner of id 0 and sets the counter to 1 |
| `KittiesTests.TransferKitties` | pallets/kitties/src/tests.rs:29-38 | the first transfer succeeds, the repeated one fails `NotOwner`, and account 1 owns id 0 |
| `KittiesTests.BreedKitties` | pallets/kitties/src/tests.rs:42-58 | breeding (0,0) fails `SameParentIndex`, (0,2) fails `InvalidKittyIndex`, (0,1) yields id 2 owned by account 1 with the parents' crossover DNA, and the counter is 3 |
| `KittiesTests.SellKitties` | pallets/kitties/src/tests.rs:60-72 | the owner's listing stores price 1; listing an id one does not own fails `NotOwner` |
| `KittiesTests.ListTwoKitties` | pallets/kitties/src/tests.rs:79-83 | after account 1 creates two kitties and lists them at 1000 and 1, account 1 owns both, has 98 free and 2 reserved, and account 2 still has 100 free |
| `KittiesTests.BuyKitties` | pallets/kitties/src/tests.rs:75-88 | with 100 free, buying at 1000 fails `NotsufficientValue` and buying at 1 succeeds, delisting the kitty and paying the seller |
| `KittiesTests.ListingSurvivesTransfer` | pallets/kitties/src/lib.rs:196-208 | a listing outlives a transfer, and the purchase pays the owner at purchase time rather than the account that listed |
| `KittiesTests.DefaultAccountOwnsUncreated` | pallets/kitties/src/lib.rs:138-143 | account 0 passes the owner check for a never-created id, so it can list and transfer it, leaving an owner entry with no kitty |

## Left out

- `random_value` (lib.rs:217-224) hashes the runtime's random seed, the caller and the extrinsic index with blake2-128. That is foreign hashing and randomness. The 16 bytes it returns are a parameter of `CreateKitty` (the DNA) and of `BreedKitty` (the selector).
- `ensure_signed` origin checking: the caller is a plain account parameter.
- The implementation of `T::Currency` (pallet_balances) is not part of this model. The ledger states only the three rules above. It leaves out the existential-deposit rule for the receiving account, account reaping, and balance overflow (balances are unbounded).
- Storage rollback by the host after a failed dispatch is not modelled. Each method applies its writes in the source's order and stops at the first failure. Only `CreateKitty`'s overflow path has a write before the failure.
- `KittyIndex` is a generic unsigned type in the source. The model fixes it to u32 (maximum `0xFFFF_FFFF`).
- The genesis balances, deposit and existential deposit used by the scenarios are assumptions, because the test runtime's configuration is not part of this model.
- Events are an append-only sequence of tagged constructors. Their payload encoding, FRAME macros, storage hashers, SCALE encoding, weights and hooks are host code generation, not logic.
