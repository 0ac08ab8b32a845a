/** Shared types of the kitties pallet: indices, accounts, balances, DNA,
    the pallet's errors and events. */
module KittyTypes {

  /** `T::KittyIndex` is a generic unsigned index; the model fixes it to u32. */
  const KITTY_INDEX_MAX: nat := 0xFFFF_FFFF
  type KittyIndex = i: nat | i <= KITTY_INDEX_MAX

  /** Accounts; `AccountId::default()` is the account a `ValueQuery` owner
      lookup returns for an id that has no entry. */
  type AccountId = nat
  const DEFAULT_ACCOUNT: AccountId := 0

  /** Currency amounts (`BalanceOf<T>`). */
  type Balance = nat

  /** A kitty's genetic payload, `[u8; 16]`. */
  const DNA_LEN: nat := 16
  type Dna = s: seq<bv8> | |s| == DNA_LEN witness seq(16, _ => 0)

  datatype Option<T> = None | Some(value: T)

  /** The pallet's `Error<T>` variants, under their own names. */
  datatype Error =
    | KittiesCountOverflow
    | NotOwner
    | InvalidKittyIndex
    | SameParentIndex
    | NotsufficientValue
    | NotKittyID

  /** What a dispatchable returns. */
  datatype DispatchResult = Ok | Err(error: Error)

  /** The pallet's `Event<T>` variants, one constructor each:
      `CreateKitty` is `KittyCreated`, `TransferKitty` is `KittyTransferred`,
      `BreedKitty` is `KittyBred`, `BuyKittes` is `KittyBought` and
      `SellKitties` is `KittyListed` (renamed so that they do not clash with
      the dispatchables' method names). */
  datatype Event =
    | KittyCreated(who: AccountId, id: KittyIndex)
    | KittyTransferred(from: AccountId, to: AccountId, id: KittyIndex)
    | KittyBred(who: AccountId, id: KittyIndex)
    | KittyBought(who: AccountId, id: KittyIndex)
    | KittyListed(who: AccountId, id: KittyIndex)
}
