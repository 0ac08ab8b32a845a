/** The kitties pallet: its four storage items, the currency it reserves
    against, its event log, and the five dispatchables that change them. */
module Kitties {
  import opened KittyTypes
  import opened Currency
  import opened Genetics

  /** The number of kitties ever allocated, as `KittiesCount` records it
      (`None` before the first creation). */
  function CountOf(count: Option<KittyIndex>): nat
  {
    if count.None? then 0 else count.value
  }

  /** The storage invariant the dispatchables keep: `Kitties` has an entry
      exactly for the ids below the counter, and each of them has an `Owner`
      entry. (An `Owner` entry may exist without a kitty: see `Pallet.Transfer`.) */
  ghost predicate StoreInvariant(count: Option<KittyIndex>, kitties: map<KittyIndex, Dna>,
                                 owner: map<KittyIndex, AccountId>)
  {
    && (forall x: KittyIndex :: x in kitties <==> x < CountOf(count))
    && kitties.Keys <= owner.Keys
  }

  /** Under the invariant, a kitty that exists proves that the counter has been
      written, and lies below it. This is why `breed_kitty`'s fallback id 1 is
      never used once the invariant holds. */
  lemma ExistingKittyBelowCounter(count: Option<KittyIndex>, kitties: map<KittyIndex, Dna>,
                                  owner: map<KittyIndex, AccountId>, id: KittyIndex)
    requires StoreInvariant(count, kitties, owner)
    requires id in kitties
    ensures count.Some? && id < count.value
  {
  }

  /** Storing a kitty at the counter and advancing the counter by one keeps
      the invariant, and overwrites no existing kitty. */
  lemma AllocationKeepsInvariant(count: Option<KittyIndex>, kitties: map<KittyIndex, Dna>,
                                 owner: map<KittyIndex, AccountId>, dna: Dna, who: AccountId)
    requires StoreInvariant(count, kitties, owner)
    requires count != Some(KITTY_INDEX_MAX)
    ensures CountOf(count) !in kitties
    ensures CountOf(count) + 1 <= KITTY_INDEX_MAX
    ensures StoreInvariant(Some(CountOf(count) + 1), kitties[CountOf(count) := dna],
                           owner[CountOf(count) := who])
  {
  }

  class Pallet {
    /** `T::ReserveValue`: the deposit `create_kitty` and `transfer` reserve. */
    const reserveValue: Balance

    /** `KittiesCount`: the next id to allocate; `None` until the first kitty. */
    var kittiesCount: Option<KittyIndex>
    /** `Kitties`: the DNA of every kitty; a missing key reads as `None`. */
    var kitties: map<KittyIndex, Dna>
    /** `Owner`: a `ValueQuery` map; a missing key reads as the default account. */
    var owner: map<KittyIndex, AccountId>
    /** `KittiesTxPool`: asking prices; a missing key reads as 0, "not listed". */
    var kittiesTxPool: map<KittyIndex, Balance>
    /** The state of `T::Currency`. */
    var currency: Ledger
    /** Events deposited so far, oldest first. */
    var events: seq<Event>

    ghost predicate Valid()
      reads this
    {
      StoreInvariant(kittiesCount, kitties, owner)
    }

    /** Genesis: empty storage over the given balances. */
    constructor (reserveValue: Balance, genesis: Ledger)
      ensures Valid()
      ensures this.reserveValue == reserveValue && currency == genesis
      ensures kittiesCount == None && kitties == map[] && owner == map[]
      ensures kittiesTxPool == map[] && events == []
    {
      this.reserveValue := reserveValue;
      kittiesCount := None;
      kitties := map[];
      owner := map[];
      kittiesTxPool := map[];
      currency := genesis;
      events := [];
    }

    /** `Owner::get(id)`. */
    function OwnerOf(id: KittyIndex): AccountId
      reads this
    {
      if id in owner then owner[id] else DEFAULT_ACCOUNT
    }

    /** `kitties_tx_pool(id)`. */
    function Price(id: KittyIndex): Balance
      reads this
    {
      if id in kittiesTxPool then kittiesTxPool[id] else 0
    }

    /** `create_kitty`, called by `who`; `dna` is what `random_value(who)`
        returns for this call. The deposit is reserved before the counter is
        checked, so an overflow leaves the deposit reserved. */
    method CreateKitty(who: AccountId, dna: Dna) returns (r: DispatchResult)
      modifies this
      ensures r == Err(NotsufficientValue) <==> FreeBalance(old(currency), who) < reserveValue
      ensures r == Err(KittiesCountOverflow) <==>
        reserveValue <= FreeBalance(old(currency), who) && old(kittiesCount) == Some(KITTY_INDEX_MAX)
      ensures r.Ok? <==>
        reserveValue <= FreeBalance(old(currency), who) && old(kittiesCount) != Some(KITTY_INDEX_MAX)
      ensures r == Err(NotsufficientValue) ==> unchanged(this)
      ensures r == Err(KittiesCountOverflow) ==>
        && currency == Reserve(old(currency), who, reserveValue).value
        && kittiesCount == old(kittiesCount) && kitties == old(kitties) && owner == old(owner)
        && kittiesTxPool == old(kittiesTxPool) && events == old(events)
      ensures r.Ok? ==>
        var id := CountOf(old(kittiesCount));
        && kitties == old(kitties)[id := dna]
        && owner == old(owner)[id := who]
        && kittiesCount.Some? && kittiesCount.value == id + 1
        && currency == Reserve(old(currency), who, reserveValue).value
        && kittiesTxPool == old(kittiesTxPool)
        && events == old(events) + [KittyCreated(who, id)]
      ensures r.Ok? ==>
        && FreeBalance(currency, who) == FreeBalance(old(currency), who) - reserveValue
        && ReservedBalance(currency, who) == ReservedBalance(old(currency), who) + reserveValue
      ensures old(Valid()) ==> Valid()
      ensures old(Valid()) ==> forall x :: x in old(kitties) ==> x in kitties && kitties[x] == old(kitties)[x]
    {
      var reserved := Reserve(currency, who, reserveValue);
      if reserved.None? {
        return Err(NotsufficientValue);
      }
      currency := reserved.value;

      var kittyId: KittyIndex;
      match kittiesCount {
        case Some(id) =>
          if id == KITTY_INDEX_MAX {
            return Err(KittiesCountOverflow);
          }
          kittyId := id;
        case None =>
          kittyId := 0;
      }

      if old(Valid()) {
        AllocationKeepsInvariant(kittiesCount, kitties, owner, dna, who);
      }
      kitties := kitties[kittyId := dna];
      owner := owner[kittyId := who];
      kittiesCount := Some(kittyId + 1);
      events := events + [KittyCreated(who, kittyId)];
      return Ok;
    }

    /** `transfer`, called by `sender`: the new owner's deposit is reserved
        before the sender's is released. The sale pool is left alone, so a
        listing outlives the transfer. */
    method Transfer(sender: AccountId, newOwner: AccountId, kittyId: KittyIndex) returns (r: DispatchResult)
      modifies this
      ensures r == Err(NotOwner) <==> old(OwnerOf(kittyId)) != sender
      ensures r == Err(NotsufficientValue) <==>
        old(OwnerOf(kittyId)) == sender && FreeBalance(old(currency), newOwner) < reserveValue
      ensures r.Ok? <==>
        old(OwnerOf(kittyId)) == sender && reserveValue <= FreeBalance(old(currency), newOwner)
      ensures !r.Ok? ==> unchanged(this)
      ensures r.Ok? ==>
        && owner == old(owner)[kittyId := newOwner]
        && currency == Unreserve(Reserve(old(currency), newOwner, reserveValue).value, sender, reserveValue)
        && kittiesCount == old(kittiesCount) && kitties == old(kitties)
        && kittiesTxPool == old(kittiesTxPool)
        && events == old(events) + [KittyTransferred(sender, newOwner, kittyId)]
      ensures r.Ok? ==> OwnerOf(kittyId) == newOwner
      ensures r.Ok? && sender != newOwner ==>
        && FreeBalance(currency, newOwner) == FreeBalance(old(currency), newOwner) - reserveValue
        && ReservedBalance(currency, newOwner) == ReservedBalance(old(currency), newOwner) + reserveValue
        && FreeBalance(currency, sender) ==
             FreeBalance(old(currency), sender) + Min(reserveValue, ReservedBalance(old(currency), sender))
      ensures old(Valid()) ==> Valid()
    {
      if OwnerOf(kittyId) != sender {
        return Err(NotOwner);
      }
      var reserved := Reserve(currency, newOwner, reserveValue);
      if reserved.None? {
        return Err(NotsufficientValue);
      }
      currency := reserved.value;
      currency := Unreserve(currency, sender, reserveValue);
      owner := owner[kittyId := newOwner];
      events := events + [KittyTransferred(sender, newOwner, kittyId)];
      return Ok;
    }

    /** `breed_kitty`, called by `who`; `selector` is what `random_value(who)`
        returns for this call. No currency is reserved for the child. When the
        counter was never written the child gets id 1 (not 0). */
    method BreedKitty(who: AccountId, kitty1Id: KittyIndex, kitty2Id: KittyIndex, selector: Dna)
      returns (r: DispatchResult)
      modifies this
      ensures r == Err(SameParentIndex) <==> kitty1Id == kitty2Id
      ensures r == Err(InvalidKittyIndex) <==>
        kitty1Id != kitty2Id && (kitty1Id !in old(kitties) || kitty2Id !in old(kitties))
      ensures r == Err(KittiesCountOverflow) <==>
        && kitty1Id != kitty2Id && kitty1Id in old(kitties) && kitty2Id in old(kitties)
        && old(kittiesCount) == Some(KITTY_INDEX_MAX)
      ensures r.Ok? <==>
        && kitty1Id != kitty2Id && kitty1Id in old(kitties) && kitty2Id in old(kitties)
        && old(kittiesCount) != Some(KITTY_INDEX_MAX)
      ensures !r.Ok? ==> unchanged(this)
      ensures currency == old(currency)
      ensures r.Ok? ==>
        var id := if old(kittiesCount).None? then 1 else old(kittiesCount).value;
        && kitties == old(kitties)[id := Offspring(selector, old(kitties)[kitty1Id], old(kitties)[kitty2Id])]
        && owner == old(owner)[id := who]
        && kittiesCount.Some? && kittiesCount.value == id + 1
        && kittiesTxPool == old(kittiesTxPool)
        && events == old(events) + [KittyBred(who, id)]
      ensures old(Valid()) && r.Ok? ==> old(kittiesCount).Some?
      ensures old(Valid()) ==> Valid()
      ensures old(Valid()) ==> forall x :: x in old(kitties) ==> x in kitties && kitties[x] == old(kitties)[x]
    {
      if kitty1Id == kitty2Id {
        return Err(SameParentIndex);
      }
      if kitty1Id !in kitties || kitty2Id !in kitties {
        return Err(InvalidKittyIndex);
      }
      var dna1, dna2 := kitties[kitty1Id], kitties[kitty2Id];

      var kittyId: KittyIndex;
      match kittiesCount {
        case Some(id) =>
          if id == KITTY_INDEX_MAX {
            return Err(KittiesCountOverflow);
          }
          kittyId := id;
        case None =>
          kittyId := 1;
      }

      var newDna := Crossover(selector, dna1, dna2);
      if old(Valid()) {
        ExistingKittyBelowCounter(kittiesCount, kitties, owner, kitty1Id);
        AllocationKeepsInvariant(kittiesCount, kitties, owner, newDna, who);
      }
      kitties := kitties[kittyId := newDna];
      owner := owner[kittyId := who];
      kittiesCount := Some(kittyId + 1);
      events := events + [KittyBred(who, kittyId)];
      return Ok;
    }

    /** `sell_kitties`, called by `who`: list the kitty at `value`, which
        overwrites any earlier price. A price of 0 reads as "not listed". */
    method SellKitties(who: AccountId, kittyId: KittyIndex, value: Balance) returns (r: DispatchResult)
      modifies this
      ensures r.Ok? <==> old(OwnerOf(kittyId)) == who
      ensures !r.Ok? ==> r == Err(NotOwner) && unchanged(this)
      ensures r.Ok? ==>
        && kittiesTxPool == old(kittiesTxPool)[kittyId := value]
        && kittiesCount == old(kittiesCount) && kitties == old(kitties) && owner == old(owner)
        && currency == old(currency)
        && events == old(events) + [KittyListed(who, kittyId)]
      ensures r.Ok? ==> Price(kittyId) == value
      ensures old(Valid()) ==> Valid()
    {
      if OwnerOf(kittyId) != who {
        return Err(NotOwner);
      }
      kittiesTxPool := kittiesTxPool[kittyId := value];
      events := events + [KittyListed(who, kittyId)];
      return Ok;
    }

    /** `buy_kitties`, called by `who`: pay the asking price to whoever owns
        the kitty now, release that owner's deposit, delist the kitty and make
        `who` its owner. The buyer reserves no deposit. */
    method BuyKitties(who: AccountId, kittyId: KittyIndex) returns (r: DispatchResult)
      modifies this
      ensures r == Err(NotKittyID) <==> old(Price(kittyId)) == 0
      ensures old(Price(kittyId)) != 0 && FreeBalance(old(currency), who) <= old(Price(kittyId)) ==>
        r == Err(NotsufficientValue)
      ensures r.Ok? <==>
        && old(Price(kittyId)) != 0
        && old(Price(kittyId)) < FreeBalance(old(currency), who)
        && TransferKeepAlive(old(currency), who, old(OwnerOf(kittyId)), old(Price(kittyId))).Some?
      ensures r.Ok? || r == Err(NotKittyID) || r == Err(NotsufficientValue)
      ensures !r.Ok? ==> unchanged(this)
      ensures r.Ok? ==>
        var seller, price := old(OwnerOf(kittyId)), old(Price(kittyId));
        && currency == Unreserve(TransferKeepAlive(old(currency), who, seller, price).value, seller, reserveValue)
        && kittiesTxPool == old(kittiesTxPool) - {kittyId}
        && owner == old(owner)[kittyId := who]
        && kittiesCount == old(kittiesCount) && kitties == old(kitties)
        && events == old(events) + [KittyBought(who, kittyId)]
      ensures r.Ok? ==> OwnerOf(kittyId) == who && Price(kittyId) == 0
      ensures r.Ok? && who != old(OwnerOf(kittyId)) ==>
        var seller, price := old(OwnerOf(kittyId)), old(Price(kittyId));
        && FreeBalance(currency, who) == FreeBalance(old(currency), who) - price
        && FreeBalance(currency, seller) ==
             FreeBalance(old(currency), seller) + price + Min(reserveValue, ReservedBalance(old(currency), seller))
      ensures old(Valid()) ==> Valid()
    {
      var value := Price(kittyId);
      var seller := OwnerOf(kittyId);
      if value == 0 {
        return Err(NotKittyID);
      }
      if !(FreeBalance(currency, who) > value) {
        return Err(NotsufficientValue);
      }
      var paid := TransferKeepAlive(currency, who, seller, value);
      if paid.None? {
        return Err(NotsufficientValue);
      }
      currency := paid.value;
      currency := Unreserve(currency, seller, reserveValue);
      kittiesTxPool := kittiesTxPool - {kittyId};
      owner := owner[kittyId := who];
      events := events + [KittyBought(who, kittyId)];
      return Ok;
    }
  }
}
