/** The pallet's unit-test scenarios, each run on a fresh pallet whose genesis
    gives accounts 0, 1 and 2 a free balance of 100, with a deposit
    (`ReserveValue`) of 1 and an existential deposit of 1. The DNA and
    selectors `random_value` would produce are parameters: every scenario
    holds whatever they are. */
module KittiesTests {
  import opened KittyTypes
  import opened Currency
  import opened Genetics
  import opened Kitties

  const RESERVE_VALUE: Balance := 1
  const EXISTENTIAL_DEPOSIT: Balance := 1
  const GENESIS: Ledger := Ledger(map[0 := 100, 1 := 100, 2 := 100], map[], EXISTENTIAL_DEPOSIT)

  /** Account 0 creates a kitty: it pays the deposit out of its free balance,
      owns id 0, and the counter moves to 1. */
  method CreateKitties(dna: Dna) returns (r: DispatchResult, free0: Balance, owner0: AccountId,
                                          count: Option<KittyIndex>)
    ensures r == Ok && free0 == 99 && owner0 == 0 && count == Some(1)
  {
    var p := new Pallet(RESERVE_VALUE, GENESIS);
    r := p.CreateKitty(0, dna);
    free0, owner0, count := FreeBalance(p.currency, 0), p.OwnerOf(0), p.kittiesCount;
  }

  /** A transfer succeeds once; repeated by the old owner it fails with
      `NotOwner`, and the kitty stays with the new owner. */
  method TransferKitties(dna: Dna) returns (first: DispatchResult, second: DispatchResult,
                                            owner0: AccountId, free1: Balance, free0: Balance)
    ensures first == Ok && second == Err(NotOwner) && owner0 == 1
    ensures free1 == 99 && free0 == 100
  {
    var p := new Pallet(RESERVE_VALUE, GENESIS);
    var created := p.CreateKitty(0, dna);
    first := p.Transfer(0, 1, 0);
    second := p.Transfer(0, 1, 0);
    owner0, free1, free0 := p.OwnerOf(0), FreeBalance(p.currency, 1), FreeBalance(p.currency, 0);
  }

  /** Account 1 creates ids 0 and 1; breeding a kitty with itself fails with
      `SameParentIndex`, breeding with the absent id 2 fails with
      `InvalidKittyIndex`, and breeding 0 with 1 gives id 2, owned by account
      1, with the crossover of the parents' DNA; the counter ends at 3. */
  method BreedKitties(dna0: Dna, dna1: Dna, selector: Dna)
    returns (same: DispatchResult, invalid: DispatchResult, bred: DispatchResult,
             owner2: AccountId, count: Option<KittyIndex>, child: Option<Dna>, free1: Balance)
    ensures same == Err(SameParentIndex) && invalid == Err(InvalidKittyIndex) && bred == Ok
    ensures owner2 == 1 && count == Some(3)
    ensures child == Some(Offspring(selector, dna0, dna1))
    ensures free1 == 98
  {
    var p := new Pallet(RESERVE_VALUE, GENESIS);
    var c0 := p.CreateKitty(1, dna0);
    var c1 := p.CreateKitty(1, dna1);
    same := p.BreedKitty(1, 0, 0, selector);
    invalid := p.BreedKitty(1, 0, 2, selector);
    bred := p.BreedKitty(1, 0, 1, selector);
    owner2, count, free1 := p.OwnerOf(2), p.kittiesCount, FreeBalance(p.currency, 1);
    child := if 2 in p.kitties then Some(p.kitties[2]) else None;
  }

  /** The owner lists its kitty; listing a kitty one does not own fails with
      `NotOwner`. */
  method SellKitties(dna0: Dna, dna1: Dna) returns (listed: DispatchResult, price0: Balance,
                                                    refused: DispatchResult)
    ensures listed == Ok && price0 == 1 && refused == Err(NotOwner)
  {
    var p := new Pallet(RESERVE_VALUE, GENESIS);
    var c0 := p.CreateKitty(0, dna0);
    var c1 := p.CreateKitty(1, dna1);
    listed := p.SellKitties(0, 0, 1);
    price0 := p.Price(0);
    refused := p.SellKitties(1, 2, 1);
  }

  /** The set-up of the purchase scenario: account 1 creates ids 0 and 1 and
      lists them at 1000 and 1. */
  method ListTwoKitties(dna0: Dna, dna1: Dna) returns (p: Pallet)
    ensures fresh(p) && p.reserveValue == RESERVE_VALUE
    ensures p.currency.existentialDeposit == EXISTENTIAL_DEPOSIT
    ensures p.OwnerOf(0) == 1 && p.OwnerOf(1) == 1
    ensures p.Price(0) == 1000 && p.Price(1) == 1
    ensures FreeBalance(p.currency, 1) == 98 && ReservedBalance(p.currency, 1) == 2
    ensures FreeBalance(p.currency, 2) == 100
  {
    p := new Pallet(RESERVE_VALUE, GENESIS);
    var c0 := p.CreateKitty(1, dna0);
    var c1 := p.CreateKitty(1, dna1);
    var l0 := p.SellKitties(1, 0, 1000);
    var l1 := p.SellKitties(1, 1, 1);
  }

  /** Account 2, with 100 free, cannot buy id 0 (100 is not more than 1000)
      but buys id 1: it pays 1 to account 1, which also gets its deposit back,
      and the listing is gone. */
  method BuyKitties(dna0: Dna, dna1: Dna)
    returns (tooPoor: DispatchResult, bought: DispatchResult, owner1: AccountId,
             price0: Balance, price1: Balance, free1: Balance, free2: Balance)
    ensures tooPoor == Err(NotsufficientValue) && bought == Ok
    ensures owner1 == 2 && price0 == 1000 && price1 == 0
    ensures free1 == 100 && free2 == 99
  {
    var p := ListTwoKitties(dna0, dna1);
    tooPoor := p.BuyKitties(2, 0);
    bought := p.BuyKitties(2, 1);
    owner1, price0, price1 := p.OwnerOf(1), p.Price(0), p.Price(1);
    free1, free2 := FreeBalance(p.currency, 1), FreeBalance(p.currency, 2);
  }

  /** A listing survives a transfer, and the purchase pays whoever owns the
      kitty when it is bought, not whoever listed it. */
  method ListingSurvivesTransfer(dna: Dna)
    returns (priceAfterTransfer: Balance, bought: DispatchResult, free0: Balance, free1: Balance)
    ensures priceAfterTransfer == 10 && bought == Ok
    ensures free0 == 110 && free1 == 100
  {
    var p := new Pallet(RESERVE_VALUE, GENESIS);
    var c := p.CreateKitty(1, dna);
    var l := p.SellKitties(1, 0, 10);
    var t := p.Transfer(1, 0, 0);
    priceAfterTransfer := p.Price(0);
    bought := p.BuyKitties(2, 0);
    free0, free1 := FreeBalance(p.currency, 0), FreeBalance(p.currency, 1);
  }

  /** Owner lookups fall back to the default account 0, so account 0 passes
      the owner check for an id with no `Owner` entry: it can list id 7 and transfer
      it, which leaves an `Owner` entry with no kitty behind it. */
  method DefaultAccountOwnsUncreated() returns (listed: DispatchResult, moved: DispatchResult,
                                                owner7: AccountId, hasOwnerEntry: bool,
                                                hasKitty: bool)
    ensures listed == Ok && moved == Ok && owner7 == 1
    ensures hasOwnerEntry && !hasKitty
  {
    var p := new Pallet(RESERVE_VALUE, GENESIS);
    listed := p.SellKitties(0, 7, 5);
    moved := p.Transfer(0, 1, 7);
    owner7, hasOwnerEntry, hasKitty := p.OwnerOf(7), 7 in p.owner, 7 in p.kitties;
  }
}
