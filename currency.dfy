/** The reservable currency the pallet calls through `T::Currency`.
    Its implementation (pallet_balances) is not part of this model, so the
    ledger below states the rules the pallet relies on as explicit
    assumptions:
    - `reserve` succeeds exactly when the free balance covers the amount;
    - `unreserve` moves back to free at most what is reserved, and never fails;
    - a `KeepAlive` transfer succeeds exactly when the sender keeps at least
      the existential deposit as free balance afterwards. */
module Currency {
  import opened KittyTypes

  /** Free and reserved balance per account; an account without an entry has
      zero of each. */
  datatype Ledger = Ledger(
    free: map<AccountId, Balance>,
    reserved: map<AccountId, Balance>,
    existentialDeposit: Balance)

  function FreeBalance(l: Ledger, who: AccountId): Balance
  {
    if who in l.free then l.free[who] else 0
  }

  function ReservedBalance(l: Ledger, who: AccountId): Balance
  {
    if who in l.reserved then l.reserved[who] else 0
  }

  function TotalBalance(l: Ledger, who: AccountId): Balance
  {
    FreeBalance(l, who) + ReservedBalance(l, who)
  }

  /** Every account other than those in `touched` has the same free and
      reserved balance in `l` and `l'`, and the configuration is the same. */
  ghost predicate OthersUnchanged(l: Ledger, l': Ledger, touched: set<AccountId>)
  {
    && l'.existentialDeposit == l.existentialDeposit
    && forall a :: a !in touched ==>
         FreeBalance(l', a) == FreeBalance(l, a) && ReservedBalance(l', a) == ReservedBalance(l, a)
  }

  /** Two ledgers that no account can tell apart. */
  ghost predicate SameBalances(l: Ledger, l': Ledger)
  {
    OthersUnchanged(l, l', {})
  }

  function Min(a: nat, b: nat): nat
  {
    if a <= b then a else b
  }

  /** `reserve(who, amount)`: moves `amount` from free to reserved. */
  function Reserve(l: Ledger, who: AccountId, amount: Balance): (r: Option<Ledger>)
    ensures r.Some? <==> amount <= FreeBalance(l, who)
    ensures r.Some? ==>
      && FreeBalance(r.value, who) == FreeBalance(l, who) - amount
      && ReservedBalance(r.value, who) == ReservedBalance(l, who) + amount
      && OthersUnchanged(l, r.value, {who})
  {
    var f := FreeBalance(l, who);
    if amount <= f then
      Some(l.(free := l.free[who := f - amount],
              reserved := l.reserved[who := ReservedBalance(l, who) + amount]))
    else
      None
  }

  /** `unreserve(who, amount)`: moves up to `amount` of the reserved balance
      back to free; whatever is not reserved is simply not moved. */
  function Unreserve(l: Ledger, who: AccountId, amount: Balance): (r: Ledger)
    ensures ReservedBalance(r, who) == ReservedBalance(l, who) - Min(amount, ReservedBalance(l, who))
    ensures FreeBalance(r, who) == FreeBalance(l, who) + Min(amount, ReservedBalance(l, who))
    ensures OthersUnchanged(l, r, {who})
  {
    var moved := Min(amount, ReservedBalance(l, who));
    l.(free := l.free[who := FreeBalance(l, who) + moved],
       reserved := l.reserved[who := ReservedBalance(l, who) - moved])
  }

  /** `transfer(from, to, amount, KeepAlive)`: moves free balance from `from`
      to `to`, refusing when `from` would drop below the existential deposit.
      A transfer to oneself leaves every balance as it was. */
  function TransferKeepAlive(l: Ledger, from: AccountId, to: AccountId, amount: Balance): (r: Option<Ledger>)
    ensures r.Some? <==> amount + l.existentialDeposit <= FreeBalance(l, from)
    ensures r.Some? && from != to ==>
      && FreeBalance(r.value, from) == FreeBalance(l, from) - amount
      && FreeBalance(r.value, to) == FreeBalance(l, to) + amount
      && ReservedBalance(r.value, from) == ReservedBalance(l, from)
      && ReservedBalance(r.value, to) == ReservedBalance(l, to)
      && OthersUnchanged(l, r.value, {from, to})
    ensures r.Some? && from == to ==> SameBalances(l, r.value)
  {
    var f := FreeBalance(l, from);
    if amount + l.existentialDeposit <= f then
      var debited := l.(free := l.free[from := f - amount]);
      Some(debited.(free := debited.free[to := FreeBalance(debited, to) + amount]))
    else
      None
  }

  /** Reserving and then unreserving the same amount restores every balance. */
  lemma ReserveUnreserveRoundTrip(l: Ledger, who: AccountId, amount: Balance)
    requires amount <= FreeBalance(l, who)
    ensures Reserve(l, who, amount).Some?
    ensures SameBalances(Unreserve(Reserve(l, who, amount).value, who, amount), l)
  {
  }

  /** Reserving and unreserving only move money between an account's free and
      reserved balance: no account's total changes. */
  lemma ReservationsKeepTotals(l: Ledger, who: AccountId, amount: Balance, a: AccountId)
    ensures Reserve(l, who, amount).Some? ==>
      TotalBalance(Reserve(l, who, amount).value, a) == TotalBalance(l, a)
    ensures TotalBalance(Unreserve(l, who, amount), a) == TotalBalance(l, a)
  {
  }

  /** A successful transfer takes exactly `amount` from the sender's total and
      adds exactly `amount` to the receiver's. */
  lemma TransferMovesExactly(l: Ledger, from: AccountId, to: AccountId, amount: Balance)
    requires from != to
    requires TransferKeepAlive(l, from, to, amount).Some?
    ensures TotalBalance(TransferKeepAlive(l, from, to, amount).value, from) == TotalBalance(l, from) - amount
    ensures TotalBalance(TransferKeepAlive(l, from, to, amount).value, to) == TotalBalance(l, to) + amount
  {
  }
}
