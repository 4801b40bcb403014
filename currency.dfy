/**
  * The currency service the pallets call (`Currency` + `ReservableCurrency`), modelled as a
  * value: each account has a free and a reserved balance. The four primitives the pallets
  * use are `reserve`, `unreserve`, `transfer` and `slash_reserved`; the first three conserve
  * total issuance and `slash_reserved` destroys exactly the amount it reports.
  */
module Currency {
  import opened Frame
  import opened Sums

  datatype AccountData = AccountData(free: nat, reserved: nat)

  /** Balances of all accounts; an account absent from the map holds nothing. */
  type Balances = map<AccountId, AccountData>

  function Free(b: Balances, a: AccountId): nat
  {
    if a in b then b[a].free else 0
  }

  function Reserved(b: Balances, a: AccountId): nat
  {
    if a in b then b[a].reserved else 0
  }

  /** Everything an account owns, free or reserved. */
  function Holding(b: Balances, a: AccountId): nat
  {
    Free(b, a) + Reserved(b, a)
  }

  /** The sum of every account's holding. */
  ghost function TotalIssuance(b: Balances): nat
  {
    SumOf(b.Keys, a => Holding(b, a))
  }

  /** Moves `amount` from `who`'s free to its reserved balance; fails if the free balance is short. */
  function Reserve(b: Balances, who: AccountId, amount: nat): (r: Result<Balances, BalancesError>)
    ensures r.Success? <==> amount <= Free(b, who)
    ensures r.Success? ==> Free(r.value, who) == Free(b, who) - amount
    ensures r.Success? ==> Reserved(r.value, who) == Reserved(b, who) + amount
    ensures r.Success? ==> forall a :: a != who ==> Free(r.value, a) == Free(b, a) && Reserved(r.value, a) == Reserved(b, a)
  {
    if amount <= Free(b, who) then
      Success(b[who := AccountData(Free(b, who) - amount, Reserved(b, who) + amount)])
    else
      Failure(InsufficientBalance)
  }

  /**
    * Moves as much of `amount` as is reserved back to `who`'s free balance. Never fails; the
    * second component is the part of `amount` that was not reserved.
    */
  function Unreserve(b: Balances, who: AccountId, amount: nat): (r: (Balances, nat))
    ensures var moved := Min(amount, Reserved(b, who));
      && r.1 == amount - moved
      && Free(r.0, who) == Free(b, who) + moved
      && Reserved(r.0, who) == Reserved(b, who) - moved
    ensures forall a :: a != who ==> Free(r.0, a) == Free(b, a) && Reserved(r.0, a) == Reserved(b, a)
  {
    var moved := Min(amount, Reserved(b, who));
    (b[who := AccountData(Free(b, who) + moved, Reserved(b, who) - moved)], amount - moved)
  }

  /**
    * Moves `amount` of free balance from `source` to `dest`. A zero amount or a transfer to
    * oneself succeeds and changes nothing; otherwise it fails iff `source`'s free balance is short.
    */
  function Transfer(b: Balances, source: AccountId, dest: AccountId, amount: nat): (r: Result<Balances, BalancesError>)
    ensures r.Failure? <==> amount != 0 && source != dest && Free(b, source) < amount
    ensures r.Success? && (amount == 0 || source == dest) ==> r.value == b
    ensures r.Success? && source != dest ==>
      && Free(r.value, source) == Free(b, source) - amount
      && Free(r.value, dest) == Free(b, dest) + amount
    ensures r.Success? ==> forall a :: Reserved(r.value, a) == Reserved(b, a)
    ensures r.Success? ==> forall a :: a != source && a != dest ==> Free(r.value, a) == Free(b, a)
  {
    if amount == 0 || source == dest then
      Success(b)
    else if Free(b, source) < amount then
      Failure(InsufficientBalance)
    else
      var b' := b[source := AccountData(Free(b, source) - amount, Reserved(b, source))];
      Success(b'[dest := AccountData(Free(b', dest) + amount, Reserved(b', dest))])
  }

  /**
    * Removes up to `amount` from `who`'s reserved balance and destroys it; the second
    * component is the amount actually removed, which is never more than was reserved.
    */
  function SlashReserved(b: Balances, who: AccountId, amount: nat): (r: (Balances, nat))
    ensures r.1 == Min(amount, Reserved(b, who))
    ensures Reserved(r.0, who) == Reserved(b, who) - r.1 && Free(r.0, who) == Free(b, who)
    ensures forall a :: a != who ==> Free(r.0, a) == Free(b, a) && Reserved(r.0, a) == Reserved(b, a)
  {
    var taken := Min(amount, Reserved(b, who));
    (b[who := AccountData(Free(b, who), Reserved(b, who) - taken)], taken)
  }

  /** Overwriting one account changes total issuance by the difference of its holdings. */
  lemma IssuanceAfterUpdate(b: Balances, a: AccountId, d: AccountData)
    ensures TotalIssuance(b[a := d]) + Holding(b, a) == TotalIssuance(b) + d.free + d.reserved
  {
    var b' := b[a := d];
    var f := x => Holding(b, x);
    var g := x => Holding(b', x);
    SumOfAgree(b.Keys - {a}, f, g);
    assert b'.Keys - {a} == b.Keys - {a};
    SumOfRemove(b'.Keys, g, a);
    if a in b {
      SumOfRemove(b.Keys, f, a);
    } else {
      assert b.Keys - {a} == b.Keys;
    }
  }

  lemma ReserveConserves(b: Balances, who: AccountId, amount: nat)
    requires Reserve(b, who, amount).Success?
    ensures TotalIssuance(Reserve(b, who, amount).value) == TotalIssuance(b)
  {
    IssuanceAfterUpdate(b, who, AccountData(Free(b, who) - amount, Reserved(b, who) + amount));
  }

  lemma UnreserveConserves(b: Balances, who: AccountId, amount: nat)
    ensures TotalIssuance(Unreserve(b, who, amount).0) == TotalIssuance(b)
  {
    var moved := Min(amount, Reserved(b, who));
    IssuanceAfterUpdate(b, who, AccountData(Free(b, who) + moved, Reserved(b, who) - moved));
  }

  lemma TransferConserves(b: Balances, source: AccountId, dest: AccountId, amount: nat)
    requires Transfer(b, source, dest, amount).Success?
    ensures TotalIssuance(Transfer(b, source, dest, amount).value) == TotalIssuance(b)
  {
    if amount != 0 && source != dest {
      var b' := b[source := AccountData(Free(b, source) - amount, Reserved(b, source))];
      IssuanceAfterUpdate(b, source, AccountData(Free(b, source) - amount, Reserved(b, source)));
      IssuanceAfterUpdate(b', dest, AccountData(Free(b', dest) + amount, Reserved(b', dest)));
    }
  }

  /** Slashing destroys exactly the amount it reports, and that amount was reserved. */
  lemma SlashReservedBurns(b: Balances, who: AccountId, amount: nat)
    ensures var (b', taken) := SlashReserved(b, who, amount);
      && taken <= amount && taken <= Reserved(b, who)
      && TotalIssuance(b') + taken == TotalIssuance(b)
  {
    var taken := Min(amount, Reserved(b, who));
    IssuanceAfterUpdate(b, who, AccountData(Free(b, who), Reserved(b, who) - taken));
  }
}
