/**
 The filler's wallet: the balances last read, what open reservations hold,
 and the fee reserve withheld from the native asset. A `Reservation` is a
 claim taken out of what is available and settled once, by being consumed
 or released.
 */
module Inventories {
  import opened Types
  import opened Machine

  /** Nothing is held: every reservation taken has been settled. */
  ghost predicate NothingHeld(reserved: Amounts) {
    forall asset :: asset in reserved ==> reserved[asset] == 0
  }

  ghost function Added(reserved: Amounts, amounts: Amounts): Amounts {
    map asset | asset in reserved.Keys + amounts.Keys :: Amount(reserved, asset) + Amount(amounts, asset)
  }

  class Inventory {
    var balances: Amounts
    var reserved: Amounts
    const native: Asset
    const feeReserve: nat

    constructor (native: Asset, feeReserve: nat)
      ensures balances == map[] && reserved == map[]
      ensures this.native == native && this.feeReserve == feeReserve
    {
      balances, reserved := map[], map[];
      this.native, this.feeReserve := native, feeReserve;
    }

    function Free(asset: Asset): int
      reads this
    {
      Max(Amount(balances, asset) - Amount(reserved, asset) - (if asset == native then feeReserve else 0), 0)
    }

    /** Every amount is positive and free to claim. */
    ghost predicate Affords(amounts: Amounts)
      reads this
    {
      forall asset :: asset in amounts ==> 0 < amounts[asset] <= Free(asset)
    }

    lemma AffordedIsFunded(c: Config, amounts: Amounts)
      requires NothingHeld(reserved) && c.native == native && c.feeReserve == feeReserve
      ensures Affords(amounts) ==> Funded(c, balances, amounts)
    {
    }

    /** A fresh chain read replaces every balance; claims against them stand. */
    method RecordBalances(read: Amounts)
      modifies `balances
      ensures balances == read
    {
      balances := read;
    }

    /**
     Claims `amounts`, or refuses and claims nothing. A claim is positive and
     within what is free, so no sum of claims ever passes the balance: the
     source's saturating addition does not saturate.
     */
    method Reserve(amounts: Amounts) returns (claim: Option<Reservation>)
      modifies `reserved
      ensures claim.Some? <==> old(Affords(amounts))
      ensures claim.None? ==> reserved == old(reserved)
      ensures claim.Some? ==>
        && fresh(claim.value) && claim.value.ledger == this && !claim.value.settled
        && claim.value.amounts == amounts
        && reserved == Added(old(reserved), amounts)
    {
      var unchecked := amounts.Keys;
      while unchecked != {}
        invariant unchecked <= amounts.Keys
        invariant forall asset :: asset in amounts.Keys - unchecked ==> 0 < amounts[asset] <= Free(asset)
        decreases unchecked
      {
        var asset :| asset in unchecked;
        if amounts[asset] <= 0 || amounts[asset] > Free(asset) {
          return None;
        }
        unchecked := unchecked - {asset};
      }
      var unclaimed := amounts.Keys;
      while unclaimed != {}
        invariant unclaimed <= amounts.Keys
        invariant reserved.Keys == old(reserved).Keys + (amounts.Keys - unclaimed)
        invariant forall asset :: asset in reserved ==>
          reserved[asset] == Amount(old(reserved), asset) + (if asset in unclaimed then 0 else Amount(amounts, asset))
        decreases unclaimed
      {
        var asset :| asset in unclaimed;
        reserved := reserved[asset := Amount(reserved, asset) + amounts[asset]];
        unclaimed := unclaimed - {asset};
      }
      assert reserved == Added(old(reserved), amounts);
      var taken := new Reservation(this, amounts);
      claim := Some(taken);
    }
  }

  /** Subtracts `amounts` from `held`, never below zero, key by key. */
  method Subtracted(held: Amounts, amounts: Amounts) returns (left: Amounts)
    ensures left == Spent(held, amounts)
  {
    left := held;
    var rest := amounts.Keys;
    while rest != {}
      invariant rest <= amounts.Keys && left.Keys == held.Keys
      invariant forall asset :: asset in held ==>
        left[asset] == if asset in amounts && asset !in rest then Max(held[asset] - amounts[asset], 0) else held[asset]
      decreases rest
    {
      var asset :| asset in rest;
      if asset in left {
        left := left[asset := Max(left[asset] - amounts[asset], 0)];
      }
      rest := rest - {asset};
    }
  }

  class Reservation {
    const ledger: Inventory
    const amounts: Amounts
    var settled: bool

    constructor (ledger: Inventory, amounts: Amounts)
      ensures this.ledger == ledger && this.amounts == amounts && !settled
    {
      this.ledger, this.amounts, settled := ledger, amounts, false;
    }

    /** The wallet paid. */
    method Consume()
      requires !settled
      modifies this, ledger`reserved, ledger`balances
      ensures settled
      ensures ledger.reserved == Spent(old(ledger.reserved), amounts)
      ensures ledger.balances == Spent(old(ledger.balances), amounts)
    {
      settled := true;
      ledger.reserved := Subtracted(ledger.reserved, amounts);
      ledger.balances := Subtracted(ledger.balances, amounts);
    }

    /** Nothing was spent. */
    method Release()
      requires !settled
      modifies this, ledger`reserved
      ensures settled
      ensures ledger.reserved == Spent(old(ledger.reserved), amounts)
    {
      settled := true;
      ledger.reserved := Subtracted(ledger.reserved, amounts);
    }
  }

  /** A claim settled leaves exactly what was held before it was taken. */
  lemma SettledClaimLeavesNothing(reserved: Amounts, amounts: Amounts)
    requires NothingHeld(reserved)
    ensures NothingHeld(Spent(Added(reserved, amounts), amounts))
  {
    var added := Added(reserved, amounts);
    forall asset | asset in Spent(added, amounts)
      ensures Spent(added, amounts)[asset] == 0
    {
      assert added[asset] == Amount(amounts, asset);
    }
  }
}
