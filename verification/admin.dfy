/** The admin endpoint that resets the game state. */
module Admin {
  import opened Wrappers
  import opened LedgerStore
  import Carts

  /**
   * The row `INSERT INTO gold_records DEFAULT VALUES` adds. The column
   * default is not part of this model; the endpoint's own description
   * says gold goes to 100, so the default is taken to be 100.
   */
  const DEFAULT_GOLD_RECORD: Option<int> := Some(100)

  /**
   * The row `INSERT INTO capacity_records DEFAULT VALUES` adds: no units
   * granted beyond the baseline one of each kind.
   */
  const DEFAULT_CAPACITY_RECORD := CapacityRecord(0, 0)

  /** The ledger after a reset: records cleared and re-seeded, carts untouched. */
  function ResetOf(s: LedgerState): (r: LedgerState)
    ensures r.goldRecords == [DEFAULT_GOLD_RECORD]
    ensures r.capacityRecords == [DEFAULT_CAPACITY_RECORD]
    ensures r.potionRecords == [] && r.mlRecords == []
    ensures r.carts == s.carts && r.cartItems == s.cartItems
    ensures r.potionIndex == s.potionIndex && r.nextCartId == s.nextCartId
  {
    s.(goldRecords := [DEFAULT_GOLD_RECORD],
       capacityRecords := [DEFAULT_CAPACITY_RECORD],
       potionRecords := [],
       mlRecords := [])
  }

  method Reset(ledger: Ledger)
    modifies ledger
    ensures ledger.State() == ResetOf(old(ledger.State()))
    ensures ledger.Valid() == old(ledger.Valid())
  {
    ledger.goldRecords := [DEFAULT_GOLD_RECORD];
    ledger.capacityRecords := [DEFAULT_CAPACITY_RECORD];
    ledger.potionRecords := [];
    ledger.mlRecords := [];
  }

  /** Resetting twice is the same as resetting once. */
  lemma ResetIdempotent(s: LedgerState)
    ensures ResetOf(ResetOf(s)) == ResetOf(s)
  {
  }

  /** After a reset the ledger holds 100 gold and no potion stock. */
  lemma ResetLedgerTotals(s: LedgerState)
    ensures LedgerGold(ResetOf(s).goldRecords) == 100
    ensures StockChange(ResetOf(s).potionRecords) == 0
  {
    assert [DEFAULT_GOLD_RECORD][..0] == [];
  }

  /**
   * Despite its description, a reset leaves every cart and its items: a
   * cart checked out after a reset books the very sale it would have
   * booked before, into the emptied ledger.
   */
  lemma CheckoutAfterReset(s: LedgerState, cartId: int)
    ensures WellFormed(ResetOf(s)) == WellFormed(s)
    ensures Carts.ApplyCheckout(ResetOf(s), cartId).potionRecords ==
            Carts.SaleRecords(Carts.CartLines(s.cartItems, cartId))
    ensures Carts.ApplyCheckout(ResetOf(s), cartId).goldRecords ==
            [DEFAULT_GOLD_RECORD, Carts.GoldPaid(Carts.CartLines(s.cartItems, cartId), s.potionIndex)]
  {
  }
}
