/**
 * The append-only ledger the cart and admin endpoints write: gold, potion,
 * millilitre and capacity records, the carts with their items, and the
 * read-only `potion_index` price list the checkout joins against.
 */
module LedgerStore {
  import opened Wrappers

  /** One `potion_records` row: a signed change to a sku's stock. */
  datatype PotionRecord = PotionRecord(sku: string, qtyChange: int)

  /** One `ml_records` row: signed changes to the four colours. */
  datatype MlRecord = MlRecord(red: int, green: int, blue: int, dark: int)

  /** One `capacity_records` row: capacity units granted. */
  datatype CapacityRecord = CapacityRecord(potionUnits: int, mlUnits: int)

  /** One `carts` row. */
  datatype Cart = Cart(id: int, customerName: string, customerClass: string, level: int)

  /** One `cart_items` row; `(cartId, sku)` is its key. */
  datatype CartItem = CartItem(cartId: int, sku: string, quantity: int)

  /**
   * The abstract value of the ledger. A gold record is None when the
   * inserted `change_in_gold` is NULL; `nextCartId` stands for the id
   * sequence of `carts`.
   */
  datatype LedgerState = LedgerState(
    goldRecords: seq<Option<int>>,
    potionRecords: seq<PotionRecord>,
    mlRecords: seq<MlRecord>,
    capacityRecords: seq<CapacityRecord>,
    carts: seq<Cart>,
    cartItems: seq<CartItem>,
    potionIndex: map<string, int>,
    nextCartId: int)

  /** The quantity stored under key `(cartId, sku)`, if there is a row for it. */
  function Lookup(items: seq<CartItem>, cartId: int, sku: string): Option<int>
  {
    if items == [] then None
    else if items[0].cartId == cartId && items[0].sku == sku then Some(items[0].quantity)
    else Lookup(items[1..], cartId, sku)
  }

  /** No two `cart_items` rows share a key (the table's unique constraint). */
  predicate KeysUnique(items: seq<CartItem>)
  {
    items == [] ||
    (Lookup(items[1..], items[0].cartId, items[0].sku).None? && KeysUnique(items[1..]))
  }

  /** Cart ids are distinct and below the next id the sequence hands out. */
  predicate CartIdsIssued(carts: seq<Cart>, nextCartId: int)
  {
    (forall k :: 0 <= k < |carts| ==> carts[k].id < nextCartId) &&
    (forall i, j :: 0 <= i < j < |carts| ==> carts[i].id != carts[j].id)
  }

  /** What the database's constraints keep true of the ledger. */
  predicate WellFormed(s: LedgerState)
  {
    KeysUnique(s.cartItems) && CartIdsIssued(s.carts, s.nextCartId)
  }

  /** `SUM(change_in_gold)` over the gold ledger: NULL rows add nothing, no rows give 0. */
  function LedgerGold(records: seq<Option<int>>): int
  {
    if records == [] then 0
    else LedgerGold(records[..|records| - 1]) + records[|records| - 1].GetOr(0)
  }

  /** `SUM(qty_change)` over potion records. */
  function StockChange(records: seq<PotionRecord>): int
  {
    if records == [] then 0 else records[0].qtyChange + StockChange(records[1..])
  }

  /** The potion stock change of two record runs is the sum of theirs. */
  lemma {:induction false} StockChangeSplits(a: seq<PotionRecord>, b: seq<PotionRecord>)
    ensures StockChange(a + b) == StockChange(a) + StockChange(b)
  {
    if a == [] {
      assert a + b == b;
    } else {
      assert (a + b)[1..] == a[1..] + b;
      StockChangeSplits(a[1..], b);
    }
  }

  /** The ledger tables, appended to and cleared in place. */
  class Ledger {
    var goldRecords: seq<Option<int>>
    var potionRecords: seq<PotionRecord>
    var mlRecords: seq<MlRecord>
    var capacityRecords: seq<CapacityRecord>
    var carts: seq<Cart>
    var cartItems: seq<CartItem>
    var potionIndex: map<string, int>
    var nextCartId: int

    constructor (s: LedgerState)
      ensures State() == s
    {
      goldRecords, potionRecords, mlRecords := s.goldRecords, s.potionRecords, s.mlRecords;
      capacityRecords, carts, cartItems := s.capacityRecords, s.carts, s.cartItems;
      potionIndex, nextCartId := s.potionIndex, s.nextCartId;
    }

    function State(): LedgerState
      reads this
    {
      LedgerState(goldRecords, potionRecords, mlRecords, capacityRecords,
                  carts, cartItems, potionIndex, nextCartId)
    }

    ghost predicate Valid()
      reads this
    {
      WellFormed(State())
    }
  }
}
