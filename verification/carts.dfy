/**
 * The cart endpoints: creating a cart, setting an item's quantity and
 * checking out, which books the sale in the potion and gold ledgers.
 */
module Carts {
  import opened Wrappers
  import opened LedgerStore

  /** The customer a cart is opened for. */
  datatype Customer = Customer(customerName: string, characterClass: string, level: int)

  /** What checkout returns; None where the SQL `SUM` is over no rows. */
  datatype CheckoutReceipt = CheckoutReceipt(totalPotionsBought: Option<int>, totalGoldPaid: Option<int>)

  // ---------------------------------------------------------------- create_cart

  /** The ledger after a new cart row is inserted with the next id. */
  function AddCart(s: LedgerState, customer: Customer): (r: LedgerState)
    ensures r.carts == s.carts + [Cart(s.nextCartId, customer.customerName, customer.characterClass, customer.level)]
    ensures r.nextCartId > s.nextCartId
    ensures r.(carts := s.carts, nextCartId := s.nextCartId) == s
  {
    s.(carts := s.carts + [Cart(s.nextCartId, customer.customerName, customer.characterClass, customer.level)],
       nextCartId := s.nextCartId + 1)
  }

  /** A new cart keeps the ledger well formed: its id is one no earlier cart has. */
  lemma AddCartKeepsWellFormed(s: LedgerState, customer: Customer)
    requires WellFormed(s)
    ensures WellFormed(AddCart(s, customer))
    ensures forall k :: 0 <= k < |s.carts| ==> s.carts[k].id != s.nextCartId
  {
  }

  method CreateCart(ledger: Ledger, customer: Customer) returns (cartId: int)
    requires ledger.Valid()
    modifies ledger
    ensures ledger.Valid()
    ensures cartId == old(ledger.nextCartId)
    ensures forall k :: 0 <= k < |old(ledger.carts)| ==> old(ledger.carts)[k].id != cartId
    ensures ledger.State() == AddCart(old(ledger.State()), customer)
  {
    AddCartKeepsWellFormed(ledger.State(), customer);
    cartId := ledger.nextCartId;
    ledger.carts := ledger.carts + [Cart(cartId, customer.customerName, customer.characterClass, customer.level)];
    ledger.nextCartId := ledger.nextCartId + 1;
  }

  // ---------------------------------------------------------- set_item_quantity

  /** `INSERT ... ON CONFLICT (cart_id, sku) DO UPDATE SET quantity`. */
  function Upsert(items: seq<CartItem>, cartId: int, sku: string, quantity: int): (r: seq<CartItem>)
    ensures CartItem(cartId, sku, quantity) in r
    ensures |items| <= |r| <= |items| + 1
  {
    if items == [] then [CartItem(cartId, sku, quantity)]
    else if items[0].cartId == cartId && items[0].sku == sku then [items[0].(quantity := quantity)] + items[1..]
    else [items[0]] + Upsert(items[1..], cartId, sku, quantity)
  }

  /** After the upsert the key holds the new quantity. */
  lemma {:induction false} UpsertSetsQuantity(items: seq<CartItem>, cartId: int, sku: string, quantity: int)
    ensures Lookup(Upsert(items, cartId, sku, quantity), cartId, sku) == Some(quantity)
  {
    if items != [] && !(items[0].cartId == cartId && items[0].sku == sku) {
      UpsertSetsQuantity(items[1..], cartId, sku, quantity);
    }
  }

  /** Every other key keeps what it had, row or no row. */
  lemma {:induction false} UpsertKeepsOthers(items: seq<CartItem>, cartId: int, sku: string, quantity: int,
                                             otherCart: int, otherSku: string)
    requires otherCart != cartId || otherSku != sku
    ensures Lookup(Upsert(items, cartId, sku, quantity), otherCart, otherSku) == Lookup(items, otherCart, otherSku)
  {
    if items != [] {
      var r := Upsert(items, cartId, sku, quantity);
      if items[0].cartId == cartId && items[0].sku == sku {
        assert r[1..] == items[1..];
      } else {
        assert r[1..] == Upsert(items[1..], cartId, sku, quantity);
        UpsertKeepsOthers(items[1..], cartId, sku, quantity, otherCart, otherSku);
      }
    }
  }

  /** An absent key is inserted as a new last row; a present one is overwritten in its row. */
  lemma {:induction false} UpsertInsertsOrOverwrites(items: seq<CartItem>, cartId: int, sku: string, quantity: int)
    ensures Lookup(items, cartId, sku).None? ==>
              Upsert(items, cartId, sku, quantity) == items + [CartItem(cartId, sku, quantity)]
    ensures Lookup(items, cartId, sku).Some? ==>
              |Upsert(items, cartId, sku, quantity)| == |items|
  {
    if items != [] && !(items[0].cartId == cartId && items[0].sku == sku) {
      UpsertInsertsOrOverwrites(items[1..], cartId, sku, quantity);
      assert items == [items[0]] + items[1..];
    }
  }

  /** Setting the same quantity twice is the same as setting it once. */
  lemma {:induction false} UpsertIdempotent(items: seq<CartItem>, cartId: int, sku: string, quantity: int)
    ensures Upsert(Upsert(items, cartId, sku, quantity), cartId, sku, quantity) ==
            Upsert(items, cartId, sku, quantity)
  {
    if items != [] && !(items[0].cartId == cartId && items[0].sku == sku) {
      var r := Upsert(items, cartId, sku, quantity);
      assert r[1..] == Upsert(items[1..], cartId, sku, quantity);
      UpsertIdempotent(items[1..], cartId, sku, quantity);
    } else if items != [] {
      var r := Upsert(items, cartId, sku, quantity);
      assert r[1..] == items[1..];
    }
  }

  /** The upsert never creates a second row for a key. */
  lemma {:induction false} UpsertKeepsKeysUnique(items: seq<CartItem>, cartId: int, sku: string, quantity: int)
    requires KeysUnique(items)
    ensures KeysUnique(Upsert(items, cartId, sku, quantity))
  {
    var r := Upsert(items, cartId, sku, quantity);
    if items == [] {
      assert r[1..] == [];
    } else if items[0].cartId == cartId && items[0].sku == sku {
      assert r[1..] == items[1..];
    } else {
      assert r[1..] == Upsert(items[1..], cartId, sku, quantity);
      UpsertKeepsKeysUnique(items[1..], cartId, sku, quantity);
      UpsertKeepsOthers(items[1..], cartId, sku, quantity, items[0].cartId, items[0].sku);
    }
  }

  method SetItemQuantity(ledger: Ledger, cartId: int, sku: string, quantity: int)
    requires ledger.Valid()
    modifies ledger
    ensures ledger.Valid()
    ensures ledger.State() == old(ledger.State()).(cartItems := Upsert(old(ledger.cartItems), cartId, sku, quantity))
  {
    UpsertKeepsKeysUnique(ledger.cartItems, cartId, sku, quantity);
    ledger.cartItems := Upsert(ledger.cartItems, cartId, sku, quantity);
  }

  // ------------------------------------------------------------------- checkout

  /** `cart_items WHERE cart_id = :id`, in table order. */
  function CartLines(items: seq<CartItem>, cartId: int): (lines: seq<CartItem>)
    ensures |lines| <= |items|
    ensures forall it :: it in lines <==> it in items && it.cartId == cartId
  {
    if items == [] then []
    else (if items[0].cartId == cartId then [items[0]] else []) + CartLines(items[1..], cartId)
  }

  /** Setting an item in one cart leaves every other cart's lines as they were. */
  lemma {:induction false} UpsertKeepsOtherCarts(items: seq<CartItem>, cartId: int, sku: string, quantity: int,
                                                 otherCart: int)
    requires otherCart != cartId
    ensures CartLines(Upsert(items, cartId, sku, quantity), otherCart) == CartLines(items, otherCart)
  {
    if items != [] {
      var r := Upsert(items, cartId, sku, quantity);
      if items[0].cartId == cartId && items[0].sku == sku {
        assert r[1..] == items[1..];
      } else {
        assert r[1..] == Upsert(items[1..], cartId, sku, quantity);
        UpsertKeepsOtherCarts(items[1..], cartId, sku, quantity, otherCart);
      }
    } else {
      var r := Upsert(items, cartId, sku, quantity);
      assert r[1..] == [];
    }
  }

  /** `SELECT sku, quantity * -1`: one potion record per cart line. */
  function SaleRecords(lines: seq<CartItem>): (records: seq<PotionRecord>)
    ensures |records| == |lines|
    ensures forall k :: 0 <= k < |lines| ==>
              records[k].sku == lines[k].sku && records[k].qtyChange == -lines[k].quantity
  {
    if lines == [] then []
    else [PotionRecord(lines[0].sku, -lines[0].quantity)] + SaleRecords(lines[1..])
  }

  /** The quantities of the cart's lines added up. */
  function TotalQuantity(lines: seq<CartItem>): int
  {
    if lines == [] then 0 else lines[0].quantity + TotalQuantity(lines[1..])
  }

  /** `SUM(cart_items.quantity)`: NULL for a cart without lines. */
  function QuantitySum(lines: seq<CartItem>): (r: Option<int>)
    ensures r.None? <==> lines == []
  {
    if lines == [] then None else Some(TotalQuantity(lines))
  }

  /** The lines whose sku the price list knows: the rows of the join. */
  function KnownLines(lines: seq<CartItem>, index: map<string, int>): (known: seq<CartItem>)
    ensures forall it :: it in known <==> it in lines && it.sku in index
  {
    if lines == [] then []
    else (if lines[0].sku in index then [lines[0]] else []) + KnownLines(lines[1..], index)
  }

  /** `price * quantity` over the lines the price list knows; unknown skus earn nothing. */
  function Revenue(lines: seq<CartItem>, index: map<string, int>): (gold: int)
    ensures (forall k :: 0 <= k < |lines| ==> lines[k].sku !in index) ==> gold == 0
    ensures ((forall k :: 0 <= k < |lines| ==> lines[k].quantity >= 0) &&
             (forall sku :: sku in index ==> index[sku] >= 0)) ==> gold >= 0
  {
    if lines == [] then 0
    else (if lines[0].sku in index then index[lines[0].sku] * lines[0].quantity else 0)
         + Revenue(lines[1..], index)
  }

  /** `SUM(potion_index.price * cart_items.quantity)` over the join: NULL when it has no rows. */
  function GoldPaid(lines: seq<CartItem>, index: map<string, int>): (r: Option<int>)
    ensures r.None? <==> KnownLines(lines, index) == []
  {
    if KnownLines(lines, index) == [] then None else Some(Revenue(lines, index))
  }

  /** The gold a checkout earns is that of its known lines alone. */
  lemma {:induction false} RevenueCountsKnownLinesOnly(lines: seq<CartItem>, index: map<string, int>)
    ensures Revenue(lines, index) == Revenue(KnownLines(lines, index), index)
  {
    if lines != [] {
      RevenueCountsKnownLinesOnly(lines[1..], index);
      var known := KnownLines(lines, index);
      if lines[0].sku in index {
        assert known[0] == lines[0] && known[1..] == KnownLines(lines[1..], index);
      } else {
        assert known == KnownLines(lines[1..], index);
      }
    }
  }

  /** The potion records a checkout writes take out exactly the quantities it reports bought. */
  lemma {:induction false} SaleRecordsBalance(lines: seq<CartItem>)
    ensures StockChange(SaleRecords(lines)) == -TotalQuantity(lines)
  {
    if lines != [] {
      SaleRecordsBalance(lines[1..]);
      assert SaleRecords(lines)[1..] == SaleRecords(lines[1..]);
    }
  }

  /**
   * The ledger after a completed checkout: sale records and one gold record
   * appended, nothing removed. As written the endpoint never gets this far;
   * this is the transition its statements describe.
   */
  function ApplyCheckout(s: LedgerState, cartId: int): (r: LedgerState)
    ensures r.potionRecords == s.potionRecords + SaleRecords(CartLines(s.cartItems, cartId))
    ensures r.goldRecords == s.goldRecords + [GoldPaid(CartLines(s.cartItems, cartId), s.potionIndex)]
    ensures r.(potionRecords := s.potionRecords, goldRecords := s.goldRecords) == s
  {
    var lines := CartLines(s.cartItems, cartId);
    s.(potionRecords := s.potionRecords + SaleRecords(lines),
       goldRecords := s.goldRecords + [GoldPaid(lines, s.potionIndex)])
  }

  /** What checkout returns, read from the ledger it was applied to. */
  function ReceiptOf(s: LedgerState, cartId: int): (r: CheckoutReceipt)
    ensures r.totalPotionsBought == QuantitySum(CartLines(s.cartItems, cartId))
    ensures r.totalGoldPaid == ApplyCheckout(s, cartId).goldRecords[|s.goldRecords|]
  {
    var lines := CartLines(s.cartItems, cartId);
    CheckoutReceipt(QuantitySum(lines), GoldPaid(lines, s.potionIndex))
  }

  /** Why the checkout endpoint raises instead of completing. */
  datatype CheckoutError =
    | UnboundLocal(name: string)
    | UnboundParameters(names: set<string>)

  /** The bind parameters the checkout statement names: `:id` and `:cart_id`. */
  const CHECKOUT_PARAMETERS: set<string> := {"id", "cart_id"}

  /** The bind parameters the endpoint supplies with that statement. */
  const SUPPLIED_PARAMETERS: set<string> := {"cart_id"}

  /**
   * The checkout endpoint as its failure points run in order: first the log
   * line, which fails when it reads the result name before the name is
   * assigned (`logReadsResult`); then the statement, which fails when it
   * names a bind parameter that is not `supplied`; then the writes.
   */
  function CheckoutOutcome(s: LedgerState, cartId: int, logReadsResult: bool, supplied: set<string>)
    : (r: Result<(LedgerState, CheckoutReceipt), CheckoutError>)
    ensures logReadsResult ==> r == Failure(UnboundLocal("checkout"))
    ensures !logReadsResult && !(CHECKOUT_PARAMETERS <= supplied) ==>
              r == Failure(UnboundParameters(CHECKOUT_PARAMETERS - supplied))
    ensures r.Success? <==> !logReadsResult && CHECKOUT_PARAMETERS <= supplied
    ensures r.Success? ==> r.value == (ApplyCheckout(s, cartId), ReceiptOf(s, cartId))
  {
    if logReadsResult then Failure(UnboundLocal("checkout"))
    else if !(CHECKOUT_PARAMETERS <= supplied) then Failure(UnboundParameters(CHECKOUT_PARAMETERS - supplied))
    else Success((ApplyCheckout(s, cartId), ReceiptOf(s, cartId)))
  }

  /**
   * The checkout endpoint as written. Its log line reads `checkout`, which
   * is a local name of the function because the function assigns it at its
   * end; reading it first raises before the transaction opens, so the
   * ledger is never written (the method modifies nothing). Its outcome is
   * the failure `CheckoutOutcome` gives for that log line and the
   * parameters the endpoint supplies, whatever the ledger and the cart.
   */
  method Checkout(ledger: Ledger, cartId: int, payment: string)
    returns (outcome: Result<CheckoutReceipt, CheckoutError>)
    ensures outcome == Failure(UnboundLocal("checkout"))
    ensures CheckoutOutcome(ledger.State(), cartId, true, SUPPLIED_PARAMETERS) == Failure(outcome.error)
  {
    outcome := Failure(UnboundLocal("checkout"));
  }

  /** With the log line fixed, the statement still fails: `:id` is never supplied. */
  lemma UnboundIdAbortsCheckout(s: LedgerState, cartId: int)
    ensures CheckoutOutcome(s, cartId, false, SUPPLIED_PARAMETERS) == Failure(UnboundParameters({"id"}))
  {
    assert CHECKOUT_PARAMETERS - SUPPLIED_PARAMETERS == {"id"};
  }

  /**
   * The checkout as evidently intended: the log line after the result is
   * built and every bind parameter supplied.
   */
  method CheckoutCorrected(ledger: Ledger, cartId: int, payment: string) returns (receipt: CheckoutReceipt)
    requires ledger.Valid()
    modifies ledger
    ensures ledger.Valid()
    ensures ledger.State() == ApplyCheckout(old(ledger.State()), cartId)
    ensures receipt == ReceiptOf(old(ledger.State()), cartId)
  {
    var lines := CartLines(ledger.cartItems, cartId);
    var paid := GoldPaid(lines, ledger.potionIndex);
    ledger.potionRecords := ledger.potionRecords + SaleRecords(lines);
    ledger.goldRecords := ledger.goldRecords + [paid];
    var bought := QuantitySum(CartLines(ledger.cartItems, cartId));
    receipt := CheckoutReceipt(bought, paid);
  }

  /**
   * The corrected checkout completes, and its writes balance with its
   * receipt: the potion stock falls by the potions reported bought and the
   * ledger gold rises by the gold reported paid (a NULL counting as nothing).
   */
  lemma CorrectedCheckoutBooksSale(s: LedgerState, cartId: int)
    ensures CheckoutOutcome(s, cartId, false, CHECKOUT_PARAMETERS).Success?
    ensures var (after, receipt) := CheckoutOutcome(s, cartId, false, CHECKOUT_PARAMETERS).value;
            StockChange(after.potionRecords) == StockChange(s.potionRecords) - receipt.totalPotionsBought.GetOr(0) &&
            LedgerGold(after.goldRecords) == LedgerGold(s.goldRecords) + receipt.totalGoldPaid.GetOr(0)
  {
    CheckoutMatchesReceipt(s, cartId);
  }

  /**
   * Checkout balances the ledgers with its receipt: the potion stock falls
   * by the potions reported bought and the ledger gold rises by the gold
   * reported paid (a NULL counting as nothing).
   */
  lemma CheckoutMatchesReceipt(s: LedgerState, cartId: int)
    ensures StockChange(ApplyCheckout(s, cartId).potionRecords) ==
            StockChange(s.potionRecords) - ReceiptOf(s, cartId).totalPotionsBought.GetOr(0)
    ensures LedgerGold(ApplyCheckout(s, cartId).goldRecords) ==
            LedgerGold(s.goldRecords) + ReceiptOf(s, cartId).totalGoldPaid.GetOr(0)
  {
    var lines := CartLines(s.cartItems, cartId);
    StockChangeSplits(s.potionRecords, SaleRecords(lines));
    SaleRecordsBalance(lines);
    var after := ApplyCheckout(s, cartId).goldRecords;
    assert after[..|after| - 1] == s.goldRecords;
  }

  /** Cart lines are not removed, so a second completed checkout appends the same records again. */
  lemma CheckoutRepeats(s: LedgerState, cartId: int)
    ensures var sales := SaleRecords(CartLines(s.cartItems, cartId));
            var paid := GoldPaid(CartLines(s.cartItems, cartId), s.potionIndex);
            ApplyCheckout(ApplyCheckout(s, cartId), cartId) ==
            s.(potionRecords := s.potionRecords + sales + sales, goldRecords := s.goldRecords + [paid, paid])
  {
  }
}
