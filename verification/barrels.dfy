/**
 * The barrel endpoints: the delivery of purchased barrels and the daily
 * wholesale purchase plan.
 */
module Barrels {
  import opened InventoryStore
  import Inventory

  /** A wholesale barrel offer, or a delivered line of barrels. */
  datatype Barrel = Barrel(sku: string, mlPerBarrel: int, potionType: seq<int>, price: int, quantity: int)

  /** One line of a purchase plan. */
  datatype PurchaseIntent = PurchaseIntent(sku: string, quantity: int)

  const SMALL_GREEN_BARREL := "SMALL_GREEN_BARREL"
  /** A barrel is bought while fewer green potions than this are in stock. */
  const RESTOCK_THRESHOLD := 10

  /** The millilitres of a delivery: `ml_per_barrel * quantity` over every line. */
  function DeliveredMl(barrels: seq<Barrel>): int
  {
    if barrels == [] then 0
    else
      var last := barrels[|barrels| - 1];
      DeliveredMl(barrels[..|barrels| - 1]) + last.mlPerBarrel * last.quantity
  }

  /**
   * The price the delivery endpoint charges: `price * quantity` of the LAST
   * line only (the running total is overwritten on every line), 0 for none.
   */
  function LastLineCost(barrels: seq<Barrel>): (cost: int)
    ensures (forall k :: 0 <= k < |barrels| ==>
               barrels[k].price >= 0 && barrels[k].quantity >= 0) ==>
              0 <= cost <= DeliveredCost(barrels)
  {
    if barrels == [] then 0
    else barrels[|barrels| - 1].price * barrels[|barrels| - 1].quantity
  }

  /** What the delivery should cost: `price * quantity` over every line. */
  function DeliveredCost(barrels: seq<Barrel>): (cost: int)
    ensures (forall k :: 0 <= k < |barrels| ==>
               barrels[k].price >= 0 && barrels[k].quantity >= 0) ==> cost >= 0
  {
    if barrels == [] then 0
    else
      var last := barrels[|barrels| - 1];
      DeliveredCost(barrels[..|barrels| - 1]) + last.price * last.quantity
  }

  /** The endpoint's loop over the delivered lines. */
  method DeliveryTotals(barrels: seq<Barrel>) returns (totalMl: int, totalPrice: int)
    ensures totalMl == DeliveredMl(barrels)
    ensures totalPrice == LastLineCost(barrels)
  {
    totalMl, totalPrice := 0, 0;
    var i := 0;
    while i < |barrels|
      invariant 0 <= i <= |barrels|
      invariant totalMl == DeliveredMl(barrels[..i])
      invariant totalPrice == LastLineCost(barrels[..i])
    {
      assert barrels[..i + 1][..i] == barrels[..i];
      totalMl := totalMl + barrels[i].mlPerBarrel * barrels[i].quantity;
      totalPrice := barrels[i].price * barrels[i].quantity;
      i := i + 1;
    }
    assert barrels[..i] == barrels;
  }

  /** The row after a barrel delivery: all millilitres go to green, whatever the barrel's colour. */
  function ApplyBarrelDelivery(s: Snapshot, barrels: seq<Barrel>): (r: Snapshot)
    ensures r.greenMl - s.greenMl == DeliveredMl(barrels)
    ensures s.gold - r.gold == LastLineCost(barrels)
    ensures r.(greenMl := s.greenMl, gold := s.gold) == s
    ensures barrels == [] ==> r == s
  {
    s.(greenMl := s.greenMl + DeliveredMl(barrels), gold := s.gold - LastLineCost(barrels))
  }

  /** The delivery endpoint: the totals loop, then one `UPDATE global_inventory`. */
  method PostDeliverBarrels(inv: GlobalInventory, barrels: seq<Barrel>)
    modifies inv
    ensures inv.Current() == ApplyBarrelDelivery(old(inv.Current()), barrels)
  {
    var totalMl, totalPrice := DeliveryTotals(barrels);
    inv.greenMl := inv.greenMl + totalMl;
    inv.gold := inv.gold - totalPrice;
  }

  /** The wholesale plan: one small green barrel while green potions run low, whatever is on offer. */
  function WholesalePurchasePlan(catalog: seq<Barrel>, greenPotions: int): (plan: seq<PurchaseIntent>)
    ensures plan == [] <==> greenPotions >= RESTOCK_THRESHOLD
    ensures plan != [] ==> plan == [PurchaseIntent(SMALL_GREEN_BARREL, 1)]
  {
    if greenPotions < RESTOCK_THRESHOLD then [PurchaseIntent(SMALL_GREEN_BARREL, 1)] else []
  }

  /**
   * The plan reads nothing but the green potion count: not the catalog and
   * not the gold. With no gold and a catalog that offers no small green
   * barrel it still orders one.
   */
  lemma PlanIgnoresCatalogAndGold(s: Snapshot, catalog: seq<Barrel>)
    requires s.gold == 0 && s.greenPotions < RESTOCK_THRESHOLD
    requires forall k :: 0 <= k < |catalog| ==> catalog[k].sku != SMALL_GREEN_BARREL
    ensures WholesalePurchasePlan(catalog, s.greenPotions) == [PurchaseIntent(SMALL_GREEN_BARREL, 1)]
    ensures WholesalePurchasePlan([], 0) == [PurchaseIntent(SMALL_GREEN_BARREL, 1)]
  {
  }

  /** Millilitres of a delivery split in two add up to those of the whole. */
  lemma {:induction false} DeliveredMlSplits(a: seq<Barrel>, b: seq<Barrel>)
    ensures DeliveredMl(a + b) == DeliveredMl(a) + DeliveredMl(b)
  {
    if b != [] {
      var n := |b| - 1;
      assert (a + b)[..|a + b| - 1] == a + b[..n];
      assert (a + b)[|a + b| - 1] == b[n];
      DeliveredMlSplits(a, b[..n]);
    } else {
      assert a + b == a;
    }
  }

  /** After a barrel delivery the audit shows the delivered millilitres and the charged gold. */
  lemma AuditAfterBarrelDelivery(s: Snapshot, barrels: seq<Barrel>)
    ensures Inventory.Audit(ApplyBarrelDelivery(s, barrels)) ==
            Inventory.AuditReport(Sum(s.potionInventory),
                                  TotalMl(s) + DeliveredMl(barrels),
                                  s.gold - LastLineCost(barrels))
  {
  }

  /**
   * As written, the charge depends on how a delivery is split: two small
   * green barrels delivered together cost 100 gold, delivered one after
   * the other 200.
   */
  lemma WrittenDeliveryDependsOnSplit(s: Snapshot)
    ensures var b := Barrel(SMALL_GREEN_BARREL, 500, [0, 100, 0, 0], 100, 1);
            ApplyBarrelDelivery(s, [b, b]).gold == s.gold - 100 &&
            ApplyBarrelDelivery(ApplyBarrelDelivery(s, [b]), [b]).gold == s.gold - 200
  {
  }

  /** The delivery as evidently intended: every line's `price * quantity` is charged. */
  function ApplyChargedBarrelDelivery(s: Snapshot, barrels: seq<Barrel>): (r: Snapshot)
    ensures r.greenMl - s.greenMl == DeliveredMl(barrels)
    ensures s.gold - r.gold == DeliveredCost(barrels)
    ensures r.(greenMl := s.greenMl, gold := s.gold) == s
  {
    s.(greenMl := s.greenMl + DeliveredMl(barrels), gold := s.gold - DeliveredCost(barrels))
  }

  /** The intended charge does not depend on how a delivery is split. */
  lemma {:induction false} DeliveredCostSplits(a: seq<Barrel>, b: seq<Barrel>)
    ensures DeliveredCost(a + b) == DeliveredCost(a) + DeliveredCost(b)
  {
    if b != [] {
      var n := |b| - 1;
      assert (a + b)[..|a + b| - 1] == a + b[..n];
      assert (a + b)[|a + b| - 1] == b[n];
      DeliveredCostSplits(a, b[..n]);
    } else {
      assert a + b == a;
    }
  }

  /** Two intended deliveries in a row leave the row as their concatenation would. */
  lemma IntendedDeliverySplits(s: Snapshot, a: seq<Barrel>, b: seq<Barrel>)
    ensures ApplyChargedBarrelDelivery(ApplyChargedBarrelDelivery(s, a), b) ==
            ApplyChargedBarrelDelivery(s, a + b)
  {
    DeliveredMlSplits(a, b);
    DeliveredCostSplits(a, b);
  }

  /** On a delivery of one line the written and the intended charge agree. */
  lemma SingleLineChargesAgree(s: Snapshot, b: Barrel)
    ensures ApplyBarrelDelivery(s, [b]) == ApplyChargedBarrelDelivery(s, [b])
  {
    assert [b][..0] == [];
    assert DeliveredCost([b]) == b.price * b.quantity;
  }
}
