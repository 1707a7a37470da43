/**
 * The inventory endpoints: the audit report, the daily capacity purchase
 * plan and the delivery of purchased capacity units.
 */
module Inventory {
  import opened InventoryStore

  /** Price of one capacity unit of either kind. */
  const UNIT_PRICE := 1000
  /** Potion slots per potion capacity unit. */
  const POTIONS_PER_UNIT := 50
  /** Millilitres per ml capacity unit. */
  const ML_PER_UNIT := 10000
  /** A potion unit is bought when fewer free slots than this, per unit owned, remain. */
  const POTION_THRESHOLD_PER_UNIT := 10
  /** An ml unit is bought when fewer free millilitres than this, per unit owned, remain. */
  const ML_THRESHOLD_PER_UNIT := 1000

  datatype AuditReport = AuditReport(numberOfPotions: int, mlInBarrels: int, gold: int)

  /** Both the plan returned by the planner and the purchase confirmed on delivery. */
  datatype CapacityPlan = CapacityPlan(potionCapacity: int, mlCapacity: int)

  /** The audit: potions counted in `potion_inventory`, all four ml counters, gold. */
  function Audit(s: Snapshot): (r: AuditReport)
    ensures r.gold == s.gold
    ensures r.mlInBarrels == s.redMl + s.greenMl + s.blueMl + s.darkMl
    ensures r.numberOfPotions == Sum(s.potionInventory)
    ensures s.potionInventory == [] ==> r.numberOfPotions == 0
    ensures (forall k :: 0 <= k < |s.potionInventory| ==> s.potionInventory[k] >= 0) ==>
              r.numberOfPotions >= 0
  {
    SumNonNegative(s.potionInventory);
    AuditReport(Sum(s.potionInventory), TotalMl(s), s.gold)
  }

  /** `potion_capacity * 50` minus the potions in `potion_inventory`. */
  function FreePotionSlots(s: Snapshot): int
  {
    s.potionCapacity * POTIONS_PER_UNIT - Sum(s.potionInventory)
  }

  /** `ml_capacity * 10000` minus the ml held in all four colours. */
  function FreeMl(s: Snapshot): int
  {
    s.mlCapacity * ML_PER_UNIT - TotalMl(s)
  }

  /** True when free potion slots have fallen below `potion_capacity * 10`. */
  predicate PotionsShort(s: Snapshot)
  {
    FreePotionSlots(s) < s.potionCapacity * POTION_THRESHOLD_PER_UNIT
  }

  /** True when free millilitres have fallen below `ml_capacity * 1000`. */
  predicate MlShort(s: Snapshot)
  {
    FreeMl(s) < s.mlCapacity * ML_THRESHOLD_PER_UNIT
  }

  /**
   * The capacity plan: at most one unit of each kind; the potion unit is
   * decided first and its price comes out of the gold the ml unit is then
   * judged against.
   */
  function CapacityPlanOf(s: Snapshot): (plan: CapacityPlan)
    ensures plan.potionCapacity == 0 || plan.potionCapacity == 1
    ensures plan.mlCapacity == 0 || plan.mlCapacity == 1
    ensures s.gold < UNIT_PRICE ==> plan == CapacityPlan(0, 0)
    ensures plan.potionCapacity == 1 <==> s.gold >= UNIT_PRICE && PotionsShort(s)
    ensures plan.mlCapacity == 1 <==>
              s.gold - UNIT_PRICE * plan.potionCapacity >= UNIT_PRICE && MlShort(s)
    ensures plan != CapacityPlan(0, 0) ==>
              UNIT_PRICE * (plan.potionCapacity + plan.mlCapacity) <= s.gold
  {
    var buyPotionUnit := s.gold >= UNIT_PRICE && PotionsShort(s);
    var goldLeft := if buyPotionUnit then s.gold - UNIT_PRICE else s.gold;
    var buyMlUnit := goldLeft >= UNIT_PRICE && MlShort(s);
    CapacityPlan(if buyPotionUnit then 1 else 0, if buyMlUnit then 1 else 0)
  }

  /** The planner as the endpoint runs it: a plan and a gold balance updated step by step. */
  method GetCapacityPlan(s: Snapshot) returns (plan: CapacityPlan)
    ensures plan == CapacityPlanOf(s)
  {
    plan := CapacityPlan(0, 0);
    var gold := s.gold;
    if gold >= UNIT_PRICE && FreePotionSlots(s) < s.potionCapacity * POTION_THRESHOLD_PER_UNIT {
      plan := plan.(potionCapacity := 1);
      gold := gold - UNIT_PRICE;
    }
    if gold >= UNIT_PRICE && FreeMl(s) < s.mlCapacity * ML_THRESHOLD_PER_UNIT {
      plan := plan.(mlCapacity := 1);
    }
  }

  /** The row after a capacity delivery: units added, 1000 gold per unit taken. */
  function ApplyCapacityDelivery(s: Snapshot, purchase: CapacityPlan): (r: Snapshot)
    ensures r.potionCapacity - s.potionCapacity == purchase.potionCapacity
    ensures r.mlCapacity - s.mlCapacity == purchase.mlCapacity
    ensures s.gold - r.gold == UNIT_PRICE * (purchase.potionCapacity + purchase.mlCapacity)
    ensures r.(potionCapacity := s.potionCapacity, mlCapacity := s.mlCapacity, gold := s.gold) == s
  {
    s.(potionCapacity := s.potionCapacity + purchase.potionCapacity,
       mlCapacity := s.mlCapacity + purchase.mlCapacity,
       gold := s.gold - (purchase.potionCapacity + purchase.mlCapacity) * UNIT_PRICE)
  }

  /** `UPDATE global_inventory` for a confirmed capacity purchase. */
  method DeliverCapacityPlan(inv: GlobalInventory, purchase: CapacityPlan)
    modifies inv
    ensures inv.Current() == ApplyCapacityDelivery(old(inv.Current()), purchase)
  {
    inv.potionCapacity := inv.potionCapacity + purchase.potionCapacity;
    inv.mlCapacity := inv.mlCapacity + purchase.mlCapacity;
    inv.gold := inv.gold - (purchase.potionCapacity + purchase.mlCapacity) * UNIT_PRICE;
  }

  /**
   * Delivering exactly the plan the planner proposed never drives a
   * non-negative gold balance negative, and never lowers either capacity.
   */
  lemma DeliveredPlanIsAffordable(s: Snapshot)
    requires s.gold >= 0
    ensures ApplyCapacityDelivery(s, CapacityPlanOf(s)).gold >= 0
    ensures ApplyCapacityDelivery(s, CapacityPlanOf(s)).potionCapacity >= s.potionCapacity
    ensures ApplyCapacityDelivery(s, CapacityPlanOf(s)).mlCapacity >= s.mlCapacity
  {
  }

  /** After a capacity delivery the audit differs only in gold, by the units' price. */
  lemma AuditAfterCapacityDelivery(s: Snapshot, purchase: CapacityPlan)
    ensures Audit(ApplyCapacityDelivery(s, purchase)) ==
            Audit(s).(gold := s.gold - UNIT_PRICE * (purchase.potionCapacity + purchase.mlCapacity))
  {
  }
}
