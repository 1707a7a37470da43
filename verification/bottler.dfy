/**
 * The bottler endpoints: the plan that turns green millilitres into green
 * potions, and the delivery that books the bottled potions.
 */
module Bottler {
  import opened Wrappers
  import opened InventoryStore
  import Inventory

  /** One line of a bottling plan or delivery: a colour mix and a count. */
  datatype PotionBatch = PotionBatch(potionType: seq<int>, quantity: int)

  /** The only mix the planner proposes: all green. */
  const GREEN_POTION_TYPE: seq<int> := [0, 100, 0, 0]
  /** Millilitres in one potion. */
  const ML_PER_POTION := 100

  /** `int(ml / 100)`: the quotient rounded toward zero, as Python's `int` does. */
  function MixablePotions(ml: int): (q: int)
    ensures ml >= 0 ==> 0 <= q && q * ML_PER_POTION <= ml < (q + 1) * ML_PER_POTION
    ensures ml < 0 ==> q <= 0
    ensures q > 0 <==> ml >= ML_PER_POTION
  {
    if ml >= 0 then ml / ML_PER_POTION else -((-ml) / ML_PER_POTION)
  }

  /** The bottling plan computed from the green millilitres on hand. */
  function BottlePlan(greenMl: int): (plan: seq<PotionBatch>)
    ensures |plan| <= 1
    ensures plan == [] <==> greenMl < ML_PER_POTION
    ensures forall k :: 0 <= k < |plan| ==> plan[k].potionType == GREEN_POTION_TYPE
    ensures forall k :: 0 <= k < |plan| ==>
              plan[k].quantity == greenMl / ML_PER_POTION &&
              0 < plan[k].quantity * ML_PER_POTION <= greenMl
  {
    var mixable := MixablePotions(greenMl);
    if mixable > 0 then [PotionBatch(GREEN_POTION_TYPE, mixable)] else []
  }

  /** Every batch names a green component, so `potion_type[1]` can be read. */
  predicate HasGreenComponent(batches: seq<PotionBatch>)
  {
    forall k :: 0 <= k < |batches| ==> |batches[k].potionType| >= 2
  }

  /** `total_bottles`: the quantities of all delivered batches added up. */
  function TotalBottles(batches: seq<PotionBatch>): int
  {
    if batches == [] then 0 else batches[0].quantity + TotalBottles(batches[1..])
  }

  /** `total_ml`: each batch's green component times its quantity, added up. */
  function TotalGreenMl(batches: seq<PotionBatch>): (total: int)
    requires HasGreenComponent(batches)
    ensures (forall k :: 0 <= k < |batches| ==> batches[k].potionType[1] == 0) ==> total == 0
  {
    if batches == [] then 0
    else batches[0].potionType[1] * batches[0].quantity + TotalGreenMl(batches[1..])
  }

  /**
   * The row after a bottling delivery, or None when a batch has no
   * `potion_type[1]` (the endpoint fails before it writes anything).
   */
  function ApplyBottleDelivery(s: Snapshot, batches: seq<PotionBatch>): (r: Option<Snapshot>)
    ensures r.Some? <==> HasGreenComponent(batches)
    ensures r.Some? ==> r.value.greenPotions - s.greenPotions == TotalBottles(batches)
    ensures r.Some? ==> s.greenMl - r.value.greenMl == TotalGreenMl(batches)
    ensures r.Some? ==> r.value.(greenPotions := s.greenPotions, greenMl := s.greenMl) == s
  {
    if HasGreenComponent(batches) then
      Some(s.(greenPotions := s.greenPotions + TotalBottles(batches),
              greenMl := s.greenMl - TotalGreenMl(batches)))
    else
      None
  }

  /** The delivery endpoint: totals first, then one `UPDATE global_inventory`. */
  method PostDeliverBottles(inv: GlobalInventory, batches: seq<PotionBatch>) returns (ok: bool)
    modifies inv
    ensures ok == HasGreenComponent(batches)
    ensures ok ==> Some(inv.Current()) == ApplyBottleDelivery(old(inv.Current()), batches)
    ensures !ok ==> inv.Current() == old(inv.Current())
  {
    ok := HasGreenComponent(batches);
    if ok {
      var totalBottles := TotalBottles(batches);
      var totalMl := TotalGreenMl(batches);
      inv.greenPotions := inv.greenPotions + totalBottles;
      inv.greenMl := inv.greenMl - totalMl;
    }
  }

  /** Only the green component is charged: a batch of all-green potions uses 100 ml each. */
  lemma {:induction false} GreenBatchesUse100Each(batches: seq<PotionBatch>)
    requires forall k :: 0 <= k < |batches| ==> batches[k].potionType == GREEN_POTION_TYPE
    ensures HasGreenComponent(batches)
    ensures TotalGreenMl(batches) == ML_PER_POTION * TotalBottles(batches)
  {
    if batches != [] {
      GreenBatchesUse100Each(batches[1..]);
    }
  }

  /** The bottles of a delivery split in two add up to those of the whole. */
  lemma {:induction false} TotalBottlesSplits(a: seq<PotionBatch>, b: seq<PotionBatch>)
    ensures TotalBottles(a + b) == TotalBottles(a) + TotalBottles(b)
  {
    if a == [] {
      assert a + b == b;
    } else {
      assert (a + b)[1..] == a[1..] + b;
      TotalBottlesSplits(a[1..], b);
    }
  }

  /** The green millilitres of a delivery split in two add up to those of the whole. */
  lemma {:induction false} TotalGreenMlSplits(a: seq<PotionBatch>, b: seq<PotionBatch>)
    requires HasGreenComponent(a) && HasGreenComponent(b)
    ensures HasGreenComponent(a + b)
    ensures TotalGreenMl(a + b) == TotalGreenMl(a) + TotalGreenMl(b)
  {
    if a == [] {
      assert a + b == b;
    } else {
      assert (a + b)[1..] == a[1..] + b;
      TotalGreenMlSplits(a[1..], b);
    }
  }

  /**
   * Two deliveries in a row leave the row as one delivery of both, and the
   * combined delivery is rejected exactly when one of the two would be.
   */
  lemma BottleDeliveriesCompose(s: Snapshot, a: seq<PotionBatch>, b: seq<PotionBatch>)
    ensures ApplyBottleDelivery(s, a + b).Some? <==>
            ApplyBottleDelivery(s, a).Some? && HasGreenComponent(b)
    ensures ApplyBottleDelivery(s, a).Some? && HasGreenComponent(b) ==>
            ApplyBottleDelivery(ApplyBottleDelivery(s, a).value, b) == ApplyBottleDelivery(s, a + b)
  {
    if HasGreenComponent(a + b) {
      forall k | 0 <= k < |a| ensures |a[k].potionType| >= 2 {
        assert a[k] == (a + b)[k];
      }
      forall k | 0 <= k < |b| ensures |b[k].potionType| >= 2 {
        assert b[k] == (a + b)[|a| + k];
      }
    }
    if HasGreenComponent(a) && HasGreenComponent(b) {
      TotalBottlesSplits(a, b);
      TotalGreenMlSplits(a, b);
    }
  }

  /**
   * Batches with no green component add potions but take no millilitres at
   * all: a red, blue or dark batch is booked as green potions for free.
   */
  lemma NonGreenBatchesUseNoMl(s: Snapshot, batches: seq<PotionBatch>)
    requires forall k :: 0 <= k < |batches| ==>
               |batches[k].potionType| >= 2 && batches[k].potionType[1] == 0
    ensures ApplyBottleDelivery(s, batches) ==
            Some(s.(greenPotions := s.greenPotions + TotalBottles(batches)))
  {
  }

  /**
   * Delivering the plan made at green millilitres M leaves M mod 100
   * millilitres and adds M div 100 green potions.
   */
  lemma PlanThenDeliver(s: Snapshot)
    requires s.greenMl >= 0
    ensures ApplyBottleDelivery(s, BottlePlan(s.greenMl)).Some?
    ensures ApplyBottleDelivery(s, BottlePlan(s.greenMl)).value ==
            s.(greenMl := s.greenMl % ML_PER_POTION,
               greenPotions := s.greenPotions + s.greenMl / ML_PER_POTION)
  {
    var plan := BottlePlan(s.greenMl);
    GreenBatchesUse100Each(plan);
    if plan != [] {
      assert plan[1..] == [];
      assert TotalBottles(plan) == s.greenMl / ML_PER_POTION;
    } else {
      assert s.greenMl / ML_PER_POTION == 0;
    }
  }

  /**
   * The audit counts `potion_inventory`, not `num_green_potions`: a bottling
   * delivery changes the audited millilitres but not the audited potion count.
   */
  lemma AuditAfterBottleDelivery(s: Snapshot, batches: seq<PotionBatch>)
    requires HasGreenComponent(batches)
    ensures Inventory.Audit(ApplyBottleDelivery(s, batches).value) ==
            Inventory.Audit(s).(mlInBarrels := Inventory.Audit(s).mlInBarrels - TotalGreenMl(batches))
  {
  }
}
