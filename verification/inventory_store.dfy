/**
 * The mutable store the inventory, bottler and barrel endpoints read and
 * update in place: the single `global_inventory` row, together with the
 * `potion_inventory` table whose quantities the audit and the capacity
 * planner sum.
 */
module InventoryStore {

  /** The abstract value of the store at one moment. */
  datatype Snapshot = Snapshot(
    gold: int,
    redMl: int,
    greenMl: int,
    blueMl: int,
    darkMl: int,
    greenPotions: int,
    potionCapacity: int,
    mlCapacity: int,
    potionInventory: seq<int>)

  /** `COALESCE(SUM(quantity), 0)`: the sum of a column, 0 over no rows. */
  function Sum(xs: seq<int>): int
  {
    if xs == [] then 0 else Sum(xs[..|xs| - 1]) + xs[|xs| - 1]
  }

  /** A column of non-negative quantities sums to a non-negative total. */
  lemma {:induction false} SumNonNegative(xs: seq<int>)
    ensures (forall k :: 0 <= k < |xs| ==> xs[k] >= 0) ==> Sum(xs) >= 0
  {
    if xs != [] {
      SumNonNegative(xs[..|xs| - 1]);
    }
  }

  /** `num_red_ml + num_green_ml + num_blue_ml + num_dark_ml`. */
  function TotalMl(s: Snapshot): int
  {
    s.redMl + s.greenMl + s.blueMl + s.darkMl
  }

  /** The `global_inventory` row and the `potion_inventory` quantities. */
  class GlobalInventory {
    var gold: int
    var redMl: int
    var greenMl: int
    var blueMl: int
    var darkMl: int
    var greenPotions: int
    var potionCapacity: int
    var mlCapacity: int
    var potionInventory: seq<int>

    constructor (s: Snapshot)
      ensures Current() == s
    {
      gold, redMl, greenMl, blueMl, darkMl := s.gold, s.redMl, s.greenMl, s.blueMl, s.darkMl;
      greenPotions, potionCapacity, mlCapacity := s.greenPotions, s.potionCapacity, s.mlCapacity;
      potionInventory := s.potionInventory;
    }

    /** What a `SELECT` inside one transaction sees. */
    function Current(): Snapshot
      reads this
    {
      Snapshot(gold, redMl, greenMl, blueMl, darkMl, greenPotions,
               potionCapacity, mlCapacity, potionInventory)
    }
  }
}
