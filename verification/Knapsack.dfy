/** Filling a demand from capacities in order of ascending price is the cheapest way to fill it. */
module Knapsack {
  import opened Numbers

  /** A capacity offered at a price per unit. */
  datatype Item = Item(capacity: nat, price: int)

  ghost predicate Ordered(items: seq<Item>) {
    forall i, j :: 0 <= i < j < |items| ==> items[i].price <= items[j].price
  }

  /** An allocation takes from every item at most its capacity. */
  ghost predicate Fits(alloc: seq<nat>, items: seq<Item>) {
    |alloc| == |items| && forall i :: 0 <= i < |items| ==> alloc[i] <= items[i].capacity
  }

  ghost function Cost(alloc: seq<nat>, items: seq<Item>): int
    requires |alloc| == |items|
  {
    if alloc == [] then 0 else alloc[0] * items[0].price + Cost(alloc[1..], items[1..])
  }

  function Take(demand: nat, item: Item): nat {
    if demand > item.capacity then item.capacity else demand
  }

  ghost function GreedyCost(demand: nat, items: seq<Item>): int
    decreases |items|
  {
    if items == [] then 0
    else
      var taken := Take(demand, items[0]);
      taken * items[0].price + GreedyCost(demand - taken, items[1..])
  }

  /** Moving `d` units down to the bound `floor`, and trading `taken` for `a`, at the first item's price. */
  lemma Exchange(floor: int, price: int, taken: nat, a: nat, d: nat)
    requires floor <= price
    ensures taken * price + d * floor <= a * price + (d + taken - a) * price
  {
    MulLe(floor, price, d);
    assert a * price + (d + taken - a) * price == d * price + taken * price;
  }

  lemma {:induction false} GreedyAgainst(demand: nat, items: seq<Item>, alloc: seq<nat>, floor: int)
    requires Ordered(items) && Fits(alloc, items) && demand <= Sum(alloc)
    requires forall i :: 0 <= i < |items| ==> floor <= items[i].price
    ensures GreedyCost(demand, items) + (Sum(alloc) - demand) * floor <= Cost(alloc, items)
    decreases |items|
  {
    if items != [] {
      var taken := Take(demand, items[0]);
      GreedyAgainst(demand - taken, items[1..], alloc[1..], items[0].price);
      Exchange(floor, items[0].price, taken, alloc[0], Sum(alloc) - demand);
    }
  }

  /** No allocation of the same demand costs less than the greedy one. */
  lemma GreedyIsOptimal(demand: nat, items: seq<Item>, alloc: seq<nat>)
    requires Ordered(items) && Fits(alloc, items) && Sum(alloc) == demand
    ensures GreedyCost(demand, items) <= Cost(alloc, items)
  {
    if items != [] {
      GreedyAgainst(demand, items, alloc, items[0].price);
    }
  }

  function Zeros(n: nat): seq<nat> {
    seq(n, _ => 0)
  }

  lemma {:induction false} ZerosCostNothing(items: seq<Item>)
    ensures Sum(Zeros(|items|)) == 0 && Cost(Zeros(|items|), items) == 0 && GreedyCost(0, items) == 0
  {
    if items != [] {
      ZerosCostNothing(items[1..]);
      assert Zeros(|items|)[1..] == Zeros(|items| - 1);
    }
  }

  lemma {:induction false} OneUnit(items: seq<Item>, j: nat)
    requires j < |items|
    ensures var alloc := Zeros(|items|)[j := 1]; Sum(alloc) == 1 && Cost(alloc, items) == items[j].price
  {
    var alloc := Zeros(|items|)[j := 1];
    if j == 0 {
      ZerosCostNothing(items[1..]);
      assert alloc[1..] == Zeros(|items| - 1);
    } else {
      OneUnit(items[1..], j - 1);
      assert alloc[1..] == Zeros(|items| - 1)[j - 1 := 1];
    }
  }

  /** An inversion `i < j` of the prices: one unit moved from `i` to `j` is cheaper. */
  lemma {:induction false} InversionCosts(items: seq<Item>, i: nat, j: nat) returns (alloc: seq<nat>)
    requires i < j < |items| && items[i].price > items[j].price
    requires forall k :: 0 <= k < |items| ==> items[k].capacity >= 1
    ensures Fits(alloc, items) && Cost(alloc, items) < GreedyCost(Sum(alloc), items)
    decreases |items|
  {
    if i == 0 {
      alloc := Zeros(|items|)[j := 1];
      OneUnit(items, j);
      ZerosCostNothing(items[1..]);
    } else {
      var rest := InversionCosts(items[1..], i - 1, j - 1);
      alloc := [items[0].capacity] + rest;
      assert alloc[1..] == rest;
      assert Take(Sum(alloc), items[0]) == items[0].capacity;
    }
  }
}
