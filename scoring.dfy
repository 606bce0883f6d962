/**
 * The productivity scoring: priority counts of a list of items, their
 * weighted points in Java `int` arithmetic, and the two-entry points map.
 */
module Scoring {
  import opened JavaLang
  import opened NotionItems

  /** The weights of the three priority enum constants (`getWeightEnum`). */
  datatype WeightValues = WeightValues(urgente: int, importante: int, semPressa: int)

  /** Weights that are Java `int` values, as `getWeightEnum` returns them. */
  type Weights = w: WeightValues | IsInt(w.urgente) && IsInt(w.importante) && IsInt(w.semPressa)
    witness WeightValues(0, 0, 0)

  predicate NonNegative(w: Weights) {
    w.urgente >= 0 && w.importante >= 0 && w.semPressa >= 0
  }

  /** The keys of the points map. */
  const TOTAL_ITEMS: string := "Total Items"
  const COMPLETED_ITEMS: string := "Completed Items"

  /** The counts of urgent, important and unhurried items, in that order. */
  function PriorityCounts(items: seq<Item>): seq<int> {
    [Count(items, Urgente), Count(items, Importante), Count(items, SemPressa)]
  }

  /**
   * `extractPriorityItems`: one pass over the items with three counters;
   * a blank priority is skipped (and logged), any other name is upper-cased
   * and compared with each of the three enum names.
   */
  method ExtractPriorityItems(items: seq<Item>) returns (counts: seq<int>)
    ensures counts == PriorityCounts(items)
  {
    var urgent, important, unhurried := 0, 0, 0;
    for k := 0 to |items|
      invariant urgent == Count(items[..k], Urgente)
      invariant important == Count(items[..k], Importante)
      invariant unhurried == Count(items[..k], SemPressa)
    {
      assert items[..k + 1][..k] == items[..k];
      var priority := items[k].priorityName;
      if IsBlank(priority) {
        // the item is reported as having no priority and counted nowhere
      } else {
        var upper := ToUpper(priority.value);
        if upper == URGENTE { urgent := urgent + 1; }
        if upper == IMPORTANTE { important := important + 1; }
        if upper == SEM_PRESSA { unhurried := unhurried + 1; }
      }
    }
    assert items[..|items|] == items;
    counts := [urgent, important, unhurried];
  }

  /** Every count, and the three together, are bounded by the number of items. */
  lemma PriorityCountsBounded(items: seq<Item>)
    ensures |PriorityCounts(items)| == 3
    ensures forall k :: 0 <= k < 3 ==> 0 <= PriorityCounts(items)[k] <= |items|
    ensures PriorityCounts(items)[0] + PriorityCounts(items)[1] + PriorityCounts(items)[2] <= |items|
  {
    CountPartition(items);
  }

  /**
   * Appending one item raises at most the one count of its class; an item
   * with a blank or unknown priority raises none.
   */
  lemma PriorityCountsAppend(items: seq<Item>, x: Item)
    ensures var c, d, p := PriorityCounts(items), PriorityCounts(items + [x]), Classify(x.priorityName);
      d == [c[0] + (if p == Urgente then 1 else 0),
            c[1] + (if p == Importante then 1 else 0),
            c[2] + (if p == SemPressa then 1 else 0)]
    ensures Classify(x.priorityName) in {Blank, Unmatched} ==> PriorityCounts(items + [x]) == PriorityCounts(items)
  {
    assert (items + [x])[..|items|] == items;
  }

  /** The counts are invariant under any reordering of the items. */
  lemma PriorityCountsPermutation(a: seq<Item>, b: seq<Item>)
    requires multiset(a) == multiset(b)
    ensures PriorityCounts(a) == PriorityCounts(b)
  {
    CountPermutation(a, b, Urgente);
    CountPermutation(a, b, Importante);
    CountPermutation(a, b, SemPressa);
  }

  /** The mathematical value of the weighted sum of the first three counts. */
  function WeightedSum(counts: seq<int>, w: Weights): int
    requires |counts| >= 3
  {
    counts[0] * w.urgente + counts[1] * w.importante + counts[2] * w.semPressa
  }

  /**
   * `extractPointsItems`: the weighted sum evaluated with Java `int`
   * operations; it equals the mathematical sum wrapped once to 32 bits.
   */
  function ExtractPointsItems(counts: seq<int>, w: Weights): (points: int)
    requires |counts| >= 3
    ensures IsInt(points)
    ensures points == Wrap(WeightedSum(counts, w))
  {
    WrapSum3(counts[0] * w.urgente, counts[1] * w.importante, counts[2] * w.semPressa);
    Add(Add(Mul(counts[0], w.urgente), Mul(counts[1], w.importante)), Mul(counts[2], w.semPressa))
  }

  /** The weighted points of a list of items. */
  function Points(items: seq<Item>, w: Weights): int {
    ExtractPointsItems(PriorityCounts(items), w)
  }

  lemma MulMonotonic(a: int, b: int, k: int)
    requires 0 <= a <= b && k >= 0
    ensures 0 <= a * k <= b * k
  {
  }

  /**
   * With non-negative weights and no overflow, the points are the exact
   * weighted sum, and hence not negative.
   */
  lemma PointsExact(items: seq<Item>, w: Weights)
    requires NonNegative(w)
    requires WeightedSum(PriorityCounts(items), w) <= INT_MAX
    ensures Points(items, w) == WeightedSum(PriorityCounts(items), w) >= 0
  {
    var c := PriorityCounts(items);
    MulMonotonic(0, c[0], w.urgente);
    MulMonotonic(0, c[1], w.importante);
    MulMonotonic(0, c[2], w.semPressa);
  }

  /**
   * The completed items never score more points than all items, provided
   * the weights are non-negative and the total does not overflow an `int`.
   */
  lemma CompletedPointsAtMostTotal(items: seq<Item>, w: Weights)
    requires NonNegative(w)
    requires WeightedSum(PriorityCounts(items), w) <= INT_MAX
    ensures 0 <= Points(Completed(items), w) <= Points(items, w)
  {
    var done, all := PriorityCounts(Completed(items)), PriorityCounts(items);
    CompletedCountAtMost(items, Urgente);
    CompletedCountAtMost(items, Importante);
    CompletedCountAtMost(items, SemPressa);
    MulMonotonic(done[0], all[0], w.urgente);
    MulMonotonic(done[1], all[1], w.importante);
    MulMonotonic(done[2], all[2], w.semPressa);
    PointsExact(items, w);
    PointsExact(Completed(items), w);
  }

  /** Reordering the fetched items changes neither the total nor the completed points. */
  lemma PointsPermutation(a: seq<Item>, b: seq<Item>, w: Weights)
    requires multiset(a) == multiset(b)
    ensures Points(a, w) == Points(b, w)
    ensures Points(Completed(a), w) == Points(Completed(b), w)
  {
    PriorityCountsPermutation(a, b);
    CompletedPermutation(a, b);
    PriorityCountsPermutation(Completed(a), Completed(b));
  }

  /** Items none of which has a recognised priority have all three counts zero. */
  lemma {:induction false} UnprioritisedItemsCountZero(items: seq<Item>)
    requires forall k :: 0 <= k < |items| ==> Classify(items[k].priorityName) in {Blank, Unmatched}
    ensures PriorityCounts(items) == [0, 0, 0]
  {
    if items != [] {
      var n := |items| - 1;
      assert items == items[..n] + [items[n]];
      UnprioritisedItemsCountZero(items[..n]);
      PriorityCountsAppend(items[..n], items[n]);
    }
  }

  /** Items none of which has a recognised priority score zero points, whatever the weights. */
  lemma UnprioritisedItemsScoreZero(items: seq<Item>, w: Weights)
    requires forall k :: 0 <= k < |items| ==> Classify(items[k].priorityName) in {Blank, Unmatched}
    ensures Points(items, w) == 0
  {
    UnprioritisedItemsCountZero(items);
    assert WeightedSum(PriorityCounts(items), w) == 0;
  }

  /**
   * `calculateProductivity`: the map from "Total Items" and "Completed Items"
   * to their points. The discarded percentage `completed * 100 / total` throws
   * ArithmeticException when the total points are zero.
   */
  method CalculateProductivity(completedItems: seq<Item>, items: seq<Item>, w: Weights)
    returns (r: Result<map<string, int>>)
    ensures r.Err? <==> Points(items, w) == 0
    ensures r.Err? ==> r.error == ArithmeticException
    ensures r.Ok? ==> r.value.Keys == {TOTAL_ITEMS, COMPLETED_ITEMS}
    ensures r.Ok? ==> r.value[TOTAL_ITEMS] == Points(items, w)
    ensures r.Ok? ==> r.value[COMPLETED_ITEMS] == Points(completedItems, w)
  {
    var points: map<string, int> := map[];
    var priorityItemsCompleted := ExtractPriorityItems(completedItems);
    var priorityTotalItems := ExtractPriorityItems(items);
    var pointsTotalItems := ExtractPointsItems(priorityTotalItems, w);
    var pointsCompletedItems := ExtractPointsItems(priorityItemsCompleted, w);

    points := points[TOTAL_ITEMS := pointsTotalItems];
    points := points[COMPLETED_ITEMS := pointsCompletedItems];

    var percentage := Div(Mul(pointsCompletedItems, 100), pointsTotalItems);
    if percentage.Err? {
      return Err(percentage.error);
    }
    return Ok(points);
  }
}
