/**
 * The laptop catalog, the budget answer's price cap and the filter-then-argmax
 * scan that picks the recommended laptop.
 */
module Recommendation {

  datatype Laptop = Laptop(
    name: string,
    price: int,
    processingTier: int,
    batteryLife: int,
    storage: int,
    screenTier: int)

  /** The five laptops the chatbot knows. */
  const Catalog: seq<Laptop> := [
    Laptop("CheapBook", 299, 1, 5, 256, 1),
    Laptop("Bell XYZ 13", 575, 2, 10, 750, 2),
    Laptop("HD Ghost 2 in 1", 999, 3, 8, 512, 3),
    Laptop("Mono Victis 15", 799, 4, 3, 2000, 4),
    Laptop("R7 Pro Super Max", 4500, 5, 18, 1000, 5)
  ]

  /** The price cap is 250 per budget step; a cap above 1000 becomes -1, no cap at all. */
  const Unbounded := -1

  function MaxPrice(budget: int): (r: int)
    ensures r == Unbounded <==> budget >= 5
    ensures budget >= 1 && r != Unbounded ==> 250 <= r <= 1000 && r % 250 == 0
  {
    if 250 * budget > 1000 then Unbounded else 250 * budget
  }

  /** A laptop passes the price filter when there is no cap or its price is at most the cap. */
  predicate Qualifies(laptop: Laptop, maxPrice: int)
    ensures maxPrice == Unbounded ==> Qualifies(laptop, maxPrice)
    ensures maxPrice != Unbounded && Qualifies(laptop, maxPrice) ==> laptop.price <= maxPrice
  {
    maxPrice == Unbounded || laptop.price <= maxPrice
  }

  /**
   * The score of a laptop for use case 2 (price), 3 (processing tier) or any
   * other but 1 (storage).  Use case 1 asks for a weight that `Laptop` does
   * not have, so it has no score.
   */
  function Score(laptop: Laptop, useCase: int): (r: int)
    requires useCase != 1
    ensures r == laptop.price || r == laptop.processingTier || r == laptop.storage
    ensures useCase == 2 ==> r == laptop.price
  {
    if useCase == 2 then laptop.price
    else if useCase == 3 then laptop.processingTier
    else laptop.storage
  }

  /**
   * `k` is the recommendation: it passes the filter, scores above 0, scores at
   * least as high as every laptop that passes, and strictly higher than every
   * earlier one that passes (ties keep the first).
   */
  predicate IsBest(laptops: seq<Laptop>, maxPrice: int, useCase: int, k: int) {
    useCase != 1 && 0 <= k < |laptops| &&
    Qualifies(laptops[k], maxPrice) && Score(laptops[k], useCase) > 0 &&
    (forall j :: 0 <= j < |laptops| && Qualifies(laptops[j], maxPrice) ==>
      Score(laptops[j], useCase) <= Score(laptops[k], useCase)) &&
    (forall j :: 0 <= j < k && Qualifies(laptops[j], maxPrice) ==>
      Score(laptops[j], useCase) < Score(laptops[k], useCase))
  }

  /** No laptop that passes the filter scores above 0. */
  predicate NoCandidate(laptops: seq<Laptop>, maxPrice: int, useCase: int)
    requires useCase != 1
  {
    forall j :: 0 <= j < |laptops| && Qualifies(laptops[j], maxPrice) ==> Score(laptops[j], useCase) <= 0
  }

  datatype Selection =
    | Picked(index: nat)
    | NoneFound
    | WeightMissing   // use case 1 reached a laptop that passed the filter

  /**
   * The scan over the catalog: skip laptops over the cap, score the others,
   * and keep the first one whose score beats the best so far, starting from 0.
   */
  method Recommend(laptops: seq<Laptop>, maxPrice: int, useCase: int) returns (r: Selection)
    ensures r.WeightMissing? <==> useCase == 1 && exists j :: 0 <= j < |laptops| && Qualifies(laptops[j], maxPrice)
    ensures r.Picked? ==> IsBest(laptops, maxPrice, useCase, r.index)
    ensures r.NoneFound? ==> useCase == 1 || NoCandidate(laptops, maxPrice, useCase)
  {
    var best := NoneFound;
    var bestScore := 0;
    for i := 0 to |laptops|
      invariant useCase == 1 ==> best == NoneFound && forall j :: 0 <= j < i ==> !Qualifies(laptops[j], maxPrice)
      invariant best == NoneFound ==>
        bestScore == 0 &&
        (useCase != 1 ==> forall j :: 0 <= j < i && Qualifies(laptops[j], maxPrice) ==> Score(laptops[j], useCase) <= 0)
      invariant best != NoneFound ==>
        best.Picked? && best.index < i && bestScore == Score(laptops[best.index], useCase) &&
        IsBest(laptops[..i], maxPrice, useCase, best.index)
    {
      if maxPrice != Unbounded && laptops[i].price > maxPrice {
        continue;
      }
      if useCase == 1 {
        assert Qualifies(laptops[i], maxPrice);
        return WeightMissing;
      }
      var score := Score(laptops[i], useCase);
      if score > bestScore {
        best := Picked(i);
        bestScore := score;
      }
    }
    assert laptops[..|laptops|] == laptops;
    r := best;
  }

  /** Two recommendations for the same question are the same laptop. */
  lemma IsBestUnique(laptops: seq<Laptop>, maxPrice: int, useCase: int, k1: int, k2: int)
    requires IsBest(laptops, maxPrice, useCase, k1) && IsBest(laptops, maxPrice, useCase, k2)
    ensures k1 == k2
  {
  }

  /** Budget 1 caps at 250, budget 4 at 1000, budget 5 has no cap. */
  lemma BudgetCaps()
    ensures MaxPrice(1) == 250 && MaxPrice(2) == 500 && MaxPrice(3) == 750 && MaxPrice(4) == 1000
    ensures MaxPrice(5) == Unbounded
  {
  }

  /** For every budget answer, a laptop passes iff the budget is the top one or its price is within 250 per step. */
  lemma BudgetFilter(laptop: Laptop, budget: int)
    requires 1 <= budget <= 5
    ensures Qualifies(laptop, MaxPrice(budget)) <==> budget == 5 || laptop.price <= 250 * budget
  {
  }

  /** A price equal to the cap passes the filter. */
  lemma CapIsInclusive(laptop: Laptop, budget: int)
    requires 1 <= budget <= 4 && laptop.price == 250 * budget
    ensures Qualifies(laptop, MaxPrice(budget))
  {
  }

  /** Budget 3 and use case 2: "Bell XYZ 13" (575) beats "CheapBook" (299), "HD Ghost 2 in 1" (999) is over the cap. */
  lemma ExampleBudget3Price(k: int)
    ensures IsBest(Catalog, MaxPrice(3), 2, k) <==> k == 1
    ensures Catalog[1].name == "Bell XYZ 13"
  {
    assert IsBest(Catalog, MaxPrice(3), 2, 1) by {
      forall j | 0 <= j < |Catalog| && Qualifies(Catalog[j], 750)
        ensures Score(Catalog[j], 2) <= Score(Catalog[1], 2)
      {
        assert j == 0 || j == 1;
      }
    }
    if IsBest(Catalog, MaxPrice(3), 2, k) {
      IsBestUnique(Catalog, MaxPrice(3), 2, k, 1);
    }
  }

  /**
   * Use case 3 scores the processing tier and use case 4 the storage.  Under the
   * 1000 cap, use case 3 picks "Mono Victis 15" (tier 4, 799) and not "HD Ghost 2
   * in 1" (999, the highest price); with no cap, use case 4 picks "Mono Victis 15"
   * (storage 2000) and not "R7 Pro Super Max" (highest price and tier).
   */
  lemma ExampleTierAndStorage(k: int)
    ensures IsBest(Catalog, MaxPrice(4), 3, k) <==> k == 3
    ensures IsBest(Catalog, MaxPrice(5), 3, k) <==> k == 4
    ensures IsBest(Catalog, MaxPrice(5), 4, k) <==> k == 3
    ensures Catalog[3].name == "Mono Victis 15" && Catalog[4].name == "R7 Pro Super Max"
  {
    assert IsBest(Catalog, MaxPrice(4), 3, 3);
    assert IsBest(Catalog, MaxPrice(5), 3, 4);
    assert IsBest(Catalog, MaxPrice(5), 4, 3);
    if IsBest(Catalog, MaxPrice(4), 3, k) {
      IsBestUnique(Catalog, MaxPrice(4), 3, k, 3);
    }
    if IsBest(Catalog, MaxPrice(5), 3, k) {
      IsBestUnique(Catalog, MaxPrice(5), 3, k, 4);
    }
    if IsBest(Catalog, MaxPrice(5), 4, k) {
      IsBestUnique(Catalog, MaxPrice(5), 4, k, 3);
    }
  }

  /** Budget 1 lets no laptop through (the cheapest costs 299), so no use case gets a recommendation. */
  lemma ExampleBudget1(useCase: int)
    ensures forall j :: 0 <= j < |Catalog| ==> !Qualifies(Catalog[j], MaxPrice(1))
    ensures useCase != 1 ==> NoCandidate(Catalog, MaxPrice(1), useCase)
  {
  }

  /** The weight lookup of use case 1 is reached exactly for budgets from 2 up. */
  lemma WeightReachedFromBudget2(budget: int)
    requires 1 <= budget <= 5
    ensures (exists j :: 0 <= j < |Catalog| && Qualifies(Catalog[j], MaxPrice(budget))) <==> budget >= 2
  {
    if budget >= 2 {
      assert Qualifies(Catalog[0], MaxPrice(budget));
    }
  }
}
