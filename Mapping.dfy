/** The mapping orchestrator of backend/src/services/MappingService.ts
    (`mapIngredientsToProps`): every parsed ingredient is looked up, its
    quantity calculated, and the ingredient filed as matched or unavailable. */
module Mapping {
  import opened Wrappers
  import opened Text
  import opened Catalog
  import opened Matcher
  import opened Calculator

  /** An ingredient as the extraction step emits it. */
  datatype Ingredient = Ingredient(name: string, quantity: Quantity)

  datatype MappedItem = MappedItem(
    originalIngredientName: string,
    originalQuantity: string,
    matchedProduct: Product,
    calculatedQuantityNeeded: int,
    calculationNotes: seq<Note>)

  /** Why an ingredient is unavailable: no product at all, or a product whose
      quantity could not be calculated (the message names the product, the
      recipe quantity and the pack size with its unit). */
  datatype Reason =
    | ProductNotFound
    | CalculationFailed(productName: string, recipeQuantity: string, unitQuantity: real, unit: Unit)

  datatype UnavailableItem = UnavailableItem(
    originalIngredientName: string,
    originalQuantity: string,
    reason: Reason)

  /** Where one ingredient ends up. */
  datatype Outcome = Matched(mapped: MappedItem) | Unavailable(unavailable: UnavailableItem)

  /** The display form `"value unit"` of a recipe quantity. */
  function QuantityText(q: Quantity): string
  {
    q.value + " " + q.unit
  }

  /** The fate of one ingredient whose lookup gave `found`, where `calculate` is
      the quantity calculation for a product. Not found: "Product not found
      in database". Found but not calculable (or a quantity that is not
      positive): a reason naming the product and its pack size. Otherwise
      matched with the calculated quantity and notes. */
  function Decide(ing: Ingredient, found: Option<Product>, calculate: Product -> Option<Calculation>): Outcome
  {
    var originalQuantity := QuantityText(ing.quantity);
    match found
    case None => Unavailable(UnavailableItem(ing.name, originalQuantity, ProductNotFound))
    case Some(product) =>
      var calculation := calculate(product);
      if calculation.Some? && calculation.value.quantity > 0 then
        Matched(MappedItem(ing.name, originalQuantity, product,
                           calculation.value.quantity, calculation.value.notes))
      else
        Unavailable(UnavailableItem(ing.name, originalQuantity,
                                    CalculationFailed(product.name, originalQuantity,
                                                      product.unitQuantity, product.unit)))
  }

  /** `calculateProductQuantity` applied to an ingredient's name and quantity. */
  function CalculatorFor(parse: string -> Option<real>, ing: Ingredient): Product -> Option<Calculation>
  {
    p => CalculateProductQuantity(parse, ing.name, ing.quantity, p)
  }

  /** The fate of one ingredient: looked up under its normalised name, its
      quantity calculated for the product found. */
  function MapIngredient(catalog: seq<Product>, parse: string -> Option<real>, ing: Ingredient): Outcome
  {
    Decide(ing, LookupNormalized(catalog, Normalize(ing.name)), CalculatorFor(parse, ing))
  }

  /** An ingredient is reported "not found" exactly when the lookup found
      nothing; whatever its fate, its name and quantity text are kept. */
  lemma NotFoundCase(ing: Ingredient, found: Option<Product>, calculate: Product -> Option<Calculation>)
    ensures var o := Decide(ing, found, calculate);
      && (found.None? <==> o.Unavailable? && o.unavailable.reason == ProductNotFound)
      && (o.Unavailable? ==>
            && o.unavailable.originalIngredientName == ing.name
            && o.unavailable.originalQuantity == QuantityText(ing.quantity))
      && (o.Matched? ==>
            && o.mapped.originalIngredientName == ing.name
            && o.mapped.originalQuantity == QuantityText(ing.quantity))
  {
  }

  /** A matched ingredient carries the product the lookup found and that
      product's calculation: its quantity, at least 1, and its notes. */
  lemma MatchedCase(ing: Ingredient, found: Option<Product>, calculate: Product -> Option<Calculation>)
    ensures var o := Decide(ing, found, calculate);
      o.Matched? ==>
        && found == Some(o.mapped.matchedProduct)
        && calculate(o.mapped.matchedProduct)
             == Some(Calculation(o.mapped.calculatedQuantityNeeded, o.mapped.calculationNotes))
        && o.mapped.calculatedQuantityNeeded >= 1
  {
  }

  /** A found product whose calculation gives nothing, or less than one
      pack, makes the ingredient unavailable for exactly that reason, naming
      the product, the recipe quantity and the pack size with its unit. */
  lemma CalculationFailedCase(ing: Ingredient, found: Option<Product>, calculate: Product -> Option<Calculation>)
    ensures var o := Decide(ing, found, calculate);
      o.Unavailable? && o.unavailable.reason.CalculationFailed? <==>
        found.Some? && (calculate(found.value).None? || calculate(found.value).value.quantity <= 0)
    ensures var o := Decide(ing, found, calculate);
      o.Unavailable? && o.unavailable.reason.CalculationFailed? ==>
        o.unavailable.reason
          == CalculationFailed(found.value.name, QuantityText(ing.quantity),
                               found.value.unitQuantity, found.value.unit)
  {
  }

  /** With `calculateProductQuantity` as the calculator, which never gives
      less than one pack, a calculation failure means it gave nothing. */
  lemma CalculationFailedMeansNoResult(catalog: seq<Product>, parse: string -> Option<real>, ing: Ingredient)
    ensures var o := MapIngredient(catalog, parse, ing);
      var found := LookupNormalized(catalog, Normalize(ing.name));
      o.Unavailable? && o.unavailable.reason.CalculationFailed? ==>
        found.Some? && CalculateProductQuantity(parse, ing.name, ing.quantity, found.value).None?
  {
    var found := LookupNormalized(catalog, Normalize(ing.name));
    CalculationFailedCase(ing, found, CalculatorFor(parse, ing));
    if found.Some? {
      assert CalculatorFor(parse, ing)(found.value) == CalculateProductQuantity(parse, ing.name, ing.quantity, found.value);
    }
  }

  /** The contribution of one outcome to the matched list. */
  function MatchedPart(o: Outcome): seq<MappedItem>
  {
    if o.Matched? then [o.mapped] else []
  }

  /** The contribution of one outcome to the unavailable list. */
  function UnavailablePart(o: Outcome): seq<UnavailableItem>
  {
    if o.Unavailable? then [o.unavailable] else []
  }

  /** `MapIngredient` over a given catalogue and number parser. */
  function MapperFor(catalog: seq<Product>, parse: string -> Option<real>): Ingredient -> Outcome
  {
    ing => MapIngredient(catalog, parse, ing)
  }

  /** The outcome of every ingredient, in input order, each decided by
      `decide`. */
  function MapAll(decide: Ingredient -> Outcome, ings: seq<Ingredient>): (os: seq<Outcome>)
    ensures |os| == |ings|
  {
    if ings == [] then []
    else MapAll(decide, ings[..|ings| - 1]) + [decide(ings[|ings| - 1])]
  }

  /** Each ingredient's outcome is decided on its own: the k-th outcome is
      the k-th ingredient's fate, whatever the other ingredients are. */
  lemma {:induction false} MapAllPointwise(decide: Ingredient -> Outcome, ings: seq<Ingredient>)
    ensures forall k :: 0 <= k < |ings| ==> MapAll(decide, ings)[k] == decide(ings[k])
  {
    if ings != [] {
      var init := ings[..|ings| - 1];
      MapAllPointwise(decide, init);
      assert forall k :: 0 <= k < |init| ==> ings[k] == init[k];
    }
  }

  /** The matched items among some outcomes, in order. */
  function MatchedOf(os: seq<Outcome>): seq<MappedItem>
  {
    if os == [] then [] else MatchedOf(os[..|os| - 1]) + MatchedPart(os[|os| - 1])
  }

  /** The unavailable items among some outcomes, in order. */
  function UnavailableOf(os: seq<Outcome>): seq<UnavailableItem>
  {
    if os == [] then [] else UnavailableOf(os[..|os| - 1]) + UnavailablePart(os[|os| - 1])
  }

  /** Every outcome is filed exactly once: the two lists together are as
      long as the input. */
  lemma {:induction false} PartitionIsComplete(os: seq<Outcome>)
    ensures |MatchedOf(os)| + |UnavailableOf(os)| == |os|
  {
    if os != [] {
      PartitionIsComplete(os[..|os| - 1]);
    }
  }

  /** The matched list of a concatenation is the concatenation of the
      matched lists. */
  lemma {:induction false} MatchedDistributes(xs: seq<Outcome>, ys: seq<Outcome>)
    ensures MatchedOf(xs + ys) == MatchedOf(xs) + MatchedOf(ys)
  {
    if ys == [] {
      assert xs + ys == xs;
    } else {
      var init := ys[..|ys| - 1];
      assert (xs + ys)[..|xs + ys| - 1] == xs + init;
      MatchedDistributes(xs, init);
    }
  }

  /** The unavailable list of a concatenation is the concatenation of the
      unavailable lists. */
  lemma {:induction false} UnavailableDistributes(xs: seq<Outcome>, ys: seq<Outcome>)
    ensures UnavailableOf(xs + ys) == UnavailableOf(xs) + UnavailableOf(ys)
  {
    if ys == [] {
      assert xs + ys == xs;
    } else {
      var init := ys[..|ys| - 1];
      assert (xs + ys)[..|xs + ys| - 1] == xs + init;
      UnavailableDistributes(xs, init);
    }
  }

  /** Nothing is invented: every filed item comes from an outcome of that kind. */
  lemma {:induction false} PartitionIsSound(os: seq<Outcome>)
    ensures forall m :: m in MatchedOf(os) ==> Matched(m) in os
    ensures forall u :: u in UnavailableOf(os) ==> Unavailable(u) in os
  {
    if os != [] {
      PartitionIsSound(os[..|os| - 1]);
    }
  }

  /** Every matched item of a mapping needs at least one pack of a
      catalogue product. */
  lemma MatchedArePositive(catalog: seq<Product>, parse: string -> Option<real>, ings: seq<Ingredient>)
    ensures forall m :: m in MatchedOf(MapAll(MapperFor(catalog, parse), ings)) ==>
              m.calculatedQuantityNeeded >= 1 && m.matchedProduct in catalog
  {
    var os := MapAll(MapperFor(catalog, parse), ings);
    PartitionIsSound(os);
    MapAllPointwise(MapperFor(catalog, parse), ings);
    forall m | m in MatchedOf(os)
      ensures m.calculatedQuantityNeeded >= 1 && m.matchedProduct in catalog
    {
      var k :| 0 <= k < |os| && os[k] == Matched(m);
      assert os[k] == MapIngredient(catalog, parse, ings[k]);
      MatchedCase(ings[k], LookupNormalized(catalog, Normalize(ings[k].name)), CalculatorFor(parse, ings[k]));
    }
  }

  /** One more outcome is filed at the end of its own list. */
  lemma FileStep(os: seq<Outcome>, o: Outcome)
    ensures MatchedOf(os + [o]) == MatchedOf(os) + MatchedPart(o)
    ensures UnavailableOf(os + [o]) == UnavailableOf(os) + UnavailablePart(o)
  {
    assert (os + [o])[..|os|] == os;
  }

  /** Mapping one more ingredient files its outcome after the earlier ones. */
  lemma FileNext(decide: Ingredient -> Outcome, ings: seq<Ingredient>, i: nat, outcome: Outcome)
    requires i < |ings| && outcome == decide(ings[i])
    ensures MatchedOf(MapAll(decide, ings[..i + 1]))
         == MatchedOf(MapAll(decide, ings[..i])) + MatchedPart(outcome)
    ensures UnavailableOf(MapAll(decide, ings[..i + 1]))
         == UnavailableOf(MapAll(decide, ings[..i])) + UnavailablePart(outcome)
  {
    assert ings[..i + 1][..i] == ings[..i];
    assert MapAll(decide, ings[..i + 1]) == MapAll(decide, ings[..i]) + [outcome];
    FileStep(MapAll(decide, ings[..i]), outcome);
  }

  /** The body of the loop in `mapIngredientsToProps` for one ingredient:
      look the product up, then calculate the packs needed. */
  method MapOne(catalog: seq<Product>, parse: string -> Option<real>, ingredient: Ingredient) returns (outcome: Outcome)
    ensures outcome == MapIngredient(catalog, parse, ingredient)
  {
    var originalQuantity := QuantityText(ingredient.quantity);
    var product := LookupNormalized(catalog, Normalize(ingredient.name));
    if product.None? {
      return Unavailable(UnavailableItem(ingredient.name, originalQuantity, ProductNotFound));
    }
    var calculationResult := CalculateProductQuantity(parse, ingredient.name, ingredient.quantity, product.value);
    assert calculationResult == CalculatorFor(parse, ingredient)(product.value);
    if calculationResult.Some? && calculationResult.value.quantity > 0 {
      outcome := Matched(MappedItem(ingredient.name, originalQuantity, product.value,
                                    calculationResult.value.quantity, calculationResult.value.notes));
    } else {
      outcome := Unavailable(UnavailableItem(ingredient.name, originalQuantity,
                                             CalculationFailed(product.value.name, originalQuantity,
                                                               product.value.unitQuantity, product.value.unit)));
    }
  }

  /** `mapIngredientsToProps`: walks the ingredients once, appending each to
      the matched or the unavailable list. */
  method MapIngredientsToProps(catalog: seq<Product>, parse: string -> Option<real>, ingredients: seq<Ingredient>)
    returns (matchedItems: seq<MappedItem>, unavailableItems: seq<UnavailableItem>)
    ensures matchedItems == MatchedOf(MapAll(MapperFor(catalog, parse), ingredients))
    ensures unavailableItems == UnavailableOf(MapAll(MapperFor(catalog, parse), ingredients))
    ensures |matchedItems| + |unavailableItems| == |ingredients|
  {
    matchedItems := [];
    unavailableItems := [];
    for i := 0 to |ingredients|
      invariant matchedItems == MatchedOf(MapAll(MapperFor(catalog, parse), ingredients[..i]))
      invariant unavailableItems == UnavailableOf(MapAll(MapperFor(catalog, parse), ingredients[..i]))
    {
      var outcome := MapOne(catalog, parse, ingredients[i]);
      assert outcome == MapperFor(catalog, parse)(ingredients[i]);
      FileNext(MapperFor(catalog, parse), ingredients, i, outcome);
      match outcome
      case Matched(item) => matchedItems := matchedItems + [item];
      case Unavailable(item) => unavailableItems := unavailableItems + [item];
    }
    assert ingredients[..|ingredients|] == ingredients;
    PartitionIsComplete(MapAll(MapperFor(catalog, parse), ingredients));
  }
}
