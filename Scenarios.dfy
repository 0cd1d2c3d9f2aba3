/** Worked cases over the development seed catalogue of
    backend/src/utils/seedDatabase.ts. `parse` is whatever number parser the
    caller has; each case states only the parse result it relies on. */
module Scenarios {
  import opened Wrappers
  import opened Text
  import opened Catalog
  import opened Matcher
  import opened Calculator

  function Onion(): Product
  {
    Product("onion-id", "Onion", ["vegetable", "onion", "pyaz", "kanda"], 40.0, Kg, 1.0, None)
  }

  function TataSalt(): Product
  {
    Product("salt-id", "Tata Salt Iodized", ["salt", "tata", "iodized salt", "namak"], 25.0, Kg, 1.0, None)
  }

  function Paneer(): Product
  {
    Product("paneer-id", "Amul Taaza Paneer", ["paneer", "cottage cheese", "dairy", "amul"], 80.0, G, 200.0, None)
  }

  /** "2 medium" onions against onions sold by the kilogram: 240 g is 0.24
      of a pack, so one pack, flagged approximate and rounded up. */
  lemma TwoMediumOnions(parse: string -> Option<real>)
    requires parse("2") == Some(2.0)
    ensures CalculateProductQuantity(parse, "onions", Quantity("2", "medium"), Onion())
              == Some(Calculation(1, [Approximate, RoundedUpFrom(0.24)]))
  {
    MediumIsSize();
    OnionWeight();
    var a := Amount(((2.0 * 120.0) / 1000.0) / 1.0, true);
    assert SizeAmount("onions", 2.0, Onion()) == Some(a);
    assert ParsePositive(parse, "2") == Some(2.0);
    assert StrategyAmount(SizeDescriptor, "onions", "medium", 2.0, Onion()) == Some(a);
    assert CalculateProductQuantity(parse, "onions", Quantity("2", "medium"), Onion()) == Finalize(a);
    assert Ceil(a.packs) == 1;
    assert RoundingNotes(a) == [Approximate, RoundedUpFrom(0.24)];
  }

  lemma MediumIsSize()
    ensures Lower("medium") == "medium" && !Contains("2", "to taste")
    ensures Classify("2", "medium") == SizeDescriptor
  {
    assert Contains("medium", "medium") by {
      assert StartsWith("medium", "medium");
    }
  }

  lemma OnionWeight()
    ensures SizeWeight(Lower("onions")) == 120.0
  {
    assert Contains("onions", "onion") by {
      assert StartsWith("onions", "onion");
    }
    assert Lower("onions") == "onions";
  }

  /** One teaspoon of salt against a 1 kg pack: 6 g is 0.006 of a pack, so
      one pack with a rounding note, not the "minimum purchase" note. */
  lemma TeaspoonOfSalt(parse: string -> Option<real>)
    requires parse("1") == Some(1.0)
    ensures CalculateProductQuantity(parse, "salt", Quantity("1", "tsp"), TataSalt())
              == Some(Calculation(1, [Approximate, RoundedUpFrom(0.006)]))
  {
    assert Lower("tsp") == "tsp";
    assert !Contains("1", "to taste");
    assert !Contains("tsp", "medium") && !Contains("tsp", "large") && !Contains("tsp", "small");
    assert Classify("1", "tsp") == SpoonMeasure(Tsp);
    assert GramsPerSpoon(Tsp, TataSalt().tags) == 6.0;
    var a := Amount(TotalToPacks(1.0 * 6.0, TataSalt()), true);
    assert SpoonAmount(Tsp, 1.0, TataSalt()) == Some(a);
    assert a.packs == 0.006;
    assert ParsePositive(parse, "1") == Some(1.0);
    assert StrategyAmount(SpoonMeasure(Tsp), "salt", "tsp", 1.0, TataSalt()) == Some(a);
    assert CalculateProductQuantity(parse, "salt", Quantity("1", "tsp"), TataSalt()) == Finalize(a);
    assert Ceil(a.packs) == 1;
    assert RoundingNotes(a) == [Approximate, RoundedUpFrom(0.006)];
  }

  /** Half a kilogram of paneer sold in 200 g packs: 2.5 packs, so three. */
  lemma HalfKiloOfPaneer(parse: string -> Option<real>)
    requires parse("0.5") == Some(0.5)
    ensures CalculateProductQuantity(parse, "paneer", Quantity("0.5", "kg"), Paneer())
              == Some(Calculation(3, [RoundedUpFrom(2.5)]))
  {
    assert Lower("kg") == "kg";
    assert !Contains("0.5", "to taste");
    assert !Contains("kg", "medium") && !Contains("kg", "large") && !Contains("kg", "small");
    assert Classify("0.5", "kg") == Standard;
    var a := Amount((0.5 * 1000.0) / 200.0, false);
    assert StandardAmount("kg", 0.5, Paneer()) == Some(a);
    assert ParsePositive(parse, "0.5") == Some(0.5);
    assert StrategyAmount(Standard, "paneer", "kg", 0.5, Paneer()) == Some(a);
    assert CalculateProductQuantity(parse, "paneer", Quantity("0.5", "kg"), Paneer()) == Finalize(a);
    assert Ceil(a.packs) == 3;
    assert RoundingNotes(a) == [RoundedUpFrom(2.5)];
  }

  function SmallCatalog(): seq<Product>
  {
    [Onion(), TataSalt(), Paneer()]
  }

  lemma NormalizeOnions()
    ensures Normalize("Onions") == "onions"
  {
    LowerOnions();
    TrimUnspaced("onions");
  }

  lemma LowerOnions()
    ensures Lower("Onions") == "onions"
  {
  }

  lemma SingularOnions()
    ensures Singular("onions") == "onion"
  {
  }

  lemma FindOnion()
    ensures FindMatchingProduct(SmallCatalog(), "onion") == Some(Onion())
  {
    assert Lower("Onion") == "onion";
    assert FirstByName(SmallCatalog(), "onion", 0);
    FindMatchingProductSpec(SmallCatalog(), "onion");
  }

  /** "Onions" is looked up as "onion" and finds the onion product by name. */
  lemma OnionsFindOnion()
    ensures LookupNormalized(SmallCatalog(), Normalize("Onions")) == Some(Onion())
  {
    NormalizeOnions();
    SingularOnions();
    FindOnion();
  }
}
