/** The quantity calculator of backend/src/services/MappingService.ts
    (`calculateProductQuantity`): a recipe quantity is dispatched to one of
    four strategies, converted into a fractional number of product packs,
    and rounded up. A failure is `None`, never an exception. */
module Calculator {
  import opened Wrappers
  import opened Text
  import opened Catalog

  /** A recipe quantity as the extraction step emits it. */
  datatype Quantity = Quantity(value: string, unit: string)

  /** The notes a calculation can carry, by kind; the number printed in
      "Rounded up from X." is kept as the raw amount. */
  datatype Note = ToTasteNote | Approximate | RoundedUpFrom(raw: real) | MinimumPurchase

  /** A successful calculation: packs to buy and the notes explaining it. */
  datatype Calculation = Calculation(quantity: int, notes: seq<Note>)

  datatype Spoon = Tbsp | Tsp

  /** The four mutually exclusive strategies, in the order they are tried. */
  datatype Strategy = Vague | SizeDescriptor | SpoonMeasure(spoon: Spoon) | Standard

  /** `requiredBaseAmount` (in packs) together with `isApproximate`. */
  datatype Amount = Amount(packs: real, approximate: bool)

  // The conversion-factor table `unitConversionFactors`.
  const TspGramsDefault: real := 3.0
  const TspGramsSalt: real := 6.0
  const TspGramsSugar: real := 4.0
  const TspGramsSpicePowder: real := 2.5
  const TbspGramsDefault: real := 10.0
  const TbspGramsButter: real := 15.0
  const TbspGramsSugar: real := 12.0
  const TbspGramsSpicePowder: real := 7.0
  const TbspMl: real := 15.0
  const TspMl: real := 5.0
  const MediumOnionGrams: real := 120.0
  const MediumTomatoGrams: real := 100.0

  /** `Math.ceil`: the least integer not below `x`. */
  function Ceil(x: real): (r: int)
    ensures x <= r as real < x + 1.0
  {
    -((-x).Floor)
  }

  /** Dividing by a positive number can be undone and keeps the sign. */
  lemma Quotient(x: real, y: real)
    requires y > 0.0
    ensures (x / y) * y == x
    ensures x > 0.0 ==> x / y > 0.0
  {
  }

  /** A product of positive numbers is positive. */
  lemma PositiveProduct(x: real, y: real)
    ensures x > 0.0 && y > 0.0 ==> x * y > 0.0
  {
  }

  /** The dispatch on the recipe quantity; `unit` is already lower-cased. */
  function Classify(value: string, unit: string): Strategy
  {
    if Contains(value, "to taste") then Vague
    else if Contains(unit, "medium") || Contains(unit, "large") || Contains(unit, "small") then SizeDescriptor
    else if unit == "tbsp" then SpoonMeasure(Tbsp)
    else if unit == "tsp" then SpoonMeasure(Tsp)
    else Standard
  }

  /** `parseFloat` followed by the `isNaN(v) || v <= 0` rejection. */
  function ParsePositive(parse: string -> Option<real>, value: string): (r: Option<real>)
    ensures r.Some? ==> r.value > 0.0 && parse(value) == r
    ensures r.None? <==> parse(value).None? || parse(value).value <= 0.0
  {
    match parse(value)
    case Some(v) => if v <= 0.0 then None else Some(v)
    case None => None
  }

  /** How many base units (g, ml, piece) one unit of a product unit holds. */
  function BaseScale(u: Unit): (s: real)
    ensures s > 0.0
  {
    match u
    case Kg => 1000.0
    case L => 1000.0
    case _ => 1.0
  }

  /** The same for the recipe units of the standard table. */
  function RecipeScale(unit: string): (s: real)
    ensures s > 0.0
  {
    if unit == "kg" || unit == "l" then 1000.0 else 1.0
  }

  /** Approximate grams per piece for the ingredient keywords the size
      table knows; zero when the lower-cased name contains neither. */
  function SizeWeight(lowerName: string): (w: real)
    ensures w > 0.0 <==> Contains(lowerName, "onion") || Contains(lowerName, "tomato")
    ensures Contains(lowerName, "onion") ==> w == MediumOnionGrams
    ensures !Contains(lowerName, "onion") && Contains(lowerName, "tomato") ==> w == MediumTomatoGrams
  {
    if Contains(lowerName, "onion") then MediumOnionGrams
    else if Contains(lowerName, "tomato") then MediumTomatoGrams
    else 0.0
  }

  /** The size-descriptor strategy ("2 medium onions"): it needs a known
      keyword and a kg, g or piece product; a piece product takes the count
      itself and is the one case not flagged approximate. */
  function SizeAmount(name: string, v: real, p: Product): (r: Option<Amount>)
    requires v > 0.0
    ensures r.Some? <==> SizeWeight(Lower(name)) > 0.0 && p.unit in {Kg, G, Piece}
    ensures r.Some? ==> r.value.packs > 0.0 && (r.value.approximate <==> p.unit != Piece)
    ensures r.Some? && p.unit == Piece ==> r.value.packs * p.unitQuantity == v
    ensures r.Some? && p.unit != Piece ==>
              r.value.packs * p.unitQuantity * BaseScale(p.unit) == v * SizeWeight(Lower(name))
  {
    var avgWeight := SizeWeight(Lower(name));
    PositiveProduct(v, avgWeight);
    Quotient(v * avgWeight, p.unitQuantity); Quotient((v * avgWeight) / 1000.0, p.unitQuantity);
    Quotient(v * avgWeight, 1000.0); Quotient(v, p.unitQuantity);
    if avgWeight > 0.0 && p.unit == Kg then Some(Amount(((v * avgWeight) / 1000.0) / p.unitQuantity, true))
    else if avgWeight > 0.0 && p.unit == G then Some(Amount((v * avgWeight) / p.unitQuantity, true))
    else if avgWeight > 0.0 && p.unit == Piece then Some(Amount(v / p.unitQuantity, false))
    else None
  }

  /** True when one of the spice-like tags is present. */
  predicate SpiceTagged(tags: seq<string>)
  {
    "spice" in tags || "powder" in tags || "masala" in tags
  }

  /** Grams per spoon, chosen by the product's tags: for a tablespoon
      butter/ghee, then sugar, then spice/powder/masala; for a teaspoon salt,
      then sugar, then spice/powder/masala; otherwise the default. */
  function GramsPerSpoon(spoon: Spoon, tags: seq<string>): (g: real)
    ensures g > 0.0
  {
    match spoon
    case Tbsp =>
      if "butter" in tags || "ghee" in tags then TbspGramsButter
      else if "sugar" in tags then TbspGramsSugar
      else if SpiceTagged(tags) then TbspGramsSpicePowder
      else TbspGramsDefault
    case Tsp =>
      if "salt" in tags then TspGramsSalt
      else if "sugar" in tags then TspGramsSugar
      else if SpiceTagged(tags) then TspGramsSpicePowder
      else TspGramsDefault
  }

  /** Millilitres per spoon, whatever the tags. */
  function MlPerSpoon(spoon: Spoon): (ml: real)
    ensures ml > 0.0
    ensures ml == if spoon == Tbsp then 15.0 else 5.0
  {
    match spoon
    case Tbsp => TbspMl
    case Tsp => TspMl
  }

  /** A total weight (or volume) in grams (or ml) as packs of `p`: divided
      by 1000 first for a kg (or l) product, then by the pack size. */
  function TotalToPacks(total: real, p: Product): (packs: real)
    ensures packs * p.unitQuantity * BaseScale(p.unit) == total
    ensures total > 0.0 ==> packs > 0.0
  {
    Quotient(total, p.unitQuantity); Quotient(total / 1000.0, p.unitQuantity); Quotient(total, 1000.0);
    if p.unit == Kg || p.unit == L then (total / 1000.0) / p.unitQuantity else total / p.unitQuantity
  }

  /** The spoon strategy: weight for g/kg products, volume for ml/l
      products, and nothing for piece or pack products. Always approximate. */
  function SpoonAmount(spoon: Spoon, v: real, p: Product): (r: Option<Amount>)
    requires v > 0.0
    ensures r.Some? <==> p.unit in {G, Kg, Ml, L}
    ensures r.Some? ==> r.value.packs > 0.0 && r.value.approximate
  {
    var gramsPerUnit := GramsPerSpoon(spoon, p.tags);
    var mlPerUnit := MlPerSpoon(spoon);
    PositiveProduct(v, gramsPerUnit);
    PositiveProduct(v, mlPerUnit);
    if (p.unit == G || p.unit == Kg) && gramsPerUnit > 0.0 then
      Some(Amount(TotalToPacks(v * gramsPerUnit, p), true))
    else if (p.unit == Ml || p.unit == L) && mlPerUnit > 0.0 then
      Some(Amount(TotalToPacks(v * mlPerUnit, p), true))
    else None
  }

  /** For a g or kg product, the spoon strategy's packs times the pack size
      in grams give back the spoons times the grams per spoon. */
  lemma SpoonWeightScales(spoon: Spoon, v: real, p: Product)
    requires v > 0.0 && p.unit in {G, Kg}
    ensures SpoonAmount(spoon, v, p).value.packs * p.unitQuantity * BaseScale(p.unit)
         == v * GramsPerSpoon(spoon, p.tags)
  {
    var packs := TotalToPacks(v * GramsPerSpoon(spoon, p.tags), p);
    assert SpoonAmount(spoon, v, p) == Some(Amount(packs, true));
  }

  /** For an ml or l product, the spoon strategy's packs times the pack size
      in ml give back the spoons times the ml per spoon. */
  lemma SpoonVolumeScales(spoon: Spoon, v: real, p: Product)
    requires v > 0.0 && p.unit in {Ml, L}
    ensures SpoonAmount(spoon, v, p).value.packs * p.unitQuantity * BaseScale(p.unit)
         == v * MlPerSpoon(spoon)
  {
    var packs := TotalToPacks(v * MlPerSpoon(spoon), p);
    assert SpoonAmount(spoon, v, p) == Some(Amount(packs, true));
  }

  /** The unit pairs of the standard conversion table. */
  predicate SupportedPair(unit: string, u: Unit)
  {
    || (unit == "piece" && u == Piece)
    || (unit in {"g", "kg"} && u in {G, Kg})
    || (unit in {"ml", "l"} && u in {Ml, L})
  }

  /** The standard strategy: same-dimension weight or volume conversion,
      divided by the pack size; piece to piece keeps the recipe count as it
      is, without dividing by the pack size. */
  function StandardAmount(unit: string, v: real, p: Product): (r: Option<Amount>)
    requires v > 0.0
    ensures r.Some? <==> SupportedPair(unit, p.unit)
    ensures r.Some? ==> r.value.packs > 0.0 && !r.value.approximate
    ensures r.Some? && unit == "piece" ==> r.value.packs == v
  {
    var q := p.unitQuantity;
    Quotient(v, q); Quotient(v * 1000.0, q); Quotient(v / 1000.0, q); Quotient(v, 1000.0);
    if unit == "piece" && p.unit == Piece then Some(Amount(v, false))
    else if unit == "g" && p.unit == G then Some(Amount(v / q, false))
    else if unit == "kg" && p.unit == G then Some(Amount((v * 1000.0) / q, false))
    else if unit == "g" && p.unit == Kg then Some(Amount((v / 1000.0) / q, false))
    else if unit == "kg" && p.unit == Kg then Some(Amount(v / q, false))
    else if unit == "ml" && p.unit == Ml then Some(Amount(v / q, false))
    else if unit == "l" && p.unit == Ml then Some(Amount((v * 1000.0) / q, false))
    else if unit == "ml" && p.unit == L then Some(Amount((v / 1000.0) / q, false))
    else if unit == "l" && p.unit == L then Some(Amount(v / q, false))
    else None
  }

  /** Off the piece path, the standard strategy's packs times the pack size
      in the product's base unit give back the recipe amount in that unit. */
  lemma StandardAmountScales(unit: string, v: real, p: Product)
    requires v > 0.0
    ensures var r := StandardAmount(unit, v, p);
      r.Some? && unit != "piece" ==>
        r.value.packs * p.unitQuantity * BaseScale(p.unit) == v * RecipeScale(unit)
  {
    var q := p.unitQuantity;
    if SupportedPair(unit, p.unit) && unit != "piece" {
      if unit in {"g", "ml"} && p.unit in {G, Ml} {
        Quotient(v, q);
      } else if unit in {"kg", "l"} && p.unit in {G, Ml} {
        Quotient(v * 1000.0, q);
      } else if unit in {"g", "ml"} {
        Quotient(v / 1000.0, q);
      } else {
        Quotient(v, q);
      }
    }
  }

  /** The notes a rounding produces: the approximation note first, then the
      rounding note exactly when the ceiling exceeds the raw amount. */
  function RoundingNotes(a: Amount): seq<Note>
  {
    (if a.approximate then [Approximate] else [])
    + (if Ceil(a.packs) as real > a.packs then [RoundedUpFrom(a.packs)] else [])
  }

  /** The rounding and final calculation. A negative or zero amount fails;
      a positive one is rounded up to at least one pack. The source's
      "minimum purchase" branch needs a positive amount whose ceiling is 0,
      which no real number has, so it never fires. */
  function Finalize(a: Amount): (r: Option<Calculation>)
    ensures r.Some? <==> a.packs > 0.0
    ensures r.Some? ==> r.value.quantity >= 1 && r.value.quantity == Ceil(a.packs)
    ensures r.Some? ==> a.packs <= r.value.quantity as real < a.packs + 1.0
    ensures r.Some? ==> r.value.notes == RoundingNotes(a) && MinimumPurchase !in r.value.notes
  {
    if a.packs >= 0.0 then
      var rounded := Ceil(a.packs);
      var lead := if a.approximate then [Approximate] else [];
      if rounded as real > a.packs then Some(Calculation(rounded, lead + [RoundedUpFrom(a.packs)]))
      else if rounded == 0 && a.packs > 0.0 then Some(Calculation(1, lead + [MinimumPurchase]))
      else if rounded == 0 && a.packs == 0.0 then None
      else Some(Calculation(rounded, lead))
    else None
  }

  /** The amount the chosen numeric strategy computes for a parsed value. */
  function StrategyAmount(strategy: Strategy, name: string, unit: string, v: real, p: Product): (r: Option<Amount>)
    requires !strategy.Vague? && v > 0.0
    ensures r.Some? ==> r.value.packs > 0.0
  {
    match strategy
    case SizeDescriptor => SizeAmount(name, v, p)
    case SpoonMeasure(spoon) => SpoonAmount(spoon, v, p)
    case Standard => StandardAmount(unit, v, p)
  }

  /** `calculateProductQuantity`. "to taste" anywhere in the value gives one
      pack whatever the unit and product; otherwise a value that does not
      parse or is not positive fails, and a success is the ceiling of the
      strategy's amount, at least one pack. */
  function CalculateProductQuantity(parse: string -> Option<real>, name: string, q: Quantity, p: Product)
    : (r: Option<Calculation>)
    ensures Contains(q.value, "to taste") ==> r == Some(Calculation(1, [ToTasteNote]))
    ensures !Contains(q.value, "to taste") && ParsePositive(parse, q.value).None? ==> r.None?
    ensures r.Some? ==> r.value.quantity >= 1
    ensures r.Some? && !Contains(q.value, "to taste") ==>
              ToTasteNote !in r.value.notes && MinimumPurchase !in r.value.notes
  {
    var unit := Lower(q.unit);
    var strategy := Classify(q.value, unit);
    if strategy.Vague? then Some(Calculation(1, [ToTasteNote]))
    else
      match ParsePositive(parse, q.value)
      case None => None
      case Some(v) =>
        match StrategyAmount(strategy, name, unit, v, p)
        case None => None
        case Some(a) => Finalize(a)
  }

  /** When a numeric calculation succeeds: exactly when the value parses to
      a positive number and the chosen strategy supports the product's unit
      (and, for a size descriptor, the name holds a known keyword). The
      result is then the rounding of the strategy's amount: its ceiling,
      flagged approximate exactly for spoons and for sizes against weight
      products, and flagged rounded up exactly when the ceiling exceeds it. */
  lemma CalculationOutcome(parse: string -> Option<real>, name: string, q: Quantity, p: Product)
    requires !Contains(q.value, "to taste")
    ensures var r := CalculateProductQuantity(parse, name, q, p);
      var unit := Lower(q.unit);
      var strategy := Classify(q.value, unit);
      && (r.Some? <==>
            && ParsePositive(parse, q.value).Some?
            && match strategy
               case SizeDescriptor => SizeWeight(Lower(name)) > 0.0 && p.unit in {Kg, G, Piece}
               case SpoonMeasure(_) => p.unit in {G, Kg, Ml, L}
               case _ => SupportedPair(unit, p.unit))
      && (r.Some? ==>
            r.value.quantity
              == Ceil(StrategyAmount(strategy, name, unit, ParsePositive(parse, q.value).value, p).value.packs))
      && (r.Some? ==> r == Finalize(StrategyAmount(strategy, name, unit, ParsePositive(parse, q.value).value, p).value))
    ensures var r := CalculateProductQuantity(parse, name, q, p);
      var unit := Lower(q.unit);
      var strategy := Classify(q.value, unit);
      r.Some? ==>
        var a := StrategyAmount(strategy, name, unit, ParsePositive(parse, q.value).value, p).value;
        && (Approximate in r.value.notes <==>
              strategy.SpoonMeasure? || (strategy.SizeDescriptor? && p.unit != Piece))
        && (RoundedUpFrom(a.packs) in r.value.notes <==> Ceil(a.packs) as real > a.packs)
  {
  }

  /** The standard conversion checked directly: X kg of an ingredient sold
      in packs of S kg needs the ceiling of X / S packs, with a rounding
      note exactly when X / S is not whole. */
  lemma KilogramPacks(parse: string -> Option<real>, name: string, q: Quantity, p: Product, x: real)
    requires !Contains(q.value, "to taste") && Lower(q.unit) == "kg" && p.unit == Kg
    requires parse(q.value) == Some(x) && x > 0.0
    ensures var packs := x / p.unitQuantity;
      CalculateProductQuantity(parse, name, q, p)
        == Some(Calculation(Ceil(packs), if Ceil(packs) as real > packs then [RoundedUpFrom(packs)] else []))
  {
    assert !Contains("kg", "medium") && !Contains("kg", "large") && !Contains("kg", "small");
    assert Classify(q.value, "kg") == Standard;
    assert ParsePositive(parse, q.value) == Some(x);
    var a := Amount(x / p.unitQuantity, false);
    assert StandardAmount("kg", x, p) == Some(a);
    assert StrategyAmount(Standard, name, "kg", x, p) == Some(a);
    assert CalculateProductQuantity(parse, name, q, p) == Finalize(a);
    assert RoundingNotes(a) == if Ceil(a.packs) as real > a.packs then [RoundedUpFrom(a.packs)] else [];
  }

  /** A piece-to-piece conversion keeps the recipe count and ignores the pack size. */
  lemma PieceCountIgnoresPackSize(parse: string -> Option<real>, name: string, q: Quantity, p: Product, x: real)
    requires !Contains(q.value, "to taste") && Lower(q.unit) == "piece" && p.unit == Piece
    requires parse(q.value) == Some(x) && x > 0.0
    ensures CalculateProductQuantity(parse, name, q, p)
              == Some(Calculation(Ceil(x), if Ceil(x) as real > x then [RoundedUpFrom(x)] else []))
  {
    assert !Contains("piece", "medium");
    assert !Contains("piece", "large") by {
      ContainsFits("piece"[1..], "large");
      assert "piece"[0] != "large"[0];
    }
    assert !Contains("piece", "small");
    assert Classify(q.value, "piece") == Standard;
    assert ParsePositive(parse, q.value) == Some(x);
    var a := Amount(x, false);
    assert StandardAmount("piece", x, p) == Some(a);
    assert StrategyAmount(Standard, name, "piece", x, p) == Some(a);
    assert CalculateProductQuantity(parse, name, q, p) == Finalize(a);
    assert RoundingNotes(a) == if Ceil(a.packs) as real > a.packs then [RoundedUpFrom(a.packs)] else [];
  }

  /** The tag priorities of the spoon table. A tablespoon: butter or ghee,
      then sugar, then spice/powder/masala, then the default. A teaspoon:
      salt, then sugar, then spice/powder/masala, then the default. */
  lemma SpoonTagPriority(tags: seq<string>)
    ensures "butter" in tags || "ghee" in tags ==> GramsPerSpoon(Tbsp, tags) == 15.0
    ensures "butter" !in tags && "ghee" !in tags && "sugar" in tags ==> GramsPerSpoon(Tbsp, tags) == 12.0
    ensures "butter" !in tags && "ghee" !in tags && "sugar" !in tags && SpiceTagged(tags) ==>
              GramsPerSpoon(Tbsp, tags) == 7.0
    ensures "butter" !in tags && "ghee" !in tags && "sugar" !in tags && !SpiceTagged(tags) ==>
              GramsPerSpoon(Tbsp, tags) == 10.0
    ensures "salt" in tags ==> GramsPerSpoon(Tsp, tags) == 6.0
    ensures "salt" !in tags && "sugar" in tags ==> GramsPerSpoon(Tsp, tags) == 4.0
    ensures "salt" !in tags && "sugar" !in tags && SpiceTagged(tags) ==> GramsPerSpoon(Tsp, tags) == 2.5
    ensures "salt" !in tags && "sugar" !in tags && !SpiceTagged(tags) ==> GramsPerSpoon(Tsp, tags) == 3.0
    ensures GramsPerSpoon(Tbsp, tags) in {15.0, 12.0, 7.0, 10.0}
    ensures GramsPerSpoon(Tsp, tags) in {6.0, 4.0, 2.5, 3.0}
  {
  }
}
