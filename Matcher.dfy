/** The ingredient matcher of backend/src/services/MappingService.ts:
    normalisation, naive singularisation and the catalogue lookups. */
module Matcher {
  import opened Wrappers
  import opened Text
  import opened Catalog

  /** The name query: `name` matches `^key$` case-insensitively. */
  predicate NameMatches(p: Product, key: string)
  {
    Lower(p.name) == Lower(key)
  }

  /** The tag query: some tag matches `^key$` case-insensitively. */
  predicate TagMatches(p: Product, key: string)
  {
    exists t :: t in p.tags && Lower(t) == Lower(key)
  }

  /** Either query finds `p`. */
  predicate Matches(p: Product, key: string)
  {
    NameMatches(p, key) || TagMatches(p, key)
  }

  /** `catalog[i]` is the first product, in catalogue order, found by the name query. */
  predicate FirstByName(catalog: seq<Product>, key: string, i: int)
  {
    0 <= i < |catalog| && NameMatches(catalog[i], key)
    && forall j :: 0 <= j < i ==> !NameMatches(catalog[j], key)
  }

  /** `catalog[i]` is the first product, in catalogue order, found by the tag query. */
  predicate FirstByTag(catalog: seq<Product>, key: string, i: int)
  {
    0 <= i < |catalog| && TagMatches(catalog[i], key)
    && forall j :: 0 <= j < i ==> !TagMatches(catalog[j], key)
  }

  /** `findOne`: the index of the first product satisfying `matches`, if any. */
  function FirstWhere(catalog: seq<Product>, matches: Product -> bool): (r: Option<nat>)
    ensures r.Some? ==> r.value < |catalog|
  {
    if catalog == [] then None
    else if matches(catalog[0]) then Some(0)
    else match FirstWhere(catalog[1..], matches)
      case None => None
      case Some(k) => Some(k + 1)
  }

  /** `FirstWhere` finds a product satisfying `matches` with none before
      it, and finds nothing only when no product satisfies `matches`. */
  lemma {:induction false} FirstWhereSpec(catalog: seq<Product>, matches: Product -> bool)
    ensures var r := FirstWhere(catalog, matches);
      && (r.Some? ==> matches(catalog[r.value]))
      && (r.Some? ==> forall j :: 0 <= j < r.value ==> !matches(catalog[j]))
      && (r.None? ==> forall j :: 0 <= j < |catalog| ==> !matches(catalog[j]))
  {
    if catalog != [] && !matches(catalog[0]) {
      FirstWhereSpec(catalog[1..], matches);
      assert forall j :: 1 <= j < |catalog| ==> catalog[1..][j - 1] == catalog[j];
    }
  }

  /** The name query as a test on products. */
  function ByName(key: string): Product -> bool
  {
    p => NameMatches(p, key)
  }

  /** The tag query as a test on products. */
  function ByTag(key: string): Product -> bool
  {
    p => TagMatches(p, key)
  }

  /** `findMatchingProduct`: the first product found by name; failing that,
      the first found by tag; failing both, nothing. */
  function FindMatchingProduct(catalog: seq<Product>, key: string): (r: Option<Product>)
    ensures r.Some? ==> r.value in catalog
  {
    match FirstWhere(catalog, ByName(key))
    case Some(i) => Some(catalog[i])
    case None =>
      match FirstWhere(catalog, ByTag(key))
      case Some(i) => Some(catalog[i])
      case None => None
  }

  /** The product `findMatchingProduct` returns is the first found by name;
      only when no name matches, the first found by tag; and nothing only
      when neither query finds a product. */
  lemma FindMatchingProductSpec(catalog: seq<Product>, key: string)
    ensures forall i :: FirstByName(catalog, key, i) ==> FindMatchingProduct(catalog, key) == Some(catalog[i])
    ensures (forall p :: p in catalog ==> !NameMatches(p, key)) ==>
              forall i :: FirstByTag(catalog, key, i) ==> FindMatchingProduct(catalog, key) == Some(catalog[i])
    ensures FindMatchingProduct(catalog, key).None? <==> forall p :: p in catalog ==> !Matches(p, key)
    ensures FindMatchingProduct(catalog, key).Some? ==> Matches(FindMatchingProduct(catalog, key).value, key)
  {
    FirstWhereSpec(catalog, ByName(key));
    FirstWhereSpec(catalog, ByTag(key));
  }

  /** `toLowerCase().trim()` of an ingredient name. */
  function Normalize(name: string): (r: string)
    ensures |r| <= |name|
  {
    Trim(Lower(name))
  }

  /** A normalised name is lower-case, with no white space left at either
      end. */
  lemma NormalizeSpec(name: string)
    ensures IsLower(Normalize(name))
    ensures Normalize(name) == [] || (!IsSpace(Normalize(name)[0]) && !IsSpace(Normalize(name)[|Normalize(name)| - 1]))
  {
    LowerSpec(name);
    TrimKeepsLower(Lower(name));
    TrimSpec(Lower(name));
  }

  /** The naive singular: a trailing "es" is dropped, else a trailing "s".
      The result is a prefix of the name, at most two characters shorter, and
      differs from the name exactly when the name ends in "s". */
  function Singular(name: string): (r: string)
    ensures StartsWith(name, r) && |name| - 2 <= |r|
    ensures r != name <==> EndsWith(name, "s")
    ensures EndsWith(name, "es") ==> |r| == |name| - 2
    ensures !EndsWith(name, "es") && EndsWith(name, "s") ==> r == name[..|name| - 1]
  {
    if EndsWith(name, "es") then name[..|name| - 2]
    else if EndsWith(name, "s") then name[..|name| - 1]
    else name
  }

  /** The lookup of `mapIngredientsToProps` for a normalised name `n`: the
      singular form first, `n` itself only when the two differ and the
      singular form found nothing. */
  function LookupNormalized(catalog: seq<Product>, n: string): (r: Option<Product>)
    ensures r.Some? ==> r.value in catalog
  {
    var singular := Singular(n);
    match FindMatchingProduct(catalog, singular)
    case Some(p) => Some(p)
    case None =>
      if singular != n then FindMatchingProduct(catalog, n) else None
  }

  /** A product matching the singular form wins, and one matching it by
      name wins over tags. */
  lemma LookupPrefersSingular(catalog: seq<Product>, n: string)
    ensures (exists p :: p in catalog && Matches(p, Singular(n))) ==>
              LookupNormalized(catalog, n).Some? && Matches(LookupNormalized(catalog, n).value, Singular(n))
    ensures (exists p :: p in catalog && NameMatches(p, Singular(n))) ==>
              LookupNormalized(catalog, n).Some? && NameMatches(LookupNormalized(catalog, n).value, Singular(n))
  {
    FindMatchingProductSpec(catalog, Singular(n));
    FirstWhereSpec(catalog, ByName(Singular(n)));
  }

  /** `n` itself is consulted only when it differs from its singular form
      and the singular form found nothing; each try gives what
      `findMatchingProduct` gives for its key. */
  lemma LookupFallsBack(catalog: seq<Product>, n: string)
    ensures var r := LookupNormalized(catalog, n);
      r.Some? && !Matches(r.value, Singular(n)) ==> Singular(n) != n && Matches(r.value, n)
    ensures FindMatchingProduct(catalog, Singular(n)).Some? ==>
              LookupNormalized(catalog, n) == FindMatchingProduct(catalog, Singular(n))
    ensures (forall p :: p in catalog ==> !Matches(p, Singular(n))) && Singular(n) != n ==>
              LookupNormalized(catalog, n) == FindMatchingProduct(catalog, n)
  {
    var s := Singular(n);
    FindMatchingProductSpec(catalog, s);
    if FindMatchingProduct(catalog, s).None? && s != n {
      FindMatchingProductSpec(catalog, n);
    }
  }

  /** The lookup finds nothing exactly when neither the singular form nor,
      where it differs, `n` itself matches any product. */
  lemma LookupFindsNothing(catalog: seq<Product>, n: string)
    ensures LookupNormalized(catalog, n).None? <==>
              (forall p :: p in catalog ==> !Matches(p, Singular(n)))
              && (Singular(n) == n || forall p :: p in catalog ==> !Matches(p, n))
  {
    var s := Singular(n);
    FindMatchingProductSpec(catalog, s);
    if FindMatchingProduct(catalog, s).None? && s != n {
      FindMatchingProductSpec(catalog, n);
      assert LookupNormalized(catalog, n) == FindMatchingProduct(catalog, n);
    }
  }
}
