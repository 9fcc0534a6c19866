/** Query understanding: the implicit price, rating, category and brand filters
    found in the free-text query and merged into the caller's filters. */
module FilterExtraction {
  import opened Base
  import opened Text
  import opened Patterns

  /** Price patterns in priority order; only the first that matches applies. */
  const PricePatterns: seq<Pattern> := [Under, Below, LessThan, Over, Above, MoreThan, DollarRange, Between]

  /** Rating patterns in priority order; only the first that matches applies. */
  const RatingPatterns: seq<Pattern> := [PlusStars, StarsOrBetter, HighlyRated, TopRated]

  /** Keyword to category, in declaration order; the first keyword found wins. */
  const CategoryKeywords: seq<(string, string)> := [
    ("laptop", "Electronics"),
    ("computer", "Electronics"),
    ("headphones", "Electronics"),
    ("phone", "Electronics"),
    ("camera", "Electronics"),
    ("shirt", "Clothing & Accessories"),
    ("shoes", "Clothing & Accessories"),
    ("dress", "Clothing & Accessories"),
    ("jacket", "Clothing & Accessories"),
    ("running", "Sports & Outdoors"),
    ("fitness", "Sports & Outdoors"),
    ("outdoor", "Sports & Outdoors"),
    ("camping", "Sports & Outdoors"),
    ("furniture", "Home & Garden"),
    ("kitchen", "Home & Garden"),
    ("garden", "Home & Garden"),
    ("decor", "Home & Garden")
  ]

  /** Brand names, lower-case, in the order they are tried. */
  const KnownBrands: seq<string> := [
    "apple", "samsung", "sony", "nike", "adidas", "canon", "dell", "hp",
    "lenovo", "bose", "calvin klein", "coach", "under armour", "patagonia"
  ]

  predicate IsPricePattern(p: Pattern) { p in PricePatterns }

  /** `int(...)` or `float(...)` of the digits a decimal pattern captured. */
  function DotIndex(d: string): (k: nat)
    ensures k <= |d|
    ensures forall j :: 0 <= j < k ==> d[j] != '.'
    ensures k < |d| ==> d[k] == '.'
    decreases |d|
  {
    if d == [] then 0 else if d[0] == '.' then 0 else 1 + DotIndex(d[1..])
  }

  /** `float(d)` for text of the form digits, optional dot, digits (exact, not rounded). */
  function FloatValue(d: string): real {
    var k := DotIndex(d);
    DecimalValue(d[..k]) as real +
      (if k < |d| then DecimalValue(d[k + 1..]) as real / Pow10(|d| - k - 1) as real else 0.0)
  }

  /** `float` of an integer's digits is that integer. */
  lemma FloatValueOfInteger(n: nat)
    ensures FloatValue(DigitsOf(n)) == n as real
  {
    var d := DigitsOf(n);
    assert forall j :: 0 <= j < |d| ==> d[j] != '.';
    assert DotIndex(d) == |d|;
    assert d[..|d|] == d;
    DecimalValueOfDigits(n);
  }

  /** The dictionary the pattern's extractor returns for the captured groups. */
  function PatternUpdate(p: Pattern, groups: seq<string>): (u: Dict)
    requires |groups| == GroupCount(p)
    ensures IsPricePattern(p) ==> u.Keys <= {"price_min", "price_max"}
    ensures !IsPricePattern(p) ==> u.Keys == {"rating_min"}
    ensures p in {Under, Below, LessThan} ==>
              u.Keys == {"price_max"} && u["price_max"] == Int(DecimalValue(groups[0]))
    ensures p in {Over, Above, MoreThan} ==>
              u.Keys == {"price_min"} && u["price_min"] == Int(DecimalValue(groups[0]))
    ensures p in {DollarRange, Between} ==>
              && u.Keys == {"price_min", "price_max"}
              && u["price_min"] == Int(DecimalValue(groups[0])) && u["price_max"] == Int(DecimalValue(groups[1]))
    ensures p in {PlusStars, StarsOrBetter} ==> u["rating_min"] == Real(FloatValue(groups[0]))
    ensures p == HighlyRated ==> u["rating_min"] == Real(4.0)
    ensures p == TopRated ==> u["rating_min"] == Real(4.5)
  {
    match p
    case Under | Below | LessThan => map["price_max" := Int(DecimalValue(groups[0]))]
    case Over | Above | MoreThan => map["price_min" := Int(DecimalValue(groups[0]))]
    case DollarRange | Between =>
      map["price_min" := Int(DecimalValue(groups[0])), "price_max" := Int(DecimalValue(groups[1]))]
    case PlusStars | StarsOrBetter => map["rating_min" := Real(FloatValue(groups[0]))]
    case HighlyRated => map["rating_min" := Real(4.0)]
    case TopRated => map["rating_min" := Real(4.5)]
  }

  /** Index of the first pattern of the table, from i on, that matches q anywhere;
      |table| when none does. */
  function FirstPattern(table: seq<Pattern>, q: string, i: nat): (k: nat)
    requires i <= |table|
    ensures i <= k <= |table|
    ensures k < |table| ==> Search(table[k], q).Some?
    ensures forall j :: i <= j < k ==> Search(table[j], q).None?
    decreases |table| - i
  {
    if i == |table| then i
    else if Search(table[i], q).Some? then i
    else FirstPattern(table, q, i + 1)
  }

  /** Index of the first keyword of the table, from i on, that occurs in q. */
  function FirstKeyword(table: seq<(string, string)>, q: string, i: nat): (k: nat)
    requires i <= |table|
    ensures i <= k <= |table|
    ensures k < |table| ==> Contains(q, table[k].0)
    ensures forall j :: i <= j < k ==> !Contains(q, table[j].0)
    decreases |table| - i
  {
    if i == |table| then i
    else if Contains(q, table[i].0) then i
    else FirstKeyword(table, q, i + 1)
  }

  /** Index of the first brand of the list, from i on, that occurs in q. */
  function FirstBrand(brands: seq<string>, q: string, i: nat): (k: nat)
    requires i <= |brands|
    ensures i <= k <= |brands|
    ensures k < |brands| ==> Contains(q, brands[k])
    ensures forall j :: i <= j < k ==> !Contains(q, brands[j])
    decreases |brands| - i
  {
    if i == |brands| then i
    else if Contains(q, brands[i]) then i
    else FirstBrand(brands, q, i + 1)
  }

  /** a and b agree on key: both lack it, or both map it to the same value. */
  predicate SameAt(a: Dict, b: Dict, key: string) {
    (key in a <==> key in b) && (key in a ==> a[key] == b[key])
  }

  /** The update applied by the first matching pattern of the table, if any. */
  function TableUpdate(table: seq<Pattern>, q: string): (u: Option<Dict>)
  {
    var k := FirstPattern(table, q, 0);
    if k < |table| then Some(PatternUpdate(table[k], Search(table[k], q).value)) else None
  }

  /** The update of a table is that of a matching pattern with no match before it. */
  lemma TableUpdateAt(table: seq<Pattern>, q: string, k: nat)
    requires k < |table| && Search(table[k], q).Some?
    requires forall j :: 0 <= j < k ==> Search(table[j], q).None?
    ensures TableUpdate(table, q) == Some(PatternUpdate(table[k], Search(table[k], q).value))
  {
    assert FirstPattern(table, q, 0) == k;
  }

  /** The price step: the first matching price pattern overwrites its keys. */
  function WithPrice(q: string, f: Dict): (r: Dict)
    ensures forall key :: key != "price_min" && key != "price_max" ==> SameAt(r, f, key)
  {
    match TableUpdate(PricePatterns, q)
    case None => f
    case Some(u) => f + u
  }

  /** The rating step: the first matching rating pattern overwrites rating_min. */
  function WithRating(q: string, f: Dict): (r: Dict)
    ensures forall key :: key != "rating_min" ==> SameAt(r, f, key)
  {
    match TableUpdate(RatingPatterns, q)
    case None => f
    case Some(u) => f + u
  }

  /** The category step: only when no category is set yet. */
  function WithCategory(q: string, f: Dict): (r: Dict)
    ensures forall key :: key != "category" ==> SameAt(r, f, key)
    ensures "category" in f ==> SameAt(r, f, "category")
  {
    if "category" in f then f
    else
      var k := FirstKeyword(CategoryKeywords, q, 0);
      if k < |CategoryKeywords| then f["category" := Str(CategoryKeywords[k].1)] else f
  }

  /** The brand step: only when no brand is set yet; the brand is title-cased. */
  function WithBrand(q: string, f: Dict): (r: Dict)
    ensures forall key :: key != "brand" ==> SameAt(r, f, key)
    ensures "brand" in f ==> SameAt(r, f, "brand")
  {
    if "brand" in f then f
    else
      var k := FirstBrand(KnownBrands, q, 0);
      if k < |KnownBrands| then f["brand" := Str(TitleCase(KnownBrands[k]))] else f
  }

  /** The filters `_extract_query_filters(query, existing)` returns. */
  function EnhancedFilters(query: string, existing: Dict): Dict {
    var q := Lower(query);
    WithBrand(q, WithCategory(q, WithRating(q, WithPrice(q, existing))))
  }

  /** A copy of the caller's filters, updated by four first-match-wins scans of
      the lower-cased query. */
  method ExtractQueryFilters(query: string, existing: Dict) returns (enhanced: Dict)
    ensures enhanced == EnhancedFilters(query, existing)
  {
    enhanced := existing;
    var q := Lower(query);
    enhanced := ScanPricePatterns(q, enhanced);
    enhanced := ScanRatingPatterns(q, enhanced);
    enhanced := ScanCategoryKeywords(q, enhanced);
    enhanced := ScanKnownBrands(q, enhanced);
  }

  /** The price loop: apply the first price pattern that matches, then stop. */
  method ScanPricePatterns(q: string, filters: Dict) returns (enhanced: Dict)
    ensures enhanced == WithPrice(q, filters)
  {
    enhanced := filters;
    for k := 0 to |PricePatterns|
      invariant enhanced == filters
      invariant forall j :: 0 <= j < k ==> Search(PricePatterns[j], q).None?
    {
      var m := Search(PricePatterns[k], q);
      if m.Some? {
        TableUpdateAt(PricePatterns, q, k);
        enhanced := enhanced + PatternUpdate(PricePatterns[k], m.value);
        break;
      }
    }
  }

  /** The rating loop: apply the first rating pattern that matches, then stop. */
  method ScanRatingPatterns(q: string, filters: Dict) returns (enhanced: Dict)
    ensures enhanced == WithRating(q, filters)
  {
    enhanced := filters;
    for k := 0 to |RatingPatterns|
      invariant enhanced == filters
      invariant forall j :: 0 <= j < k ==> Search(RatingPatterns[j], q).None?
    {
      var m := Search(RatingPatterns[k], q);
      if m.Some? {
        TableUpdateAt(RatingPatterns, q, k);
        enhanced := enhanced + PatternUpdate(RatingPatterns[k], m.value);
        break;
      }
    }
  }

  /** The category loop: the first keyword found sets a category not yet present. */
  method ScanCategoryKeywords(q: string, filters: Dict) returns (enhanced: Dict)
    ensures enhanced == WithCategory(q, filters)
  {
    enhanced := filters;
    for k := 0 to |CategoryKeywords|
      invariant enhanced == filters
      invariant "category" !in filters ==> forall j :: 0 <= j < k ==> !Contains(q, CategoryKeywords[j].0)
    {
      var (keyword, category) := CategoryKeywords[k];
      if Contains(q, keyword) && "category" !in enhanced {
        assert FirstKeyword(CategoryKeywords, q, 0) == k;
        enhanced := enhanced["category" := Str(category)];
        break;
      }
    }
  }

  /** The brand loop: the first brand found sets a brand not yet present. */
  method ScanKnownBrands(q: string, filters: Dict) returns (enhanced: Dict)
    ensures enhanced == WithBrand(q, filters)
  {
    enhanced := filters;
    for k := 0 to |KnownBrands|
      invariant enhanced == filters
      invariant "brand" !in filters ==> forall j :: 0 <= j < k ==> !Contains(q, KnownBrands[j])
    {
      var brand := KnownBrands[k];
      if Contains(q, brand) && "brand" !in enhanced {
        assert FirstBrand(KnownBrands, q, 0) == k;
        enhanced := enhanced["brand" := Str(TitleCase(brand))];
        break;
      }
    }
  }

  /** Keys other than the five extracted ones pass through untouched. */
  lemma OtherKeysUnchanged(query: string, existing: Dict, key: string)
    requires key !in {"price_min", "price_max", "rating_min", "category", "brand"}
    ensures SameAt(EnhancedFilters(query, existing), existing, key)
  {
    var q := Lower(query);
    var a := WithPrice(q, existing);
    var b := WithRating(q, a);
    var c := WithCategory(q, b);
    assert SameAt(a, existing, key);
    assert SameAt(b, a, key);
    assert SameAt(c, b, key);
    assert SameAt(WithBrand(q, c), c, key);
  }

  /** The later steps leave the price keys as the price step set them. */
  lemma LaterStepsKeepPrice(q: string, p: Dict, key: string)
    requires key == "price_min" || key == "price_max"
    ensures SameAt(WithBrand(q, WithCategory(q, WithRating(q, p))), p, key)
  {
    var b := WithRating(q, p);
    var c := WithCategory(q, b);
    assert SameAt(b, p, key);
    assert SameAt(c, b, key);
    assert SameAt(WithBrand(q, c), c, key);
  }

  /** The price and rating steps leave category and brand as they were. */
  lemma EarlyStepsKeep(q: string, f: Dict, key: string)
    requires key == "category" || key == "brand"
    ensures SameAt(WithRating(q, WithPrice(q, f)), f, key)
  {
    var a := WithPrice(q, f);
    assert SameAt(a, f, key);
    assert SameAt(WithRating(q, a), a, key);
  }

  /** The category and brand steps leave rating_min as the rating step set it. */
  lemma LaterStepsKeepRating(q: string, p: Dict)
    ensures SameAt(WithBrand(q, WithCategory(q, p)), p, "rating_min")
  {
    var c := WithCategory(q, p);
    assert SameAt(c, p, "rating_min");
    assert SameAt(WithBrand(q, c), c, "rating_min");
  }

  /** The first price pattern, in table order, that matches anywhere in the
      lower-cased query sets its keys, overwriting the caller's values; a price key
      that pattern does not set keeps the caller's value. */
  lemma PriceFirstPatternWins(query: string, existing: Dict, k: nat)
    requires k < |PricePatterns|
    requires Search(PricePatterns[k], Lower(query)).Some?
    requires forall j :: 0 <= j < k ==> Search(PricePatterns[j], Lower(query)).None?
    ensures var u := PatternUpdate(PricePatterns[k], Search(PricePatterns[k], Lower(query)).value);
            var r := EnhancedFilters(query, existing);
            forall key :: key == "price_min" || key == "price_max" ==>
              if key in u then key in r && r[key] == u[key] else SameAt(r, existing, key)
  {
    var q := Lower(query);
    assert FirstPattern(PricePatterns, q, 0) == k;
    var u := PatternUpdate(PricePatterns[k], Search(PricePatterns[k], q).value);
    var p := WithPrice(q, existing);
    assert p == existing + u;
    forall key | key == "price_min" || key == "price_max"
      ensures var r := EnhancedFilters(query, existing);
              if key in u then key in r && r[key] == u[key] else SameAt(r, existing, key)
    {
      LaterStepsKeepPrice(q, p, key);
    }
  }

  /** When no price pattern matches, the price keys are the caller's. */
  lemma NoPricePatternKeepsPrice(query: string, existing: Dict)
    requires forall j :: 0 <= j < |PricePatterns| ==> Search(PricePatterns[j], Lower(query)).None?
    ensures SameAt(EnhancedFilters(query, existing), existing, "price_min")
    ensures SameAt(EnhancedFilters(query, existing), existing, "price_max")
  {
    var q := Lower(query);
    assert FirstPattern(PricePatterns, q, 0) == |PricePatterns|;
    assert WithPrice(q, existing) == existing;
    LaterStepsKeepPrice(q, existing, "price_min");
    LaterStepsKeepPrice(q, existing, "price_max");
  }

  /** The first rating pattern that matches sets rating_min, overwriting the
      caller's value: the captured number for "N+ stars" and "N stars or better",
      4.0 for "highly rated" and 4.5 for "top rated". */
  lemma RatingFirstPatternWins(query: string, existing: Dict, k: nat)
    requires k < |RatingPatterns|
    requires Search(RatingPatterns[k], Lower(query)).Some?
    requires forall j :: 0 <= j < k ==> Search(RatingPatterns[j], Lower(query)).None?
    ensures var g := Search(RatingPatterns[k], Lower(query)).value;
            var r := EnhancedFilters(query, existing);
            "rating_min" in r &&
            r["rating_min"] == (if k < 2 then Real(FloatValue(g[0])) else if k == 2 then Real(4.0) else Real(4.5))
  {
    var q := Lower(query);
    var g := Search(RatingPatterns[k], q).value;
    assert FirstPattern(RatingPatterns, q, 0) == k;
    var a := WithPrice(q, existing);
    var u := PatternUpdate(RatingPatterns[k], g);
    assert TableUpdate(RatingPatterns, q) == Some(u);
    assert WithRating(q, a) == a + u;
    RatingUpdateValue(k, g);
    LaterStepsKeepRating(q, a + u);
  }

  /** The rating_min each rating pattern's extractor returns. */
  lemma RatingUpdateValue(k: nat, g: seq<string>)
    requires k < |RatingPatterns| && |g| == GroupCount(RatingPatterns[k])
    ensures var u := PatternUpdate(RatingPatterns[k], g);
      "rating_min" in u &&
      u["rating_min"] == (if k < 2 then Real(FloatValue(g[0])) else if k == 2 then Real(4.0) else Real(4.5))
  {
  }

  /** When no rating pattern matches, rating_min is the caller's. */
  lemma NoRatingPatternKeepsRating(query: string, existing: Dict)
    requires forall j :: 0 <= j < |RatingPatterns| ==> Search(RatingPatterns[j], Lower(query)).None?
    ensures SameAt(EnhancedFilters(query, existing), existing, "rating_min")
  {
    var q := Lower(query);
    assert FirstPattern(RatingPatterns, q, 0) == |RatingPatterns|;
    var a := WithPrice(q, existing);
    assert SameAt(a, existing, "rating_min");
    assert WithRating(q, a) == a;
    LaterStepsKeepRating(q, a);
  }

  /** Without a caller category, the first keyword of the table found in the
      lower-cased query decides the category. */
  lemma CategoryFromFirstKeyword(query: string, existing: Dict, k: nat)
    requires "category" !in existing
    requires k < |CategoryKeywords| && Contains(Lower(query), CategoryKeywords[k].0)
    requires forall j :: 0 <= j < k ==> !Contains(Lower(query), CategoryKeywords[j].0)
    ensures var r := EnhancedFilters(query, existing);
            "category" in r && r["category"] == Str(CategoryKeywords[k].1)
  {
    var q := Lower(query);
    assert FirstKeyword(CategoryKeywords, q, 0) == k;
    var rated := WithRating(q, WithPrice(q, existing));
    EarlyStepsKeep(q, existing, "category");
    var c := WithCategory(q, rated);
    assert c == rated["category" := Str(CategoryKeywords[k].1)];
    assert SameAt(WithBrand(q, c), c, "category");
  }

  /** A caller category is never replaced, and no keyword means no category. */
  lemma CategoryOnlyFromKeywords(query: string, existing: Dict)
    ensures "category" in existing ==> SameAt(EnhancedFilters(query, existing), existing, "category")
    ensures (forall j :: 0 <= j < |CategoryKeywords| ==> !Contains(Lower(query), CategoryKeywords[j].0)) ==>
              SameAt(EnhancedFilters(query, existing), existing, "category")
  {
    var q := Lower(query);
    var rated := WithRating(q, WithPrice(q, existing));
    EarlyStepsKeep(q, existing, "category");
    var c := WithCategory(q, rated);
    assert SameAt(WithBrand(q, c), c, "category");
    if "category" !in rated && forall j :: 0 <= j < |CategoryKeywords| ==> !Contains(q, CategoryKeywords[j].0) {
      assert FirstKeyword(CategoryKeywords, q, 0) == |CategoryKeywords|;
      assert c == rated;
    }
  }

  /** Without a caller brand, the first known brand found in the lower-cased
      query is stored title-cased. */
  lemma BrandFromFirstMention(query: string, existing: Dict, k: nat)
    requires "brand" !in existing
    requires k < |KnownBrands| && Contains(Lower(query), KnownBrands[k])
    requires forall j :: 0 <= j < k ==> !Contains(Lower(query), KnownBrands[j])
    ensures var r := EnhancedFilters(query, existing);
            "brand" in r && r["brand"] == Str(TitleCase(KnownBrands[k]))
  {
    var q := Lower(query);
    assert FirstBrand(KnownBrands, q, 0) == k;
    var rated := WithRating(q, WithPrice(q, existing));
    EarlyStepsKeep(q, existing, "brand");
    var categorised := WithCategory(q, rated);
    assert SameAt(categorised, rated, "brand");
  }

  /** A caller brand is never replaced, and no mention means no brand. */
  lemma BrandOnlyFromMentions(query: string, existing: Dict)
    ensures "brand" in existing ==> SameAt(EnhancedFilters(query, existing), existing, "brand")
    ensures (forall j :: 0 <= j < |KnownBrands| ==> !Contains(Lower(query), KnownBrands[j])) ==>
              SameAt(EnhancedFilters(query, existing), existing, "brand")
  {
    var q := Lower(query);
    var rated := WithRating(q, WithPrice(q, existing));
    EarlyStepsKeep(q, existing, "brand");
    var categorised := WithCategory(q, rated);
    assert SameAt(categorised, rated, "brand");
    if forall j :: 0 <= j < |KnownBrands| ==> !Contains(q, KnownBrands[j]) {
      assert FirstBrand(KnownBrands, q, 0) == |KnownBrands|;
    }
  }
}
