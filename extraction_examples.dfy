/** Worked queries for the filter extractor, evaluated on the model. Each query
    is checked one scan at a time; the last lemma of each group states the
    filters the whole extractor returns. */
module ExtractionExamples {
  import opened Base
  import opened Text
  import opened Patterns
  import opened FilterExtraction

  // "running shoes under $50"

  lemma RunningShoesLower(q: string)
    requires q == "running shoes under $50"
    ensures Lower(q) == q
  {
    LowerOfLowercase(q);
  }

  lemma RunningShoesUnderAt(q: string)
    requires q == "running shoes under $50"
    ensures MatchAt(Under, q, 14) == Some(["50"])
  {
    assert q[14..20] == "under ";
    StartsAtSlice(q, "under ", 14);
    assert DigitRunEnd(q, 21) == 23;
    assert q[21..23] == "50";
  }

  lemma RunningShoesUnder(q: string)
    requires q == "running shoes under $50"
    ensures Search(Under, q) == Some(["50"])
  {
    RunningShoesUnderAt(q);
    assert forall j: nat :: j < 14 ==> MatchAt(Under, q, j).None?;
    assert MatchPosFrom(Under, q, 0) == 14;
  }

  lemma RunningShoesPrice(q: string, f: Dict)
    requires q == "running shoes under $50"
    ensures WithPrice(q, f) == f + map["price_max" := Int(50)]
  {
    RunningShoesUnder(q);
    assert FirstPattern(PricePatterns, q, 0) == 0;
    assert DecimalValue("5") == 5;
    assert TableUpdate(PricePatterns, q) == Some(map["price_max" := Int(50)]);
  }

  lemma RunningShoesNoRatingPattern0(q: string)
    requires q == "running shoes under $50"
    ensures Search(PlusStars, q).None? && Search(StarsOrBetter, q).None? && Search(HighlyRated, q).None? && Search(TopRated, q).None?
  {
    assert !Contains(q, "+ star") by { MissingCharNotContained(q, "+ star", 0); }
    SearchNeedsAnchor(PlusStars, q);
    assert !Contains(q, " star") by { MissingCharNotContained(q, " star", 2); }
    SearchNeedsAnchor(StarsOrBetter, q);
    assert !Contains(q, "highly rated") by { MissingCharNotContained(q, "highly rated", 4); }
    SearchNeedsAnchor(HighlyRated, q);
    assert !Contains(q, "top rated") by { MissingCharNotContained(q, "top rated", 0); }
    SearchNeedsAnchor(TopRated, q);
  }

  lemma RunningShoesRating(q: string, f: Dict)
    requires q == "running shoes under $50"
    ensures WithRating(q, f) == f
  {
    RunningShoesNoRatingPattern0(q);
    assert FirstPattern(RatingPatterns, q, 3) == 4;
    assert FirstPattern(RatingPatterns, q, 2) == 4;
    assert FirstPattern(RatingPatterns, q, 1) == 4;
    assert FirstPattern(RatingPatterns, q, 0) == 4;
  }

  lemma RunningShoesNoKeyword0(q: string)
    requires q == "running shoes under $50"
    ensures !Contains(q, "laptop") && !Contains(q, "computer") && !Contains(q, "headphones") && !Contains(q, "phone")
  {
    assert !Contains(q, "laptop") by { MissingCharNotContained(q, "laptop", 0); }
    assert !Contains(q, "computer") by { MissingCharNotContained(q, "computer", 0); }
    assert !Contains(q, "headphones") by { MissingCharNotContained(q, "headphones", 2); }
    assert !Contains(q, "phone") by { MissingCharNotContained(q, "phone", 0); }
  }

  lemma RunningShoesNoKeyword1(q: string)
    requires q == "running shoes under $50"
    ensures !Contains(q, "camera") && !Contains(q, "shirt")
  {
    assert !Contains(q, "camera") by { MissingCharNotContained(q, "camera", 0); }
    assert !Contains(q, "shirt") by { MissingCharNotContained(q, "shirt", 4); }
  }

  lemma RunningShoesHasShoes(q: string)
    requires q == "running shoes under $50"
    ensures Contains(q, "shoes")
  {
    assert q[8..13] == "shoes";
    StartsAtSlice(q, "shoes", 8);
    StartsAtContains(q, "shoes", 8);
  }

  lemma RunningShoesFirstKeyword(q: string)
    requires q == "running shoes under $50"
    ensures FirstKeyword(CategoryKeywords, q, 0) == 6
  {
    RunningShoesNoKeyword0(q);
    RunningShoesNoKeyword1(q);
    RunningShoesHasShoes(q);
    assert FirstKeyword(CategoryKeywords, q, 6) == 6;
    assert FirstKeyword(CategoryKeywords, q, 5) == 6;
    assert FirstKeyword(CategoryKeywords, q, 4) == 6;
    assert FirstKeyword(CategoryKeywords, q, 3) == 6;
    assert FirstKeyword(CategoryKeywords, q, 2) == 6;
    assert FirstKeyword(CategoryKeywords, q, 1) == 6;
    assert FirstKeyword(CategoryKeywords, q, 0) == 6;
  }

  lemma RunningShoesCategory(q: string, f: Dict)
    requires q == "running shoes under $50"
    requires "category" !in f
    ensures WithCategory(q, f) == f["category" := Str("Clothing & Accessories")]
  {
    RunningShoesFirstKeyword(q);
    assert CategoryKeywords[6].1 == "Clothing & Accessories";
  }

  lemma RunningShoesNoBrand0(q: string)
    requires q == "running shoes under $50"
    ensures !Contains(q, "apple") && !Contains(q, "samsung") && !Contains(q, "sony") && !Contains(q, "nike")
  {
    assert !Contains(q, "apple") by { MissingCharNotContained(q, "apple", 0); }
    assert !Contains(q, "samsung") by { MissingCharNotContained(q, "samsung", 1); }
    assert !Contains(q, "sony") by { MissingCharNotContained(q, "sony", 3); }
    assert !Contains(q, "nike") by { MissingCharNotContained(q, "nike", 2); }
  }

  lemma RunningShoesNoBrand1(q: string)
    requires q == "running shoes under $50"
    ensures !Contains(q, "adidas") && !Contains(q, "canon") && !Contains(q, "dell") && !Contains(q, "hp")
  {
    assert !Contains(q, "adidas") by { MissingCharNotContained(q, "adidas", 0); }
    assert !Contains(q, "canon") by { MissingCharNotContained(q, "canon", 0); }
    assert !Contains(q, "dell") by { MissingCharNotContained(q, "dell", 2); }
    assert !Contains(q, "hp") by { MissingCharNotContained(q, "hp", 1); }
  }

  lemma RunningShoesNoBrand2(q: string)
    requires q == "running shoes under $50"
    ensures !Contains(q, "lenovo") && !Contains(q, "bose") && !Contains(q, "calvin klein") && !Contains(q, "coach")
  {
    assert !Contains(q, "lenovo") by { MissingCharNotContained(q, "lenovo", 0); }
    assert !Contains(q, "bose") by { MissingCharNotContained(q, "bose", 0); }
    assert !Contains(q, "calvin klein") by { MissingCharNotContained(q, "calvin klein", 0); }
    assert !Contains(q, "coach") by { MissingCharNotContained(q, "coach", 0); }
  }

  lemma RunningShoesNoBrand3(q: string)
    requires q == "running shoes under $50"
    ensures !Contains(q, "under armour") && !Contains(q, "patagonia")
  {
    assert !Contains(q, "under armour") by { MissingCharNotContained(q, "under armour", 6); }
    assert !Contains(q, "patagonia") by { MissingCharNotContained(q, "patagonia", 0); }
  }

  lemma RunningShoesBrandFrom8(q: string)
    requires q == "running shoes under $50"
    ensures FirstBrand(KnownBrands, q, 8) == 14
  {
    RunningShoesNoBrand2(q);
    RunningShoesNoBrand3(q);
    assert FirstBrand(KnownBrands, q, 13) == 14;
    assert FirstBrand(KnownBrands, q, 12) == 14;
    assert FirstBrand(KnownBrands, q, 11) == 14;
    assert FirstBrand(KnownBrands, q, 10) == 14;
    assert FirstBrand(KnownBrands, q, 9) == 14;
    assert FirstBrand(KnownBrands, q, 8) == 14;
  }

  lemma RunningShoesBrand(q: string, f: Dict)
    requires q == "running shoes under $50"
    ensures WithBrand(q, f) == f
  {
    RunningShoesNoBrand0(q);
    RunningShoesNoBrand1(q);
    RunningShoesBrandFrom8(q);
    assert FirstBrand(KnownBrands, q, 7) == 14;
    assert FirstBrand(KnownBrands, q, 6) == 14;
    assert FirstBrand(KnownBrands, q, 5) == 14;
    assert FirstBrand(KnownBrands, q, 4) == 14;
    assert FirstBrand(KnownBrands, q, 3) == 14;
    assert FirstBrand(KnownBrands, q, 2) == 14;
    assert FirstBrand(KnownBrands, q, 1) == 14;
    assert FirstBrand(KnownBrands, q, 0) == 14;
  }

  lemma RunningShoesSteps(q: string)
    requires q == "running shoes under $50"
    ensures EnhancedFilters(q, map[]) == map["price_max" := Int(50), "category" := Str("Clothing & Accessories")]
  {
    RunningShoesLower(q);
    RunningShoesPrice(q, map[]);
    assert WithPrice(q, map[]) == map["price_max" := Int(50)];
    RunningShoesRating(q, map["price_max" := Int(50)]);
    assert WithRating(q, map["price_max" := Int(50)]) == map["price_max" := Int(50)];
    RunningShoesCategory(q, map["price_max" := Int(50)]);
    assert WithCategory(q, map["price_max" := Int(50)]) == map["price_max" := Int(50), "category" := Str("Clothing & Accessories")];
    RunningShoesBrand(q, map["price_max" := Int(50), "category" := Str("Clothing & Accessories")]);
    assert WithBrand(q, map["price_max" := Int(50), "category" := Str("Clothing & Accessories")]) == map["price_max" := Int(50), "category" := Str("Clothing & Accessories")];
    assert EnhancedFilters(q, map[]) == WithBrand(q, WithCategory(q, WithRating(q, WithPrice(q, map[]))));
  }

  /** The query "running shoes under $50" yields price_max 50 and, because "shoes" comes before "running" in the keyword table, the category Clothing & Accessories; no brand is mentioned. */
  lemma RunningShoesFilters()
    ensures EnhancedFilters("running shoes under $50", map[]) == map["price_max" := Int(50), "category" := Str("Clothing & Accessories")]
  {
    RunningShoesSteps("running shoes under $50");
  }

  // "4.5+ stars"

  lemma PlusStarsLower(q: string)
    requires q == "4.5+ stars"
    ensures Lower(q) == q
  {
    LowerOfLowercase(q);
  }

  lemma PlusStarsNoPricePattern0(q: string)
    requires q == "4.5+ stars"
    ensures Search(Under, q).None? && Search(Below, q).None? && Search(LessThan, q).None? && Search(Over, q).None?
  {
    assert !Contains(q, "under ") by { MissingCharNotContained(q, "under ", 0); }
    SearchNeedsAnchor(Under, q);
    assert !Contains(q, "below ") by { MissingCharNotContained(q, "below ", 0); }
    SearchNeedsAnchor(Below, q);
    assert !Contains(q, "less than ") by { MissingCharNotContained(q, "less than ", 0); }
    SearchNeedsAnchor(LessThan, q);
    assert !Contains(q, "over ") by { MissingCharNotContained(q, "over ", 0); }
    SearchNeedsAnchor(Over, q);
  }

  lemma PlusStarsNoPricePattern1(q: string)
    requires q == "4.5+ stars"
    ensures Search(Above, q).None? && Search(MoreThan, q).None?
  {
    assert !Contains(q, "above ") by { MissingCharNotContained(q, "above ", 1); }
    SearchNeedsAnchor(Above, q);
    assert !Contains(q, "more than ") by { MissingCharNotContained(q, "more than ", 0); }
    SearchNeedsAnchor(MoreThan, q);
  }

  lemma PlusStarsNoPricePattern2(q: string)
    requires q == "4.5+ stars"
    ensures Search(DollarRange, q).None? && Search(Between, q).None?
  {
    assert !Contains(q, "-") by { MissingCharNotContained(q, "-", 0); }
    SearchNeedsAnchor(DollarRange, q);
    assert !Contains(q, "between ") by { MissingCharNotContained(q, "between ", 0); }
    SearchNeedsAnchor(Between, q);
  }

  lemma PlusStarsPrice(q: string, f: Dict)
    requires q == "4.5+ stars"
    ensures WithPrice(q, f) == f
  {
    PlusStarsNoPricePattern0(q);
    PlusStarsNoPricePattern1(q);
    PlusStarsNoPricePattern2(q);
    assert FirstPattern(PricePatterns, q, 7) == 8;
    assert FirstPattern(PricePatterns, q, 6) == 8;
    assert FirstPattern(PricePatterns, q, 5) == 8;
    assert FirstPattern(PricePatterns, q, 4) == 8;
    assert FirstPattern(PricePatterns, q, 3) == 8;
    assert FirstPattern(PricePatterns, q, 2) == 8;
    assert FirstPattern(PricePatterns, q, 1) == 8;
    assert FirstPattern(PricePatterns, q, 0) == 8;
  }

  lemma PlusStarsMatch(q: string)
    requires q == "4.5+ stars"
    ensures MatchAt(PlusStars, q, 0) == Some(["4.5"])
  {
    assert DigitRunEnd(q, 0) == 1;
    assert DigitRunEnd(q, 2) == 3;
    assert q[0..3] == "4.5";
    assert q[3..9] == "+ star";
    StartsAtSlice(q, "+ star", 3);
  }

  lemma FourPointFive()
    ensures FloatValue("4.5") == 4.5
  {
    assert DotIndex("4.5") == 1;
    assert "4.5"[..1] == "4";
    assert "4.5"[2..] == "5";
    assert DecimalValue("4") == 4;
    assert DecimalValue("5") == 5;
    assert Pow10(1) == 10;
  }

  lemma PlusStarsRating(q: string, f: Dict)
    requires q == "4.5+ stars"
    ensures WithRating(q, f) == f["rating_min" := Real(4.5)]
  {
    PlusStarsMatch(q);
    assert MatchPosFrom(PlusStars, q, 0) == 0;
    assert Search(PlusStars, q) == Some(["4.5"]);
    assert FirstPattern(RatingPatterns, q, 0) == 0;
    FourPointFive();
    assert f + map["rating_min" := Real(4.5)] == f["rating_min" := Real(4.5)];
  }

  lemma PlusStarsNoKeyword0(q: string)
    requires q == "4.5+ stars"
    ensures !Contains(q, "laptop") && !Contains(q, "computer") && !Contains(q, "headphones") && !Contains(q, "phone")
  {
    assert !Contains(q, "laptop") by { MissingCharNotContained(q, "laptop", 0); }
    assert !Contains(q, "computer") by { MissingCharNotContained(q, "computer", 0); }
    assert !Contains(q, "headphones") by { MissingCharNotContained(q, "headphones", 0); }
    assert !Contains(q, "phone") by { MissingCharNotContained(q, "phone", 0); }
  }

  lemma PlusStarsNoKeyword1(q: string)
    requires q == "4.5+ stars"
    ensures !Contains(q, "camera") && !Contains(q, "shirt") && !Contains(q, "shoes") && !Contains(q, "dress")
  {
    assert !Contains(q, "camera") by { MissingCharNotContained(q, "camera", 0); }
    assert !Contains(q, "shirt") by { MissingCharNotContained(q, "shirt", 1); }
    assert !Contains(q, "shoes") by { MissingCharNotContained(q, "shoes", 1); }
    assert !Contains(q, "dress") by { MissingCharNotContained(q, "dress", 0); }
  }

  lemma PlusStarsNoKeyword2(q: string)
    requires q == "4.5+ stars"
    ensures !Contains(q, "jacket") && !Contains(q, "running") && !Contains(q, "fitness") && !Contains(q, "outdoor")
  {
    assert !Contains(q, "jacket") by { MissingCharNotContained(q, "jacket", 0); }
    assert !Contains(q, "running") by { MissingCharNotContained(q, "running", 1); }
    assert !Contains(q, "fitness") by { MissingCharNotContained(q, "fitness", 0); }
    assert !Contains(q, "outdoor") by { MissingCharNotContained(q, "outdoor", 0); }
  }

  lemma PlusStarsNoKeyword3(q: string)
    requires q == "4.5+ stars"
    ensures !Contains(q, "camping") && !Contains(q, "furniture") && !Contains(q, "kitchen") && !Contains(q, "garden")
  {
    assert !Contains(q, "camping") by { MissingCharNotContained(q, "camping", 0); }
    assert !Contains(q, "furniture") by { MissingCharNotContained(q, "furniture", 0); }
    assert !Contains(q, "kitchen") by { MissingCharNotContained(q, "kitchen", 0); }
    assert !Contains(q, "garden") by { MissingCharNotContained(q, "garden", 0); }
  }

  lemma PlusStarsNoKeyword4(q: string)
    requires q == "4.5+ stars"
    ensures !Contains(q, "decor")
  {
    assert !Contains(q, "decor") by { MissingCharNotContained(q, "decor", 0); }
  }

  lemma PlusStarsCategoryFrom8(q: string)
    requires q == "4.5+ stars"
    ensures FirstKeyword(CategoryKeywords, q, 8) == 17
  {
    PlusStarsNoKeyword2(q);
    PlusStarsNoKeyword3(q);
    PlusStarsNoKeyword4(q);
    assert FirstKeyword(CategoryKeywords, q, 16) == 17;
    assert FirstKeyword(CategoryKeywords, q, 15) == 17;
    assert FirstKeyword(CategoryKeywords, q, 14) == 17;
    assert FirstKeyword(CategoryKeywords, q, 13) == 17;
    assert FirstKeyword(CategoryKeywords, q, 12) == 17;
    assert FirstKeyword(CategoryKeywords, q, 11) == 17;
    assert FirstKeyword(CategoryKeywords, q, 10) == 17;
    assert FirstKeyword(CategoryKeywords, q, 9) == 17;
    assert FirstKeyword(CategoryKeywords, q, 8) == 17;
  }

  lemma PlusStarsCategory(q: string, f: Dict)
    requires q == "4.5+ stars"
    ensures WithCategory(q, f) == f
  {
    PlusStarsNoKeyword0(q);
    PlusStarsNoKeyword1(q);
    PlusStarsCategoryFrom8(q);
    assert FirstKeyword(CategoryKeywords, q, 7) == 17;
    assert FirstKeyword(CategoryKeywords, q, 6) == 17;
    assert FirstKeyword(CategoryKeywords, q, 5) == 17;
    assert FirstKeyword(CategoryKeywords, q, 4) == 17;
    assert FirstKeyword(CategoryKeywords, q, 3) == 17;
    assert FirstKeyword(CategoryKeywords, q, 2) == 17;
    assert FirstKeyword(CategoryKeywords, q, 1) == 17;
    assert FirstKeyword(CategoryKeywords, q, 0) == 17;
  }

  lemma PlusStarsNoBrand0(q: string)
    requires q == "4.5+ stars"
    ensures !Contains(q, "apple") && !Contains(q, "samsung") && !Contains(q, "sony") && !Contains(q, "nike")
  {
    assert !Contains(q, "apple") by { MissingCharNotContained(q, "apple", 1); }
    assert !Contains(q, "samsung") by { MissingCharNotContained(q, "samsung", 2); }
    assert !Contains(q, "sony") by { MissingCharNotContained(q, "sony", 1); }
    assert !Contains(q, "nike") by { MissingCharNotContained(q, "nike", 0); }
  }

  lemma PlusStarsNoBrand1(q: string)
    requires q == "4.5+ stars"
    ensures !Contains(q, "adidas") && !Contains(q, "canon") && !Contains(q, "dell") && !Contains(q, "hp")
  {
    assert !Contains(q, "adidas") by { MissingCharNotContained(q, "adidas", 1); }
    assert !Contains(q, "canon") by { MissingCharNotContained(q, "canon", 0); }
    assert !Contains(q, "dell") by { MissingCharNotContained(q, "dell", 0); }
    assert !Contains(q, "hp") by { MissingCharNotContained(q, "hp", 0); }
  }

  lemma PlusStarsNoBrand2(q: string)
    requires q == "4.5+ stars"
    ensures !Contains(q, "lenovo") && !Contains(q, "bose") && !Contains(q, "calvin klein") && !Contains(q, "coach")
  {
    assert !Contains(q, "lenovo") by { MissingCharNotContained(q, "lenovo", 0); }
    assert !Contains(q, "bose") by { MissingCharNotContained(q, "bose", 0); }
    assert !Contains(q, "calvin klein") by { MissingCharNotContained(q, "calvin klein", 0); }
    assert !Contains(q, "coach") by { MissingCharNotContained(q, "coach", 0); }
  }

  lemma PlusStarsNoBrand3(q: string)
    requires q == "4.5+ stars"
    ensures !Contains(q, "under armour") && !Contains(q, "patagonia")
  {
    assert !Contains(q, "under armour") by { MissingCharNotContained(q, "under armour", 0); }
    assert !Contains(q, "patagonia") by { MissingCharNotContained(q, "patagonia", 0); }
  }

  lemma PlusStarsBrandFrom8(q: string)
    requires q == "4.5+ stars"
    ensures FirstBrand(KnownBrands, q, 8) == 14
  {
    PlusStarsNoBrand2(q);
    PlusStarsNoBrand3(q);
    assert FirstBrand(KnownBrands, q, 13) == 14;
    assert FirstBrand(KnownBrands, q, 12) == 14;
    assert FirstBrand(KnownBrands, q, 11) == 14;
    assert FirstBrand(KnownBrands, q, 10) == 14;
    assert FirstBrand(KnownBrands, q, 9) == 14;
    assert FirstBrand(KnownBrands, q, 8) == 14;
  }

  lemma PlusStarsBrand(q: string, f: Dict)
    requires q == "4.5+ stars"
    ensures WithBrand(q, f) == f
  {
    PlusStarsNoBrand0(q);
    PlusStarsNoBrand1(q);
    PlusStarsBrandFrom8(q);
    assert FirstBrand(KnownBrands, q, 7) == 14;
    assert FirstBrand(KnownBrands, q, 6) == 14;
    assert FirstBrand(KnownBrands, q, 5) == 14;
    assert FirstBrand(KnownBrands, q, 4) == 14;
    assert FirstBrand(KnownBrands, q, 3) == 14;
    assert FirstBrand(KnownBrands, q, 2) == 14;
    assert FirstBrand(KnownBrands, q, 1) == 14;
    assert FirstBrand(KnownBrands, q, 0) == 14;
  }

  lemma PlusStarsSteps(q: string, f: Dict)
    requires q == "4.5+ stars"
    ensures EnhancedFilters(q, f) == f["rating_min" := Real(4.5)]
  {
    PlusStarsLower(q);
    PlusStarsPrice(q, f);
    assert WithPrice(q, f) == f;
    PlusStarsRating(q, f);
    assert WithRating(q, f) == f["rating_min" := Real(4.5)];
    PlusStarsCategory(q, f["rating_min" := Real(4.5)]);
    assert WithCategory(q, f["rating_min" := Real(4.5)]) == f["rating_min" := Real(4.5)];
    PlusStarsBrand(q, f["rating_min" := Real(4.5)]);
    assert WithBrand(q, f["rating_min" := Real(4.5)]) == f["rating_min" := Real(4.5)];
    assert EnhancedFilters(q, f) == WithBrand(q, WithCategory(q, WithRating(q, WithPrice(q, f))));
  }

  /** The query "4.5+ stars" sets rating_min to 4.5, replacing any rating_min the caller passed, and leaves every other filter as it was. */
  lemma PlusStarsFilters(f: Dict)
    ensures EnhancedFilters("4.5+ stars", f) == f["rating_min" := Real(4.5)]
  {
    PlusStarsSteps("4.5+ stars", f);
  }

  // "over $100 under $200"

  lemma OverUnderLower(q: string)
    requires q == "over $100 under $200"
    ensures Lower(q) == q
  {
    LowerOfLowercase(q);
  }

  lemma OverUnderUnderAt(q: string)
    requires q == "over $100 under $200"
    ensures MatchAt(Under, q, 10) == Some(["200"])
  {
    assert q[10..16] == "under ";
    StartsAtSlice(q, "under ", 10);
    assert DigitRunEnd(q, 17) == 20;
    assert q[17..20] == "200";
  }

  lemma TwoHundred()
    ensures DecimalValue("200") == 200
  {
    assert DecimalValue("2") == 2;
    assert DecimalValue("20") == 20;
  }

  lemma OverUnderPrice(q: string, f: Dict)
    requires q == "over $100 under $200"
    ensures WithPrice(q, f) == f + map["price_max" := Int(200)]
  {
    OverUnderUnderAt(q);
    assert forall j: nat :: j < 10 ==> MatchAt(Under, q, j).None?;
    assert MatchPosFrom(Under, q, 0) == 10;
    assert Search(Under, q) == Some(["200"]);
    assert FirstPattern(PricePatterns, q, 0) == 0;
    TwoHundred();
  }

  lemma OverUnderNoRatingPattern0(q: string)
    requires q == "over $100 under $200"
    ensures Search(PlusStars, q).None? && Search(StarsOrBetter, q).None? && Search(HighlyRated, q).None? && Search(TopRated, q).None?
  {
    assert !Contains(q, "+ star") by { MissingCharNotContained(q, "+ star", 0); }
    SearchNeedsAnchor(PlusStars, q);
    assert !Contains(q, " star") by { MissingCharNotContained(q, " star", 1); }
    SearchNeedsAnchor(StarsOrBetter, q);
    assert !Contains(q, "highly rated") by { MissingCharNotContained(q, "highly rated", 0); }
    SearchNeedsAnchor(HighlyRated, q);
    assert !Contains(q, "top rated") by { MissingCharNotContained(q, "top rated", 0); }
    SearchNeedsAnchor(TopRated, q);
  }

  lemma OverUnderRating(q: string, f: Dict)
    requires q == "over $100 under $200"
    ensures WithRating(q, f) == f
  {
    OverUnderNoRatingPattern0(q);
    assert FirstPattern(RatingPatterns, q, 3) == 4;
    assert FirstPattern(RatingPatterns, q, 2) == 4;
    assert FirstPattern(RatingPatterns, q, 1) == 4;
    assert FirstPattern(RatingPatterns, q, 0) == 4;
  }

  lemma OverUnderNoKeyword0(q: string)
    requires q == "over $100 under $200"
    ensures !Contains(q, "laptop") && !Contains(q, "computer") && !Contains(q, "headphones") && !Contains(q, "phone")
  {
    assert !Contains(q, "laptop") by { MissingCharNotContained(q, "laptop", 0); }
    assert !Contains(q, "computer") by { MissingCharNotContained(q, "computer", 0); }
    assert !Contains(q, "headphones") by { MissingCharNotContained(q, "headphones", 0); }
    assert !Contains(q, "phone") by { MissingCharNotContained(q, "phone", 0); }
  }

  lemma OverUnderNoKeyword1(q: string)
    requires q == "over $100 under $200"
    ensures !Contains(q, "camera") && !Contains(q, "shirt") && !Contains(q, "shoes") && !Contains(q, "dress")
  {
    assert !Contains(q, "camera") by { MissingCharNotContained(q, "camera", 0); }
    assert !Contains(q, "shirt") by { MissingCharNotContained(q, "shirt", 0); }
    assert !Contains(q, "shoes") by { MissingCharNotContained(q, "shoes", 0); }
    assert !Contains(q, "dress") by { MissingCharNotContained(q, "dress", 3); }
  }

  lemma OverUnderNoKeyword2(q: string)
    requires q == "over $100 under $200"
    ensures !Contains(q, "jacket") && !Contains(q, "running") && !Contains(q, "fitness") && !Contains(q, "outdoor")
  {
    assert !Contains(q, "jacket") by { MissingCharNotContained(q, "jacket", 0); }
    assert !Contains(q, "running") by { MissingCharNotContained(q, "running", 4); }
    assert !Contains(q, "fitness") by { MissingCharNotContained(q, "fitness", 0); }
    assert !Contains(q, "outdoor") by { MissingCharNotContained(q, "outdoor", 2); }
  }

  lemma OverUnderNoKeyword3(q: string)
    requires q == "over $100 under $200"
    ensures !Contains(q, "camping") && !Contains(q, "furniture") && !Contains(q, "kitchen") && !Contains(q, "garden")
  {
    assert !Contains(q, "camping") by { MissingCharNotContained(q, "camping", 0); }
    assert !Contains(q, "furniture") by { MissingCharNotContained(q, "furniture", 0); }
    assert !Contains(q, "kitchen") by { MissingCharNotContained(q, "kitchen", 0); }
    assert !Contains(q, "garden") by { MissingCharNotContained(q, "garden", 0); }
  }

  lemma OverUnderNoKeyword4(q: string)
    requires q == "over $100 under $200"
    ensures !Contains(q, "decor")
  {
    assert !Contains(q, "decor") by { MissingCharNotContained(q, "decor", 2); }
  }

  lemma OverUnderCategoryFrom8(q: string)
    requires q == "over $100 under $200"
    ensures FirstKeyword(CategoryKeywords, q, 8) == 17
  {
    OverUnderNoKeyword2(q);
    OverUnderNoKeyword3(q);
    OverUnderNoKeyword4(q);
    assert FirstKeyword(CategoryKeywords, q, 16) == 17;
    assert FirstKeyword(CategoryKeywords, q, 15) == 17;
    assert FirstKeyword(CategoryKeywords, q, 14) == 17;
    assert FirstKeyword(CategoryKeywords, q, 13) == 17;
    assert FirstKeyword(CategoryKeywords, q, 12) == 17;
    assert FirstKeyword(CategoryKeywords, q, 11) == 17;
    assert FirstKeyword(CategoryKeywords, q, 10) == 17;
    assert FirstKeyword(CategoryKeywords, q, 9) == 17;
    assert FirstKeyword(CategoryKeywords, q, 8) == 17;
  }

  lemma OverUnderCategory(q: string, f: Dict)
    requires q == "over $100 under $200"
    ensures WithCategory(q, f) == f
  {
    OverUnderNoKeyword0(q);
    OverUnderNoKeyword1(q);
    OverUnderCategoryFrom8(q);
    assert FirstKeyword(CategoryKeywords, q, 7) == 17;
    assert FirstKeyword(CategoryKeywords, q, 6) == 17;
    assert FirstKeyword(CategoryKeywords, q, 5) == 17;
    assert FirstKeyword(CategoryKeywords, q, 4) == 17;
    assert FirstKeyword(CategoryKeywords, q, 3) == 17;
    assert FirstKeyword(CategoryKeywords, q, 2) == 17;
    assert FirstKeyword(CategoryKeywords, q, 1) == 17;
    assert FirstKeyword(CategoryKeywords, q, 0) == 17;
  }

  lemma OverUnderNoBrand0(q: string)
    requires q == "over $100 under $200"
    ensures !Contains(q, "apple") && !Contains(q, "samsung") && !Contains(q, "sony") && !Contains(q, "nike")
  {
    assert !Contains(q, "apple") by { MissingCharNotContained(q, "apple", 0); }
    assert !Contains(q, "samsung") by { MissingCharNotContained(q, "samsung", 0); }
    assert !Contains(q, "sony") by { MissingCharNotContained(q, "sony", 0); }
    assert !Contains(q, "nike") by { MissingCharNotContained(q, "nike", 1); }
  }

  lemma OverUnderNoBrand1(q: string)
    requires q == "over $100 under $200"
    ensures !Contains(q, "adidas") && !Contains(q, "canon") && !Contains(q, "dell") && !Contains(q, "hp")
  {
    assert !Contains(q, "adidas") by { MissingCharNotContained(q, "adidas", 0); }
    assert !Contains(q, "canon") by { MissingCharNotContained(q, "canon", 0); }
    assert !Contains(q, "dell") by { MissingCharNotContained(q, "dell", 2); }
    assert !Contains(q, "hp") by { MissingCharNotContained(q, "hp", 0); }
  }

  lemma OverUnderNoBrand2(q: string)
    requires q == "over $100 under $200"
    ensures !Contains(q, "lenovo") && !Contains(q, "bose") && !Contains(q, "calvin klein") && !Contains(q, "coach")
  {
    assert !Contains(q, "lenovo") by { MissingCharNotContained(q, "lenovo", 0); }
    assert !Contains(q, "bose") by { MissingCharNotContained(q, "bose", 0); }
    assert !Contains(q, "calvin klein") by { MissingCharNotContained(q, "calvin klein", 0); }
    assert !Contains(q, "coach") by { MissingCharNotContained(q, "coach", 0); }
  }

  lemma OverUnderNoBrand3(q: string)
    requires q == "over $100 under $200"
    ensures !Contains(q, "under armour") && !Contains(q, "patagonia")
  {
    assert !Contains(q, "under armour") by { MissingCharNotContained(q, "under armour", 6); }
    assert !Contains(q, "patagonia") by { MissingCharNotContained(q, "patagonia", 0); }
  }

  lemma OverUnderBrandFrom8(q: string)
    requires q == "over $100 under $200"
    ensures FirstBrand(KnownBrands, q, 8) == 14
  {
    OverUnderNoBrand2(q);
    OverUnderNoBrand3(q);
    assert FirstBrand(KnownBrands, q, 13) == 14;
    assert FirstBrand(KnownBrands, q, 12) == 14;
    assert FirstBrand(KnownBrands, q, 11) == 14;
    assert FirstBrand(KnownBrands, q, 10) == 14;
    assert FirstBrand(KnownBrands, q, 9) == 14;
    assert FirstBrand(KnownBrands, q, 8) == 14;
  }

  lemma OverUnderBrand(q: string, f: Dict)
    requires q == "over $100 under $200"
    ensures WithBrand(q, f) == f
  {
    OverUnderNoBrand0(q);
    OverUnderNoBrand1(q);
    OverUnderBrandFrom8(q);
    assert FirstBrand(KnownBrands, q, 7) == 14;
    assert FirstBrand(KnownBrands, q, 6) == 14;
    assert FirstBrand(KnownBrands, q, 5) == 14;
    assert FirstBrand(KnownBrands, q, 4) == 14;
    assert FirstBrand(KnownBrands, q, 3) == 14;
    assert FirstBrand(KnownBrands, q, 2) == 14;
    assert FirstBrand(KnownBrands, q, 1) == 14;
    assert FirstBrand(KnownBrands, q, 0) == 14;
  }

  lemma OverUnderSteps(q: string)
    requires q == "over $100 under $200"
    ensures EnhancedFilters(q, map[]) == map["price_max" := Int(200)]
  {
    OverUnderLower(q);
    OverUnderPrice(q, map[]);
    assert WithPrice(q, map[]) == map["price_max" := Int(200)];
    OverUnderRating(q, map["price_max" := Int(200)]);
    assert WithRating(q, map["price_max" := Int(200)]) == map["price_max" := Int(200)];
    OverUnderCategory(q, map["price_max" := Int(200)]);
    assert WithCategory(q, map["price_max" := Int(200)]) == map["price_max" := Int(200)];
    OverUnderBrand(q, map["price_max" := Int(200)]);
    assert WithBrand(q, map["price_max" := Int(200)]) == map["price_max" := Int(200)];
    assert EnhancedFilters(q, map[]) == WithBrand(q, WithCategory(q, WithRating(q, WithPrice(q, map[]))));
  }

  /** In "over $100 under $200" only the first pattern of the price table that matches counts: that is "under", so price_max is 200 and no price_min is set. */
  lemma OverUnderFilters()
    ensures EnhancedFilters("over $100 under $200", map[]) == map["price_max" := Int(200)]
  {
    OverUnderSteps("over $100 under $200");
  }

  // "hp laptop"

  lemma HpLaptopLower(q: string)
    requires q == "hp laptop"
    ensures Lower(q) == q
  {
    LowerOfLowercase(q);
  }

  lemma HpLaptopNoPricePattern0(q: string)
    requires q == "hp laptop"
    ensures Search(Under, q).None? && Search(Below, q).None? && Search(LessThan, q).None? && Search(Over, q).None?
  {
    assert !Contains(q, "under ") by { MissingCharNotContained(q, "under ", 0); }
    SearchNeedsAnchor(Under, q);
    assert !Contains(q, "below ") by { MissingCharNotContained(q, "below ", 0); }
    SearchNeedsAnchor(Below, q);
    assert !Contains(q, "less than ") by { MissingCharNotContained(q, "less than ", 1); }
    SearchNeedsAnchor(LessThan, q);
    assert !Contains(q, "over ") by { MissingCharNotContained(q, "over ", 1); }
    SearchNeedsAnchor(Over, q);
  }

  lemma HpLaptopNoPricePattern1(q: string)
    requires q == "hp laptop"
    ensures Search(Above, q).None? && Search(MoreThan, q).None?
  {
    assert !Contains(q, "above ") by { MissingCharNotContained(q, "above ", 1); }
    SearchNeedsAnchor(Above, q);
    assert !Contains(q, "more than ") by { MissingCharNotContained(q, "more than ", 0); }
    SearchNeedsAnchor(MoreThan, q);
  }

  lemma HpLaptopNoPricePattern2(q: string)
    requires q == "hp laptop"
    ensures Search(DollarRange, q).None? && Search(Between, q).None?
  {
    assert !Contains(q, "-") by { MissingCharNotContained(q, "-", 0); }
    SearchNeedsAnchor(DollarRange, q);
    assert !Contains(q, "between ") by { MissingCharNotContained(q, "between ", 0); }
    SearchNeedsAnchor(Between, q);
  }

  lemma HpLaptopPrice(q: string, f: Dict)
    requires q == "hp laptop"
    ensures WithPrice(q, f) == f
  {
    HpLaptopNoPricePattern0(q);
    HpLaptopNoPricePattern1(q);
    HpLaptopNoPricePattern2(q);
    assert FirstPattern(PricePatterns, q, 7) == 8;
    assert FirstPattern(PricePatterns, q, 6) == 8;
    assert FirstPattern(PricePatterns, q, 5) == 8;
    assert FirstPattern(PricePatterns, q, 4) == 8;
    assert FirstPattern(PricePatterns, q, 3) == 8;
    assert FirstPattern(PricePatterns, q, 2) == 8;
    assert FirstPattern(PricePatterns, q, 1) == 8;
    assert FirstPattern(PricePatterns, q, 0) == 8;
  }

  lemma HpLaptopNoRatingPattern0(q: string)
    requires q == "hp laptop"
    ensures Search(PlusStars, q).None? && Search(StarsOrBetter, q).None? && Search(HighlyRated, q).None? && Search(TopRated, q).None?
  {
    assert !Contains(q, "+ star") by { MissingCharNotContained(q, "+ star", 0); }
    SearchNeedsAnchor(PlusStars, q);
    assert !Contains(q, " star") by { MissingCharNotContained(q, " star", 1); }
    SearchNeedsAnchor(StarsOrBetter, q);
    assert !Contains(q, "highly rated") by { MissingCharNotContained(q, "highly rated", 1); }
    SearchNeedsAnchor(HighlyRated, q);
    assert !Contains(q, "top rated") by { MissingCharNotContained(q, "top rated", 4); }
    SearchNeedsAnchor(TopRated, q);
  }

  lemma HpLaptopRating(q: string, f: Dict)
    requires q == "hp laptop"
    ensures WithRating(q, f) == f
  {
    HpLaptopNoRatingPattern0(q);
    assert FirstPattern(RatingPatterns, q, 3) == 4;
    assert FirstPattern(RatingPatterns, q, 2) == 4;
    assert FirstPattern(RatingPatterns, q, 1) == 4;
    assert FirstPattern(RatingPatterns, q, 0) == 4;
  }

  lemma HpLaptopCategory(q: string, f: Dict)
    requires q == "hp laptop"
    requires "category" !in f
    ensures WithCategory(q, f) == f["category" := Str("Electronics")]
  {
    assert q[3..9] == "laptop";
    StartsAtSlice(q, "laptop", 3);
    StartsAtContains(q, "laptop", 3);
    assert FirstKeyword(CategoryKeywords, q, 0) == 0;
  }

  lemma HpLaptopNoBrand0(q: string)
    requires q == "hp laptop"
    ensures !Contains(q, "apple") && !Contains(q, "samsung") && !Contains(q, "sony") && !Contains(q, "nike")
  {
    assert !Contains(q, "apple") by { MissingCharNotContained(q, "apple", 4); }
    assert !Contains(q, "samsung") by { MissingCharNotContained(q, "samsung", 0); }
    assert !Contains(q, "sony") by { MissingCharNotContained(q, "sony", 0); }
    assert !Contains(q, "nike") by { MissingCharNotContained(q, "nike", 0); }
  }

  lemma HpLaptopNoBrand1(q: string)
    requires q == "hp laptop"
    ensures !Contains(q, "adidas") && !Contains(q, "canon") && !Contains(q, "dell")
  {
    assert !Contains(q, "adidas") by { MissingCharNotContained(q, "adidas", 1); }
    assert !Contains(q, "canon") by { MissingCharNotContained(q, "canon", 0); }
    assert !Contains(q, "dell") by { MissingCharNotContained(q, "dell", 0); }
  }

  lemma TitleHp()
    ensures TitleCase("hp") == "Hp"
  {
  }

  lemma HpLaptopBrand(q: string, f: Dict)
    requires q == "hp laptop"
    requires "brand" !in f
    ensures WithBrand(q, f) == f["brand" := Str("Hp")]
  {
    HpLaptopNoBrand0(q);
    HpLaptopNoBrand1(q);
    assert q[0..2] == "hp";
    StartsAtSlice(q, "hp", 0);
    StartsAtContains(q, "hp", 0);
    assert FirstBrand(KnownBrands, q, 7) == 7;
    assert FirstBrand(KnownBrands, q, 6) == 7;
    assert FirstBrand(KnownBrands, q, 5) == 7;
    assert FirstBrand(KnownBrands, q, 4) == 7;
    assert FirstBrand(KnownBrands, q, 3) == 7;
    assert FirstBrand(KnownBrands, q, 2) == 7;
    assert FirstBrand(KnownBrands, q, 1) == 7;
    assert FirstBrand(KnownBrands, q, 0) == 7;
    TitleHp();
  }

  lemma HpLaptopSteps(q: string)
    requires q == "hp laptop"
    ensures EnhancedFilters(q, map[]) == map["category" := Str("Electronics"), "brand" := Str("Hp")]
  {
    HpLaptopLower(q);
    HpLaptopPrice(q, map[]);
    assert WithPrice(q, map[]) == map[];
    HpLaptopRating(q, map[]);
    assert WithRating(q, map[]) == map[];
    HpLaptopCategory(q, map[]);
    assert WithCategory(q, map[]) == map["category" := Str("Electronics")];
    HpLaptopBrand(q, map["category" := Str("Electronics")]);
    assert WithBrand(q, map["category" := Str("Electronics")]) == map["category" := Str("Electronics"), "brand" := Str("Hp")];
    assert EnhancedFilters(q, map[]) == WithBrand(q, WithCategory(q, WithRating(q, WithPrice(q, map[]))));
  }

  /** The query "hp laptop" yields the category Electronics and the brand "Hp", title-cased as str.title() does. */
  lemma HpLaptopFilters()
    ensures EnhancedFilters("hp laptop", map[]) == map["category" := Str("Electronics"), "brand" := Str("Hp")]
  {
    HpLaptopSteps("hp laptop");
  }

  /** Multi-word brands are title-cased word by word. */
  lemma TitleCaseBrands()
    ensures TitleCase("calvin klein") == "Calvin Klein"
    ensures TitleCase("under armour") == "Under Armour"
  {
  }

}
