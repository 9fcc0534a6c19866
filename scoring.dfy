/** Re-scoring of the candidates the vector store returns: a weighted sum of the
    similarity, rating and popularity signals plus flat lexical boosts, scaled by
    an availability multiplier (`SearchEngine._apply_custom_scoring`). */
module Scoring {
  import opened Base
  import opened Text
  import opened Config

  /** The `SearchResult` record. Fields the code copies without using them keep
      the candidate's raw value. */
  datatype SearchResult = SearchResult(
    productId: Value,
    title: string,
    description: string,
    category: string,
    brand: string,
    price: Value,
    rating: Value,
    numReviews: Value,
    availability: Value,
    tags: Value,
    specifications: Value,
    semanticScore: real,
    finalScore: real,
    scoreBreakdown: map<string, real>)

  /** The natural logarithm, supplied by the caller (`math.log`). */
  type Log = real -> real

  const TitleBoost: real := 0.1
  const BrandBoost: real := 0.05
  const CategoryBoost: real := 0.05

  /** The seven names a full breakdown reports. */
  const BreakdownKeys: set<string> :=
    {"semantic", "rating", "popularity", "title_match", "brand_match", "category_match",
     "availability_penalty"}

  /** `d[key]` used in arithmetic: an `int` or a `float`. */
  function NumberAt(d: Dict, key: string): (r: Result<real, Fault>)
    ensures r.Success? <==> key in d && AsNumber(d[key]).Some?
    ensures r.Success? ==> r.value == AsNumber(d[key]).value
    ensures r.Failure? ==> r.error == (if key in d then TypeError(key) else KeyError(key))
  {
    var v :- Lookup(d, key);
    match AsNumber(v)
    case Some(n) => Success(n)
    case None => Failure(TypeError(key))
  }

  /** `d[key].lower()` needs a string; any other value has no `lower` attribute. */
  function StringAt(d: Dict, key: string): (r: Result<string, Fault>)
    ensures r.Success? <==> key in d && d[key].Str?
    ensures r.Success? ==> r.value == d[key].s
    ensures r.Failure? ==> r.error == (if key in d then AttributeError(key) else KeyError(key))
  {
    var v :- Lookup(d, key);
    if v.Str? then Success(v.s) else Failure(AttributeError(key))
  }

  /** `math.log(1 + n) / math.log(1 + max_reviews)`, with the two exceptions it
      can raise, in the order Python raises them. */
  function Popularity(n: real, ln: Log): (r: Result<real, Fault>)
    ensures r.Success? <==> 1.0 + n > 0.0 && ln(1.0 + MaxReviews as real) != 0.0
    ensures r.Success? ==> r.value * ln(1.0 + MaxReviews as real) == ln(1.0 + n)
  {
    if 1.0 + n <= 0.0 then Failure(MathDomainError)
    else if ln(1.0 + MaxReviews as real) == 0.0 then Failure(ZeroDivisionError)
    else Success(ln(1.0 + n) / ln(1.0 + MaxReviews as real))
  }

  /** 0.9 for "Limited Stock", 0.5 for "Out of Stock", 1.0 for any other value,
      whatever its type. */
  function AvailabilityMultiplier(v: Value): (m: real)
    ensures v == Str("Limited Stock") ==> m == 0.9
    ensures v == Str("Out of Stock") ==> m == 0.5
    ensures v != Str("Limited Stock") && v != Str("Out of Stock") ==> m == 1.0
  {
    if v == Str("Limited Stock") then 0.9
    else if v == Str("Out of Stock") then 0.5
    else 1.0
  }

  /** `any(word in title for word in words if len(word) > 2)`. */
  function AnyLongWordIn(words: seq<string>, title: string): (b: bool)
    ensures b <==> exists i :: 0 <= i < |words| && |words[i]| > 2 && Contains(title, words[i])
  {
    if words == [] then false
    else (|words[0]| > 2 && Contains(title, words[0])) || AnyLongWordIn(words[1..], title)
  }

  /** The seven signals of one candidate, before they are combined. */
  datatype Signals = Signals(
    semantic: real,
    rating: real,
    popularity: real,
    titleMatch: real,
    brandMatch: real,
    categoryMatch: real,
    multiplier: real)

  /** `(base + title + brand + category) * multiplier`, base being the sum of the
      three weighted signals. */
  function FinalScore(g: Signals): real {
    (g.semantic + g.rating + g.popularity + g.titleMatch + g.brandMatch + g.categoryMatch)
      * g.multiplier
  }

  /** The breakdown the record carries: empty unless it was asked for. */
  function Breakdown(g: Signals, withBreakdown: bool): (b: map<string, real>)
    ensures !withBreakdown ==> b == map[]
    ensures withBreakdown ==> b.Keys == BreakdownKeys
    ensures withBreakdown ==>
      && b["semantic"] == g.semantic && b["rating"] == g.rating && b["popularity"] == g.popularity
      && b["title_match"] == g.titleMatch && b["brand_match"] == g.brandMatch
      && b["category_match"] == g.categoryMatch
      && b["availability_penalty"] == 1.0 - g.multiplier
  {
    if !withBreakdown then map[]
    else
      map["semantic" := g.semantic, "rating" := g.rating, "popularity" := g.popularity,
          "title_match" := g.titleMatch, "brand_match" := g.brandMatch,
          "category_match" := g.categoryMatch, "availability_penalty" := 1.0 - g.multiplier]
  }

  /** The signals of a candidate whose fields have been read. */
  function MakeSignals(sim: real, rating: real, pop: real, availability: Value,
                       query: string, title: string, brand: string, category: string): Signals
  {
    var q := Lower(query);
    Signals(
      sim * SemanticWeight,
      (rating - 1.0) / 4.0 * RatingWeight,
      pop * PopularityWeight,
      if AnyLongWordIn(Split(q), Lower(title)) then TitleBoost else 0.0,
      if Contains(q, Lower(brand)) then BrandBoost else 0.0,
      if Contains(q, Lower(category)) then CategoryBoost else 0.0,
      AvailabilityMultiplier(availability))
  }

  /** One iteration of the scoring loop: the fields are read in the order the
      code reads them, so the first missing or ill-typed one is the fault raised. */
  function ScoreHit(hit: Dict, query: string, withBreakdown: bool, ln: Log): Result<SearchResult, Fault> {
    var sim :- NumberAt(hit, "score");
    var rating :- NumberAt(hit, "rating");
    var reviews :- NumberAt(hit, "num_reviews");
    var pop :- Popularity(reviews, ln);
    var availability :- Lookup(hit, "availability");
    var title :- StringAt(hit, "title");
    var description :- StringAt(hit, "description");
    var brand :- StringAt(hit, "brand");
    var category :- StringAt(hit, "category");
    var productId :- Lookup(hit, "product_id");
    var price :- Lookup(hit, "price");
    var tags :- Lookup(hit, "tags");
    var specifications :- Lookup(hit, "specifications");
    var g := MakeSignals(sim, rating, pop, availability, query, title, brand, category);
    Success(SearchResult(productId, title, description, category, brand, price,
                         hit["rating"], hit["num_reviews"], availability, tags, specifications,
                         sim, FinalScore(g), Breakdown(g, withBreakdown)))
  }

  /** What a candidate must carry for scoring not to raise. */
  predicate Scorable(hit: Dict, ln: Log) {
    && (forall key :: key in ["score", "rating", "num_reviews"] ==>
          key in hit && AsNumber(hit[key]).Some?)
    && 1.0 + AsNumber(hit["num_reviews"]).value > 0.0
    && ln(1.0 + MaxReviews as real) != 0.0
    && (forall key :: key in ["title", "description", "brand", "category"] ==>
          key in hit && hit[key].Str?)
    && (forall key :: key in ["availability", "product_id", "price", "tags", "specifications"] ==>
          key in hit)
  }

  /** Scoring a candidate raises exactly when a field is missing or ill-typed, the
      review count makes the logarithm undefined, or the reference logarithm is 0. */
  lemma ScoreHitSucceedsIff(hit: Dict, query: string, withBreakdown: bool, ln: Log)
    ensures ScoreHit(hit, query, withBreakdown, ln).Success? <==> Scorable(hit, ln)
  {
    if Scorable(hit, ln) {
      assert "score" in ["score", "rating", "num_reviews"];
      assert "rating" in ["score", "rating", "num_reviews"];
      assert "num_reviews" in ["score", "rating", "num_reviews"];
      assert "title" in ["title", "description", "brand", "category"];
      assert "description" in ["title", "description", "brand", "category"];
      assert "brand" in ["title", "description", "brand", "category"];
      assert "category" in ["title", "description", "brand", "category"];
      assert "availability" in ["availability", "product_id", "price", "tags", "specifications"];
      assert "product_id" in ["availability", "product_id", "price", "tags", "specifications"];
      assert "price" in ["availability", "product_id", "price", "tags", "specifications"];
      assert "tags" in ["availability", "product_id", "price", "tags", "specifications"];
      assert "specifications" in ["availability", "product_id", "price", "tags", "specifications"];
    }
  }

  /** A scored candidate copies the candidate's fields and keeps its similarity
      as the semantic score. */
  lemma ScoreHitCopiesFields(hit: Dict, query: string, withBreakdown: bool, ln: Log)
    requires ScoreHit(hit, query, withBreakdown, ln).Success?
    ensures var r := ScoreHit(hit, query, withBreakdown, ln).value;
      && Str(r.title) == hit["title"] && Str(r.description) == hit["description"]
      && Str(r.brand) == hit["brand"] && Str(r.category) == hit["category"]
      && r.productId == hit["product_id"] && r.price == hit["price"]
      && r.rating == hit["rating"] && r.numReviews == hit["num_reviews"]
      && r.availability == hit["availability"] && r.tags == hit["tags"]
      && r.specifications == hit["specifications"]
      && Some(r.semanticScore) == AsNumber(hit["score"])
  {
  }

  /** b holds the seven contributions, and the final score is the sum of the
      six boosts and signals scaled by one minus the availability penalty. */
  predicate Explains(finalScore: real, b: map<string, real>) {
    && b.Keys == BreakdownKeys
    && finalScore ==
         (b["semantic"] + b["rating"] + b["popularity"] + b["title_match"]
          + b["brand_match"] + b["category_match"]) * (1.0 - b["availability_penalty"])
  }

  /** A full breakdown explains the score it comes with. */
  lemma BreakdownOfSignals(g: Signals)
    ensures Explains(FinalScore(g), Breakdown(g, true))
  {
  }

  /** The breakdown a scored record carries when it was asked for explains its
      final score. */
  lemma BreakdownExplainsScore(hit: Dict, query: string, ln: Log)
    requires ScoreHit(hit, query, true, ln).Success?
    ensures var r := ScoreHit(hit, query, true, ln).value;
      Explains(r.finalScore, r.scoreBreakdown)
  {
    var g := ScoreHitSignals(hit, query, true, ln);
    BreakdownOfSignals(g);
  }

  /** Each entry of a requested breakdown, in terms of the candidate's fields:
      the three weighted signals, the three boosts, and one minus the
      availability multiplier as the penalty. */
  lemma CandidateBreakdown(hit: Dict, query: string, ln: Log)
    requires ScoreHit(hit, query, true, ln).Success?
    ensures var b := ScoreHit(hit, query, true, ln).value.scoreBreakdown;
      var q := Lower(query);
      && b.Keys == BreakdownKeys
      && b["semantic"] == AsNumber(hit["score"]).value * SemanticWeight
      && b["rating"] == (AsNumber(hit["rating"]).value - 1.0) / 4.0 * RatingWeight
      && b["popularity"] == Popularity(AsNumber(hit["num_reviews"]).value, ln).value * PopularityWeight
      && b["title_match"] == (if AnyLongWordIn(Split(q), Lower(hit["title"].s)) then TitleBoost else 0.0)
      && b["brand_match"] == (if Contains(q, Lower(hit["brand"].s)) then BrandBoost else 0.0)
      && b["category_match"] == (if Contains(q, Lower(hit["category"].s)) then CategoryBoost else 0.0)
      && b["availability_penalty"] == 1.0 - AvailabilityMultiplier(hit["availability"])
  {
    var g := ScoreHitSignals(hit, query, true, ln);
  }

  /** The flag only decides whether the breakdown is filled in: success, the
      final score and every other field are the same either way. */
  lemma FlagOnlyAffectsBreakdown(hit: Dict, query: string, ln: Log)
    ensures ScoreHit(hit, query, true, ln).Success? <==> ScoreHit(hit, query, false, ln).Success?
    ensures ScoreHit(hit, query, false, ln).Success? ==>
      var a := ScoreHit(hit, query, true, ln).value;
      var b := ScoreHit(hit, query, false, ln).value;
      && b.scoreBreakdown == map[]
      && a.finalScore == b.finalScore
      && a == b.(scoreBreakdown := a.scoreBreakdown)
  {
  }

  /** The signals a scored candidate's record is built from. */
  lemma ScoreHitSignals(hit: Dict, query: string, withBreakdown: bool, ln: Log) returns (g: Signals)
    requires ScoreHit(hit, query, withBreakdown, ln).Success?
    ensures g == MakeSignals(AsNumber(hit["score"]).value, AsNumber(hit["rating"]).value,
        Popularity(AsNumber(hit["num_reviews"]).value, ln).value, hit["availability"],
        query, hit["title"].s, hit["brand"].s, hit["category"].s)
    ensures ScoreHit(hit, query, withBreakdown, ln).value.finalScore == FinalScore(g)
    ensures ScoreHit(hit, query, withBreakdown, ln).value.scoreBreakdown == Breakdown(g, withBreakdown)
  {
    g := MakeSignals(AsNumber(hit["score"]).value, AsNumber(hit["rating"]).value,
        Popularity(AsNumber(hit["num_reviews"]).value, ln).value, hit["availability"],
        query, hit["title"].s, hit["brand"].s, hit["category"].s);
  }

  /** The final score is the weighted sum of the signals plus the flat boosts,
      scaled by the availability multiplier; the boosts are 0.1, 0.05 and 0.05
      or nothing. */
  lemma FinalScoreFormula(sim: real, rating: real, pop: real, availability: Value,
                          query: string, title: string, brand: string, category: string)
    ensures var g := MakeSignals(sim, rating, pop, availability, query, title, brand, category);
      && g.titleMatch in {0.0, 0.1} && g.brandMatch in {0.0, 0.05} && g.categoryMatch in {0.0, 0.05}
      && FinalScore(g) ==
           (0.7 * sim + 0.2 * (rating - 1.0) / 4.0 + 0.1 * pop
            + g.titleMatch + g.brandMatch + g.categoryMatch) * AvailabilityMultiplier(availability)
  {
  }

  /** The title boost fires exactly when a whitespace-separated word of the
      lower-cased query, longer than two characters, occurs in the lower-cased
      title; the brand and category boosts fire when the lower-cased field occurs
      in the lower-cased query. */
  lemma BoostConditions(sim: real, rating: real, pop: real, availability: Value,
                        query: string, title: string, brand: string, category: string)
    ensures var g := MakeSignals(sim, rating, pop, availability, query, title, brand, category);
      var words := Split(Lower(query));
      && (g.titleMatch == TitleBoost <==>
            exists i :: 0 <= i < |words| && |words[i]| > 2 && Contains(Lower(title), words[i]))
      && (g.brandMatch == BrandBoost <==> Contains(Lower(query), Lower(brand)))
      && (g.categoryMatch == CategoryBoost <==> Contains(Lower(query), Lower(category)))
  {
    var g := MakeSignals(sim, rating, pop, availability, query, title, brand, category);
    var words := Split(Lower(query));
    var any := AnyLongWordIn(words, Lower(title));
    assert any <==> exists i :: 0 <= i < |words| && |words[i]| > 2 && Contains(Lower(title), words[i]);
    assert g.titleMatch == (if any then TitleBoost else 0.0);
  }

  /** Changing only the availability to "Out of Stock" halves the score of an
      "In Stock" candidate, and "Limited Stock" keeps nine tenths of it. */
  lemma AvailabilityScales(hit: Dict, query: string, withBreakdown: bool, ln: Log)
    requires ScoreHit(hit, query, withBreakdown, ln).Success?
    requires hit["availability"] == Str("In Stock")
    ensures ScoreHit(hit["availability" := Str("Out of Stock")], query, withBreakdown, ln).Success?
    ensures ScoreHit(hit["availability" := Str("Out of Stock")], query, withBreakdown, ln).value.finalScore
            == 0.5 * ScoreHit(hit, query, withBreakdown, ln).value.finalScore
    ensures ScoreHit(hit["availability" := Str("Limited Stock")], query, withBreakdown, ln).value.finalScore
            == 0.9 * ScoreHit(hit, query, withBreakdown, ln).value.finalScore
  {
    var out := hit["availability" := Str("Out of Stock")];
    var limited := hit["availability" := Str("Limited Stock")];
    ScoreHitSucceedsIff(hit, query, withBreakdown, ln);
    ScoreHitSucceedsIff(out, query, withBreakdown, ln);
    ScoreHitSucceedsIff(limited, query, withBreakdown, ln);
    var g := ScoreHitSignals(hit, query, withBreakdown, ln);
    var gOut := ScoreHitSignals(out, query, withBreakdown, ln);
    var gLimited := ScoreHitSignals(limited, query, withBreakdown, ln);
  }

  /** A candidate with similarity 0.8, rating 5 and a review count at the
      reference, without lexical boosts and in stock, scores 0.56 + 0.2 + 0.1. */
  lemma ReferenceCandidateScore(sim: real, rating: real, pop: real, availability: Value,
                                query: string, title: string, brand: string, category: string)
    requires sim == 0.8 && rating == 5.0 && pop == 1.0
    requires availability == Str("In Stock")
    requires !AnyLongWordIn(Split(Lower(query)), Lower(title))
    requires !Contains(Lower(query), Lower(brand)) && !Contains(Lower(query), Lower(category))
    ensures var g := MakeSignals(sim, rating, pop, availability, query, title, brand, category);
      g.semantic == 0.56 && g.rating == 0.2 && g.popularity == 0.1 && FinalScore(g) == 0.86
  {
  }

  /** With the similarity in [0, 1], the rating in [1, 5] and a popularity ratio
      in [0, 1], the final score lies in [0, 1.2]. */
  lemma FinalScoreBounds(sim: real, rating: real, pop: real, availability: Value,
                         query: string, title: string, brand: string, category: string)
    requires 0.0 <= sim <= 1.0 && 1.0 <= rating <= 5.0 && 0.0 <= pop <= 1.0
    ensures var g := MakeSignals(sim, rating, pop, availability, query, title, brand, category);
      0.0 <= FinalScore(g) <= 1.2
  {
    var g := MakeSignals(sim, rating, pop, availability, query, title, brand, category);
    SignalsBounded(sim, rating, pop, availability, query, title, brand, category);
    ScaledWithin(g);
  }

  /** The summed signals lie in [0, 1.2] and the multiplier in [0.5, 1]. */
  lemma SignalsBounded(sim: real, rating: real, pop: real, availability: Value,
                       query: string, title: string, brand: string, category: string)
    requires 0.0 <= sim <= 1.0 && 1.0 <= rating <= 5.0 && 0.0 <= pop <= 1.0
    ensures var g := MakeSignals(sim, rating, pop, availability, query, title, brand, category);
      && 0.0 <= g.semantic + g.rating + g.popularity + g.titleMatch + g.brandMatch + g.categoryMatch <= 1.2
      && 0.5 <= g.multiplier <= 1.0
  {
  }

  /** Scaling by a factor in [0.5, 1] keeps a sum of [0, 1.2] in [0, 1.2]. */
  lemma ScaledWithin(g: Signals)
    requires 0.0 <= g.semantic + g.rating + g.popularity + g.titleMatch + g.brandMatch + g.categoryMatch <= 1.2
    requires 0.5 <= g.multiplier <= 1.0
    ensures 0.0 <= FinalScore(g) <= 1.2
  {
    var x := g.semantic + g.rating + g.popularity + g.titleMatch + g.brandMatch + g.categoryMatch;
    assert FinalScore(g) == x * g.multiplier;
    assert 0.0 <= x * g.multiplier;
    assert x * g.multiplier <= x;
  }

  /** The scoring loop as a whole: every candidate scored in order, or the first
      fault raised. */
  function ScoreAll(hits: seq<Dict>, query: string, withBreakdown: bool, ln: Log): (r: Result<seq<SearchResult>, Fault>)
    ensures r.Success? ==> |r.value| == |hits|
    ensures r.Success? <==> forall i :: 0 <= i < |hits| ==> ScoreHit(hits[i], query, withBreakdown, ln).Success?
    ensures r.Success? ==> forall i :: 0 <= i < |hits| ==> r.value[i] == ScoreHit(hits[i], query, withBreakdown, ln).value
  {
    Collect(hits, Scorer(query, withBreakdown, ln))
  }

  /** The loop body as a function of the candidate. */
  function Scorer(query: string, withBreakdown: bool, ln: Log): (f: Dict -> Result<SearchResult, Fault>)
    ensures forall hit :: f(hit) == ScoreHit(hit, query, withBreakdown, ln)
  {
    hit => ScoreHit(hit, query, withBreakdown, ln)
  }

  /** `_apply_custom_scoring`: one record per candidate, appended in candidate
      order; the first fault ends the loop. */
  method ApplyCustomScoring(hits: seq<Dict>, query: string, withBreakdown: bool, ln: Log)
    returns (r: Result<seq<SearchResult>, Fault>)
    ensures r == ScoreAll(hits, query, withBreakdown, ln)
  {
    var scored: seq<SearchResult> := [];
    var i := 0;
    while i < |hits|
      invariant 0 <= i <= |hits|
      invariant |scored| == i
      invariant forall j :: 0 <= j < i ==> ScoreHit(hits[j], query, withBreakdown, ln).Success?
      invariant forall j :: 0 <= j < i ==> scored[j] == ScoreHit(hits[j], query, withBreakdown, ln).value
    {
      var one := ScoreHit(hits[i], query, withBreakdown, ln);
      if one.Failure? {
        FirstFaultIsReported(hits, query, withBreakdown, ln, i);
        return Failure(one.error);
      }
      scored := scored + [one.value];
      i := i + 1;
    }
    ScoreAllSuccess(hits, query, withBreakdown, ln, scored);
    r := Success(scored);
  }

  /** When the candidates before i score and candidate i raises, the loop raises
      candidate i's fault. */
  lemma FirstFaultIsReported(hits: seq<Dict>, query: string, withBreakdown: bool, ln: Log, i: nat)
    requires i < |hits|
    requires forall j :: 0 <= j < i ==> ScoreHit(hits[j], query, withBreakdown, ln).Success?
    requires ScoreHit(hits[i], query, withBreakdown, ln).Failure?
    ensures ScoreAll(hits, query, withBreakdown, ln) == Failure(ScoreHit(hits[i], query, withBreakdown, ln).error)
  {
    CollectFirstFault(hits, Scorer(query, withBreakdown, ln), i);
  }

  /** Scoring every candidate gives exactly the list of their records. */
  lemma ScoreAllSuccess(hits: seq<Dict>, query: string, withBreakdown: bool, ln: Log, scored: seq<SearchResult>)
    requires |scored| == |hits|
    requires forall j :: 0 <= j < |hits| ==> ScoreHit(hits[j], query, withBreakdown, ln).Success?
    requires forall j :: 0 <= j < |hits| ==> scored[j] == ScoreHit(hits[j], query, withBreakdown, ln).value
    ensures ScoreAll(hits, query, withBreakdown, ln) == Success(scored)
  {
    CollectSuccess(hits, Scorer(query, withBreakdown, ln), scored);
  }
}
