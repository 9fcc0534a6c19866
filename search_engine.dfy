/** The search engine's caller-facing operations: `search`, which extracts
    filters from the query, asks the vector store for twice the limit, re-scores
    and re-ranks; `get_search_suggestions`; and `get_filter_options`. */
module SearchEngine {
  import opened Base
  import opened Text
  import opened Config
  import opened FilterExtraction
  import opened Scoring
  import opened Ranking
  import opened QdrantManager

  /** The query embedding, supplied by the caller (`encode_query`); an empty
      vector stands for a failed encoding. */
  type Encoder = string -> seq<real>

  /** The limit `search` works with: the caller's, or 15. */
  function EffectiveLimit(limit: Option<int>): int {
    limit.GetOr(DefaultLimit)
  }

  /** What the store is asked for a query. */
  function StoreRequest(query: string, filters: Option<Dict>, limit: Option<int>, vector: seq<real>): StoreQuery {
    StoreQuery(vector, QueryFilter(Some(EnhancedFilters(query, filters.GetOr(map[])))),
               EffectiveLimit(limit) * 2, SimilarityThreshold)
  }

  /** The candidates the store returns, formatted. */
  function Candidates(query: string, filters: Option<Dict>, limit: Option<int>, encode: Encoder,
                      client: Client): seq<Dict>
  {
    SearchResults(client, encode(query), Some(EnhancedFilters(query, filters.GetOr(map[]))),
                  EffectiveLimit(limit) * 2, SimilarityThreshold)
  }

  /** The candidates re-scored, sorted and cut to the limit; [] when there are
      none or scoring raises. */
  function Ranked(raw: seq<Dict>, query: string, withBreakdown: bool, ln: Log, limit: int): seq<SearchResult> {
    if raw == [] then []
    else match ScoreAll(raw, query, withBreakdown, ln)
      case Failure(_) => []
      case Success(scored) => PyTake(SortByScore(scored), limit)
  }

  /** The list `search` returns. */
  function SearchOutcome(query: string, filters: Option<Dict>, limit: Option<int>, withBreakdown: bool,
                         encode: Encoder, client: Client, ln: Log): seq<SearchResult>
  {
    if encode(query) == [] then []
    else Ranked(Candidates(query, filters, limit, encode, client), query, withBreakdown, ln, EffectiveLimit(limit))
  }

  /** `search`: every failure on the way ends in an empty list. */
  method Search(query: string, filters: Option<Dict>, limit: Option<int>, withBreakdown: bool,
                encode: Encoder, client: Client, ln: Log) returns (results: seq<SearchResult>)
    ensures results == SearchOutcome(query, filters, limit, withBreakdown, encode, client, ln)
  {
    var lim := limit.GetOr(DefaultLimit);
    var enhanced := ExtractQueryFilters(query, filters.GetOr(map[]));
    var vector := encode(query);
    if vector == [] {
      return [];
    }
    var raw := SearchProducts(client, vector, Some(enhanced), lim * 2, SimilarityThreshold);
    results := RankCandidates(raw, query, withBreakdown, ln, lim);
  }

  /** The re-ranking half of `search`. */
  method RankCandidates(raw: seq<Dict>, query: string, withBreakdown: bool, ln: Log, limit: int)
    returns (results: seq<SearchResult>)
    ensures results == Ranked(raw, query, withBreakdown, ln, limit)
  {
    if raw == [] {
      return [];
    }
    var scored := ApplyCustomScoring(raw, query, withBreakdown, ln);
    if scored.Failure? {
      return [];
    }
    results := PyTake(SortByScore(scored.value), limit);
  }

  /** A missing limit is the limit 15. */
  lemma DefaultLimitIs15(query: string, filters: Option<Dict>, withBreakdown: bool,
                         encode: Encoder, client: Client, ln: Log)
    ensures SearchOutcome(query, filters, None, withBreakdown, encode, client, ln) ==
            SearchOutcome(query, filters, Some(15), withBreakdown, encode, client, ln)
  {
  }

  /** The store is asked once, for twice the limit above the similarity
      threshold 0.3 with the extracted filters: clients that answer that one
      request alike give the same results. */
  lemma OnlyTheRequestMatters(query: string, filters: Option<Dict>, limit: Option<int>, withBreakdown: bool,
                              encode: Encoder, c1: Client, c2: Client, ln: Log)
    requires c1(StoreRequest(query, filters, limit, encode(query))) ==
             c2(StoreRequest(query, filters, limit, encode(query)))
    ensures SearchOutcome(query, filters, limit, withBreakdown, encode, c1, ln) ==
            SearchOutcome(query, filters, limit, withBreakdown, encode, c2, ln)
    ensures StoreRequest(query, filters, limit, encode(query)).limit == 2 * EffectiveLimit(limit)
    ensures StoreRequest(query, filters, limit, encode(query)).threshold == 0.3
  {
  }

  /** An empty embedding, no candidates, or a fault while scoring gives []. */
  lemma FailsSoft(query: string, filters: Option<Dict>, limit: Option<int>, withBreakdown: bool,
                  encode: Encoder, client: Client, ln: Log)
    ensures encode(query) == [] ==> SearchOutcome(query, filters, limit, withBreakdown, encode, client, ln) == []
    ensures Candidates(query, filters, limit, encode, client) == [] ==>
              SearchOutcome(query, filters, limit, withBreakdown, encode, client, ln) == []
    ensures ScoreAll(Candidates(query, filters, limit, encode, client), query, withBreakdown, ln).Failure? ==>
              SearchOutcome(query, filters, limit, withBreakdown, encode, client, ln) == []
    ensures client(StoreRequest(query, filters, limit, encode(query))).None? ==>
              SearchOutcome(query, filters, limit, withBreakdown, encode, client, ln) == []
  {
  }

  /** A successful search returns the best-scoring candidates: sorted by
      descending final score, at most limit of them, drawn from the scored
      candidates, none scoring below a candidate left out, and for every score a prefix of the candidates with that
      score in candidate order. */
  lemma SearchRanks(query: string, filters: Option<Dict>, limit: Option<int>, withBreakdown: bool,
                    encode: Encoder, client: Client, ln: Log)
    requires encode(query) != []
    requires ScoreAll(Candidates(query, filters, limit, encode, client), query, withBreakdown, ln).Success?
    ensures var r := SearchOutcome(query, filters, limit, withBreakdown, encode, client, ln);
      var scored := ScoreAll(Candidates(query, filters, limit, encode, client), query, withBreakdown, ln).value;
      && SortedByScore(r)
      && (EffectiveLimit(limit) >= 0 ==> |r| == Min(EffectiveLimit(limit), |scored|))
      && multiset(r) <= multiset(scored)
      && (forall x, y :: x in multiset(r) && y in multiset(scored) - multiset(r) ==> x.finalScore >= y.finalScore)
      && forall k :: WithScore(r, k) <= WithScore(scored, k)
  {
    var raw := Candidates(query, filters, limit, encode, client);
    var scored := ScoreAll(raw, query, withBreakdown, ln).value;
    TopRanked(scored, EffectiveLimit(limit));
    if raw == [] {
      assert ScoreAll(raw, query, withBreakdown, ln) == Success([]);
    }
  }

  /** A search that succeeds returns no more than the limit, whatever happens
      on the way. */
  lemma SearchBounded(query: string, filters: Option<Dict>, limit: Option<int>, withBreakdown: bool,
                      encode: Encoder, client: Client, ln: Log)
    requires EffectiveLimit(limit) >= 0
    ensures |SearchOutcome(query, filters, limit, withBreakdown, encode, client, ln)| <= EffectiveLimit(limit)
  {
  }

  // Suggestions.

  /** The sample queries containing the partial query, ignoring case, in order. */
  function SampleMatches(samples: seq<string>, partial: string): (r: seq<string>)
    decreases |samples|
  {
    if samples == [] then []
    else
      var last := samples[|samples| - 1];
      SampleMatches(samples[..|samples| - 1], partial)
        + (if Contains(Lower(last), Lower(partial)) then [last] else [])
  }

  /** "products in " + c for the categories c containing the partial query. */
  function CategorySuggestions(categories: seq<string>, partial: string): (r: seq<string>)
    decreases |categories|
  {
    if categories == [] then []
    else
      var last := categories[|categories| - 1];
      CategorySuggestions(categories[..|categories| - 1], partial)
        + (if Contains(Lower(last), Lower(partial)) then ["products in " + last] else [])
  }

  /** What `get_search_suggestions` returns. */
  function Suggestions(partial: string, limit: int): seq<string> {
    PyTake(SampleMatches(SampleQueries, partial) + CategorySuggestions(Categories, partial), limit)
  }

  /** `get_search_suggestions`: the matching sample queries, then the matching
      categories, truncated to the limit (5 by default at the call site). */
  method GetSearchSuggestions(partial: string, limit: int) returns (r: seq<string>)
    ensures r == Suggestions(partial, limit)
  {
    var suggestions: seq<string> := [];
    var i := 0;
    while i < |SampleQueries|
      invariant 0 <= i <= |SampleQueries|
      invariant suggestions == SampleMatches(SampleQueries[..i], partial)
    {
      assert SampleQueries[..i + 1][..i] == SampleQueries[..i];
      if Contains(Lower(SampleQueries[i]), Lower(partial)) {
        suggestions := suggestions + [SampleQueries[i]];
      }
      i := i + 1;
    }
    assert SampleQueries[..i] == SampleQueries;
    var samples := suggestions;
    var j := 0;
    while j < |Categories|
      invariant 0 <= j <= |Categories|
      invariant suggestions == samples + CategorySuggestions(Categories[..j], partial)
    {
      assert Categories[..j + 1][..j] == Categories[..j];
      if Contains(Lower(Categories[j]), Lower(partial)) {
        suggestions := suggestions + ["products in " + Categories[j]];
      }
      j := j + 1;
    }
    assert Categories[..j] == Categories;
    r := PyTake(suggestions, limit);
  }

  /** A sample query is suggested exactly when it contains the partial query,
      ignoring case. */
  lemma {:induction false} SampleMatchesIff(samples: seq<string>, partial: string, x: string)
    ensures x in SampleMatches(samples, partial) <==> x in samples && Contains(Lower(x), Lower(partial))
    decreases |samples|
  {
    if samples != [] {
      var init := samples[..|samples| - 1];
      SampleMatchesIff(init, partial, x);
      assert samples == init + [samples[|samples| - 1]];
    }
  }

  /** Matching keeps the list order: the first sample query is kept or dropped
      in front of the matches among the rest. */
  lemma {:induction false} SampleMatchesCons(samples: seq<string>, partial: string)
    requires samples != []
    ensures SampleMatches(samples, partial) ==
              (if Contains(Lower(samples[0]), Lower(partial)) then [samples[0]] else [])
              + SampleMatches(samples[1..], partial)
    decreases |samples|
  {
    if |samples| > 1 {
      var init := samples[..|samples| - 1];
      SampleMatchesCons(init, partial);
      assert init[1..] == samples[1..][..|samples[1..]| - 1];
    }
  }

  /** A category suggestion is "products in " followed by a category that
      contains the partial query, ignoring case, and every such category gives
      one. */
  lemma {:induction false} CategorySuggestionsIff(categories: seq<string>, partial: string, c: string)
    ensures "products in " + c in CategorySuggestions(categories, partial) <==>
              c in categories && Contains(Lower(c), Lower(partial))
    ensures forall x :: x in CategorySuggestions(categories, partial) ==>
              exists d :: d in categories && x == "products in " + d
    decreases |categories|
  {
    if categories != [] {
      var init := categories[..|categories| - 1];
      var last := categories[|categories| - 1];
      CategorySuggestionsIff(init, partial, c);
      assert categories == init + [last];
      assert "products in " + c == "products in " + last ==> c == last by {
        if "products in " + c == "products in " + last {
          assert c == ("products in " + c)[12..];
        }
      }
    }
  }

  /** No sample query is suggested exactly when none contains the partial query. */
  lemma NoSampleMatchesIff(samples: seq<string>, partial: string)
    ensures SampleMatches(samples, partial) == [] <==>
              forall i :: 0 <= i < |samples| ==> !Contains(Lower(samples[i]), Lower(partial))
  {
    var r := SampleMatches(samples, partial);
    if r != [] {
      SampleMatchesIff(samples, partial, r[0]);
    }
    forall i | 0 <= i < |samples| && Contains(Lower(samples[i]), Lower(partial))
      ensures r != []
    {
      SampleMatchesIff(samples, partial, samples[i]);
    }
  }

  /** No category is suggested exactly when none contains the partial query. */
  lemma NoCategorySuggestionsIff(categories: seq<string>, partial: string)
    ensures CategorySuggestions(categories, partial) == [] <==>
              forall i :: 0 <= i < |categories| ==> !Contains(Lower(categories[i]), Lower(partial))
  {
    var r := CategorySuggestions(categories, partial);
    if r != [] {
      CategorySuggestionsIff(categories, partial, "");
      assert r[0] in r;
      var d :| d in categories && r[0] == "products in " + d;
      CategorySuggestionsIff(categories, partial, d);
    }
    forall i | 0 <= i < |categories| && Contains(Lower(categories[i]), Lower(partial))
      ensures r != []
    {
      CategorySuggestionsIff(categories, partial, categories[i]);
    }
  }

  /** Sample matches come first, then category suggestions, and the list is cut
      at the limit. */
  lemma SuggestionsOrder(partial: string, limit: int)
    ensures var s := SampleMatches(SampleQueries, partial);
      var c := CategorySuggestions(Categories, partial);
      var r := Suggestions(partial, limit);
      var m := Min(|s|, |r|);
      && r[..m] == s[..m]
      && r[m..] == c[..|r| - m]
      && (limit >= 0 ==> |r| == Min(limit, |s| + |c|))
  {
    var s := SampleMatches(SampleQueries, partial);
    var c := CategorySuggestions(Categories, partial);
    var r := Suggestions(partial, limit);
    var m := Min(|s|, |r|);
    assert r == (s + c)[..|r|];
    assert r[..m] == (s + c)[..m];
    assert r[m..] == (s + c)[m..|r|];
    if |r| > |s| {
      assert (s + c)[m..|r|] == c[..|r| - m];
    }
  }

  // Filter options.

  /** The option lists `get_filter_options` offers the user interface. */
  datatype FilterOptions = FilterOptions(
    categories: seq<string>,
    priceRanges: seq<string>,
    availabilityOptions: seq<string>,
    ratingMinimums: seq<real>)

  function GetFilterOptions(): FilterOptions {
    FilterOptions(Categories, PriceRangeNames, ["In Stock", "Limited Stock", "Out of Stock"],
                  [3.0, 3.5, 4.0, 4.5, 5.0])
  }

  /** The options agree with the rest of the engine: every category the query
      parser can infer is offered, the availability options are the values the
      scorer distinguishes, and the rating minimums rise from 3 to 5. */
  lemma FilterOptionsConsistent()
    ensures var o := GetFilterOptions();
      && o.categories == Categories
      && o.priceRanges == PriceRangeNames
      && (forall k :: 0 <= k < |CategoryKeywords| ==> CategoryKeywords[k].1 in o.categories)
      && |o.availabilityOptions| == 3
      && AvailabilityMultiplier(Str(o.availabilityOptions[0])) == 1.0
      && AvailabilityMultiplier(Str(o.availabilityOptions[1])) == 0.9
      && AvailabilityMultiplier(Str(o.availabilityOptions[2])) == 0.5
      && (forall i, j :: 0 <= i < j < |o.ratingMinimums| ==> o.ratingMinimums[i] < o.ratingMinimums[j])
      && (forall i :: 0 <= i < |o.ratingMinimums| ==> 3.0 <= o.ratingMinimums[i] <= 5.0)
  {
    assert forall k :: 0 <= k < |CategoryKeywords| ==>
      CategoryKeywords[k].1 in {"Electronics", "Clothing & Accessories", "Sports & Outdoors", "Home & Garden"};
  }
}
