# Hybrid product search: query understanding, re-scoring and ranking

This project models the decision logic of a small e-commerce search service
built on a vector database. A shopper types a free-text query; the engine
1. reads implicit filters out of the text (price bounds, a minimum rating, a
   category, a brand) and merges them with the caller's explicit filters;
2. turns the filters into the vector store's filter language and asks the store
   for twice the wanted number of candidates above a similarity threshold;
3. re-scores every candidate with a fixed formula of semantic similarity,
   rating, review count, availability and query/title/brand/category matches;
4. sorts stably by descending final score and keeps the first `limit`.

It also models query suggestions, the table of filter options offered to the
user interface, and product ingestion: each product becomes a point whose
payload holds eleven product fields, and the points go to the store in
batches of 100.

Modules, in dependency order:
- `Base`: `Option`, `Result`, the dynamic `Value` held in Python dicts, `Dict = map<string, Value>`,
  the faults the code can raise (`KeyError`, `TypeError`, `AttributeError`, math domain, division by zero), and
  Python's `s[:k]` (`PyTake`, including negative `k`).
- `Text`: ASCII `str.lower`, `str.title`, `str.split()` and the substring test `in`.
- `Config`: the constants of `SearchConfig` and `DemoConfig`.
- `Patterns`: the twelve regular expressions of the filter extractor, each as a leftmost-match
  recogniser with its capture groups.
- `FilterExtraction`: `_extract_query_filters`, as four scans (price, rating, category, brand).
- `Scoring`: the `SearchResult` record and `_apply_custom_scoring`.
- `Ranking`: the stable descending sort and the cut to the limit.
- `QdrantManager`: `_build_filters`, result formatting in `search_products`, and point building and
  batching in `upsert_products`.
- `SearchEngine`: `search`, `get_search_suggestions`, `get_filter_options`.
- `ExtractionExamples` and `SuggestionExamples`: worked inputs evaluated on the model.

Calls that leave the process become parameters. The embedding is an
`Encoder = string -> seq<real>`, where an empty vector means failure. The
store's search is a `Client = StoreQuery -> Option<seq<Hit>>`, where `None`
means the call raised. The store's upsert is `seq<Point> -> bool`. `math.log`
is `Log = real -> real`. Exceptions inside the code are `Result` failures, and
`search` turns every failure into the empty list, as its `try` block does.

Two consequences of the code's order:
- In the keyword table, `'shoes'` (Clothing & Accessories) comes before `'running'` (Sports &
  Outdoors), and the first keyword in table order wins. So "running shoes under $50" gets category
  "Clothing & Accessories" (`ExtractionExamples.RunningShoesFilters`).
- Price and rating extraction do not check what the caller already supplied. They overwrite
  `price_min`, `price_max` and `rating_min` (`FilterExtraction.PriceFirstPatternWins`,
  `FilterExtraction.RatingFirstPatternWins`). Category and brand extraction do skip a key that is
  already set.

## Model

| member | source | states |
|---|---|---|
| Base.PyTake | search_engine.py:91 | `s[:k]` is a prefix of s; its length is min(k, len) for k >= 0 and len+k (at least 0) for negative k |
| Base.Lookup | src/core/qdrant_manager.py:103-113 | `d[key]` succeeds exactly when the key is present, yields its value, and otherwise raises KeyError for that key |
| Text.Lower | search_engine.py:100 | lower-casing keeps the length and maps each character to its lower-case form |
| Text.LowerIdempotent | search_engine.py:100 | lower-casing twice is lower-casing once |
| Text.TitleCaseOnlyChangesCase | search_engine.py:169 | `str.title` changes case only: the first letter of each letter run is upper-case and the rest lower-case |
| Text.TitleCase | search_engine.py:169 | `str.title` keeps the length; the letter rules are in TitleCaseOnlyChangesCase |
| Text.ContainsIff | search_engine.py:156 | `needle in hay` holds exactly when some slice of hay equals needle |
| Text.Contains | search_engine.py:156 | `needle in hay`, as a scan of the start positions; ContainsIff states it as an existing slice |
| Text.MissingPairNotContained | search_engine.py:156 | a hay in which two adjacent characters of the needle never occur side by side does not contain the needle |
| Text.SplitWords | search_engine.py:216 | `str.split()` yields non-empty words free of whitespace whose concatenation is the input without its whitespace; the empty text has no words |
| Text.Split | search_engine.py:216 | `str.split()` with no argument: the maximal runs of non-whitespace characters, in order; properties in SplitWords, SplitSingleWord and SplitAtSeparator |
| Text.SplitSingleWord | search_engine.py:216 | a non-empty text without whitespace is one word |
| Text.SplitAtSeparator | search_engine.py:216 | no word spans whitespace: the words of s + c + t, c a whitespace character, are the words of s followed by those of t |
| Text.WordEndBeforeSeparator | search_engine.py:216 | a word inside s ends where it ended in s when whitespace follows s |
| Text.DecimalValueOfDigits | search_engine.py:104 | `int()` of the decimal digits of n is n |
| Patterns.DollarNumberAt | search_engine.py:104-111 | `\$?(\d+)` captures a maximal non-empty run of digits, starting right after the dollar sign if there is one and at the position otherwise; it fails exactly when no digit follows the optional dollar sign |
| Patterns.DecimalAt | search_engine.py:122-123 | `(\d+\.?\d*)` captures digits, an optional point and optional digits from the position, greedily: the capture is followed by the end of the text, or by a character that is neither a digit nor a second point; it fails exactly when no digit is at the position |
| Patterns.NumberAfter | search_engine.py:104-109 | a literal like "under " followed by an amount captures exactly one digit string |
| Patterns.RangeAt | search_engine.py:110 | `\$?(\d+)-\$?(\d+)` captures two digit strings |
| Patterns.BetweenAt | search_engine.py:111 | "between N and M" captures two digit strings |
| Patterns.StarsOrBetterAt | search_engine.py:123 | "N star(s) or better" captures one decimal |
| Patterns.MatchAt | search_engine.py:103-126 | a match at a position has the pattern's group count, digit groups for price patterns and a decimal group for star patterns |
| Patterns.MatchPosFrom | search_engine.py:115 | the first position with a match, and no match before it |
| Patterns.Search | search_engine.py:115 | `re.search` yields the groups of the pattern with their shapes |
| Patterns.SearchLeftmost | search_engine.py:115 | `re.search` fails exactly when no position matches, and otherwise reports the leftmost match |
| Patterns.SearchNeedsAnchor | search_engine.py:103-126 | a pattern cannot match a query that lacks its fixed text |
| FilterExtraction.PatternUpdate | search_engine.py:104-125 | under/below/less than set price_max to the captured integer; over/above/more than set price_min; a range and between set both bounds from the two captures; the star patterns set rating_min to the captured float, highly rated 4.0 and top rated 4.5; no other key is set |
| FilterExtraction.TableUpdate | search_engine.py:114-132 | one pattern loop: the update of the first pattern that matches, or none; properties in PriceFirstPatternWins and RatingFirstPatternWins |
| FilterExtraction.FloatValueOfInteger | search_engine.py:122 | `float()` of an integer's digits is that integer |
| FilterExtraction.FirstPattern | search_engine.py:114-118 | the scan stops at the first pattern in table order that matches, and none before it matched |
| FilterExtraction.FirstKeyword | search_engine.py:155-158 | the first keyword in table order found in the query, and none before it occurs |
| FilterExtraction.FirstBrand | search_engine.py:166-170 | the first known brand in list order found in the query, and none before it occurs |
| FilterExtraction.WithPrice | search_engine.py:114-118 | the price scan changes no key except price_min and price_max |
| FilterExtraction.WithRating | search_engine.py:128-132 | the rating scan changes no key except rating_min |
| FilterExtraction.WithCategory | search_engine.py:155-158 | the category scan changes only category, and never a category already present |
| FilterExtraction.WithBrand | search_engine.py:166-170 | the brand scan changes only brand, and never a brand already present |
| FilterExtraction.ExtractQueryFilters | search_engine.py:97-172 | the four scans in source order, on the lower-cased query, starting from a copy of the caller's filters |
| FilterExtraction.EnhancedFilters | search_engine.py:97-172 | the price, rating, category and brand scans applied in that order to the lower-cased query over the caller's filters; properties in OtherKeysUnchanged and the scan lemmas below it |
| FilterExtraction.ScanPricePatterns | search_engine.py:114-118 | the price loop with its `break` computes the price scan |
| FilterExtraction.ScanRatingPatterns | search_engine.py:128-132 | the rating loop with its `break` computes the rating scan |
| FilterExtraction.ScanCategoryKeywords | search_engine.py:155-158 | the keyword loop computes the category scan |
| FilterExtraction.ScanKnownBrands | search_engine.py:166-170 | the brand loop computes the brand scan |
| FilterExtraction.OtherKeysUnchanged | search_engine.py:97-172 | keys other than the five extracted ones pass through unchanged |
| FilterExtraction.PriceFirstPatternWins | search_engine.py:103-118 | the first matching price pattern sets its bounds, overwriting the caller's; a bound it does not set stays as the caller gave it |
| FilterExtraction.NoPricePatternKeepsPrice | search_engine.py:114-118 | without a price pattern, the price bounds are the caller's |
| FilterExtraction.RatingFirstPatternWins | search_engine.py:121-132 | the first matching rating pattern sets rating_min: the captured number, 4.0 for "highly rated", 4.5 for "top rated" |
| FilterExtraction.NoRatingPatternKeepsRating | search_engine.py:128-132 | without a rating pattern, rating_min is the caller's |
| FilterExtraction.CategoryFromFirstKeyword | search_engine.py:135-158 | without a caller category, the category of the first keyword found |
| FilterExtraction.CategoryOnlyFromKeywords | search_engine.py:155-158 | a caller category is never replaced; no keyword means no new category |
| FilterExtraction.BrandFromFirstMention | search_engine.py:161-170 | without a caller brand, the first known brand found, title-cased |
| FilterExtraction.BrandOnlyFromMentions | search_engine.py:166-170 | a caller brand is never replaced; no mention means no new brand |
| ExtractionExamples.RunningShoesFilters | search_engine.py:103-158 | "running shoes under $50" gives price_max 50 and category Clothing & Accessories, since 'shoes' precedes 'running' |
| ExtractionExamples.PlusStarsFilters | search_engine.py:121-132 | "4.5+ stars" sets rating_min 4.5 and changes nothing else |
| ExtractionExamples.OverUnderFilters | search_engine.py:103-118 | "over $100 under $200" gives only price_max 200, because "under" is tried first |
| ExtractionExamples.HpLaptopFilters | search_engine.py:135-170 | "hp laptop" gives category Electronics and brand "Hp" |
| ExtractionExamples.TitleCaseBrands | search_engine.py:169 | "calvin klein" and "under armour" title-case to "Calvin Klein" and "Under Armour" |
| Scoring.NumberAt | search_engine.py:185-199 | reading a numeric field succeeds exactly for a present int or float, else KeyError or TypeError |
| Scoring.StringAt | search_engine.py:211-225 | reading a text field succeeds exactly for a present string, else KeyError for a missing key or AttributeError (no `lower`) for a value of another type |
| Scoring.Popularity | search_engine.py:197-199 | popularity is ln(1+n)/ln(5001); it fails exactly when 1+n <= 0 or the divisor is 0 |
| Scoring.AvailabilityMultiplier | search_engine.py:202-207 | 0.9 for "Limited Stock", 0.5 for "Out of Stock", 1.0 for anything else |
| Scoring.AnyLongWordIn | search_engine.py:216 | there is a query word of more than two characters inside the title |
| Scoring.FinalScore | search_engine.py:229-230 | (the three weighted signals + title, brand and category boosts) × availability multiplier; properties in FinalScoreFormula and FinalScoreBounds |
| Scoring.MakeSignals | search_engine.py:188-226 | the weighted similarity, rating and popularity, the three boosts on the lower-cased texts, and the availability multiplier; properties in FinalScoreFormula and BoostConditions |
| Scoring.ScoreHit | search_engine.py:183-256 | one pass of the scoring loop: the fields read in the code's order, each raising on absence or wrong type, then the record; properties in ScoreHitSucceedsIff, ScoreHitCopiesFields, ScoreHitSignals and CandidateBreakdown |
| Scoring.Breakdown | search_engine.py:188-238 | without the flag the breakdown is empty; with it, it has the seven keys, holding the three weighted signals, the three boosts and 1 - the availability multiplier |
| Scoring.ScoreHitSucceedsIff | search_engine.py:183-256 | scoring a candidate succeeds exactly when all its read fields are present and well-typed and the popularity is defined |
| Scoring.ScoreHitCopiesFields | search_engine.py:241-256 | the record copies the eleven product fields from the candidate |
| Scoring.BreakdownOfSignals | search_engine.py:188-238 | the breakdown explains the score: (semantic + rating + popularity + boosts) times (1 - penalty) is the final score |
| Scoring.CandidateBreakdown | search_engine.py:188-238 | the breakdown of a scored candidate, key by key, from its fields: 0.7 × similarity, 0.2 × (rating-1)/4, 0.1 × popularity, each boost as 0 or its constant by its match, and 1 - the availability multiplier |
| Scoring.BreakdownExplainsScore | search_engine.py:228-238 | the same holds for every scored candidate |
| Scoring.FlagOnlyAffectsBreakdown | search_engine.py:232-255 | the breakdown flag changes neither success nor any field other than the breakdown |
| Scoring.ScoreHitSignals | search_engine.py:185-230 | a scored candidate's final score and breakdown are those of the signals read from it |
| Scoring.FinalScoreFormula | search_engine.py:188-230 | final = (0.7 sim + 0.2 (rating-1)/4 + 0.1 pop + boosts) × multiplier; each boost is 0 or its constant |
| Scoring.BoostConditions | search_engine.py:214-226 | the title boost fires exactly for a query word of more than two characters in the title; the brand and category boosts fire exactly when the field is in the query |
| Scoring.AvailabilityScales | search_engine.py:202-230 | changing only "In Stock" to "Out of Stock" halves the final score; "Limited Stock" keeps 0.9 of it |
| Scoring.ReferenceCandidateScore | search_engine.py:188-230 | similarity 0.8, rating 5, full popularity, in stock and no boosts give 0.56 + 0.2 + 0.1 = 0.86 |
| Scoring.FinalScoreBounds | search_engine.py:188-230 | with similarity and popularity in [0,1] and rating in [1,5], the final score is in [0, 1.2] |
| Scoring.ScoreAll | search_engine.py:181-260 | scoring a list succeeds exactly when every candidate scores; the result is then position by position each candidate's record |
| Scoring.ApplyCustomScoring | search_engine.py:174-260 | the scoring loop computes the list scoring, failing at the first fault |
| Scoring.FirstFaultIsReported | search_engine.py:183-258 | the first candidate that fails decides the fault |
| Scoring.ScoreAllSuccess | search_engine.py:183-260 | when every candidate scores, the result is the list of their records |
| Base.Collect | search_engine.py:183-260 | a loop that stops at the first exception succeeds exactly when every element does, and then yields each element's result in order |
| Base.CollectFirstFault | search_engine.py:183-258 | that loop raises the exception of the first element that fails |
| Base.CollectSuccess | search_engine.py:183-260 | when every element succeeds, that loop yields exactly their results |
| Ranking.WithScore | search_engine.py:89 | the records of one score, a sub-list of the input |
| Ranking.Insert | search_engine.py:89 | insertion of one record before the first record of no higher score; properties in the Insert lemmas below |
| Ranking.SortByScore | search_engine.py:89 | insertion sort by descending final score; properties in SortByScoreCorrect and SortByScoreStable |
| Ranking.InsertPermutes | search_engine.py:89 | insertion adds exactly one record |
| Ranking.InsertBounded | search_engine.py:89 | insertion keeps an upper bound on scores |
| Ranking.InsertSorted | search_engine.py:89 | insertion into a descending list keeps it descending |
| Ranking.InsertWithScore | search_engine.py:89 | an inserted record goes before the records of its own score |
| Ranking.SortByScoreCorrect | search_engine.py:89 | `sort(key=final_score, reverse=True)` yields a descending permutation of the input |
| Ranking.SortByScoreStable | search_engine.py:89 | the sort is stable: records of equal score keep their order |
| Ranking.PrefixSorted | search_engine.py:91 | a prefix of a sorted list is sorted |
| Ranking.PrefixWithScore | search_engine.py:91 | a prefix keeps a prefix of the records of each score |
| Ranking.PrefixBeatsRest | search_engine.py:89-91 | in a descending list, every record of a prefix scores at least as high as every record after it |
| Ranking.TopRanked | search_engine.py:89-91 | the first n of the sorted list are sorted, min(n, len) many, a sub-multiset of the input, a prefix of each score's records, and score at least as high as every record left out |
| Ranking.TopBeatsRest | search_engine.py:89-91 | no record the `[:limit]` cut leaves out scores more than a record it keeps |
| QdrantManager.TagsCondition | src/core/qdrant_manager.py:221-235 | a list of tags gives an any-of match, any other value an equality match |
| QdrantManager.PriceCondition | src/core/qdrant_manager.py:193-203 | one range on price, from price_min or 0 to price_max or +infinity; property in PriceConditionShape |
| QdrantManager.Conditions | src/core/qdrant_manager.py:175-235 | the conditions of the six blocks, in the code's order; properties in ConditionsOrdered, ConditionsOnField and the Shape lemmas |
| QdrantManager.FilterFor | src/core/qdrant_manager.py:173-237 | no filter for no conditions, else the filter of all of them; properties in NoFilterIff and OtherKeysIgnored |
| QdrantManager.QueryFilter | src/core/qdrant_manager.py:145 | a store query gets the built filter only for a non-empty filter dict |
| QdrantManager.BuildFilters | src/core/qdrant_manager.py:173-237 | the method computes the reference filter |
| QdrantManager.NoFilterIff | src/core/qdrant_manager.py:237 | there is no filter exactly when none of the seven filter keys is present |
| QdrantManager.OtherKeysIgnored | src/core/qdrant_manager.py:173-237 | keys outside the seven filter keys do not affect the filter |
| QdrantManager.RanksIncrease | src/core/qdrant_manager.py:175-235 | appending a condition of a later field keeps the ascending field order |
| QdrantManager.ConditionsOrdered | src/core/qdrant_manager.py:175-235 | conditions come in the order category, brand, price, rating, availability, tags, at most one each |
| QdrantManager.ConditionsOnField | src/core/qdrant_manager.py:175-235 | each condition on a field comes from that field's block |
| QdrantManager.MatchConditionShape | src/core/qdrant_manager.py:177-219 | category, brand and availability each give an equality match on the given value, exactly when present |
| QdrantManager.PriceConditionShape | src/core/qdrant_manager.py:193-203 | either price key gives a range from price_min (or 0) to price_max (or +infinity) |
| QdrantManager.RatingConditionShape | src/core/qdrant_manager.py:205-211 | rating_min gives a range with only a lower end |
| QdrantManager.TagsConditionShape | src/core/qdrant_manager.py:221-235 | tags give an any-of match for a list, an equality match otherwise, exactly when present |
| QdrantManager.FormatHit | src/core/qdrant_manager.py:159-165 | a result holds id, score and every payload key, and a payload key of the same name wins |
| QdrantManager.SearchResults | src/core/qdrant_manager.py:143-171 | a store call that raises gives no results |
| QdrantManager.SearchProducts | src/core/qdrant_manager.py:135-171 | the method computes the formatted store answer, asking with the built filter only for a non-empty filter dict |
| QdrantManager.SearchResultsCarryFields | src/core/qdrant_manager.py:158-167 | one result per hit, in order, result i being hit i formatted: it holds every payload entry, and id and score are the hit's own unless the payload has a key of that name |
| QdrantManager.Payload | src/core/qdrant_manager.py:102-114 | building a payload succeeds exactly when the product has all eleven fields |
| QdrantManager.PayloadCopiesFields | src/core/qdrant_manager.py:102-114 | the payload has the eleven keys; product_id is the product's id and the rest copy the same-named fields |
| QdrantManager.PayloadFault | src/core/qdrant_manager.py:102-114 | a failed payload names a missing product field |
| QdrantManager.Points | src/core/qdrant_manager.py:97-116 | points exist exactly when every zipped product has its fields; there are min(products, embeddings) of them, point i having id i, embedding i and payload i |
| QdrantManager.Batches | src/core/qdrant_manager.py:119-121 | every batch holds between 1 and 100 points |
| QdrantManager.BatchSlices | src/core/qdrant_manager.py:119-121 | there are ceil(n/100) batches, and batch j is `points[100j:100j+100]` |
| QdrantManager.BatchesCover | src/core/qdrant_manager.py:119-121 | the batches concatenate to the points, and all but the last are full |
| QdrantManager.FirstRejected | src/core/qdrant_manager.py:120-125 | the store accepted every batch before this one and rejected this one |
| QdrantManager.UpsertProducts | src/core/qdrant_manager.py:94-133 | no batch is sent when a product lacks a field; otherwise the batches are sent in order up to and including the first rejected one, with success exactly when none is rejected |
| QdrantManager.BuildPoints | src/core/qdrant_manager.py:97-116 | the point loop computes the points, failing at a product that lacks a field |
| QdrantManager.SendBatches | src/core/qdrant_manager.py:118-126 | the batch loop sends the batches in order and stops at the first rejection |
| QdrantManager.RejectedAt | src/core/qdrant_manager.py:120-125 | the first rejected batch is the one after the accepted ones |
| QdrantManager.AllAccepted | src/core/qdrant_manager.py:120-125 | when every batch is accepted, none is rejected |
| SearchEngine.Search | search_engine.py:41-95 | extraction, encoding, a store query for 2×limit above 0.3, scoring, sorting and the cut, with [] on every failure |
| SearchEngine.EffectiveLimit | search_engine.py:60-61 | a given limit, or the configured default 15; property in DefaultLimitIs15 |
| SearchEngine.StoreRequest | search_engine.py:65-79 | the store query: the embedding, the filter of the extracted filters, twice the limit, threshold 0.3; property in OnlyTheRequestMatters |
| SearchEngine.Candidates | search_engine.py:65-79 | the formatted store answer to that query; [] when the store raises |
| SearchEngine.Ranked | search_engine.py:81-91 | no candidates or a scoring fault give []; else scored, sorted and cut; properties in RankCandidates and SearchRanks |
| SearchEngine.SearchOutcome | search_engine.py:63-95 | [] for an empty embedding, else the ranked candidates; properties in Search, FailsSoft, SearchRanks and SearchBounded |
| SearchEngine.RankCandidates | search_engine.py:81-91 | no candidates or a scoring fault give []; otherwise the scored candidates, sorted, cut to the limit |
| SearchEngine.DefaultLimitIs15 | search_engine.py:60-61 | a missing limit behaves as the limit 15 |
| SearchEngine.OnlyTheRequestMatters | search_engine.py:65-79 | the store is asked once, with the extracted filters, twice the limit and threshold 0.3; nothing else about the store matters |
| SearchEngine.FailsSoft | search_engine.py:63-95 | an empty embedding, no candidates, a raising store or a scoring fault each give [] |
| SearchEngine.SearchRanks | search_engine.py:86-91 | a successful search is sorted by descending score, holds min(limit, candidates) records drawn from the scored candidates, keeps their order within each score, and no scored candidate left out scores above a kept one |
| SearchEngine.SearchBounded | search_engine.py:91 | a search never returns more than the limit |
| SearchEngine.GetSearchSuggestions | search_engine.py:262-276 | the two loops compute the matching sample queries, then "products in " + each matching category, cut to the limit |
| SearchEngine.SampleMatches | search_engine.py:267-269 | the sample queries containing the partial query, ignoring case, in order; properties in SampleMatchesIff, SampleMatchesCons and NoSampleMatchesIff |
| SearchEngine.CategorySuggestions | search_engine.py:272-274 | "products in " + each category containing the partial query, ignoring case; properties in CategorySuggestionsIff and NoCategorySuggestionsIff |
| SearchEngine.Suggestions | search_engine.py:262-276 | the sample matches, then the category suggestions, cut to the limit; property in SuggestionsOrder |
| SearchEngine.SampleMatchesIff | search_engine.py:267-269 | a sample query is suggested exactly when it contains the partial query, ignoring case |
| SearchEngine.SampleMatchesCons | search_engine.py:267-269 | sample matches keep the order of the sample list |
| SearchEngine.CategorySuggestionsIff | search_engine.py:272-274 | "products in c" is suggested exactly when c is a category that contains the partial query, and every category suggestion has that form |
| SearchEngine.NoSampleMatchesIff | search_engine.py:267-269 | no sample query is suggested exactly when none contains the partial query, ignoring case |
| SearchEngine.NoCategorySuggestionsIff | search_engine.py:272-274 | no category is suggested exactly when none contains the partial query, ignoring case |
| SearchEngine.SuggestionsOrder | search_engine.py:264-276 | sample matches come first, category suggestions after, and the list has min(limit, total) entries |
| SearchEngine.GetFilterOptions | search_engine.py:278-285 | the four option lists; properties in FilterOptionsConsistent |
| SearchEngine.FilterOptionsConsistent | search_engine.py:278-285 | the options list the configured categories and price range names; every inferable category is among them; availability options map to the multipliers 1.0, 0.9 and 0.5; rating minimums rise from 3 to 5 |
| SuggestionExamples.SuggestionsForK | search_engine.py:262-276 | "k" suggests four sample queries, one via "4K" as case is ignored, then "products in Books" |
| SuggestionExamples.RunnSuggestsRunningShoes | search_engine.py:262-276 | the only suggestion for "runn" is "comfortable running shoes" |
| SuggestionExamples.RunnOnlyInFirstSample | search_engine.py:267-269 | no sample query after the first contains "runn", ignoring case |
| SuggestionExamples.RunnInNoCategory | search_engine.py:272-274 | no category contains "runn", ignoring case |

## Left out

- FilterExtraction.PatternUpdate: `int()` of a captured digit run is modelled as always succeeding. Python 3.11 and later raise ValueError for a run of more than 4300 digits (the default `int_max_str_digits`), so a query such as "under $" followed by 5000 digits makes `search` return [] through its `except` (search_engine.py:93-95); in the model that query sets `price_max` and the search goes on.
- Floating point: scores, weights and ratings are exact reals, with no rounding.
- `math.log` is a parameter. Only the quotient identity and the domain error are modelled, not the values of the logarithm.
- Case mapping and whitespace are ASCII only. `str.lower`, `str.title`, `str.split()` and `\d` cover more of Unicode in Python.
- The regular expressions are modelled one by one as recognisers. Python's general regex engine is not modelled.
- Logging calls are left out; they change no result.
- The embedding service is a parameter. A failed or raising `encode_query` is the empty vector, as the service itself returns `[]` on error.
- Vector-store semantics are not modelled: similarity, the score threshold, the limit, and the meaning of filter conditions all happen inside the store. The client is a parameter and the model says only what it is asked and what is done with its answer. Collection and index management is not modelled either.
- Payload validation by the client library is not modelled, nor a hit whose payload is `None`.
- QdrantManager.FilterFor: builds a condition from a value of any type. The client library validates condition values, so an ill-typed filter value (a string `price_min`, a list `category`) raises inside the `try` of `search_products` and gives no results (src/core/qdrant_manager.py:143-171, 178-233); the model instead asks the store with that condition.
- SearchEngine.Suggestions and SearchEngine.SearchOutcome: Python's default arguments (`limit=5` of `get_search_suggestions` at search_engine.py:262, `include_score_breakdown=True` of `search` at search_engine.py:46) are not modelled; the model takes both values explicitly.
- A filter dict passed to `search` that is not a dict is not modelled. Filters are always `map<string, Value>`.
- `get_filter_options` returns a record with four fields instead of a dict with four keys. Of `price_ranges`, only the key names are offered, so the bounds are not modelled.
- `list.sort` sorts a local list in place. The model sorts a value, because no other reference to that list exists.
- The engine and manager singletons (`get_search_engine`, the constructors) hold no logic of their own and are not modelled.
- `data_generator.py`, `setup_data.py`, `verify_setup.py`, the Streamlit UI and `src/core/embedding_service.py` are not part of this model.
