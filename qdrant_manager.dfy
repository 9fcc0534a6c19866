/** The vector-store side of the search (`QdrantManager`): translation of a
    filter dictionary into store conditions, formatting of the store's hits, and
    the batched upload of products. The store itself is a caller-supplied
    function. */
module QdrantManager {
  import opened Base
  import Config

  /** One end of a range condition. */
  datatype Bound =
    | Given(v: Value)     // a value taken from the filters
    | PlusInfinity        // `float('inf')`
    | Unbounded           // the end was not given to `Range`

  datatype Match = MatchValue(value: Value) | MatchAny(any: seq<Value>)

  /** The payload fields the builder places conditions on. */
  datatype Field = CategoryField | BrandField | PriceField | RatingField | AvailabilityField | TagsField {
    /** The payload key the condition names. */
    function Key(): string {
      match this
      case CategoryField => "category"
      case BrandField => "brand"
      case PriceField => "price"
      case RatingField => "rating"
      case AvailabilityField => "availability"
      case TagsField => "tags"
    }

    /** Position of the field in the order the builder emits conditions. */
    function Rank(): nat {
      match this
      case CategoryField => 0
      case BrandField => 1
      case PriceField => 2
      case RatingField => 3
      case AvailabilityField => 4
      case TagsField => 5
    }
  }

  /** A `FieldCondition`: a match or a range on one payload field. */
  datatype Condition =
    | FieldMatch(field: Field, m: Match)
    | FieldRange(field: Field, gte: Bound, lte: Bound)

  /** A `Filter` whose conditions must all hold. */
  datatype Filter = Filter(must: seq<Condition>)

  /** The filter keys the builder reads; every other key is ignored. */
  const FilterKeys: set<string> :=
    {"category", "brand", "price_min", "price_max", "rating_min", "availability", "tags"}

  /** The condition on tags: any-of for a list, equality otherwise. */
  function TagsCondition(v: Value): (c: Condition)
    ensures c.field == TagsField
    ensures v.List? ==> c == FieldMatch(TagsField, MatchAny(v.items))
    ensures !v.List? ==> c == FieldMatch(TagsField, MatchValue(v))
  {
    if v.List? then FieldMatch(TagsField, MatchAny(v.items)) else FieldMatch(TagsField, MatchValue(v))
  }

  /** The price range: the lower end defaults to 0 and the upper end to
      infinity. */
  function PriceCondition(f: Dict): Condition {
    FieldRange(PriceField, Given(GetOrDefault(f, "price_min", Int(0))),
               if "price_max" in f then Given(f["price_max"]) else PlusInfinity)
  }

  // The condition each field contributes: none, or one.

  function CategoryConditions(f: Dict): seq<Condition> {
    if "category" in f then [FieldMatch(CategoryField, MatchValue(f["category"]))] else []
  }

  function BrandConditions(f: Dict): seq<Condition> {
    if "brand" in f then [FieldMatch(BrandField, MatchValue(f["brand"]))] else []
  }

  function PriceConditions(f: Dict): seq<Condition> {
    if "price_min" in f || "price_max" in f then [PriceCondition(f)] else []
  }

  function RatingConditions(f: Dict): seq<Condition> {
    if "rating_min" in f then [FieldRange(RatingField, Given(f["rating_min"]), Unbounded)] else []
  }

  function AvailabilityConditions(f: Dict): seq<Condition> {
    if "availability" in f then [FieldMatch(AvailabilityField, MatchValue(f["availability"]))] else []
  }

  function TagsConditions(f: Dict): seq<Condition> {
    if "tags" in f then [TagsCondition(f["tags"])] else []
  }

  /** The conditions `_build_filters` collects, in the order it appends them. */
  function Conditions(f: Dict): seq<Condition> {
    CategoryConditions(f) + BrandConditions(f) + PriceConditions(f) + RatingConditions(f)
      + AvailabilityConditions(f) + TagsConditions(f)
  }

  /** The filter `_build_filters` returns: None when no condition was collected. */
  function FilterFor(f: Dict): Option<Filter> {
    var cs := Conditions(f);
    if cs == [] then None else Some(Filter(cs))
  }

  /** `_build_filters`, appending one condition per field present. */
  method BuildFilters(f: Dict) returns (r: Option<Filter>)
    ensures r == FilterFor(f)
  {
    var conditions: seq<Condition> := [];
    if "category" in f {
      conditions := conditions + [FieldMatch(CategoryField, MatchValue(f["category"]))];
    }
    assert conditions == CategoryConditions(f);
    if "brand" in f {
      conditions := conditions + [FieldMatch(BrandField, MatchValue(f["brand"]))];
    }
    assert conditions == CategoryConditions(f) + BrandConditions(f);
    if "price_min" in f || "price_max" in f {
      var lower := GetOrDefault(f, "price_min", Int(0));
      var upper := if "price_max" in f then Given(f["price_max"]) else PlusInfinity;
      conditions := conditions + [FieldRange(PriceField, Given(lower), upper)];
    }
    assert conditions == CategoryConditions(f) + BrandConditions(f) + PriceConditions(f);
    if "rating_min" in f {
      conditions := conditions + [FieldRange(RatingField, Given(f["rating_min"]), Unbounded)];
    }
    if "availability" in f {
      conditions := conditions + [FieldMatch(AvailabilityField, MatchValue(f["availability"]))];
    }
    assert conditions == CategoryConditions(f) + BrandConditions(f) + PriceConditions(f)
      + RatingConditions(f) + AvailabilityConditions(f);
    if "tags" in f {
      var tags := f["tags"];
      if tags.List? {
        conditions := conditions + [FieldMatch(TagsField, MatchAny(tags.items))];
      } else {
        conditions := conditions + [FieldMatch(TagsField, MatchValue(tags))];
      }
    }
    assert conditions == Conditions(f);
    r := if conditions == [] then None else Some(Filter(conditions));
  }

  /** No filter is built exactly when none of the seven filter keys is present. */
  lemma NoFilterIff(f: Dict)
    ensures FilterFor(f).None? <==> f.Keys !! FilterKeys
  {
    if !(f.Keys !! FilterKeys) {
      var k :| k in f.Keys && k in FilterKeys;
      assert |Conditions(f)| > 0;
    }
  }

  /** Keys outside the seven are ignored: filters that agree on the seven keys
      give the same filter. */
  lemma OtherKeysIgnored(f: Dict, g: Dict)
    requires forall k :: k in FilterKeys ==> (k in f <==> k in g) && (k in f ==> f[k] == g[k])
    ensures FilterFor(f) == FilterFor(g)
  {
    assert "category" in FilterKeys && "brand" in FilterKeys && "price_min" in FilterKeys;
    assert "price_max" in FilterKeys && "rating_min" in FilterKeys;
    assert "availability" in FilterKeys && "tags" in FilterKeys;
    assert Conditions(f) == Conditions(g);
  }

  /** Strictly increasing field ranks, every rank at most hi. */
  predicate RanksBelow(s: seq<Condition>, hi: nat) {
    && (forall i, j :: 0 <= i < j < |s| ==> s[i].field.Rank() < s[j].field.Rank())
    && (forall i :: 0 <= i < |s| ==> s[i].field.Rank() <= hi)
  }

  /** Appending at most one condition of a higher rank keeps the ranks increasing. */
  lemma RanksIncrease(s: seq<Condition>, hi: nat, t: seq<Condition>, rank: nat)
    requires hi < rank
    requires RanksBelow(s, hi)
    requires |t| <= 1 && forall i :: 0 <= i < |t| ==> t[i].field.Rank() == rank
    ensures RanksBelow(s + t, rank)
  {
  }

  /** The conditions come in the fixed field order category, brand, price,
      rating, availability, tags; hence at most one per field. */
  lemma ConditionsOrdered(f: Dict)
    ensures forall i, j :: 0 <= i < j < |Conditions(f)| ==>
              Conditions(f)[i].field.Rank() < Conditions(f)[j].field.Rank()
  {
    var c := CategoryConditions(f) + BrandConditions(f) + PriceConditions(f);
    var d := c + RatingConditions(f);
    var e := d + AvailabilityConditions(f);
    FirstConditionsOrdered(f);
    assert RanksBelow(d, 3) by { RanksIncrease(c, 2, RatingConditions(f), 3); }
    assert RanksBelow(e, 4) by { RanksIncrease(d, 3, AvailabilityConditions(f), 4); }
    assert RanksBelow(Conditions(f), 5) by { RanksIncrease(e, 4, TagsConditions(f), 5); }
  }

  /** The category, brand and price conditions come in that order. */
  lemma FirstConditionsOrdered(f: Dict)
    ensures RanksBelow(CategoryConditions(f) + BrandConditions(f) + PriceConditions(f), 2)
  {
    BrandAfterCategory(f);
    RanksIncrease(CategoryConditions(f) + BrandConditions(f), 1, PriceConditions(f), 2);
  }

  /** The brand condition follows the category condition. */
  lemma BrandAfterCategory(f: Dict)
    ensures RanksBelow(CategoryConditions(f) + BrandConditions(f), 1)
  {
    assert RanksBelow(CategoryConditions(f), 0);
    RanksIncrease(CategoryConditions(f), 0, BrandConditions(f), 1);
  }

  /** The conditions on one field are those its own step contributes. */
  lemma ConditionsOnField(f: Dict, c: Condition)
    ensures c in Conditions(f) && c.field == CategoryField <==> c in CategoryConditions(f)
    ensures c in Conditions(f) && c.field == BrandField <==> c in BrandConditions(f)
    ensures c in Conditions(f) && c.field == PriceField <==> c in PriceConditions(f)
    ensures c in Conditions(f) && c.field == RatingField <==> c in RatingConditions(f)
    ensures c in Conditions(f) && c.field == AvailabilityField <==> c in AvailabilityConditions(f)
    ensures c in Conditions(f) && c.field == TagsField <==> c in TagsConditions(f)
  {
  }

  /** Category, brand and availability become equality matches on the filter's
      value, present exactly when the key is. */
  lemma MatchConditionShape(f: Dict, c: Condition)
    ensures c in Conditions(f) && c.field == CategoryField <==>
              "category" in f && c == FieldMatch(CategoryField, MatchValue(f["category"]))
    ensures c in Conditions(f) && c.field == BrandField <==>
              "brand" in f && c == FieldMatch(BrandField, MatchValue(f["brand"]))
    ensures c in Conditions(f) && c.field == AvailabilityField <==>
              "availability" in f && c == FieldMatch(AvailabilityField, MatchValue(f["availability"]))
  {
    ConditionsOnField(f, c);
  }

  /** The one range on price exists exactly when either bound is given; its
      lower end is price_min or 0 and its upper end price_max or infinity. */
  lemma PriceConditionShape(f: Dict, c: Condition)
    ensures c in Conditions(f) && c.field == PriceField <==>
      && ("price_min" in f || "price_max" in f)
      && c == FieldRange(PriceField, Given(if "price_min" in f then f["price_min"] else Int(0)),
                         if "price_max" in f then Given(f["price_max"]) else PlusInfinity)
  {
    ConditionsOnField(f, c);
  }

  /** rating_min becomes a range on rating with a lower end only. */
  lemma RatingConditionShape(f: Dict, c: Condition)
    ensures c in Conditions(f) && c.field == RatingField <==>
              "rating_min" in f && c == FieldRange(RatingField, Given(f["rating_min"]), Unbounded)
  {
    ConditionsOnField(f, c);
  }

  /** A list of tags becomes an any-of match, any other value an equality match. */
  lemma TagsConditionShape(f: Dict, c: Condition)
    ensures c in Conditions(f) && c.field == TagsField <==>
      && "tags" in f
      && c == (if f["tags"].List? then FieldMatch(TagsField, MatchAny(f["tags"].items))
               else FieldMatch(TagsField, MatchValue(f["tags"])))
  {
    ConditionsOnField(f, c);
  }

  /** A hit of the store. */
  datatype Hit = Hit(id: Value, score: real, payload: Dict)

  /** What the store is asked. */
  datatype StoreQuery = StoreQuery(vector: seq<real>, filter: Option<Filter>, limit: int, threshold: real)

  /** The store's search: its hits, or None when the call raises. */
  type Client = StoreQuery -> Option<seq<Hit>>

  /** `{"id": hit.id, "score": hit.score, **hit.payload}`: payload entries come
      last and so win over id and score. */
  function FormatHit(h: Hit): (r: Dict)
    ensures r.Keys == h.payload.Keys + {"id", "score"}
    ensures forall k :: k in h.payload ==> r[k] == h.payload[k]
    ensures "id" !in h.payload ==> r["id"] == h.id
    ensures "score" !in h.payload ==> r["score"] == Real(h.score)
  {
    map["id" := h.id, "score" := Real(h.score)] + h.payload
  }

  /** The filter sent for the caller's filters: none for a missing or empty map. */
  function QueryFilter(filters: Option<Dict>): Option<Filter> {
    if filters.None? || filters.value == map[] then None else FilterFor(filters.value)
  }

  /** The list `search_products` returns: the formatted hits, or [] when the
      store raises. */
  function SearchResults(client: Client, vector: seq<real>, filters: Option<Dict>, limit: int,
                         threshold: real): (r: seq<Dict>)
    ensures client(StoreQuery(vector, QueryFilter(filters), limit, threshold)).None? ==> r == []
  {
    match client(StoreQuery(vector, QueryFilter(filters), limit, threshold))
    case None => []
    case Some(hits) => seq(|hits|, i requires 0 <= i < |hits| => FormatHit(hits[i]))
  }

  /** `search_products`: builds the filter, asks the store, formats each hit. */
  method SearchProducts(client: Client, vector: seq<real>, filters: Option<Dict>, limit: int,
                        threshold: real) returns (results: seq<Dict>)
    ensures results == SearchResults(client, vector, filters, limit, threshold)
  {
    var filter: Option<Filter> := None;
    if filters.Some? && filters.value != map[] {
      filter := BuildFilters(filters.value);
    }
    var response := client(StoreQuery(vector, filter, limit, threshold));
    if response.None? {
      return [];
    }
    var hits := response.value;
    results := [];
    var i := 0;
    while i < |hits|
      invariant 0 <= i <= |hits|
      invariant |results| == i
      invariant forall j :: 0 <= j < i ==> results[j] == FormatHit(hits[j])
    {
      results := results + [FormatHit(hits[i])];
      i := i + 1;
    }
  }

  /** Each formatted result carries id, score and every payload field, one per
      hit, in the store's order. */
  lemma SearchResultsCarryFields(client: Client, vector: seq<real>, filters: Option<Dict>,
                                 limit: int, threshold: real)
    ensures var resp := client(StoreQuery(vector, QueryFilter(filters), limit, threshold));
      var r := SearchResults(client, vector, filters, limit, threshold);
      resp.Some? ==>
        && |r| == |resp.value|
        && forall i :: 0 <= i < |r| ==>
             && r[i] == FormatHit(resp.value[i])
             && "id" in r[i] && "score" in r[i]
             && ("id" !in resp.value[i].payload ==> r[i]["id"] == resp.value[i].id)
             && ("score" !in resp.value[i].payload ==> r[i]["score"] == Real(resp.value[i].score))
             && forall k :: k in resp.value[i].payload ==> k in r[i] && r[i][k] == resp.value[i].payload[k]
  {
  }

  /** A `PointStruct`. */
  datatype Point = Point(id: int, vector: seq<real>, payload: Dict)

  /** The product keys the payload is read from. */
  const ProductKeys: set<string> :=
    {"id", "title", "description", "category", "brand", "price", "rating", "num_reviews",
     "availability", "tags", "specifications"}

  /** The payload's fields: the product keys with "id" renamed "product_id". */
  const PayloadKeys: set<string> :=
    {"product_id", "title", "description", "category", "brand", "price", "rating", "num_reviews",
     "availability", "tags", "specifications"}

  /** The payload dictionary, with the KeyError of the first missing key read. */
  function Payload(product: Dict): (r: Result<Dict, Fault>)
    ensures r.Success? <==> ProductKeys <= product.Keys
  {
    var id :- Lookup(product, "id");
    var title :- Lookup(product, "title");
    var description :- Lookup(product, "description");
    var category :- Lookup(product, "category");
    var brand :- Lookup(product, "brand");
    var price :- Lookup(product, "price");
    var rating :- Lookup(product, "rating");
    var reviews :- Lookup(product, "num_reviews");
    var availability :- Lookup(product, "availability");
    var tags :- Lookup(product, "tags");
    var specifications :- Lookup(product, "specifications");
    Success(map["product_id" := id, "title" := title, "description" := description,
                "category" := category, "brand" := brand, "price" := price, "rating" := rating,
                "num_reviews" := reviews, "availability" := availability, "tags" := tags,
                "specifications" := specifications])
  }

  /** The payload of a product that has every product key. */
  function PayloadOf(product: Dict): Dict
    requires ProductKeys <= product.Keys
  {
    map["product_id" := product["id"], "title" := product["title"],
        "description" := product["description"], "category" := product["category"],
        "brand" := product["brand"], "price" := product["price"], "rating" := product["rating"],
        "num_reviews" := product["num_reviews"], "availability" := product["availability"],
        "tags" := product["tags"], "specifications" := product["specifications"]]
  }

  lemma PayloadIsPayloadOf(product: Dict)
    requires Payload(product).Success?
    ensures ProductKeys <= product.Keys && Payload(product) == Success(PayloadOf(product))
  {
  }

  lemma PayloadOfKeys(product: Dict)
    requires ProductKeys <= product.Keys
    ensures PayloadOf(product).Keys == PayloadKeys
  {
  }

  lemma PayloadOfValues(product: Dict)
    requires ProductKeys <= product.Keys
    ensures PayloadOf(product)["product_id"] == product["id"]
    ensures forall k :: k in PayloadKeys && k != "product_id" ==> PayloadOf(product)[k] == product[k]
  {
    PayloadOfKeys(product);
  }

  /** The payload holds the eleven fields, each the product's value under the
      same key, except that product_id is the product's id. */
  lemma PayloadCopiesFields(product: Dict)
    requires Payload(product).Success?
    ensures var p := Payload(product).value;
      && p.Keys == PayloadKeys
      && p["product_id"] == product["id"]
      && forall k :: k in PayloadKeys && k != "product_id" ==> p[k] == product[k]
  {
    PayloadIsPayloadOf(product);
    PayloadOfKeys(product);
    PayloadOfValues(product);
  }

  /** A payload that cannot be built raises the KeyError of a missing key. */
  lemma PayloadFault(product: Dict)
    requires Payload(product).Failure?
    ensures exists k :: k in ProductKeys && k !in product && Payload(product).error == KeyError(k)
  {
  }

  /** Whether every pair of `zip(products, embeddings)` yields a point. */
  predicate AllPointsBuild(products: seq<Dict>, embeddings: seq<seq<real>>) {
    forall i :: 0 <= i < Min(|products|, |embeddings|) ==> Payload(products[i]).Success?
  }

  /** The points of `zip(products, embeddings)`: point i has id i, the i-th
      embedding and the payload of product i; None when some payload raises. */
  function Points(products: seq<Dict>, embeddings: seq<seq<real>>): (r: Option<seq<Point>>)
    ensures r.Some? <==> AllPointsBuild(products, embeddings)
    ensures r.Some? ==> |r.value| == Min(|products|, |embeddings|)
    ensures r.Some? ==> forall i :: 0 <= i < |r.value| ==>
              r.value[i] == Point(i, embeddings[i], Payload(products[i]).value)
  {
    if AllPointsBuild(products, embeddings) then
      Some(seq(Min(|products|, |embeddings|), i requires 0 <= i < Min(|products|, |embeddings|) =>
        Point(i, embeddings[i], Payload(products[i]).value)))
    else None
  }

  /** The slices `points[i:i + 100]` for i = 0, 100, 200, ... */
  function Batches(points: seq<Point>): (bs: seq<seq<Point>>)
    ensures forall j :: 0 <= j < |bs| ==> 0 < |bs[j]| <= Config.BatchSize
    decreases |points|
  {
    if points == [] then []
    else if |points| <= Config.BatchSize then [points]
    else [points[..Config.BatchSize]] + Batches(points[Config.BatchSize..])
  }

  function Flatten(bs: seq<seq<Point>>): seq<Point> {
    if bs == [] then [] else bs[0] + Flatten(bs[1..])
  }

  /** Batch j is the slice starting at 100 * j. */
  lemma {:induction false} BatchSlices(points: seq<Point>)
    ensures |Batches(points)| == (|points| + Config.BatchSize - 1) / Config.BatchSize
    ensures forall j :: 0 <= j < |Batches(points)| ==>
              Batches(points)[j] == points[Config.BatchSize * j..Min(Config.BatchSize * j + Config.BatchSize, |points|)]
    decreases |points|
  {
    if |points| > Config.BatchSize {
      var rest := points[Config.BatchSize..];
      BatchSlices(rest);
      var bs := Batches(points);
      forall j | 1 <= j < |bs|
        ensures bs[j] == points[Config.BatchSize * j..Min(Config.BatchSize * j + Config.BatchSize, |points|)]
      {
        assert bs[j] == Batches(rest)[j - 1];
        SuffixSlice(points, Config.BatchSize, Config.BatchSize * (j - 1));
      }
    }
  }

  /** A batch-sized slice of points[off..] is the slice of points shifted by off. */
  lemma SuffixSlice(points: seq<Point>, off: nat, lo: nat)
    requires off <= |points| && lo <= |points| - off
    ensures points[off..][lo..Min(lo + Config.BatchSize, |points| - off)] ==
            points[off + lo..Min(off + lo + Config.BatchSize, |points|)]
  {
  }

  /** The batches cover every point exactly once, in order, and all but the
      last are full. */
  lemma {:induction false} BatchesCover(points: seq<Point>)
    ensures Flatten(Batches(points)) == points
    ensures forall j :: 0 <= j < |Batches(points)| - 1 ==> |Batches(points)[j]| == Config.BatchSize
    decreases |points|
  {
    if |points| > Config.BatchSize {
      BatchesCover(points[Config.BatchSize..]);
      assert Batches(points)[1..] == Batches(points[Config.BatchSize..]);
      assert points == points[..Config.BatchSize] + points[Config.BatchSize..];
    } else if points != [] {
      assert Batches(points)[1..] == [];
    }
  }

  /** Index of the first batch the store rejects; |bs| if it takes them all. */
  function FirstRejected(bs: seq<seq<Point>>, upsert: seq<Point> -> bool, i: nat): (k: nat)
    requires i <= |bs|
    ensures i <= k <= |bs|
    ensures forall j :: i <= j < k ==> upsert(bs[j])
    ensures k < |bs| ==> !upsert(bs[k])
    decreases |bs| - i
  {
    if i == |bs| then i else if !upsert(bs[i]) then i else FirstRejected(bs, upsert, i + 1)
  }

  /** `upsert_products`: builds every point, then sends the batches in order;
      a missing product field or a failed store call ends it with False. The
      second result lists the batches the store was asked to take. */
  method UpsertProducts(products: seq<Dict>, embeddings: seq<seq<real>>, upsert: seq<Point> -> bool)
    returns (ok: bool, sent: seq<seq<Point>>)
    ensures Points(products, embeddings).None? ==> !ok && sent == []
    ensures Points(products, embeddings).Some? ==>
      var bs := Batches(Points(products, embeddings).value);
      var k := FirstRejected(bs, upsert, 0);
      && (ok <==> k == |bs|)
      && sent == (if k == |bs| then bs else bs[..k + 1])
  {
    var points := BuildPoints(products, embeddings);
    if points.None? {
      return false, [];
    }
    ok, sent := SendBatches(points.value, upsert);
  }

  /** The point-building loop of `upsert_products`. */
  method BuildPoints(products: seq<Dict>, embeddings: seq<seq<real>>) returns (r: Option<seq<Point>>)
    ensures r == Points(products, embeddings)
  {
    var n := Min(|products|, |embeddings|);
    var points: seq<Point> := [];
    var i := 0;
    while i < n
      invariant 0 <= i <= n
      invariant |points| == i
      invariant forall j :: 0 <= j < i ==> Payload(products[j]).Success?
      invariant forall j :: 0 <= j < i ==> points[j] == Point(j, embeddings[j], Payload(products[j]).value)
    {
      var payload := Payload(products[i]);
      if payload.Failure? {
        return None;
      }
      points := points + [Point(i, embeddings[i], payload.value)];
      i := i + 1;
    }
    assert AllPointsBuild(products, embeddings);
    var ps := Points(products, embeddings).value;
    assert forall j :: 0 <= j < |ps| ==> ps[j] == points[j];
    assert ps == points;
    r := Some(points);
  }

  /** The batching loop of `upsert_products`. */
  method SendBatches(points: seq<Point>, upsert: seq<Point> -> bool)
    returns (ok: bool, sent: seq<seq<Point>>)
    ensures var bs := Batches(points);
      var k := FirstRejected(bs, upsert, 0);
      && (ok <==> k == |bs|)
      && sent == (if k == |bs| then bs else bs[..k + 1])
  {
    ghost var bs := Batches(points);
    sent := [];
    var start := 0;
    ghost var i := 0;
    while start < |points|
      invariant start == Config.BatchSize * i
      invariant i <= |bs|
      invariant sent == bs[..i]
      invariant forall j :: 0 <= j < i ==> upsert(bs[j])
      decreases |points| - start
    {
      BatchAt(points, i);
      var batch := points[start..Min(start + Config.BatchSize, |points|)];
      sent := sent + [batch];
      if !upsert(batch) {
        assert bs[..i + 1] == sent;
        RejectedAt(bs, upsert, i);
        return false, sent;
      }
      start := start + Config.BatchSize;
      i := i + 1;
    }
    BatchesEnd(points, i);
    assert sent == bs;
    AllAccepted(bs, upsert);
    ok := true;
  }

  /** The batch starting at 100 * i, when that is before the end. */
  lemma BatchAt(points: seq<Point>, i: nat)
    requires Config.BatchSize * i < |points|
    ensures i < |Batches(points)|
    ensures Batches(points)[i] == points[Config.BatchSize * i..Min(Config.BatchSize * i + Config.BatchSize, |points|)]
  {
    BatchSlices(points);
    BatchIndex(|points|, i);
  }

  /** No batch starts at or after the end of the points. */
  lemma BatchesEnd(points: seq<Point>, i: nat)
    requires Config.BatchSize * i >= |points|
    ensures |Batches(points)| <= i
  {
    BatchSlices(points);
    BatchIndex(|points|, i);
  }

  /** Batch i exists exactly when it starts before the end of the points. */
  lemma BatchIndex(n: nat, i: nat)
    ensures Config.BatchSize * i < n <==> i < (n + Config.BatchSize - 1) / Config.BatchSize
  {
  }

  lemma RejectedAt(bs: seq<seq<Point>>, upsert: seq<Point> -> bool, k: nat)
    requires k < |bs| && !upsert(bs[k])
    requires forall j :: 0 <= j < k ==> upsert(bs[j])
    ensures FirstRejected(bs, upsert, 0) == k
  {
  }

  lemma AllAccepted(bs: seq<seq<Point>>, upsert: seq<Point> -> bool)
    requires forall j :: 0 <= j < |bs| ==> upsert(bs[j])
    ensures FirstRejected(bs, upsert, 0) == |bs|
  {
  }
}
