/** The configuration values the core reads: search defaults and scoring weights
    (SearchConfig) and the example queries and categories (DemoConfig). */
module Config {

  /** Results returned when the caller gives no limit. */
  const DefaultLimit: int := 15

  /** Minimum similarity the vector store is asked to enforce. */
  const SimilarityThreshold: real := 0.3

  const SemanticWeight: real := 0.7
  const RatingWeight: real := 0.2
  const PopularityWeight: real := 0.1

  /** The review count that maps to a popularity of 1 (a calibration constant). */
  const MaxReviews: int := 5000

  /** The keys of SearchConfig.price_ranges, in declaration order. */
  const PriceRangeNames: seq<string> := ["budget", "mid-range", "premium", "luxury"]

  const SampleQueries: seq<string> := [
    "comfortable running shoes",
    "wireless noise canceling headphones",
    "gaming laptop under $1000",
    "waterproof bluetooth speaker",
    "ergonomic office chair",
    "4K webcam for streaming",
    "portable power bank",
    "fitness tracker with GPS"
  ]

  const Categories: seq<string> := [
    "Electronics",
    "Clothing & Accessories",
    "Sports & Outdoors",
    "Home & Garden",
    "Books",
    "Beauty & Personal Care",
    "Toys & Games",
    "Automotive"
  ]

  /** Points sent to the vector store per upsert request. */
  const BatchSize: nat := 100
}
