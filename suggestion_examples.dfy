/** Worked calls of the suggestion operation, evaluated on the model: the
    partial queries "k" and "runn" against the configured sample queries and
    categories. */
module SuggestionExamples {
  import opened Base
  import opened Text
  import opened Config
  import opened SearchEngine

  lemma LowerK(p: string)
    requires p == "k"
    ensures Lower(p) == "k"
  {
    LowerOfLowercase(p);
  }


  lemma Sample0(x: string)
    requires x == "comfortable running shoes"
    ensures !Contains(Lower(x), "k")
  {
    assert forall i :: 0 <= i < |x| ==> Lower(x)[i] != 'k';
    MissingCharNotContained(Lower(x), "k", 0);
  }


  lemma Sample1(x: string)
    requires x == "wireless noise canceling headphones"
    ensures !Contains(Lower(x), "k")
  {
    assert forall i :: 0 <= i < |x| ==> Lower(x)[i] != 'k';
    MissingCharNotContained(Lower(x), "k", 0);
  }


  lemma Sample2(x: string)
    requires x == "gaming laptop under $1000"
    ensures !Contains(Lower(x), "k")
  {
    assert forall i :: 0 <= i < |x| ==> Lower(x)[i] != 'k';
    MissingCharNotContained(Lower(x), "k", 0);
  }


  lemma Sample3(x: string)
    requires x == "waterproof bluetooth speaker"
    ensures Contains(Lower(x), "k")
  {
    assert Lower(x)[25] == 'k';
    assert Lower(x)[25..26] == "k";
    StartsAtSlice(Lower(x), "k", 25);
    StartsAtContains(Lower(x), "k", 25);
  }


  lemma Sample4(x: string)
    requires x == "ergonomic office chair"
    ensures !Contains(Lower(x), "k")
  {
    assert forall i :: 0 <= i < |x| ==> Lower(x)[i] != 'k';
    MissingCharNotContained(Lower(x), "k", 0);
  }


  lemma Sample5(x: string)
    requires x == "4K webcam for streaming"
    ensures Contains(Lower(x), "k")
  {
    assert Lower(x)[1] == 'k';
    assert Lower(x)[1..2] == "k";
    StartsAtSlice(Lower(x), "k", 1);
    StartsAtContains(Lower(x), "k", 1);
  }


  lemma Sample6(x: string)
    requires x == "portable power bank"
    ensures Contains(Lower(x), "k")
  {
    assert Lower(x)[18] == 'k';
    assert Lower(x)[18..19] == "k";
    StartsAtSlice(Lower(x), "k", 18);
    StartsAtContains(Lower(x), "k", 18);
  }


  lemma Sample7(x: string)
    requires x == "fitness tracker with GPS"
    ensures Contains(Lower(x), "k")
  {
    assert Lower(x)[12] == 'k';
    assert Lower(x)[12..13] == "k";
    StartsAtSlice(Lower(x), "k", 12);
    StartsAtContains(Lower(x), "k", 12);
  }


  lemma Category0(x: string)
    requires x == "Electronics"
    ensures !Contains(Lower(x), "k")
  {
    assert forall i :: 0 <= i < |x| ==> Lower(x)[i] != 'k';
    MissingCharNotContained(Lower(x), "k", 0);
  }


  lemma Category1(x: string)
    requires x == "Clothing & Accessories"
    ensures !Contains(Lower(x), "k")
  {
    assert forall i :: 0 <= i < |x| ==> Lower(x)[i] != 'k';
    MissingCharNotContained(Lower(x), "k", 0);
  }


  lemma Category2(x: string)
    requires x == "Sports & Outdoors"
    ensures !Contains(Lower(x), "k")
  {
    assert forall i :: 0 <= i < |x| ==> Lower(x)[i] != 'k';
    MissingCharNotContained(Lower(x), "k", 0);
  }


  lemma Category3(x: string)
    requires x == "Home & Garden"
    ensures !Contains(Lower(x), "k")
  {
    assert forall i :: 0 <= i < |x| ==> Lower(x)[i] != 'k';
    MissingCharNotContained(Lower(x), "k", 0);
  }


  lemma Category4(x: string)
    requires x == "Books"
    ensures Contains(Lower(x), "k")
  {
    assert Lower(x)[3] == 'k';
    assert Lower(x)[3..4] == "k";
    StartsAtSlice(Lower(x), "k", 3);
    StartsAtContains(Lower(x), "k", 3);
  }


  lemma Category5(x: string)
    requires x == "Beauty & Personal Care"
    ensures !Contains(Lower(x), "k")
  {
    assert forall i :: 0 <= i < |x| ==> Lower(x)[i] != 'k';
    MissingCharNotContained(Lower(x), "k", 0);
  }


  lemma Category6(x: string)
    requires x == "Toys & Games"
    ensures !Contains(Lower(x), "k")
  {
    assert forall i :: 0 <= i < |x| ==> Lower(x)[i] != 'k';
    MissingCharNotContained(Lower(x), "k", 0);
  }


  lemma Category7(x: string)
    requires x == "Automotive"
    ensures !Contains(Lower(x), "k")
  {
    assert forall i :: 0 <= i < |x| ==> Lower(x)[i] != 'k';
    MissingCharNotContained(Lower(x), "k", 0);
  }


  lemma SampleMatchesK(p: string)
    requires p == "k"
    ensures SampleMatches(SampleQueries, p) == ["waterproof bluetooth speaker", "4K webcam for streaming", "portable power bank", "fitness tracker with GPS"]
  {
    LowerK(p);
    Sample0(SampleQueries[0]);
    Sample1(SampleQueries[1]);
    Sample2(SampleQueries[2]);
    Sample3(SampleQueries[3]);
    Sample4(SampleQueries[4]);
    Sample5(SampleQueries[5]);
    Sample6(SampleQueries[6]);
    Sample7(SampleQueries[7]);
    assert SampleMatches(SampleQueries[..0], p) == [];
    assert SampleQueries[..1][..0] == SampleQueries[..0];
    assert SampleMatches(SampleQueries[..1], p) == [];
    assert SampleQueries[..2][..1] == SampleQueries[..1];
    assert SampleMatches(SampleQueries[..2], p) == [];
    assert SampleQueries[..3][..2] == SampleQueries[..2];
    assert SampleMatches(SampleQueries[..3], p) == [];
    assert SampleQueries[..4][..3] == SampleQueries[..3];
    assert SampleMatches(SampleQueries[..4], p) == ["waterproof bluetooth speaker"];
    assert SampleQueries[..5][..4] == SampleQueries[..4];
    assert SampleMatches(SampleQueries[..5], p) == ["waterproof bluetooth speaker"];
    assert SampleQueries[..6][..5] == SampleQueries[..5];
    assert SampleMatches(SampleQueries[..6], p) == ["waterproof bluetooth speaker", "4K webcam for streaming"];
    assert SampleQueries[..7][..6] == SampleQueries[..6];
    assert SampleMatches(SampleQueries[..7], p) == ["waterproof bluetooth speaker", "4K webcam for streaming", "portable power bank"];
    assert SampleQueries[..8][..7] == SampleQueries[..7];
    assert SampleMatches(SampleQueries[..8], p) == ["waterproof bluetooth speaker", "4K webcam for streaming", "portable power bank", "fitness tracker with GPS"];
    assert SampleQueries[..8] == SampleQueries;
  }

  lemma CategorySuggestionsK(p: string)
    requires p == "k"
    ensures CategorySuggestions(Categories, p) == ["products in Books"]
  {
    LowerK(p);
    Category0(Categories[0]);
    Category1(Categories[1]);
    Category2(Categories[2]);
    Category3(Categories[3]);
    Category4(Categories[4]);
    Category5(Categories[5]);
    Category6(Categories[6]);
    Category7(Categories[7]);
    assert CategorySuggestions(Categories[..0], p) == [];
    assert Categories[..1][..0] == Categories[..0];
    assert CategorySuggestions(Categories[..1], p) == [];
    assert Categories[..2][..1] == Categories[..1];
    assert CategorySuggestions(Categories[..2], p) == [];
    assert Categories[..3][..2] == Categories[..2];
    assert CategorySuggestions(Categories[..3], p) == [];
    assert Categories[..4][..3] == Categories[..3];
    assert CategorySuggestions(Categories[..4], p) == [];
    assert "products in " + Categories[4] == "products in Books";
    assert Categories[..5][..4] == Categories[..4];
    assert CategorySuggestions(Categories[..5], p) == ["products in Books"];
    assert Categories[..6][..5] == Categories[..5];
    assert CategorySuggestions(Categories[..6], p) == ["products in Books"];
    assert Categories[..7][..6] == Categories[..6];
    assert CategorySuggestions(Categories[..7], p) == ["products in Books"];
    assert Categories[..8][..7] == Categories[..7];
    assert CategorySuggestions(Categories[..8], p) == ["products in Books"];
    assert Categories[..8] == Categories;
  }

  /** Four sample queries contain "k" (one of them as "4K", case being
      ignored) and one category does; all five fit the default limit. */
  lemma SuggestionsForK()
    ensures Suggestions("k", 5) == ["waterproof bluetooth speaker", "4K webcam for streaming", "portable power bank", "fitness tracker with GPS", "products in Books"]
  {
    SampleMatchesK("k");
    CategorySuggestionsK("k");
  }

  /** Lower-casing x never yields needle[k], so needle is not in lower(x). */
  lemma LacksLetter(x: string, needle: string, k: nat)
    requires k < |needle|
    requires forall i :: 0 <= i < |x| ==> LowerChar(x[i]) != needle[k]
    ensures !Contains(Lower(x), needle)
  {
    MissingCharNotContained(Lower(x), needle, k);
  }

  /** Lower-casing x never yields needle[k] next to needle[k + 1]. */
  lemma LacksPair(x: string, needle: string, k: nat)
    requires k + 1 < |needle|
    requires forall i :: 0 <= i < |x| - 1 ==> LowerChar(x[i]) != needle[k] || LowerChar(x[i + 1]) != needle[k + 1]
    ensures !Contains(Lower(x), needle)
  {
    MissingPairNotContained(Lower(x), needle, k);
  }

  /** "wireless noise canceling headphones" has no "u" in any case. */
  lemma RunnSample1(x: string)
    requires x == "wireless noise canceling headphones"
    ensures !Contains(Lower(x), "runn")
  {
    LacksLetter(x, "runn", 1);
  }

  /** "gaming laptop under $1000" has no "nn" in any case. */
  lemma RunnSample2(x: string)
    requires x == "gaming laptop under $1000"
    ensures !Contains(Lower(x), "runn")
  {
    LacksPair(x, "runn", 2);
  }

  /** "waterproof bluetooth speaker" has no "n" in any case. */
  lemma RunnSample3(x: string)
    requires x == "waterproof bluetooth speaker"
    ensures !Contains(Lower(x), "runn")
  {
    LacksLetter(x, "runn", 2);
  }

  /** "ergonomic office chair" has no "u" in any case. */
  lemma RunnSample4(x: string)
    requires x == "ergonomic office chair"
    ensures !Contains(Lower(x), "runn")
  {
    LacksLetter(x, "runn", 1);
  }

  /** "4K webcam for streaming" has no "u" in any case. */
  lemma RunnSample5(x: string)
    requires x == "4K webcam for streaming"
    ensures !Contains(Lower(x), "runn")
  {
    LacksLetter(x, "runn", 1);
  }

  /** "portable power bank" has no "u" in any case. */
  lemma RunnSample6(x: string)
    requires x == "portable power bank"
    ensures !Contains(Lower(x), "runn")
  {
    LacksLetter(x, "runn", 1);
  }

  /** "fitness tracker with GPS" has no "u" in any case. */
  lemma RunnSample7(x: string)
    requires x == "fitness tracker with GPS"
    ensures !Contains(Lower(x), "runn")
  {
    LacksLetter(x, "runn", 1);
  }

  /** "Electronics" has no "u" in any case. */
  lemma RunnCategory0(x: string)
    requires x == "Electronics"
    ensures !Contains(Lower(x), "runn")
  {
    LacksLetter(x, "runn", 1);
  }

  /** "Clothing & Accessories" has no "u" in any case. */
  lemma RunnCategory1(x: string)
    requires x == "Clothing & Accessories"
    ensures !Contains(Lower(x), "runn")
  {
    LacksLetter(x, "runn", 1);
  }

  /** "Sports & Outdoors" has no "n" in any case. */
  lemma RunnCategory2(x: string)
    requires x == "Sports & Outdoors"
    ensures !Contains(Lower(x), "runn")
  {
    LacksLetter(x, "runn", 2);
  }

  /** "Home & Garden" has no "u" in any case. */
  lemma RunnCategory3(x: string)
    requires x == "Home & Garden"
    ensures !Contains(Lower(x), "runn")
  {
    LacksLetter(x, "runn", 1);
  }

  /** "Books" has no "u" in any case. */
  lemma RunnCategory4(x: string)
    requires x == "Books"
    ensures !Contains(Lower(x), "runn")
  {
    LacksLetter(x, "runn", 1);
  }

  /** "Beauty & Personal Care" has no "nn" in any case. */
  lemma RunnCategory5(x: string)
    requires x == "Beauty & Personal Care"
    ensures !Contains(Lower(x), "runn")
  {
    LacksPair(x, "runn", 2);
  }

  /** "Toys & Games" has no "u" in any case. */
  lemma RunnCategory6(x: string)
    requires x == "Toys & Games"
    ensures !Contains(Lower(x), "runn")
  {
    LacksLetter(x, "runn", 1);
  }

  /** "Automotive" has no "r" in any case. */
  lemma RunnCategory7(x: string)
    requires x == "Automotive"
    ensures !Contains(Lower(x), "runn")
  {
    LacksLetter(x, "runn", 0);
  }

  /** Only the first sample query contains "runn". */
  lemma RunnOnlyInFirstSample()
    ensures forall i :: 0 <= i < |SampleQueries[1..]| ==> !Contains(Lower(SampleQueries[1..][i]), "runn")
  {
    RunnSample1(SampleQueries[1]);
    RunnSample2(SampleQueries[2]);
    RunnSample3(SampleQueries[3]);
    RunnSample4(SampleQueries[4]);
    RunnSample5(SampleQueries[5]);
    RunnSample6(SampleQueries[6]);
    RunnSample7(SampleQueries[7]);
  }

  /** No category contains "runn". */
  lemma RunnInNoCategory()
    ensures forall i :: 0 <= i < |Categories| ==> !Contains(Lower(Categories[i]), "runn")
  {
    RunnCategory0(Categories[0]);
    RunnCategory1(Categories[1]);
    RunnCategory2(Categories[2]);
    RunnCategory3(Categories[3]);
    RunnCategory4(Categories[4]);
    RunnCategory5(Categories[5]);
    RunnCategory6(Categories[6]);
    RunnCategory7(Categories[7]);
  }

  /** "runn" is found only in "comfortable running shoes", the first sample
      query, so that query is the one suggestion. */
  lemma RunnSuggestsRunningShoes()
    ensures Suggestions("runn", 5) == ["comfortable running shoes"]
  {
    var p := "runn";
    LowerOfLowercase(p);
    var x := SampleQueries[0];
    assert Lower(x)[12..16] == "runn";
    StartsAtSlice(Lower(x), "runn", 12);
    StartsAtContains(Lower(x), "runn", 12);
    RunnOnlyInFirstSample();
    NoSampleMatchesIff(SampleQueries[1..], p);
    SampleMatchesCons(SampleQueries, p);
    RunnInNoCategory();
    NoCategorySuggestionsIff(Categories, p);
  }
}
