/** Leftmost-match recognisers for the fixed regular expressions of the query
    filter extractor, with Python `re.search` semantics: the first start position
    at which the pattern matches wins, `\d+` is greedy, and `\$?` is tried with the
    dollar sign first and without it on backtracking. */
module Patterns {
  import opened Base
  import opened Text

  datatype Pattern =
    | Under          // under \$?(\d+)
    | Below          // below \$?(\d+)
    | LessThan       // less than \$?(\d+)
    | Over           // over \$?(\d+)
    | Above          // above \$?(\d+)
    | MoreThan       // more than \$?(\d+)
    | DollarRange    // \$?(\d+)-\$?(\d+)
    | Between        // between \$?(\d+) and \$?(\d+)
    | PlusStars      // (\d+\.?\d*)\+ stars?
    | StarsOrBetter  // (\d+\.?\d*) stars? or better
    | HighlyRated    // highly rated
    | TopRated       // top rated

  /** A captured group and the position just after the text matched so far. */
  datatype Capture = Capture(text: string, end: nat)

  function GroupCount(p: Pattern): nat {
    match p
    case DollarRange | Between => 2
    case HighlyRated | TopRated => 0
    case _ => 1
  }

  predicate AllDigits(d: string) { forall k :: 0 <= k < |d| ==> IsDigit(d[k]) }

  /** Text `\d+\.?\d*` can capture: digits, then at most one dot, then digits. */
  predicate IsDecimalText(d: string) {
    |d| > 0 && IsDigit(d[0]) &&
    forall k :: 0 <= k < |d| ==> IsDigit(d[k]) || (d[k] == '.' && forall m :: 0 <= m < |d| && m != k ==> d[m] != '.')
  }

  /** `\$?(\d+)` matched at i. */
  function DollarNumberAt(s: string, i: nat): (r: Option<Capture>)
    ensures r.Some? ==> i < r.value.end <= |s| && 0 < |r.value.text| <= r.value.end && AllDigits(r.value.text)
    ensures r.Some? ==> r.value.text == s[r.value.end - |r.value.text|..r.value.end]
    ensures r.Some? ==> r.value.end == |s| || !IsDigit(s[r.value.end])
    ensures r.Some? ==> r.value.end - |r.value.text| == (if i < |s| && s[i] == '$' then i + 1 else i)
    ensures r.None? <==>
      i > |s| || var j := if i < |s| && s[i] == '$' then i + 1 else i; !(j < |s| && IsDigit(s[j]))
  {
    if i > |s| then None
    else
      var j := if i < |s| && s[i] == '$' then i + 1 else i;
      var e := DigitRunEnd(s, j);
      if e > j then Some(Capture(s[j..e], e)) else None
  }

  /** `(\d+\.?\d*)` matched at i. The end of the group is forced: any shorter
      alternative leaves a digit or a dot where the rest of the pattern needs a
      space or a plus sign. */
  function DecimalAt(s: string, i: nat): (r: Option<Capture>)
    ensures r.Some? ==> i < r.value.end <= |s| && r.value.text == s[i..r.value.end]
    ensures r.Some? ==> IsDecimalText(r.value.text)
    ensures r.Some? ==>
      r.value.end == |s| || (!IsDigit(s[r.value.end]) && (s[r.value.end] != '.' || '.' in r.value.text))
    ensures r.None? <==> !(i < |s| && IsDigit(s[i]))
  {
    if i > |s| then None
    else
      var e1 := DigitRunEnd(s, i);
      if e1 == i then None
      else if e1 < |s| && s[e1] == '.' then
        var e2 := DigitRunEnd(s, e1 + 1);
        assert forall k :: i <= k < e2 && k != e1 ==> IsDigit(s[k]);
        Some(Capture(s[i..e2], e2))
      else Some(Capture(s[i..e1], e1))
  }

  /** A literal followed by `\$?(\d+)`, matched at i. */
  function NumberAfter(lit: string, s: string, i: nat): (r: Option<seq<string>>)
    ensures r.Some? ==> |r.value| == 1 && 0 < |r.value[0]| && AllDigits(r.value[0])
  {
    if !StartsAt(s, lit, i) then None
    else match DollarNumberAt(s, i + |lit|)
      case None => None
      case Some(a) => Some([a.text])
  }

  /** `\$?(\d+)-\$?(\d+)` matched at i. */
  function RangeAt(s: string, i: nat): (r: Option<seq<string>>)
    ensures r.Some? ==> |r.value| == 2 && forall k :: 0 <= k < 2 ==> 0 < |r.value[k]| && AllDigits(r.value[k])
  {
    match DollarNumberAt(s, i)
    case None => None
    case Some(a) =>
      if a.end < |s| && s[a.end] == '-' then
        (match DollarNumberAt(s, a.end + 1)
         case None => None
         case Some(b) => Some([a.text, b.text]))
      else None
  }

  /** `between \$?(\d+) and \$?(\d+)` matched at i. */
  function BetweenAt(s: string, i: nat): (r: Option<seq<string>>)
    ensures r.Some? ==> |r.value| == 2 && forall k :: 0 <= k < 2 ==> 0 < |r.value[k]| && AllDigits(r.value[k])
  {
    if !StartsAt(s, "between ", i) then None
    else match DollarNumberAt(s, i + 8)
      case None => None
      case Some(a) =>
        if !StartsAt(s, " and ", a.end) then None
        else
          (match DollarNumberAt(s, a.end + 5)
           case None => None
           case Some(b) => Some([a.text, b.text]))
  }

  /** `(\d+\.?\d*) stars? or better` matched at i. */
  function StarsOrBetterAt(s: string, i: nat): (r: Option<seq<string>>)
    ensures r.Some? ==> |r.value| == 1 && IsDecimalText(r.value[0])
  {
    match DecimalAt(s, i)
    case None => None
    case Some(d) =>
      if !StartsAt(s, " star", d.end) then None
      else
        var k := d.end + 5;
        // `s?` is tried with the letter first; without it " or better" would
        // have to start at the letter, which it cannot.
        var tail := if k < |s| && s[k] == 's' then StartsAt(s, " or better", k + 1) else StartsAt(s, " or better", k);
        if tail then Some([d.text]) else None
  }

  /** The groups captured when p matches s exactly at position i. */
  function MatchAt(p: Pattern, s: string, i: nat): (r: Option<seq<string>>)
    ensures r.Some? ==> |r.value| == GroupCount(p)
    ensures r.Some? && p in {Under, Below, LessThan, Over, Above, MoreThan, DollarRange, Between} ==>
              forall k :: 0 <= k < |r.value| ==> 0 < |r.value[k]| && AllDigits(r.value[k])
    ensures r.Some? && p in {PlusStars, StarsOrBetter} ==> IsDecimalText(r.value[0])
  {
    match p
    case Under => NumberAfter("under ", s, i)
    case Below => NumberAfter("below ", s, i)
    case LessThan => NumberAfter("less than ", s, i)
    case Over => NumberAfter("over ", s, i)
    case Above => NumberAfter("above ", s, i)
    case MoreThan => NumberAfter("more than ", s, i)
    case DollarRange => RangeAt(s, i)
    case Between => BetweenAt(s, i)
    case PlusStars =>
      (match DecimalAt(s, i)
       case None => None
       case Some(d) => if StartsAt(s, "+ star", d.end) then Some([d.text]) else None)
    case StarsOrBetter => StarsOrBetterAt(s, i)
    case HighlyRated => if StartsAt(s, "highly rated", i) then Some([]) else None
    case TopRated => if StartsAt(s, "top rated", i) then Some([]) else None
  }

  /** The leftmost position at or after i where p matches s, or |s| + 1 when
      there is none. */
  function MatchPosFrom(p: Pattern, s: string, i: nat): (k: nat)
    requires i <= |s| + 1
    ensures i <= k <= |s| + 1
    ensures k <= |s| ==> MatchAt(p, s, k).Some?
    ensures forall j: nat :: i <= j < k ==> MatchAt(p, s, j).None?
    decreases |s| + 1 - i
  {
    if i > |s| then i
    else if MatchAt(p, s, i).Some? then i
    else MatchPosFrom(p, s, i + 1)
  }

  /** `re.search(p, s)`: the groups of the match at the leftmost position where
      p matches. */
  function Search(p: Pattern, s: string): (r: Option<seq<string>>)
    ensures r.Some? ==> |r.value| == GroupCount(p)
    ensures r.Some? && p in {Under, Below, LessThan, Over, Above, MoreThan, DollarRange, Between} ==>
              forall k :: 0 <= k < |r.value| ==> 0 < |r.value[k]| && AllDigits(r.value[k])
    ensures r.Some? && p in {PlusStars, StarsOrBetter} ==> IsDecimalText(r.value[0])
  {
    var k := MatchPosFrom(p, s, 0);
    if k <= |s| then MatchAt(p, s, k) else None
  }

  /** `re.search` reports the match at the leftmost position where p matches,
      and nothing only when p matches at no position. */
  lemma SearchLeftmost(p: Pattern, s: string)
    ensures Search(p, s).None? <==> forall k: nat :: k <= |s| ==> MatchAt(p, s, k).None?
    ensures Search(p, s).Some? ==>
              exists k: nat :: k <= |s| && MatchAt(p, s, k) == Search(p, s) &&
                forall j: nat :: j < k ==> MatchAt(p, s, j).None?
  {
    var k := MatchPosFrom(p, s, 0);
    if k <= |s| {
      assert MatchAt(p, s, k) == Search(p, s);
    }
  }

  /** A fixed piece of text every match of p contains. */
  function Anchor(p: Pattern): string {
    match p
    case Under => "under "
    case Below => "below "
    case LessThan => "less than "
    case Over => "over "
    case Above => "above "
    case MoreThan => "more than "
    case DollarRange => "-"
    case Between => "between "
    case PlusStars => "+ star"
    case StarsOrBetter => " star"
    case HighlyRated => "highly rated"
    case TopRated => "top rated"
  }

  lemma MatchAtHasAnchor(p: Pattern, s: string, i: nat)
    requires MatchAt(p, s, i).Some?
    ensures Contains(s, Anchor(p))
  {
    var q: nat;
    if p == DollarRange {
      q := DollarNumberAt(s, i).value.end;
      assert s[q..q + 1] == [s[q]];
    } else if p == PlusStars {
      q := DecimalAt(s, i).value.end;
      StartsAtSlice(s, "+ star", q);
    } else if p == StarsOrBetter {
      q := DecimalAt(s, i).value.end;
      StartsAtSlice(s, " star", q);
    } else {
      q := i;
      StartsAtSlice(s, Anchor(p), q);
    }
    assert SliceAt(s, Anchor(p), q);
    ContainsIff(s, Anchor(p));
  }

  /** A pattern cannot match a query that lacks its fixed text. */
  lemma SearchNeedsAnchor(p: Pattern, s: string)
    requires !Contains(s, Anchor(p))
    ensures Search(p, s).None?
  {
    SearchLeftmost(p, s);
    forall k: nat | k <= |s|
      ensures MatchAt(p, s, k).None?
    {
      if MatchAt(p, s, k).Some? {
        MatchAtHasAnchor(p, s, k);
      }
    }
  }
}
