/** The string operations of Python's `str` the core relies on, for ASCII text:
    `lower()`, `title()`, `split()`, the `in` substring test and decimal digits. */
module Text {

  predicate IsUpper(c: char) { 'A' <= c <= 'Z' }

  predicate IsLower(c: char) { 'a' <= c <= 'z' }

  predicate IsAlpha(c: char) { IsUpper(c) || IsLower(c) }

  predicate IsDigit(c: char) { '0' <= c <= '9' }

  /** The characters `str.split()` treats as separators (the ASCII ones). */
  predicate IsSpace(c: char) {
    c == ' ' || 9 <= c as int <= 13 || 28 <= c as int <= 31
  }

  function LowerChar(c: char): char {
    if IsUpper(c) then (c as int + 32) as char else c
  }

  function UpperChar(c: char): char {
    if IsLower(c) then (c as int - 32) as char else c
  }

  /** `s.lower()`. */
  function Lower(s: string): (r: string)
    ensures |r| == |s|
    ensures forall i :: 0 <= i < |s| ==> r[i] == LowerChar(s[i])
  {
    seq(|s|, i requires 0 <= i < |s| => LowerChar(s[i]))
  }

  /** A string without upper-case letters is its own lower-case form. */
  lemma LowerOfLowercase(s: string)
    requires forall i :: 0 <= i < |s| ==> !IsUpper(s[i])
    ensures Lower(s) == s
  {
  }

  /** Lower-casing twice is lower-casing once. */
  lemma LowerIdempotent(s: string)
    ensures Lower(Lower(s)) == Lower(s)
  {
  }

  /** `s.title()`: a letter is upper-cased when the character before it is not a
      letter, and lower-cased otherwise; other characters are kept. */
  function TitleCase(s: string): (r: string)
    ensures |r| == |s|
  {
    seq(|s|, i requires 0 <= i < |s| =>
      if !IsAlpha(s[i]) then s[i]
      else if i == 0 || !IsAlpha(s[i - 1]) then UpperChar(s[i])
      else LowerChar(s[i]))
  }

  /** Title-casing changes only letter case: both forms lower-case alike, and each
      word starts with a capital followed by small letters. */
  lemma TitleCaseOnlyChangesCase(s: string)
    ensures Lower(TitleCase(s)) == Lower(s)
    ensures forall i :: 0 <= i < |s| && IsAlpha(s[i]) && (i == 0 || !IsAlpha(s[i - 1])) ==> IsUpper(TitleCase(s)[i])
    ensures forall i :: 0 < i < |s| && IsAlpha(s[i]) && IsAlpha(s[i - 1]) ==> IsLower(TitleCase(s)[i])
  {
    var t := TitleCase(s);
    forall i | 0 <= i < |s|
      ensures LowerChar(t[i]) == LowerChar(s[i])
      ensures IsAlpha(s[i]) && (i == 0 || !IsAlpha(s[i - 1])) ==> IsUpper(t[i])
      ensures 0 < i && IsAlpha(s[i]) && IsAlpha(s[i - 1]) ==> IsLower(t[i])
    {
      CaseOfChar(s[i]);
    }
    assert Lower(t) == Lower(s);
  }

  /** Changing the case of a character keeps its lower-case form; a letter's
      upper- and lower-case forms are upper- and lower-case letters. */
  lemma CaseOfChar(c: char)
    ensures LowerChar(UpperChar(c)) == LowerChar(c) && LowerChar(LowerChar(c)) == LowerChar(c)
    ensures IsAlpha(c) ==> IsUpper(UpperChar(c)) && IsLower(LowerChar(c))
  {
  }

  /** needle occurs in hay at position i, compared from the j-th character on. */
  predicate MatchesFrom(hay: string, needle: string, i: nat, j: nat)
    decreases |needle| - j
  {
    if j >= |needle| then i + |needle| <= |hay|
    else i + j < |hay| && hay[i + j] == needle[j] && MatchesFrom(hay, needle, i, j + 1)
  }

  /** needle is the slice of hay that starts at p. */
  predicate SliceAt(hay: string, needle: string, p: nat) {
    p + |needle| <= |hay| && hay[p..p + |needle|] == needle
  }

  /** needle occurs in hay starting at position i. */
  predicate StartsAt(hay: string, needle: string, i: nat) {
    MatchesFrom(hay, needle, i, 0)
  }

  /** needle occurs in hay at some position at or after i. */
  predicate ContainsFrom(hay: string, needle: string, i: nat)
    decreases |hay| - i
  {
    i <= |hay| && (StartsAt(hay, needle, i) || ContainsFrom(hay, needle, i + 1))
  }

  /** Python's `needle in hay`. */
  predicate Contains(hay: string, needle: string) {
    ContainsFrom(hay, needle, 0)
  }

  lemma {:induction false} MatchesFromSlice(hay: string, needle: string, i: nat, j: nat)
    requires j <= |needle|
    ensures MatchesFrom(hay, needle, i, j) <==>
              i + |needle| <= |hay| && hay[i + j..i + |needle|] == needle[j..]
    decreases |needle| - j
  {
    if j < |needle| {
      MatchesFromSlice(hay, needle, i, j + 1);
      if i + |needle| <= |hay| {
        var a, b := hay[i + j..i + |needle|], needle[j..];
        assert a == [hay[i + j]] + hay[i + j + 1..i + |needle|];
        assert b == [needle[j]] + needle[j + 1..];
        if a == b {
          assert a[0] == b[0] && a[1..] == b[1..];
        }
      }
    }
  }

  /** StartsAt is the slice comparison. */
  lemma StartsAtSlice(hay: string, needle: string, i: nat)
    ensures StartsAt(hay, needle, i) <==> SliceAt(hay, needle, i)
  {
    MatchesFromSlice(hay, needle, i, 0);
  }

  lemma {:induction false} ContainsFromExists(hay: string, needle: string, i: nat)
    ensures ContainsFrom(hay, needle, i) <==> exists p: nat :: i <= p && SliceAt(hay, needle, p)
    decreases |hay| - i
  {
    StartsAtSlice(hay, needle, i);
    if i <= |hay| {
      ContainsFromExists(hay, needle, i + 1);
      if exists p: nat :: i <= p && SliceAt(hay, needle, p) {
        var p: nat :| i <= p && SliceAt(hay, needle, p);
        if p > i {
          assert i + 1 <= p;
        }
      }
    }
  }

  /** `needle in hay` holds exactly when needle is a slice of hay. */
  lemma ContainsIff(hay: string, needle: string)
    ensures Contains(hay, needle) <==> exists p: nat :: SliceAt(hay, needle, p)
  {
    ContainsFromExists(hay, needle, 0);
  }

  /** An occurrence at a known position is an occurrence. */
  lemma StartsAtContains(hay: string, needle: string, i: nat)
    requires StartsAt(hay, needle, i)
    ensures Contains(hay, needle)
  {
    StartsAtSlice(hay, needle, i);
    ContainsIff(hay, needle);
  }

  /** The empty string is in every string. */
  lemma ContainsEmpty(hay: string)
    ensures Contains(hay, "")
  {
    ContainsIff(hay, "");
    assert SliceAt(hay, "", 0);
  }

  /** A string in which some character of needle never occurs does not contain needle. */
  lemma {:induction false} MissingCharNotContained(hay: string, needle: string, k: nat)
    requires k < |needle|
    requires needle[k] !in hay
    ensures !Contains(hay, needle)
  {
    ContainsIff(hay, needle);
    forall p: nat
      ensures !SliceAt(hay, needle, p)
    {
      if p + |needle| <= |hay| {
        assert hay[p..p + |needle|][k] != needle[k];
      }
    }
  }

  /** A string in which two adjacent characters of needle never occur side by
      side does not contain needle. */
  lemma MissingPairNotContained(hay: string, needle: string, k: nat)
    requires k + 1 < |needle|
    requires forall i :: 0 <= i < |hay| - 1 ==> hay[i] != needle[k] || hay[i + 1] != needle[k + 1]
    ensures !Contains(hay, needle)
  {
    ContainsIff(hay, needle);
    forall p: nat
      ensures !SliceAt(hay, needle, p)
    {
      if p + |needle| <= |hay| {
        var w := hay[p..p + |needle|];
        assert w[k] == hay[p + k] && w[k + 1] == hay[p + k + 1];
      }
    }
  }

  /** The end of the maximal run of digits that starts at i. */
  function DigitRunEnd(s: string, i: nat): (e: nat)
    requires i <= |s|
    ensures i <= e <= |s|
    ensures forall k :: i <= k < e ==> IsDigit(s[k])
    ensures e == |s| || !IsDigit(s[e])
    decreases |s| - i
  {
    if i < |s| && IsDigit(s[i]) then DigitRunEnd(s, i + 1) else i
  }

  function DigitValue(c: char): nat { if IsDigit(c) then c as int - '0' as int else 0 }

  /** `int(d)` for a string of decimal digits. */
  function DecimalValue(d: string): nat
    decreases |d|
  {
    if d == [] then 0 else DecimalValue(d[..|d| - 1]) * 10 + DigitValue(d[|d| - 1])
  }

  /** 10 to the power n. */
  function Pow10(n: nat): (r: nat)
    ensures r > 0
  {
    if n == 0 then 1 else 10 * Pow10(n - 1)
  }

  /** The decimal digits of n, most significant first. */
  function DigitsOf(n: nat): (d: string)
    ensures |d| > 0
    ensures forall k :: 0 <= k < |d| ==> IsDigit(d[k])
    decreases n
  {
    if n < 10 then [('0' as int + n) as char] else DigitsOf(n / 10) + [('0' as int + n % 10) as char]
  }

  /** Reading back the digits of a number gives the number. */
  lemma {:induction false} DecimalValueOfDigits(n: nat)
    ensures DecimalValue(DigitsOf(n)) == n
    decreases n
  {
    if n >= 10 {
      DecimalValueOfDigits(n / 10);
      var d := DigitsOf(n);
      assert d[..|d| - 1] == DigitsOf(n / 10);
    }
  }

  /** The characters of s from i up to the first separator or the end. */
  function WordEnd(s: string, i: nat): (e: nat)
    requires i <= |s|
    ensures i <= e <= |s|
    ensures forall k :: i <= k < e ==> !IsSpace(s[k])
    ensures e == |s| || IsSpace(s[e])
    decreases |s| - i
  {
    if i < |s| && !IsSpace(s[i]) then WordEnd(s, i + 1) else i
  }

  predicate NoSpace(w: string) { forall k :: 0 <= k < |w| ==> !IsSpace(w[k]) }

  /** `s.split()` with no argument: the maximal runs of non-separator characters. */
  function Split(s: string): (words: seq<string>)
    decreases |s|
  {
    if s == [] then []
    else if IsSpace(s[0]) then Split(s[1..])
    else
      var e := WordEnd(s, 0);
      [s[..e]] + Split(s[e..])
  }

  /** All characters of s that are not separators, in order. */
  function NonSpace(s: string): string
    decreases |s|
  {
    if s == [] then [] else (if IsSpace(s[0]) then [] else [s[0]]) + NonSpace(s[1..])
  }

  function Concat(words: seq<string>): string
    decreases |words|
  {
    if words == [] then [] else words[0] + Concat(words[1..])
  }

  lemma {:induction false} NonSpaceAppend(a: string, b: string)
    ensures NonSpace(a + b) == NonSpace(a) + NonSpace(b)
    decreases |a|
  {
    if a != [] {
      assert (a + b)[1..] == a[1..] + b;
      NonSpaceAppend(a[1..], b);
    } else {
      assert a + b == b;
    }
  }

  lemma {:induction false} NonSpaceOfWord(w: string)
    requires NoSpace(w)
    ensures NonSpace(w) == w
    decreases |w|
  {
    if w != [] {
      NonSpaceOfWord(w[1..]);
      assert w == [w[0]] + w[1..];
    }
  }

  /** Every word of `s.split()` is non-empty and separator-free, and the words
      together are exactly the non-separator characters of s, in order. */
  lemma {:induction false} SplitWords(s: string)
    ensures forall w :: w in Split(s) ==> |w| > 0 && NoSpace(w)
    ensures Concat(Split(s)) == NonSpace(s)
    ensures s == [] ==> Split(s) == []
    decreases |s|
  {
    if s != [] {
      if IsSpace(s[0]) {
        SplitWords(s[1..]);
      } else {
        var e := WordEnd(s, 0);
        SplitWords(s[e..]);
        var words := Split(s);
        assert words == [s[..e]] + Split(s[e..]);
        assert words[1..] == Split(s[e..]);
        assert s == s[..e] + s[e..];
        NonSpaceAppend(s[..e], s[e..]);
        NonSpaceOfWord(s[..e]);
      }
    }
  }

  /** A separator ends a word: the word is the same with anything after it. */
  lemma {:induction false} WordEndBeforeSeparator(s: string, u: string, i: nat)
    requires i <= |s|
    requires u != [] && IsSpace(u[0])
    ensures WordEnd(s + u, i) == WordEnd(s, i)
    decreases |s| - i
  {
    if i < |s| && !IsSpace(s[i]) {
      assert (s + u)[i] == s[i];
      WordEndBeforeSeparator(s, u, i + 1);
    } else if i == |s| {
      assert (s + u)[i] == u[0];
    } else {
      assert (s + u)[i] == s[i];
    }
  }

  /** Text without separators is a single word. */
  lemma SplitSingleWord(w: string)
    requires w != [] && NoSpace(w)
    ensures Split(w) == [w]
  {
    assert !IsSpace(w[0]);
    var e := WordEnd(w, 0);
    assert e == |w|;
    assert w[..e] == w && w[e..] == [];
    assert Split(w) == [w[..e]] + Split(w[e..]);
  }

  /** `split()` at a separator splits the two sides separately: words never
      span a separator, and separators never produce empty words. */
  lemma {:induction false} SplitAtSeparator(s: string, c: char, t: string)
    requires IsSpace(c)
    ensures Split(s + [c] + t) == Split(s) + Split(t)
    decreases |s|
  {
    var x := s + [c] + t;
    if s == [] {
      assert x[1..] == t;
    } else if IsSpace(s[0]) {
      assert x[1..] == s[1..] + [c] + t;
      SplitAtSeparator(s[1..], c, t);
    } else {
      assert x == s + ([c] + t);
      WordEndBeforeSeparator(s, [c] + t, 0);
      var e := WordEnd(s, 0);
      assert x[..e] == s[..e];
      assert x[e..] == s[e..] + [c] + t;
      SplitAtSeparator(s[e..], c, t);
    }
  }
}
