/**
 * The response normaliser's extraction step: `text.match(/\{[\s\S]*\}/)`.
 * The pattern is greedy and unanchored, so the engine starts at the leftmost
 * position where a match exists and then extends it as far as it can: the
 * result runs from the first '{' to the last '}' of the text. It does not
 * balance braces.
 */
module JsonSpan {
  import opened Wrappers
  import opened Json

  /** The position of the first `c` in `s`. */
  function FirstIndexOf(s: string, c: char): (r: Option<nat>)
    ensures r.None? ==> forall k :: 0 <= k < |s| ==> s[k] != c
    ensures r.Some? ==> r.value < |s| && s[r.value] == c && forall k :: 0 <= k < r.value ==> s[k] != c
  {
    if |s| == 0 then None
    else if s[0] == c then Some(0)
    else
      match FirstIndexOf(s[1..], c)
      case None => None
      case Some(i) => Some(i + 1)
  }

  /** The position of the last `c` in `s`. */
  function LastIndexOf(s: string, c: char): (r: Option<nat>)
    ensures r.None? ==> forall k :: 0 <= k < |s| ==> s[k] != c
    ensures r.Some? ==> r.value < |s| && s[r.value] == c && forall k :: r.value < k < |s| ==> s[k] != c
  {
    if |s| == 0 then None
    else if s[|s| - 1] == c then Some(|s| - 1)
    else LastIndexOf(s[..|s| - 1], c)
  }

  /** `s[i..j+1]` is matched by the pattern: it opens with '{' and closes with '}'. */
  predicate IsMatchAt(s: string, i: int, j: int) {
    0 <= i < j < |s| && s[i] == '{' && s[j] == '}'
  }

  /**
   * The match a backtracking regex engine reports: the leftmost start that
   * admits a match, and for that start the longest one (greedy `*`).
   */
  ghost predicate IsLeftmostGreedy(s: string, i: int, j: int) {
    && IsMatchAt(s, i, j)
    && (forall i', j' :: IsMatchAt(s, i', j') ==> i <= i')
    && (forall j' :: IsMatchAt(s, i, j') ==> j' <= j)
  }

  /** The bounds of the match: the first '{' and the last '}', when the first precedes the last. */
  function MatchBounds(s: string): (r: Option<(nat, nat)>)
    ensures r.None? <==> forall i, j :: !IsMatchAt(s, i, j)
    ensures r.Some? ==> IsMatchAt(s, r.value.0, r.value.1)
    ensures r.Some? ==> forall i, j :: IsMatchAt(s, i, j) ==> r.value.0 <= i && j <= r.value.1
  {
    match FirstIndexOf(s, '{')
    case None => None
    case Some(i) =>
      match LastIndexOf(s, '}')
      case None => None
      case Some(j) => if i < j then assert IsMatchAt(s, i, j); Some((i, j)) else None
  }

  /** The bounds are exactly the leftmost-greedy match, in both directions. */
  lemma MatchBoundsAreLeftmostGreedy(s: string, i: int, j: int)
    ensures MatchBounds(s) == Some((i, j)) <==> IsLeftmostGreedy(s, i, j)
  {
    if IsLeftmostGreedy(s, i, j) {
      var b := MatchBounds(s);
      assert b.Some?;
      assert b.value.0 <= i && j <= b.value.1;
      assert IsMatchAt(s, b.value.0, b.value.1);
      assert i <= b.value.0;
      assert IsMatchAt(s, i, b.value.1);
    }
  }

  /** `jsonMatch[0]`: the matched text, or `None` for a `null` match. */
  function ExtractSpan(s: string): (r: Option<string>)
    ensures r.None? <==> forall i, j :: !IsMatchAt(s, i, j)
    ensures r.Some? ==> |r.value| >= 2 && r.value[0] == '{' && r.value[|r.value| - 1] == '}'
    ensures r.Some? ==> var (i, j) := MatchBounds(s).value; r.value == s[i..j + 1]
  {
    match MatchBounds(s)
    case None => None
    case Some((i, j)) => Some(s[i..j + 1])
  }

  /** Extracting from an extracted span gives the span back. */
  lemma ExtractIdempotent(s: string)
    requires ExtractSpan(s).Some?
    ensures ExtractSpan(ExtractSpan(s).value) == ExtractSpan(s)
  {
    var span := ExtractSpan(s).value;
    assert IsMatchAt(span, 0, |span| - 1);
    var (i, j) := MatchBounds(span).value;
    assert i == 0 && j == |span| - 1;
    assert span[i..j + 1] == span;
  }

  /**
   * One object surrounded by prose: when no '{' comes before it and no '}'
   * after it, exactly that object is extracted.
   */
  lemma ExtractFromProse(before: string, obj: string, after: string)
    requires '{' !in before && '}' !in after
    requires |obj| >= 2 && obj[0] == '{' && obj[|obj| - 1] == '}'
    ensures ExtractSpan(before + obj + after) == Some(obj)
  {
    var s := before + obj + after;
    var lo, hi := |before|, |before| + |obj| - 1;
    assert s[lo] == obj[0] && s[hi] == obj[|obj| - 1];
    assert IsMatchAt(s, lo, hi);
    assert s[lo..hi + 1] == obj;
  }

  /** Two objects in one reply come out as one span covering both, rather than the first object. */
  lemma ExtractSpansAcrossObjects(first: string, middle: string, second: string)
    requires |first| >= 2 && first[0] == '{' && first[|first| - 1] == '}'
    requires |second| >= 2 && second[0] == '{' && second[|second| - 1] == '}'
    ensures ExtractSpan(first + middle + second) == Some(first + middle + second)
  {
    var whole := first + middle + second;
    assert whole[0] == '{' && whole[|whole| - 1] == '}';
    ExtractFromProse("", whole, "");
    assert "" + whole + "" == whole;
  }

  /**
   * `JSON.parse(text.match(...)[0])` inside a `try`: no match and a parse
   * failure both give `None`.
   */
  function ParseEmbedded(text: string, parse: string -> Option<Json>): (r: Option<Json>)
    ensures r.Some? <==> ExtractSpan(text).Some? && parse(ExtractSpan(text).value).Some?
    ensures r.Some? ==> r == parse(ExtractSpan(text).value)
  {
    match ExtractSpan(text)
    case None => None
    case Some(span) => parse(span)
  }
}
