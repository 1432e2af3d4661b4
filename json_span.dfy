/** The brace span that `content.match(/\{[\s\S]*\}/)` selects from the model's
    text: the regex engine tries start positions from the left, and the greedy
    `[\s\S]*` then backtracks to the LAST `}` after the start, so the match runs
    from the first `{` to the last `}` behind it. */
module JsonSpan {
  import opened Wrappers

  /** Position of the first `c` in `s` at or after `from`. */
  function IndexFrom(s: seq<char>, c: char, from: nat): (r: Option<nat>)
    requires from <= |s|
    ensures r.Some? ==> from <= r.value < |s| && s[r.value] == c
    ensures r.Some? ==> forall k :: from <= k < r.value ==> s[k] != c
    ensures r.None? ==> forall k :: from <= k < |s| ==> s[k] != c
    decreases |s| - from
  {
    if from == |s| then None
    else if s[from] == c then Some(from)
    else IndexFrom(s, c, from + 1)
  }

  /** Position of the last `c` in `s[..upto]`. */
  function LastIndexBefore(s: seq<char>, c: char, upto: nat): (r: Option<nat>)
    requires upto <= |s|
    ensures r.Some? ==> r.value < upto && s[r.value] == c
    ensures r.Some? ==> forall k :: r.value < k < upto ==> s[k] != c
    ensures r.None? ==> forall k :: 0 <= k < upto ==> s[k] != c
    decreases upto
  {
    if upto == 0 then None
    else if s[upto - 1] == c then Some(upto - 1)
    else LastIndexBefore(s, c, upto - 1)
  }

  /** `jsonMatch[0]`, or None when `match` returns null. */
  function ExtractSpan(s: seq<char>): (r: Option<seq<char>>)
    ensures r.Some? <==> exists i, j :: 0 <= i < j < |s| && s[i] == '{' && s[j] == '}'
    ensures r.Some? ==> 2 <= |r.value| && r.value[0] == '{' && r.value[|r.value| - 1] == '}'
  {
    match IndexFrom(s, '{', 0)
    case None => None
    case Some(i) =>
      match LastIndexBefore(s, '}', |s|)
      case None => None
      case Some(j) => if i < j then Some(s[i..j + 1]) else None
  }

  /** A candidate match of the regex: `{`, anything, `}` occupying s[i..e]. */
  ghost predicate MatchesAt(s: seq<char>, i: int, e: int) {
    0 <= i && i + 2 <= e <= |s| && s[i] == '{' && s[e - 1] == '}'
  }

  /** The match JavaScript reports: leftmost start, and at that start the longest end. */
  ghost predicate IsRegexMatch(s: seq<char>, i: int, e: int) {
    && MatchesAt(s, i, e)
    && (forall i', e' :: 0 <= i' < i ==> !MatchesAt(s, i', e'))
    && (forall e' :: e < e' ==> !MatchesAt(s, i, e'))
  }

  /** ExtractSpan agrees with the regex semantics: nothing exactly when no
      candidate match exists, otherwise the leftmost-longest match. */
  lemma ExtractSpanIsRegexMatch(s: seq<char>)
    ensures ExtractSpan(s).None? <==> forall i, e :: !MatchesAt(s, i, e)
    ensures forall i, e :: IsRegexMatch(s, i, e) ==> ExtractSpan(s) == Some(s[i..e])
    ensures ExtractSpan(s).Some? ==> exists i, e :: IsRegexMatch(s, i, e) && ExtractSpan(s).value == s[i..e]
  {
    var first := IndexFrom(s, '{', 0);
    var last := LastIndexBefore(s, '}', |s|);
    if ExtractSpan(s).Some? {
      var i, j := first.value, last.value;
      assert MatchesAt(s, i, j + 1);
      forall i', e' | 0 <= i' < i ensures !MatchesAt(s, i', e') {
      }
      forall e' | j + 1 < e' ensures !MatchesAt(s, i, e') {
      }
      assert IsRegexMatch(s, i, j + 1);
      forall i0, e0 | IsRegexMatch(s, i0, e0) ensures ExtractSpan(s) == Some(s[i0..e0]) {
        assert !(i0 < i) && !(i < i0);
        assert !(e0 < j + 1) && !(j + 1 < e0);
      }
    } else {
      forall i, e ensures !MatchesAt(s, i, e) {
      }
    }
  }

  /** The span is a contiguous piece of the text, with no `{` before it and no
      `}` after it. */
  lemma ExtractSpanPlacement(s: seq<char>)
    requires ExtractSpan(s).Some?
    ensures exists i :: (0 <= i && i + |ExtractSpan(s).value| <= |s|
                         && s[i..i + |ExtractSpan(s).value|] == ExtractSpan(s).value
                         && '{' !in s[..i] && '}' !in s[i + |ExtractSpan(s).value|..])
  {
    var i, j := IndexFrom(s, '{', 0).value, LastIndexBefore(s, '}', |s|).value;
    var t := ExtractSpan(s).value;
    assert t == s[i..j + 1];
    assert '{' !in s[..i] by {
      forall k | 0 <= k < i ensures s[..i][k] != '{' { }
    }
    assert '}' !in s[j + 1..] by {
      forall k | j + 1 <= k < |s| ensures s[k] != '}' { }
    }
  }

  /** Extracting from an extracted span returns it unchanged. */
  lemma ExtractSpanIdempotent(s: seq<char>)
    ensures ExtractSpan(s).Some? ==> ExtractSpan(ExtractSpan(s).value) == ExtractSpan(s)
  {
    if ExtractSpan(s).Some? {
      var t := ExtractSpan(s).value;
      assert IndexFrom(t, '{', 0) == Some(0);
      assert LastIndexBefore(t, '}', |t|) == Some(|t| - 1);
      assert t[0..|t|] == t;
    }
  }
}
