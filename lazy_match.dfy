/** The regular expressions `/<open>.*?<close>/s` of the title extractor: with the
    `s` flag `.` matches every character, so such a pattern matches at position i
    exactly when `open` occurs at i and `close` occurs somewhere after it. JavaScript's
    `match` returns the leftmost match, and the lazy `.*?` makes it the shortest one
    starting there. */
module LazyMatch {
  import opened Optional

  predicate OccursAt(s: string, pat: string, k: int) {
    0 <= k && k + |pat| <= |s| && s[k..k + |pat|] == pat
  }

  /** The first occurrence of `pat` in `s` at or after `from`. */
  function FindFrom(s: string, pat: string, from: nat): (r: Option<nat>)
    ensures r.Some? ==> from <= r.value && OccursAt(s, pat, r.value)
    ensures r.Some? ==> forall k :: from <= k < r.value ==> !OccursAt(s, pat, k)
    ensures r.None? ==> forall k :: from <= k ==> !OccursAt(s, pat, k)
    decreases |s| - from
  {
    if from + |pat| > |s| then None
    else if s[from..from + |pat|] == pat then Some(from)
    else FindFrom(s, pat, from + 1)
  }

  /** The pattern matches the slice s[i..e]. */
  predicate IsMatch(s: string, open: string, close: string, i: int, e: int) {
    OccursAt(s, open, i) && i + |open| + |close| <= e && OccursAt(s, close, e - |close|)
  }

  /** Start and end of the match `String.prototype.match` reports, if any. */
  function FirstMatch(s: string, open: string, close: string): (r: Option<(nat, nat)>)
    ensures r.Some? ==> IsMatch(s, open, close, r.value.0, r.value.1) && r.value.1 <= |s|
    ensures r.Some? ==> forall i, e :: IsMatch(s, open, close, i, e) ==>
                          r.value.0 < i || (r.value.0 == i && r.value.1 <= e)
    ensures r.None? ==> forall i, e :: !IsMatch(s, open, close, i, e)
  {
    match FindFrom(s, open, 0)
    case None => None
    case Some(i) =>
      match FindFrom(s, close, i + |open|)
      case None => None
      case Some(j) => Some((i, j + |close|))
  }

  /** The text of the first lazy match of `open`, anything (line breaks included), `close`. */
  function Match(s: string, open: string, close: string): (r: Option<string>)
    ensures r.Some? ==> |r.value| >= |open| + |close|
    ensures r.Some? ==> r.value[..|open|] == open && r.value[|r.value| - |close|..] == close
    ensures r.None? <==> forall i, e :: !IsMatch(s, open, close, i, e)
  {
    match FirstMatch(s, open, close)
    case None => None
    case Some((i, e)) => Some(s[i..e])
  }
}
