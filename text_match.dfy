/** Python's substring test on `str` (`needle in haystack`) and the `any`
    over a list of substrings that the candidate filter uses. */
module TextMatch {

  /** `needle in haystack`: some window of `haystack` equals `needle`;
      the empty string occurs in every string. */
  function Contains(haystack: string, needle: string): bool
    decreases |haystack|
  {
    if |needle| > |haystack| then false
    else haystack[..|needle|] == needle || (haystack != [] && Contains(haystack[1..], needle))
  }

  /** `needle` occurs in `haystack` starting at index `k`. */
  ghost predicate OccursAt(haystack: string, needle: string, k: int) {
    0 <= k && k + |needle| <= |haystack| && haystack[k..k + |needle|] == needle
  }

  /** The scanning definition agrees with "some window equals the needle". */
  lemma {:induction false} ContainsIffOccurs(haystack: string, needle: string)
    ensures Contains(haystack, needle) <==> exists k :: OccursAt(haystack, needle, k)
    decreases |haystack|
  {
    if |needle| > |haystack| {
    } else if haystack[..|needle|] == needle {
      assert OccursAt(haystack, needle, 0);
    } else {
      var tail := haystack[1..];
      ContainsIffOccurs(tail, needle);
      if k :| OccursAt(haystack, needle, k) {
        assert k != 0;
        assert tail[k - 1..k - 1 + |needle|] == haystack[k..k + |needle|];
        assert OccursAt(tail, needle, k - 1);
      }
      if k :| OccursAt(tail, needle, k) {
        assert tail[k..k + |needle|] == haystack[k + 1..k + 1 + |needle|];
        assert OccursAt(haystack, needle, k + 1);
      }
    }
  }

  /** `any(sub in text for sub in subs)`. */
  function AnyIn(subs: seq<string>, text: string): (r: bool)
    ensures r <==> exists i :: 0 <= i < |subs| && Contains(text, subs[i])
  {
    if subs == [] then false
    else if Contains(text, subs[0]) then true
    else
      var rest := AnyIn(subs[1..], text);
      assert forall i :: 1 <= i < |subs| ==> subs[i] == subs[1..][i - 1];
      rest
  }
}
