/**
 * The JavaScript string operations the extension relies on:
 * `indexOf`, `includes`, `startsWith` and `replace` with a string pattern
 * (which replaces the FIRST occurrence only) and a replacement without `$`
 * patterns, which is inserted literally.
 */
module Strings {
  import opened Wrappers

  /** `pat` occurs in `s` starting at index `k`. */
  predicate OccursAt(s: string, pat: string, k: int)
  {
    0 <= k && k + |pat| <= |s| && s[k..k + |pat|] == pat
  }

  /** The first occurrence of `pat` in `s` at or after `from`, if any. */
  function IndexOfFrom(s: string, pat: string, from: nat): (r: Option<nat>)
    ensures r.Some? ==> from <= r.value && OccursAt(s, pat, r.value)
    ensures r.Some? ==> forall k :: from <= k < r.value ==> !OccursAt(s, pat, k)
    ensures r.None? ==> forall k :: from <= k ==> !OccursAt(s, pat, k)
    decreases |s| - from
  {
    if from + |pat| > |s| then None
    else if s[from..from + |pat|] == pat then Some(from)
    else IndexOfFrom(s, pat, from + 1)
  }

  /** `s.indexOf(pat)`, with `None` for -1. */
  function IndexOf(s: string, pat: string): Option<nat>
  {
    IndexOfFrom(s, pat, 0)
  }

  /** `s.includes(pat)`. */
  function Contains(s: string, pat: string): (b: bool)
    ensures b <==> exists k :: OccursAt(s, pat, k)
  {
    IndexOf(s, pat).Some?
  }

  /** `s.startsWith(pat)`. */
  predicate StartsWith(s: string, pat: string)
  {
    OccursAt(s, pat, 0)
  }

  /** `s.endsWith(pat)`. */
  predicate EndsWith(s: string, pat: string)
  {
    OccursAt(s, pat, |s| - |pat|)
  }

  /**
   * `s.replace(pat, rep)` with a string pattern and a replacement without
   * `$` patterns (the popup passes ''): only the first occurrence is
   * replaced, and `rep` is inserted literally.
   */
  function ReplaceFirst(s: string, pat: string, rep: string): (r: string)
    ensures !Contains(s, pat) ==> r == s
    ensures Contains(s, pat) ==>
      exists k :: OccursAt(s, pat, k) && (forall j :: 0 <= j < k ==> !OccursAt(s, pat, j))
                  && r == s[..k] + rep + s[k + |pat|..]
  {
    match IndexOf(s, pat)
    case None => s
    case Some(k) => s[..k] + rep + s[k + |pat|..]
  }

  /**
   * Removing the first ".pdf" from `base + ".pdf"` gives back `base` when
   * `base` holds no ".pdf" of its own: no occurrence can straddle the seam,
   * because no proper prefix of ".pdf" is also a suffix of it.
   */
  lemma StripPdfExtension(base: string)
    requires !Contains(base, ".pdf")
    ensures ReplaceFirst(base + ".pdf", ".pdf", "") == base
  {
    var s := base + ".pdf";
    var n := |base|;
    assert OccursAt(s, ".pdf", n) by { assert s[n..n + 4] == ".pdf"; }
    forall k | 0 <= k < n
      ensures !OccursAt(s, ".pdf", k)
    {
      if k + 4 <= n {
        assert s[k..k + 4] == base[k..k + 4];
        assert !OccursAt(base, ".pdf", k);
      } else {
        assert s[n] == '.';
      }
    }
    match IndexOf(s, ".pdf")
    case Some(k) =>
      assert k == n;
      assert s[..n] == base;
    case None =>
      assert false;
  }
}
