/**
 * The webhook endpoint's path and the optional VCS root id that a delivery
 * may carry after it (GitHubWebHookListener.doHandle).
 */
module HookPath {
  import opened Wrappers

  /** The path the listener is registered under (companion object PATH). */
  const HooksPath: string := "/app/hooks/github"

  /** What doHandle searches the request path for: PATH followed by a slash. */
  const Marker: string := HooksPath + "/"

  /** `pat` occurs in `s` starting at index `i`. */
  predicate OccursAt(s: string, pat: string, i: int) {
    0 <= i <= |s| - |pat| && s[i..i + |pat|] == pat
  }

  /** `i` is the first index at which `pat` occurs in `s`. */
  predicate FirstOccurrence(s: string, pat: string, i: int) {
    OccursAt(s, pat, i) && forall j :: 0 <= j < i ==> !OccursAt(s, pat, j)
  }

  /**
   * Kotlin's String.indexOf(String): the index of the first occurrence of
   * `pat` in `s`, or -1 when there is none.
   */
  function IndexOf(s: string, pat: string): (r: int)
    ensures r == -1 || FirstOccurrence(s, pat, r)
    ensures r == -1 <==> forall j :: 0 <= j <= |s| - |pat| ==> !OccursAt(s, pat, j)
    decreases |s|
  {
    if |s| < |pat| then -1
    else if s[..|pat|] == pat then 0
    else
      var k := IndexOf(s[1..], pat);
      assert forall j :: 1 <= j <= |s| - |pat| ==> (OccursAt(s, pat, j) <==> OccursAt(s[1..], pat, j - 1));
      if k == -1 then -1 else k + 1
  }

  /**
   * The VCS root id carried by a request path: everything after the first
   * occurrence of "/app/hooks/github/", or None when the path has none.
   */
  function VcsRootIdOf(path: string): (id: Option<string>)
    ensures id.None? <==> forall j :: 0 <= j <= |path| - |Marker| ==> !OccursAt(path, Marker, j)
    ensures id.Some? ==> exists i :: FirstOccurrence(path, Marker, i) && id.value == path[i + |Marker|..]
  {
    var k := IndexOf(path, Marker);
    if k == -1 then None
    else
      assert FirstOccurrence(path, Marker, k);
      Some(path[k + |Marker|..])
  }

  /**
   * A delivery to "<prefix>/app/hooks/github/<id>" carries exactly `id`,
   * provided the marker does not already occur inside the prefix.
   */
  lemma {:induction false} RootIdAfterPrefix(prefix: string, id: string)
    requires forall j :: 0 <= j < |prefix| ==> !OccursAt(prefix + Marker, Marker, j)
    ensures VcsRootIdOf(prefix + Marker + id) == Some(id)
  {
    var path := prefix + Marker + id;
    assert OccursAt(path, Marker, |prefix|) by {
      assert path[|prefix|..|prefix| + |Marker|] == Marker;
    }
    forall j | 0 <= j < |prefix|
      ensures !OccursAt(path, Marker, j)
    {
      assert !OccursAt(prefix + Marker, Marker, j);
      assert path[j..j + |Marker|] == (prefix + Marker)[j..j + |Marker|];
    }
    assert FirstOccurrence(path, Marker, |prefix|);
    assert path[|prefix| + |Marker|..] == id;
  }

  /** The bare endpoint "/app/hooks/github" carries no root id. */
  lemma BarePathHasNoRootId()
    ensures VcsRootIdOf(HooksPath) == None
  {
  }
}
