/**
 * Which VCS root instances a push delivery schedules a modification check
 * for (GitHubWebHookListener.findSuitableVcsRootInstances).
 */
module RootSelection {
  import opened Wrappers
  import opened Vcs

  /**
   * The instances of every build type in `bts` whose project is not
   * archived: the HashSet the source fills, one build type at a time.
   */
  function Pooled(bts: seq<BuildType>): set<RootInstance>
    decreases |bts|
  {
    if bts == [] then {}
    else
      var bt := bts[|bts| - 1];
      Pooled(bts[..|bts| - 1]) + if bt.projectArchived then {} else set x | x in bt.vcsRootInstances
  }

  /** `x` is used by some build type of `bts` whose project is not archived. */
  predicate InLiveBuildType(bts: seq<BuildType>, x: RootInstance) {
    exists i :: 0 <= i < |bts| && !bts[i].projectArchived && x in bts[i].vcsRootInstances
  }

  /** The pool holds exactly the instances of build types in projects that are not archived. */
  lemma {:induction false} PooledMembers(bts: seq<BuildType>, x: RootInstance)
    ensures x in Pooled(bts) <==> InLiveBuildType(bts, x)
    decreases |bts|
  {
    if bts != [] {
      var n := |bts| - 1;
      var front := bts[..n];
      PooledMembers(front, x);
      if InLiveBuildType(front, x) {
        var i :| 0 <= i < |front| && !front[i].projectArchived && x in front[i].vcsRootInstances;
        assert bts[i] == front[i];
      }
      if InLiveBuildType(bts, x) && !(!bts[n].projectArchived && x in bts[n].vcsRootInstances) {
        var i :| 0 <= i < |bts| && !bts[i].projectArchived && x in bts[i].vcsRootInstances;
        assert i < n && front[i] == bts[i];
      }
    }
  }

  /**
   * The final filter: the instance resolves to the delivery's repository and,
   * when the request path named a root id, its parent root has that external id.
   */
  predicate Qualifies(x: RootInstance, info: GitHubInfo, vcsRootId: Option<string>) {
    x.info == Some(info) && (vcsRootId.None? || x.parentExternalId == vcsRootId.value)
  }

  /** The set of instances a push for `info` (narrowed by `vcsRootId`) must reach. */
  function Suitable(bts: seq<BuildType>, info: GitHubInfo, vcsRootId: Option<string>): set<RootInstance> {
    set x | x in Pooled(bts) && Qualifies(x, info, vcsRootId)
  }

  predicate NoDuplicates(xs: seq<RootInstance>) {
    forall i, j :: 0 <= i < j < |xs| ==> xs[i] != xs[j]
  }

  /**
   * A list the scheduler may receive for `bts`, `info` and `vcsRootId`: each
   * suitable instance exactly once, in any order.
   */
  ghost predicate IsSelection(found: seq<RootInstance>, bts: seq<BuildType>, info: GitHubInfo, vcsRootId: Option<string>) {
    NoDuplicates(found) && forall x :: x in found <==> x in Suitable(bts, info, vcsRootId)
  }

  /**
   * findSuitableVcsRootInstances: pool the instances of the build types of
   * projects that are not archived, then keep those that qualify. The pool
   * is a hash set, so the result comes in no particular order.
   */
  method FindSuitableVcsRootInstances(bts: seq<BuildType>, info: GitHubInfo, vcsRootId: Option<string>)
    returns (found: seq<RootInstance>)
    ensures NoDuplicates(found)
    ensures forall x :: x in found <==> InLiveBuildType(bts, x) && Qualifies(x, info, vcsRootId)
  {
    var roots: set<RootInstance> := {};
    var i := 0;
    while i < |bts|
      invariant 0 <= i <= |bts|
      invariant roots == Pooled(bts[..i])
    {
      if !bts[i].projectArchived {
        roots := roots + set x | x in bts[i].vcsRootInstances;
      }
      assert bts[..i + 1][..i] == bts[..i];
      i := i + 1;
    }
    assert bts[..i] == bts;

    found := [];
    var rest := roots;
    while rest != {}
      invariant rest <= roots
      invariant NoDuplicates(found)
      invariant forall x :: x in found <==> x in roots - rest && Qualifies(x, info, vcsRootId)
      decreases rest
    {
      var x :| x in rest;
      if Qualifies(x, info, vcsRootId) {
        found := found + [x];
      }
      rest := rest - {x};
    }
    forall x
      ensures x in found <==> InLiveBuildType(bts, x) && Qualifies(x, info, vcsRootId)
    {
      PooledMembers(bts, x);
    }
  }

  /** The method's result is one of the lists IsSelection admits. */
  lemma SelectionOfFound(found: seq<RootInstance>, bts: seq<BuildType>, info: GitHubInfo, vcsRootId: Option<string>)
    requires NoDuplicates(found)
    requires forall x :: x in found <==> InLiveBuildType(bts, x) && Qualifies(x, info, vcsRootId)
    ensures IsSelection(found, bts, info, vcsRootId)
  {
    forall x ensures x in Pooled(bts) <==> InLiveBuildType(bts, x) {
      PooledMembers(bts, x);
    }
  }

  /** An instance that only archived projects use is never scheduled. */
  lemma ArchivedOnlyNeverSuitable(bts: seq<BuildType>, x: RootInstance, info: GitHubInfo, vcsRootId: Option<string>)
    requires forall i :: 0 <= i < |bts| && x in bts[i].vcsRootInstances ==> bts[i].projectArchived
    ensures x !in Suitable(bts, info, vcsRootId)
  {
    PooledMembers(bts, x);
  }

  /** Naming a root id narrows the selection; it never adds an instance. */
  lemma NarrowingByRootId(bts: seq<BuildType>, info: GitHubInfo, id: string)
    ensures Suitable(bts, info, Some(id)) <= Suitable(bts, info, None)
    ensures forall x :: x in Suitable(bts, info, Some(id)) ==> x.parentExternalId == id
  {
  }
}
