/**
 * The host's view of version-control roots, as far as the listener reads or
 * changes it: the repository a root points at, the build types that use
 * root instances, and the modification-check interval of a registered root.
 */
module Vcs {
  import opened Wrappers

  /**
   * The repository a URL or a root resolves to (VcsRootGitHubInfo).
   * Equality is structural, as the listener's `==` comparisons use it.
   */
  datatype GitHubInfo = GitHubInfo(server: string, owner: string, name: string)

  /**
   * A VCS root instance (VcsRootInstance). Two instances are the same when
   * all their fields are equal; `id` stands for the host's identity.
   * `info` is what the host's URL parser derives from the root (None for a
   * root that is not a GitHub repository).
   */
  datatype RootInstance = RootInstance(id: int, parentExternalId: string, info: Option<GitHubInfo>)

  /** A build configuration: whether its project is archived, and the VCS root instances it uses. */
  datatype BuildType = BuildType(projectArchived: bool, vcsRootInstances: seq<RootInstance>)

  /** TimeUnit.HOURS.toSeconds(12).toInt(): twelve hours in seconds. */
  const TwelveHours: int := 12 * 60 * 60

  /** A registered root's polling setting: the default interval, or an explicit number of seconds. */
  datatype CheckInterval = CheckInterval(useDefault: bool, seconds: int)

  /** A setting that already polls no more often than every twelve hours. */
  predicate IsRelaxed(c: CheckInterval) {
    !c.useDefault && c.seconds >= TwelveHours
  }

  /**
   * The setting a matching root has after setModificationCheckInterval:
   * a relaxed setting is kept, any other (default, or below twelve hours)
   * becomes exactly twelve hours.
   */
  function Raised(c: CheckInterval): (r: CheckInterval)
    ensures IsRelaxed(r)
    ensures IsRelaxed(c) ==> r == c
    ensures !IsRelaxed(c) ==> r.seconds == TwelveHours
    ensures !c.useDefault ==> r.seconds >= c.seconds
  {
    if c.useDefault || c.seconds < TwelveHours then CheckInterval(false, TwelveHours) else c
  }

  /** Raising twice is raising once. */
  lemma RaisedIdempotent(c: CheckInterval)
    ensures Raised(Raised(c)) == Raised(c)
  {
  }

  /**
   * A registered VCS root (SVcsRoot) whose polling interval the listener
   * updates in place.
   */
  class VcsRoot {
    const info: Option<GitHubInfo>
    var useDefaultInterval: bool
    var interval: int

    constructor (info: Option<GitHubInfo>, useDefaultInterval: bool, interval: int)
      ensures this.info == info
      ensures this.useDefaultInterval == useDefaultInterval && this.interval == interval
    {
      this.info := info;
      this.useDefaultInterval := useDefaultInterval;
      this.interval := interval;
    }

    /** The root's current polling setting. */
    function Setting(): CheckInterval
      reads this
    {
      CheckInterval(useDefaultInterval, interval)
    }

    /**
     * The host's setter for modificationCheckInterval: it stores an explicit
     * interval, so the root no longer uses the default.
     */
    method SetModificationCheckInterval(seconds: int)
      modifies this
      ensures Setting() == CheckInterval(false, seconds)
    {
      interval := seconds;
      useDefaultInterval := false;
    }
  }
}
