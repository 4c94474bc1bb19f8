/**
 * The webhook endpoint (GitHubWebHookListener): routes a GitHub delivery by
 * its event-type header, handles ping and push deliveries, records
 * bookkeeping on the hooks manager, schedules modification checks and
 * relaxes the polling interval of roots that now receive hooks.
 */
module Listener {
  import opened Wrappers
  import opened Vcs
  import opened HookPath
  import opened RootSelection

  /** HttpServletResponse status codes the listener sets. */
  const Accepted: int := 202
  const BadRequest: int := 400
  const ServiceUnavailable: int := 503

  /**
   * The parts of a decoded payload the handlers read; every one may be null.
   * Only whether `hook` is present matters; its `url` is kept to mirror the
   * `payload.hook.url` that the ping handler's log line reads.
   */
  datatype Hook = Hook(url: Option<string>)
  datatype Repository = Repository(gitUrl: Option<string>)
  datatype Payload = Payload(
    hook: Option<Hook>,             // ping: hook
    repository: Option<Repository>, // ping and push: repository
    ref: Option<string>,            // push: ref
    after: Option<string>)          // push: after

  /**
   * A delivery: the X-GitHub-Event header, the request path (already
   * stripped of its authentication-type prefix) and the body as the JSON
   * decoder returns it; None when decoding throws or yields null.
   */
  datatype Request = Request(eventType: Option<string>, path: string, body: Option<Payload>)

  /** A collaborator call that throws in a given run. */
  datatype Step = LastUsedStep | BranchesStep | ScheduleStep

  /** How a handler ends: with a status, or by throwing. */
  datatype Outcome = Returned(status: int) | Thrown

  /** The bookkeeping a delivery completes, in order. */
  datatype Action =
    | UpdateLastUsed(info: GitHubInfo)
    | UpdateBranches(info: GitHubInfo, revisions: map<Option<string>, Option<string>>)
    | RaiseCheckIntervals(info: GitHubInfo)
    | ScheduleCheck(info: GitHubInfo, vcsRootId: Option<string>)

  /** What doHandle decides for a delivery: the response status and the completed actions. */
  datatype Response = Response(status: int, actions: seq<Action>)

  /** Calls made on WebHooksManager and VcsModificationChecker, as they appear in the call log. */
  datatype Call =
    | LastUsedUpdated(info: GitHubInfo, time: int)
    | BranchRevisionsUpdated(info: GitHubInfo, revisions: map<Option<string>, Option<string>>)
    | ModificationCheckRequested(roots: seq<RootInstance>)

  // PingPlan, PushPlan and HandlePlan below are the handlers' specification as pure
  // functions; the methods of GitHubWebHookListener are their imperative counterparts.

  /** The first guards of both handlers: the repository URL is missing, does not parse, or gives `info`. */
  datatype Resolution = NoUrl | Unresolved | Resolved(info: GitHubInfo)

  function Resolve(p: Payload, parseUrl: string -> Option<GitHubInfo>): Resolution {
    if p.repository.None? || p.repository.value.gitUrl.None? then NoUrl
    else match parseUrl(p.repository.value.gitUrl.value)
      case None => Unresolved
      case Some(info) => Resolved(info)
  }

  /**
   * doHandlePingEvent. The log line reads payload.hook.url, so a payload
   * without a hook throws before any guard.
   */
  function PingPlan(p: Payload, parseUrl: string -> Option<GitHubInfo>, failing: Option<Step>): (Outcome, seq<Action>) {
    if p.hook.None? then (Thrown, [])
    else match Resolve(p, parseUrl)
      case NoUrl => (Returned(BadRequest), [])
      case Unresolved => (Returned(ServiceUnavailable), [])
      case Resolved(info) =>
        if failing == Some(LastUsedStep) then (Thrown, [])
        else (Returned(Accepted), [UpdateLastUsed(info), RaiseCheckIntervals(info)])
  }

  /** The revisions a push records: the single pair ref -> after. */
  function PushedRevisions(p: Payload): map<Option<string>, Option<string>> {
    map[p.ref := p.after]
  }

  /** doHandlePushEvent; a throwing collaborator leaves the actions before it completed. */
  function PushPlan(p: Payload, vcsRootId: Option<string>, parseUrl: string -> Option<GitHubInfo>, failing: Option<Step>)
    : (Outcome, seq<Action>)
  {
    match Resolve(p, parseUrl)
    case NoUrl => (Returned(BadRequest), [])
    case Unresolved => (Returned(ServiceUnavailable), [])
    case Resolved(info) =>
      var all := [UpdateLastUsed(info), UpdateBranches(info, PushedRevisions(p)), ScheduleCheck(info, vcsRootId)];
      match failing
      case None => (Returned(Accepted), all)
      case Some(LastUsedStep) => (Thrown, [])
      case Some(BranchesStep) => (Thrown, all[..1])
      case Some(ScheduleStep) => (Thrown, all[..2])
  }

  /** The try/catch of doHandle: a thrown exception becomes 503. */
  function Caught(handled: (Outcome, seq<Action>)): Response {
    Response(if handled.0.Thrown? then ServiceUnavailable else handled.0.status, handled.1)
  }

  /** doHandle: what a delivery yields. */
  function HandlePlan(request: Request, parseUrl: string -> Option<GitHubInfo>, failing: Option<Step>): Response {
    match request.eventType
    case None => Response(BadRequest, [])
    case Some(eventType) =>
      if eventType == "ping" then
        Caught(if request.body.None? then (Thrown, []) else PingPlan(request.body.value, parseUrl, failing))
      else if eventType == "push" then
        Caught(if request.body.None? then (Thrown, [])
               else PushPlan(request.body.value, VcsRootIdOf(request.path), parseUrl, failing))
      else Response(Accepted, [])
  }

  /**
   * `log` is what carrying out `actions` at time `now` appends to the call
   * log: raising intervals changes roots and logs nothing; a scheduled check
   * receives a selection of the suitable instances of `bts`.
   */
  ghost predicate Records(log: seq<Call>, actions: seq<Action>, now: int, bts: seq<BuildType>)
    decreases actions
  {
    if actions == [] then log == []
    else match actions[0]
      case RaiseCheckIntervals(_) => Records(log, actions[1..], now, bts)
      case UpdateLastUsed(info) =>
        log != [] && log[0] == LastUsedUpdated(info, now) && Records(log[1..], actions[1..], now, bts)
      case UpdateBranches(info, revisions) =>
        log != [] && log[0] == BranchRevisionsUpdated(info, revisions) && Records(log[1..], actions[1..], now, bts)
      case ScheduleCheck(info, vcsRootId) =>
        log != [] && log[0].ModificationCheckRequested? && IsSelection(log[0].roots, bts, info, vcsRootId)
        && Records(log[1..], actions[1..], now, bts)
  }

  /** `actions` raise the polling interval of roots that resolve to `info`. */
  predicate RaisesFor(actions: seq<Action>, info: Option<GitHubInfo>) {
    info.Some? && RaiseCheckIntervals(info.value) in actions
  }

  /**
   * The listener with its collaborators: the URL parser (Util.getGitHubInfo),
   * the build types (ProjectManager.allBuildTypes), the registered roots
   * (VcsManager.allRegisteredVcsRoots) and the log of calls made on the
   * hooks manager and the modification checker.
   */
  class GitHubWebHookListener {
    const parseUrl: string -> Option<GitHubInfo>
    const buildTypes: seq<BuildType>
    const registeredRoots: seq<VcsRoot>
    var calls: seq<Call>

    constructor (parseUrl: string -> Option<GitHubInfo>, buildTypes: seq<BuildType>, registeredRoots: seq<VcsRoot>)
      ensures this.parseUrl == parseUrl && this.buildTypes == buildTypes && this.registeredRoots == registeredRoots
      ensures calls == []
    {
      this.parseUrl := parseUrl;
      this.buildTypes := buildTypes;
      this.registeredRoots := registeredRoots;
      calls := [];
    }

    /**
     * doHandle: answers a delivery with the status HandlePlan gives, appends
     * the calls its actions make and raises the intervals its actions name.
     */
    method DoHandle(request: Request, now: int, failing: Option<Step>) returns (status: int)
      modifies this, registeredRoots
      ensures status == HandlePlan(request, parseUrl, failing).status
      ensures |old(calls)| <= |calls| && calls[..|old(calls)|] == old(calls)
      ensures Records(calls[|old(calls)|..], HandlePlan(request, parseUrl, failing).actions, now, buildTypes)
      ensures forall r :: r in registeredRoots ==>
        r.Setting() == if RaisesFor(HandlePlan(request, parseUrl, failing).actions, r.info)
                       then Raised(old(r.Setting())) else old(r.Setting())
    {
      if request.eventType.None? {
        status := BadRequest;
        assert calls[|old(calls)|..] == [];
        return;
      }
      var eventType := request.eventType.value;
      var vcsRootId := VcsRootIdOf(request.path);
      var outcome: Outcome;
      if eventType == "ping" {
        if request.body.None? {
          outcome := Thrown;
          assert calls[|old(calls)|..] == [];
        } else {
          outcome := DoHandlePingEvent(request.body.value, now, failing);
        }
      } else if eventType == "push" {
        if request.body.None? {
          outcome := Thrown;
          assert calls[|old(calls)|..] == [];
        } else {
          outcome := DoHandlePushEvent(request.body.value, vcsRootId, now, failing);
        }
      } else {
        outcome := Returned(Accepted);
        assert calls[|old(calls)|..] == [];
      }
      status := if outcome.Thrown? then ServiceUnavailable else outcome.status;
    }

    /** doHandlePingEvent. */
    method DoHandlePingEvent(p: Payload, now: int, failing: Option<Step>) returns (outcome: Outcome)
      modifies this, registeredRoots
      ensures outcome == PingPlan(p, parseUrl, failing).0
      ensures |old(calls)| <= |calls| && calls[..|old(calls)|] == old(calls)
      ensures Records(calls[|old(calls)|..], PingPlan(p, parseUrl, failing).1, now, buildTypes)
      ensures forall r :: r in registeredRoots ==>
        r.Setting() == if RaisesFor(PingPlan(p, parseUrl, failing).1, r.info)
                       then Raised(old(r.Setting())) else old(r.Setting())
    {
      if p.hook.None? {
        outcome := Thrown;
        assert calls[|old(calls)|..] == [];
        return;
      }
      var url := if p.repository.None? then None else p.repository.value.gitUrl;
      if url.None? {
        outcome := Returned(BadRequest);
        assert calls[|old(calls)|..] == [];
        return;
      }
      var info := parseUrl(url.value);
      if info.None? {
        outcome := Returned(ServiceUnavailable);
        assert calls[|old(calls)|..] == [];
        return;
      }
      var thrown := UpdateLastUsedCall(info.value, now, failing);
      if thrown {
        outcome := Thrown;
        assert calls[|old(calls)|..] == [];
        return;
      }
      SetModificationCheckInterval(info.value);
      outcome := Returned(Accepted);
      assert calls[|old(calls)|..] == [LastUsedUpdated(info.value, now)];
    }

    /** doHandlePushEvent. */
    method DoHandlePushEvent(p: Payload, vcsRootId: Option<string>, now: int, failing: Option<Step>)
      returns (outcome: Outcome)
      modifies this
      ensures outcome == PushPlan(p, vcsRootId, parseUrl, failing).0
      ensures |old(calls)| <= |calls| && calls[..|old(calls)|] == old(calls)
      ensures Records(calls[|old(calls)|..], PushPlan(p, vcsRootId, parseUrl, failing).1, now, buildTypes)
    {
      var url := if p.repository.None? then None else p.repository.value.gitUrl;
      if url.None? {
        outcome := Returned(BadRequest);
        assert calls[|old(calls)|..] == [];
        return;
      }
      var info := parseUrl(url.value);
      if info.None? {
        outcome := Returned(ServiceUnavailable);
        assert calls[|old(calls)|..] == [];
        return;
      }
      var thrown := UpdateLastUsedCall(info.value, now, failing);
      if thrown {
        outcome := Thrown;
        assert calls[|old(calls)|..] == [];
        return;
      }
      var logged0 := [LastUsedUpdated(info.value, now)];
      thrown := UpdateBranchesCall(info.value, p, failing);
      if thrown {
        outcome := Thrown;
        assert calls[|old(calls)|..] == logged0;
        return;
      }
      var logged1 := logged0 + [BranchRevisionsUpdated(info.value, PushedRevisions(p))];
      var found := FindSuitableVcsRootInstances(buildTypes, info.value, vcsRootId);
      SelectionOfFound(found, buildTypes, info.value, vcsRootId);
      thrown := ScheduleCheckCall(found, failing);
      if thrown {
        outcome := Thrown;
        assert calls[|old(calls)|..] == logged1;
        return;
      }
      outcome := Returned(Accepted);
      var log := calls[|old(calls)|..];
      var actions := PushPlan(p, vcsRootId, parseUrl, failing).1;
      assert log == logged1 + [ModificationCheckRequested(found)];
      assert Records(log[2..], actions[2..], now, buildTypes) by {
        assert log[2..][1..] == [] && actions[2..][1..] == [];
      }
      assert Records(log[1..], actions[1..], now, buildTypes) by {
        assert log[1..][1..] == log[2..] && actions[1..][1..] == actions[2..];
      }
    }

    /** updateLastUsed: WebHooksManager.updateLastUsed(info, now). */
    method UpdateLastUsedCall(info: GitHubInfo, now: int, failing: Option<Step>) returns (thrown: bool)
      modifies this
      ensures thrown == (failing == Some(LastUsedStep))
      ensures calls == if thrown then old(calls) else old(calls) + [LastUsedUpdated(info, now)]
    {
      thrown := failing == Some(LastUsedStep);
      if !thrown {
        calls := calls + [LastUsedUpdated(info, now)];
      }
    }

    /** updateBranches: WebHooksManager.updateBranchRevisions(info, mapOf(ref to after)). */
    method UpdateBranchesCall(info: GitHubInfo, p: Payload, failing: Option<Step>) returns (thrown: bool)
      modifies this
      ensures thrown == (failing == Some(BranchesStep))
      ensures calls == if thrown then old(calls) else old(calls) + [BranchRevisionsUpdated(info, PushedRevisions(p))]
    {
      thrown := failing == Some(BranchesStep);
      if !thrown {
        calls := calls + [BranchRevisionsUpdated(info, PushedRevisions(p))];
      }
    }

    /** doScheduleCheckForPendingChanges: VcsModificationChecker.checkForModificationsAsync(roots). */
    method ScheduleCheckCall(roots: seq<RootInstance>, failing: Option<Step>) returns (thrown: bool)
      modifies this
      ensures thrown == (failing == Some(ScheduleStep))
      ensures calls == if thrown then old(calls) else old(calls) + [ModificationCheckRequested(roots)]
    {
      thrown := failing == Some(ScheduleStep);
      if !thrown {
        calls := calls + [ModificationCheckRequested(roots)];
      }
    }

    /**
     * setModificationCheckInterval: every registered root that resolves to
     * `info` gets the Raised setting; every other root keeps its own.
     */
    method SetModificationCheckInterval(info: GitHubInfo)
      modifies registeredRoots
      ensures forall r :: r in registeredRoots ==>
        r.Setting() == if r.info == Some(info) then Raised(old(r.Setting())) else old(r.Setting())
    {
      var roots := Matching(registeredRoots, info);
      ghost var done: set<VcsRoot> := {};
      var i := 0;
      while i < |roots|
        invariant 0 <= i <= |roots|
        invariant forall j :: 0 <= j < i ==> roots[j] in done
        invariant forall r :: r in done ==> r.info == Some(info)
        invariant forall r :: r in registeredRoots ==>
          r.Setting() == if r in done then Raised(old(r.Setting())) else old(r.Setting())
      {
        var root := roots[i];
        var value := TwelveHours;
        if root.useDefaultInterval || root.interval < value {
          root.SetModificationCheckInterval(value);
        }
        RaisedIdempotent(old(root.Setting()));
        done := done + {root};
        i := i + 1;
      }
    }
  }

  /** The delivery reaches the repository-URL guards of its handler. */
  predicate ReachesUrlGuard(request: Request) {
    request.body.Some? &&
    (request.eventType == Some("push") || (request.eventType == Some("ping") && request.body.value.hook.Some?))
  }

  /** A missing X-GitHub-Event header gives 400 and no bookkeeping. */
  lemma MissingHeaderIsBadRequest(request: Request, parseUrl: string -> Option<GitHubInfo>, failing: Option<Step>)
    requires request.eventType.None?
    ensures HandlePlan(request, parseUrl, failing) == Response(BadRequest, [])
  {
  }

  /** An event other than ping or push is accepted and ignored. */
  lemma UnknownEventIsIgnored(request: Request, parseUrl: string -> Option<GitHubInfo>, failing: Option<Step>)
    requires request.eventType.Some? && request.eventType.value != "ping" && request.eventType.value != "push"
    ensures HandlePlan(request, parseUrl, failing) == Response(Accepted, [])
  {
  }

  /** A ping or push whose body cannot be decoded fails with 503 and changes nothing. */
  lemma UndecodableBodyIsUnavailable(request: Request, parseUrl: string -> Option<GitHubInfo>, failing: Option<Step>)
    requires request.eventType == Some("ping") || request.eventType == Some("push")
    requires request.body.None?
    ensures HandlePlan(request, parseUrl, failing) == Response(ServiceUnavailable, [])
  {
  }

  /** A ping or push without a repository URL gives 400 and changes nothing. */
  lemma MissingUrlIsBadRequest(request: Request, parseUrl: string -> Option<GitHubInfo>, failing: Option<Step>)
    requires ReachesUrlGuard(request) && Resolve(request.body.value, parseUrl) == NoUrl
    ensures HandlePlan(request, parseUrl, failing) == Response(BadRequest, [])
  {
  }

  /** A ping or push whose repository URL does not parse gives 503 and changes nothing. */
  lemma UnparseableUrlIsUnavailable(request: Request, parseUrl: string -> Option<GitHubInfo>, failing: Option<Step>)
    requires ReachesUrlGuard(request) && Resolve(request.body.value, parseUrl) == Unresolved
    ensures HandlePlan(request, parseUrl, failing) == Response(ServiceUnavailable, [])
  {
  }

  /**
   * A push that resolves and meets no exception updates lastUsed, records
   * the single pair ref -> after, schedules the selection narrowed by the
   * path's root id, and gives 202.
   */
  lemma PushAccepted(request: Request, parseUrl: string -> Option<GitHubInfo>, info: GitHubInfo)
    requires request.eventType == Some("push") && request.body.Some?
    requires Resolve(request.body.value, parseUrl) == Resolved(info)
    ensures HandlePlan(request, parseUrl, None) ==
      Response(Accepted, [UpdateLastUsed(info),
                          UpdateBranches(info, map[request.body.value.ref := request.body.value.after]),
                          ScheduleCheck(info, VcsRootIdOf(request.path))])
  {
  }

  /** A ping that resolves and meets no exception updates lastUsed, raises intervals and gives 202. */
  lemma PingAccepted(request: Request, parseUrl: string -> Option<GitHubInfo>, info: GitHubInfo)
    requires request.eventType == Some("ping") && request.body.Some? && request.body.value.hook.Some?
    requires Resolve(request.body.value, parseUrl) == Resolved(info)
    ensures HandlePlan(request, parseUrl, None) == Response(Accepted, [UpdateLastUsed(info), RaiseCheckIntervals(info)])
  {
  }

  /**
   * An exception anywhere in processing gives 503: a ping without a hook
   * throws in its log line; a collaborator call that is reached and throws
   * turns the status into 503; and the actions completed before it are a
   * prefix of those of the same delivery without the exception.
   */
  lemma ExceptionIsUnavailable(request: Request, parseUrl: string -> Option<GitHubInfo>, failing: Option<Step>)
    ensures request.eventType == Some("ping") && request.body.Some? && request.body.value.hook.None? ==>
      HandlePlan(request, parseUrl, failing) == Response(ServiceUnavailable, [])
    ensures (ReachesUrlGuard(request) && Resolve(request.body.value, parseUrl).Resolved? &&
             (failing == Some(LastUsedStep) || (request.eventType == Some("push") && failing.Some?))) ==>
      HandlePlan(request, parseUrl, failing).status == ServiceUnavailable
    ensures HandlePlan(request, parseUrl, failing).actions <= HandlePlan(request, parseUrl, None).actions
    ensures HandlePlan(request, parseUrl, failing) != HandlePlan(request, parseUrl, None) ==>
      HandlePlan(request, parseUrl, failing).status == ServiceUnavailable
  {
  }

  /** Every status is 202, 400 or 503, and only 202 or 503 come with bookkeeping. */
  lemma StatusCodes(request: Request, parseUrl: string -> Option<GitHubInfo>, failing: Option<Step>)
    ensures HandlePlan(request, parseUrl, failing).status in {Accepted, BadRequest, ServiceUnavailable}
    ensures HandlePlan(request, parseUrl, failing).status == BadRequest ==> HandlePlan(request, parseUrl, failing).actions == []
  {
  }

  /**
   * Bookkeeping happens only for a ping or push whose repository URL
   * resolves, and it starts with lastUsed for that repository.
   */
  lemma BookkeepingNeedsRepository(request: Request, parseUrl: string -> Option<GitHubInfo>, failing: Option<Step>)
    requires HandlePlan(request, parseUrl, failing).actions != []
    ensures ReachesUrlGuard(request) && Resolve(request.body.value, parseUrl).Resolved?
    ensures HandlePlan(request, parseUrl, failing).actions[0] == UpdateLastUsed(Resolve(request.body.value, parseUrl).info)
  {
  }

  /** The calls an accepted push leaves in the log: exactly three, the last a selection of suitable instances. */
  lemma {:induction false} PushLog(log: seq<Call>, info: GitHubInfo, revisions: map<Option<string>, Option<string>>,
                                   vcsRootId: Option<string>, now: int, bts: seq<BuildType>)
    requires Records(log, [UpdateLastUsed(info), UpdateBranches(info, revisions), ScheduleCheck(info, vcsRootId)], now, bts)
    ensures |log| == 3
    ensures log[0] == LastUsedUpdated(info, now) && log[1] == BranchRevisionsUpdated(info, revisions)
    ensures log[2].ModificationCheckRequested? && IsSelection(log[2].roots, bts, info, vcsRootId)
  {
    var actions := [UpdateLastUsed(info), UpdateBranches(info, revisions), ScheduleCheck(info, vcsRootId)];
    assert Records(log[1..], actions[1..], now, bts);
    assert actions[1..][1..] == actions[2..];
    assert Records(log[1..][1..], actions[2..], now, bts);
    assert actions[2..][1..] == [];
    assert Records(log[1..][1..][1..], [], now, bts);
  }

  /** The calls an accepted ping leaves in the log: the lastUsed update alone. */
  lemma {:induction false} PingLog(log: seq<Call>, info: GitHubInfo, now: int, bts: seq<BuildType>)
    requires Records(log, [UpdateLastUsed(info), RaiseCheckIntervals(info)], now, bts)
    ensures log == [LastUsedUpdated(info, now)]
  {
    var actions := [UpdateLastUsed(info), RaiseCheckIntervals(info)];
    assert actions[1..][1..] == [];
    assert Records(log[1..], actions[1..], now, bts);
    assert Records(log[1..], [], now, bts);
  }

  /**
   * Two instances of one repository, the first under root "root1": a push
   * to "/app/hooks/github/root1" selects only that one.
   */
  lemma RootIdScenario(info: GitHubInfo, a: RootInstance, b: RootInstance)
    requires a.info == Some(info) && b.info == Some(info)
    requires a.parentExternalId == "root1" && b.parentExternalId == "root2"
    ensures Suitable([BuildType(false, [a, b])], info, VcsRootIdOf(HooksPath + "/root1")) == {a}
  {
    RootIdAfterPrefix("", "root1");
    assert "" + Marker + "root1" == HooksPath + "/root1";
    var bts := [BuildType(false, [a, b])];
    assert bts[..0] == [];
    assert Pooled(bts) == {a, b};
  }

  /** The registered roots that resolve to `info`, in registration order. */
  function Matching(roots: seq<VcsRoot>, info: GitHubInfo): (m: seq<VcsRoot>)
    ensures forall i :: 0 <= i < |m| ==> m[i] in roots && m[i].info == Some(info)
    ensures forall i :: 0 <= i < |roots| && roots[i].info == Some(info) ==> roots[i] in m
  {
    if roots == [] then []
    else (if roots[0].info == Some(info) then [roots[0]] else []) + Matching(roots[1..], info)
  }
}
