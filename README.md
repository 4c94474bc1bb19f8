# GitHub webhook listener: a Dafny model

This project models the webhook endpoint of a TeamCity plugin that reacts to
GitHub deliveries (`GitHubWebHookListener`). A delivery is a POST to
`/app/hooks/github` or `/app/hooks/github/<vcsRootId>` carrying an
`X-GitHub-Event` header. The listener does the following:

- It answers 400 when the header is missing.
- It takes the optional VCS root id from the path: everything after the
  first occurrence of `/app/hooks/github/`.
- A `ping` updates the hook's last-used time. Then every registered VCS root
  of the same repository gets a polling interval of at least twelve hours.
- A `push` updates the last-used time and records the pushed `ref -> after`
  pair. It then asks the modification checker to poll the suitable root
  instances. Those are the instances used by build types of projects that are
  not archived. Each must resolve to the pushed repository and, when the path
  named a root id, have a parent root with that external id.
- Any other event is accepted (202) and ignored.
- A missing repository URL gives 400. A URL the host cannot parse gives 503.
  Any exception gives 503.

Files:

- `wrappers.dfy`: `Option`, which stands for Kotlin's nullable types.
- `hook_path.dfy` (module `HookPath`): Kotlin's `String.indexOf` and the root
  id taken from the path.
- `vcs.dfy` (module `Vcs`): repository info, root instances, build types, and
  registered roots (a class, since their interval is set in place). It also
  holds the twelve-hour raise.
- `root_selection.dfy` (module `RootSelection`): `findSuitableVcsRootInstances`
  as a method. One loop fills the hash set over the build types. A second
  loop filters it, in no particular order. Beside it sit a recursive
  specification of the pool and the lemmas about it.
- `listener.dfy` (module `Listener`): the request, payload and call-log
  datatypes. `HandlePlan` is a pure function giving the status and the
  ordered bookkeeping actions of a delivery. The class
  `GitHubWebHookListener` has the handlers as methods proved against
  `HandlePlan`. The property lemmas come last.

Collaborators become parameters or state:

- `Util.getGitHubInfo(url)` is the listener's `parseUrl` function.
- `Util.getGitHubInfo(root)` is the `info` field of a root.
- `ProjectManager.allBuildTypes` and `VcsManager.allRegisteredVcsRoots` are
  constant fields of the listener.
- Calls on `WebHooksManager` and `VcsModificationChecker` are appended to a
  call log (`calls`).
- The wall clock (`Date()`) is the `now` parameter.
- Exceptions come from three places: a body the JSON decoder cannot turn into
  a payload (`body == None`), a ping payload without `hook` (the log line
  dereferences `payload.hook.url`), and the `failing` parameter. `failing`
  names the collaborator call that throws.

Behaviours of the code worth knowing:

- The root-id filter is applied whenever the path contains
  `/app/hooks/github/`. A path that ends right there yields the empty id
  `""`. The filter then keeps only roots whose external id is `""`; it does
  not treat the empty id as "no filter".
- A ping whose payload has no `hook` object throws while logging, before any
  guard runs. It therefore gets 503, even when its repository URL is also
  missing.
- A root that uses the default interval is set to exactly 43200 seconds. Only
  an explicit interval of at least 43200 is kept as it is.

## Model

| member | source | states |
|---|---|---|
| `HookPath.IndexOf` | src/main/kotlin/org/jetbrains/teamcity/github/controllers/GitHubWebHookListener.kt:57 | the result is -1 exactly when the pattern occurs nowhere; otherwise it is an occurrence with none before it |
| `HookPath.VcsRootIdOf` | src/main/kotlin/org/jetbrains/teamcity/github/controllers/GitHubWebHookListener.kt:56-64 | the root id is None exactly when `/app/hooks/github/` does not occur in the path; otherwise it is the suffix after the first occurrence |
| `HookPath.RootIdAfterPrefix` | src/main/kotlin/org/jetbrains/teamcity/github/controllers/GitHubWebHookListener.kt:56-64 | a path `<prefix>/app/hooks/github/<id>` whose prefix holds no earlier marker yields exactly `id` |
| `HookPath.BarePathHasNoRootId` | src/main/kotlin/org/jetbrains/teamcity/github/controllers/GitHubWebHookListener.kt:57-63 | the bare endpoint path yields no root id |
| `Vcs.Raised` | src/main/kotlin/org/jetbrains/teamcity/github/controllers/GitHubWebHookListener.kt:150-153 | afterwards the setting is explicit and at least 12 h; an explicit setting of at least 12 h is kept; any other becomes exactly 43200 s; an explicit interval is never lowered |
| `Vcs.RaisedIdempotent` | src/main/kotlin/org/jetbrains/teamcity/github/controllers/GitHubWebHookListener.kt:149-154 | raising twice is the same as raising once |
| `Vcs.VcsRoot.SetModificationCheckInterval` | src/main/kotlin/org/jetbrains/teamcity/github/controllers/GitHubWebHookListener.kt:152 | the root's interval becomes the given value and it stops using the default |
| `RootSelection.PooledMembers` | src/main/kotlin/org/jetbrains/teamcity/github/controllers/GitHubWebHookListener.kt:138-142 | the pooled hash set holds exactly the instances of build types whose project is not archived |
| `RootSelection.FindSuitableVcsRootInstances` | src/main/kotlin/org/jetbrains/teamcity/github/controllers/GitHubWebHookListener.kt:137-144 | the result has no duplicates, and an instance is in it iff some build type of a non-archived project uses it, it resolves to the target repository, and the root id is absent or equals its parent's external id |
| `RootSelection.SelectionOfFound` | src/main/kotlin/org/jetbrains/teamcity/github/controllers/GitHubWebHookListener.kt:137-144 | such a result lists each member of the specified suitable set exactly once |
| `RootSelection.ArchivedOnlyNeverSuitable` | src/main/kotlin/org/jetbrains/teamcity/github/controllers/GitHubWebHookListener.kt:139-141 | an instance used only by archived projects is never selected |
| `RootSelection.NarrowingByRootId` | src/main/kotlin/org/jetbrains/teamcity/github/controllers/GitHubWebHookListener.kt:143 | a root id only narrows the selection, to instances whose parent has that external id |
| `Listener.Matching` | src/main/kotlin/org/jetbrains/teamcity/github/controllers/GitHubWebHookListener.kt:148 | the filtered roots are exactly the registered roots that resolve to the repository |
| `Listener.GitHubWebHookListener.constructor` | src/main/kotlin/org/jetbrains/teamcity/github/controllers/GitHubWebHookListener.kt:25-29 | the listener holds the given collaborators and an empty call log |
| `Listener.GitHubWebHookListener.DoHandle` | src/main/kotlin/org/jetbrains/teamcity/github/controllers/GitHubWebHookListener.kt:50-85 | the status is the planned one; the log gains exactly the planned calls, with a selection of suitable instances for a scheduled check; exactly the roots of a raised repository get the raised setting, and all others are unchanged |
| `Listener.GitHubWebHookListener.DoHandlePingEvent` | src/main/kotlin/org/jetbrains/teamcity/github/controllers/GitHubWebHookListener.kt:87-102 | a ping's outcome, calls and root settings follow its plan: a missing hook throws, a missing URL gives 400, an unparseable URL gives 503, otherwise lastUsed and then the interval raise, then 202 |
| `Listener.GitHubWebHookListener.DoHandlePushEvent` | src/main/kotlin/org/jetbrains/teamcity/github/controllers/GitHubWebHookListener.kt:104-121 | a push's outcome and calls follow its plan: 400, 503, or lastUsed, branch revisions and a scheduled selection then 202; a throwing call leaves the calls before it |
| `Listener.GitHubWebHookListener.UpdateLastUsedCall` | src/main/kotlin/org/jetbrains/teamcity/github/controllers/GitHubWebHookListener.kt:123-125 | logs the last-used update at the given time, or throws and logs nothing |
| `Listener.GitHubWebHookListener.UpdateBranchesCall` | src/main/kotlin/org/jetbrains/teamcity/github/controllers/GitHubWebHookListener.kt:127-129 | logs the single pair ref -> after, or throws and logs nothing |
| `Listener.GitHubWebHookListener.ScheduleCheckCall` | src/main/kotlin/org/jetbrains/teamcity/github/controllers/GitHubWebHookListener.kt:131-135 | logs a check request for exactly the given roots, or throws and logs nothing |
| `Listener.GitHubWebHookListener.SetModificationCheckInterval` | src/main/kotlin/org/jetbrains/teamcity/github/controllers/GitHubWebHookListener.kt:146-155 | every registered root of the repository gets the raised setting, and every other root keeps its own |
| `Listener.MissingHeaderIsBadRequest` | src/main/kotlin/org/jetbrains/teamcity/github/controllers/GitHubWebHookListener.kt:51-55 | a missing event header gives 400 and no bookkeeping |
| `Listener.UnknownEventIsIgnored` | src/main/kotlin/org/jetbrains/teamcity/github/controllers/GitHubWebHookListener.kt:75-78 | an event other than ping or push gives 202 and no bookkeeping |
| `Listener.UndecodableBodyIsUnavailable` | src/main/kotlin/org/jetbrains/teamcity/github/controllers/GitHubWebHookListener.kt:66-83 | a ping or push body that does not decode gives 503 and no bookkeeping |
| `Listener.MissingUrlIsBadRequest` | src/main/kotlin/org/jetbrains/teamcity/github/controllers/GitHubWebHookListener.kt:88-110 | a ping or push without a repository URL gives 400 and no bookkeeping |
| `Listener.UnparseableUrlIsUnavailable` | src/main/kotlin/org/jetbrains/teamcity/github/controllers/GitHubWebHookListener.kt:94-115 | a ping or push whose URL does not parse gives 503 and no bookkeeping |
| `Listener.PushAccepted` | src/main/kotlin/org/jetbrains/teamcity/github/controllers/GitHubWebHookListener.kt:116-120 | a resolved push without exceptions does lastUsed, the single ref -> after pair and the scheduled check, in that order, then gives 202 |
| `Listener.PingAccepted` | src/main/kotlin/org/jetbrains/teamcity/github/controllers/GitHubWebHookListener.kt:99-101 | a resolved ping without exceptions does lastUsed and then the interval raise, then gives 202 |
| `Listener.ExceptionIsUnavailable` | src/main/kotlin/org/jetbrains/teamcity/github/controllers/GitHubWebHookListener.kt:65-83 | a ping without a hook object gives 503 and no bookkeeping; a collaborator call that is reached and throws gives 503; what completed before an exception is a prefix of the work of the same delivery without it |
| `Listener.StatusCodes` | src/main/kotlin/org/jetbrains/teamcity/github/controllers/GitHubWebHookListener.kt:50-85 | the status is 202, 400 or 503, and a 400 comes with no bookkeeping |
| `Listener.BookkeepingNeedsRepository` | src/main/kotlin/org/jetbrains/teamcity/github/controllers/GitHubWebHookListener.kt:87-121 | bookkeeping happens only for a ping or push whose URL resolves, and it starts with lastUsed for that repository |
| `Listener.PushLog` | src/main/kotlin/org/jetbrains/teamcity/github/controllers/GitHubWebHookListener.kt:116-134 | an accepted push logs exactly three calls: lastUsed, the revisions, and a check request for a selection of the suitable instances |
| `Listener.PingLog` | src/main/kotlin/org/jetbrains/teamcity/github/controllers/GitHubWebHookListener.kt:99-124 | an accepted ping logs only the lastUsed update |
| `Listener.RootIdScenario` | src/main/kotlin/org/jetbrains/teamcity/github/controllers/GitHubWebHookListener.kt:137-144 | of two instances of one repository, a push to `/app/hooks/github/root1` selects only the one under `root1` |

## Left out

- `register()`, controller and authorization-interceptor registration, and the
  `ModelAndView`/`simpleView` results: servlet wiring with no decisions. The
  text of the 400 body is not modelled.
- `WebUtil.getPathWithoutAuthenticationType`: a host call. The request's
  `path` is taken to be its result already.
- JSON decoding (`GsonUtilsEx.fromJson`): a library. A body is a decoded
  `Payload` record, or None when decoding fails.
- `Util.getGitHubInfo` and `VcsRootGitHubInfo`: they are not part of this
  model. The URL-to-repository mapping is an arbitrary function parameter, and
  a root's repository is a field.
- The internals of `WebHooksManager.updateLastUsed` and
  `updateBranchRevisions`, the hook storage key codec and the hook record JSON
  codec: their implementation is not part of this model. The calls are
  logged, not carried out.
- `VcsModificationChecker.checkForModificationsAsync`: asynchronous and owned
  by the host. The model only logs the list it receives.
- The host's interval setter (`SVcsRoot.modificationCheckInterval`) is not
  part of this model. It is taken to store an explicit interval, so a root
  whose interval was set no longer uses the default.
- Exceptions thrown by the host registries or by the interval setter are not
  modelled. Only the three sources above are.
- Logging, and the wall clock, which is a parameter.
- Concurrency: each delivery is modelled as one sequential run over snapshots
  of the registries.
- The hash set's identity: root instances are values, equal when all their
  fields are equal. The result order of the selection is left open, as a hash
  set's iteration order is.
- `GitHubWebHookOutdatedPageExtension`: page-model filling with no logic.
