# DevPod workspace backend, modelled in Dafny

DevPod gives each user browser-based development workspaces. A workspace is a
`code-server` container created from one of three templates (`python`,
`nodejs`, `mern`), with a named volume mounted at `/workspace`. This project
models the core of its backend.

- **The lifecycle service.** It connects to the container engine and then
  launches, stops, resumes, deletes and runs commands in workspaces. The
  container and the volume are both named `devpod-<workspaceId>`.
- **The workspaces router.** It turns the service's results into HTTP
  responses.
- **The GitHub sign-in controller.** It handles the session.
- **The dashboard controller.** It answers statistics, lists, single
  workspaces and recent activity from the stored records.

The container engine is a class (`Engine.Engine`). Its state is what the
service can observe:

- the image list, with each image's `RepoTags`;
- the named volumes;
- the containers by name, each with its creation spec, whether it runs, and
  its `NetworkSettings.Ports`.

Each engine call is a method. It either changes that state as the engine
would, or fails with the engine's message and changes nothing. Some things
the service cannot decide, so they are arguments ("oracles"):

- whether each ping answers;
- whether a build fails;
- the id of a new container;
- a start that fails for outside reasons;
- the ports the engine publishes on start;
- what an exec stream emits.

The shared `docker` handle is a field of `DockerService.Service`. It holds
the transport adopted by the connector, or `None`.

Modules, by source file:

| file | modules |
|---|---|
| `backend/src/services/dockerService.js` | `Templates`, `ImageResolver`, `Ports`, `DockerService`, with `Engine` for the daemon and `Text` for the string built-ins |
| `backend/src/routes/workspacesRoutes.js` | `WorkspaceRoutes`, with `Http` for status codes and JSON bodies |
| `backend/src/controllers/authController.js` | `AuthController` |
| `backend/src/controllers/workspaceController.js` | `WorkspaceController`, with `Ordering` for `.sort`/`.limit` and `NumberParsing` for `parseInt` |

## Model

| member | source | states |
|---|---|---|
| Templates.TemplateImage | backend/src/services/dockerService.js:12-16 | Exactly `python`, `nodejs` and `mern` have an image, and the image of `t` is `devpod-<t>:latest` |
| Templates.TablesAgree | backend/src/services/dockerService.js:243-251 | The image table and the profile table have the same keys. So the "Configuration missing" error can never be raised |
| Templates.ProfilesWellFormed | backend/src/services/dockerService.js:21-87 | Every profile exposes 8080/tcp and publishes exactly what it exposes, each on host port "0". It runs code-server on `/workspace`. Only `mern` exposes 3000/tcp and 5000/tcp and gets 1 GiB instead of 512 MiB |
| ImageResolver.ImageExistsIffTagged | backend/src/services/dockerService.js:165-168 | An image is present exactly when its name is one of the tags of the image list, compared exactly |
| ImageResolver.BuildContext | backend/src/services/dockerService.js:174-183 | The first of python, nodejs, mern that the image name contains picks `./docker/<t>`. A name containing none has no context. Each case holds in both directions |
| ImageResolver.CatalogImagesHaveContexts | backend/src/services/dockerService.js:175-180 | Every catalog image builds from `./docker/<t>` of its own template |
| ImageResolver.UpperCaseNameHasNoContext | backend/src/services/dockerService.js:175-183 | Matching is case-sensitive: `devpod-MERN:latest` has no build context |
| ImageResolver.EnsureDockerImage | backend/src/services/dockerService.js:160-218 | A present image builds nothing. An absent one is built from its context. An unknown name or a failed build fails as "Failed to build Docker image: <name>. Error: <cause>", and the result is exactly `ImageOutcome` of the images before. On success the image is present. Volumes and containers are untouched |
| Ports.GetPortMapping | backend/src/services/dockerService.js:132-155 | The result is the first binding's non-empty `HostPort` for the key. A missing port table, a missing, non-array or empty entry, and an empty `HostPort` each fail with their own message. There is never a default |
| Ports.PublishedPortIsReported | backend/src/services/dockerService.js:144-150 | The first binding's host port is reported, whatever bindings follow |
| Ports.ResolveLaunchAccess | backend/src/services/dockerService.js:308-332 | Launch succeeds exactly when 8080/tcp resolves, and also 3000/tcp and 5000/tcp for `mern`. Each reported port is the `GetPortMapping` value of its key, and the first failing key gives its own error. URLs are `http://localhost:<port>`. The extra ports appear exactly for `mern` |
| Ports.ResolveResumeAccess | backend/src/services/dockerService.js:386-404 | Resume reports the extra ports exactly when both 3000/tcp and 5000/tcp entries are truthy, whatever the template. Each reported port is the `GetPortMapping` value of its key, and a failing key gives its own error |
| Ports.ResumeAgreesWithMernLaunch | backend/src/services/dockerService.js:394-404 | On a container with all three ports published, resume reports what a `mern` launch reported |
| Ports.ResumeAgreesWithSinglePortLaunch | backend/src/services/dockerService.js:394-404 | On a container without the extra entries, resume reports what a single-port launch reported |
| Ports.EmptyExtraArrayFailsResume | backend/src/services/dockerService.js:395-397 | Empty arrays under 3000/tcp and 5000/tcp are truthy. Resume then fails with "No port mapping found for 3000/tcp", while a `python` launch of the same container succeeds |
| DockerService.FirstReachableSpec | backend/src/services/dockerService.js:104-126 | The connector adopts candidate k exactly when k is the first candidate whose ping succeeds. It adopts none exactly when all four fail |
| DockerService.ConnectKeepsHandle | backend/src/services/dockerService.js:228-231 | An existing handle is kept and no probe is made |
| DockerService.Service.InitializeDocker | backend/src/services/dockerService.js:92-127 | Probes in list order and stores the first reachable candidate. If none answers, the handle is unchanged and the "Docker daemon not accessible … tcp://localhost:2375" error is raised |
| DockerService.Service.EnsureConnected | backend/src/services/dockerService.js:228-231 | `if (!docker) await initializeDocker()`: it succeeds exactly when a handle exists or can be established |
| DockerService.WorkspaceName | backend/src/services/dockerService.js:257 | The name is `devpod-` followed by the workspace id |
| DockerService.WorkspaceNameInjective | backend/src/services/dockerService.js:281 | Different workspace ids never share a container or volume name |
| DockerService.ClassifyLaunchError | backend/src/services/dockerService.js:340-350 | The first matching substring decides: Docker-not-running, download, the message unchanged, port allocation, and otherwise "Workspace launch failed: " + the message |
| DockerService.UnreachableClassified | backend/src/services/dockerService.js:239 | Both connection failures are reported as "Docker is not running" |
| DockerService.UnsupportedTemplateKept | backend/src/services/dockerService.js:245 | The unsupported-template message is rethrown unchanged, for any template name without a capital D |
| DockerService.MissingIdeMappingClassified | backend/src/services/dockerService.js:346-347 | A missing or empty 8080/tcp entry is reported as a port-allocation failure |
| DockerService.MissingHostPortWrapped | backend/src/services/dockerService.js:348-349 | An empty `HostPort` is reported as a generic launch failure |
| DockerService.MissingPortTableWrapped | backend/src/services/dockerService.js:348-349 | A container without a port table is reported as a generic launch failure |
| DockerService.CollectOutput | backend/src/services/dockerService.js:464-468 | The exec output is the in-order concatenation of every chunk |
| DockerService.Service.PrepareStorage | backend/src/services/dockerService.js:253-267 | The result is `StorageOutcome`. The image is ensured first, and its failure is returned with the volumes untouched. An existing volume is reused, since "already exists" is swallowed. Any other volume error is returned as it is. On success the image and the volume exist, and the volumes gained only that name. No container changes |
| DockerService.Service.RunContainer | backend/src/services/dockerService.js:279-332 | A taken name fails with the 409 conflict and changes nothing. Otherwise the result is `StartOutcome`: the start failure, the missing-port-table error, or the `ResolveLaunchAccess` result with the new container id. The new container has the profile with the volume bound at `/workspace`, runs exactly when the start succeeded, and has the published ports. No other container changes |
| DockerService.AfterTemplateSucceeds | backend/src/services/dockerService.js:253-332 | The steps after the template check succeed exactly when the image exists or builds, the volume exists or is created, the name is free, the start succeeds and the ports resolve |
| DockerService.Service.LaunchSteps | backend/src/services/dockerService.js:226-334 | The connection error, the ping error and the unsupported-template error come in that order, and each leaves the engine unchanged. After that, the result is `AfterTemplate`: the first failing step gives its own error. It succeeds exactly when the engine is reachable, the ping answers and `LaunchSucceeds` holds. Whatever the outcome, the images, volumes and containers are exactly `ImagesAfter`, `VolumesAfter` and `ContainersAfter`. A failed start leaves the created container stopped and the volume in place. On success the container runs with its template's profile |
| DockerService.Service.LaunchWorkspace | backend/src/services/dockerService.js:223-352 | The result is that of LaunchSteps, with every error reclassified, so it succeeds under the same condition and leaves the same engine state. Connection and ping failures both read "Docker is not running" |
| DockerService.Service.StopWorkspace | backend/src/services/dockerService.js:357-369 | It succeeds exactly when a handle exists or can be made and the container runs. The container is then stopped and nothing else changes. Every error carries the "Failed to stop workspace: " prefix, followed by the 404 message for a missing container and the 304 message for a stopped one |
| DockerService.Service.ResumeWorkspace | backend/src/services/dockerService.js:374-411 | It succeeds exactly when a handle exists or can be made, the container exists and is stopped, the start succeeds and `ResolveResumeAccess` succeeds. The reported access is `ResolveResumeAccess` of the published ports. A missing container, a running one and a failed start each give their own error after the "Failed to resume workspace: " prefix. On every path the containers are `ContainersAfterResume`: once the start succeeded the container runs with the published ports, even if they then fail to resolve, and every earlier failure changes nothing |
| DockerService.Service.DeleteWorkspace | backend/src/services/dockerService.js:416-445 | It fails exactly when no handle can be made. Otherwise the container is gone. The volume is removed exactly when the container existed and no other container mounts it. Stop and volume failures are swallowed |
| DockerService.Service.ExecInContainer | backend/src/services/dockerService.js:450-471 | The result is `ExecOutcome`. A missing handle or a refused exec fails with "Failed to execute command: …". A stream error rejects with the bare stream message. Otherwise the output is the concatenation of the chunks |
| DockerService.Service.DeleteTwice | backend/src/services/dockerService.js:416-445 | A second delete after a successful one succeeds too, and the container is gone |
| Text.NatToDecimal | backend/src/routes/workspacesRoutes.js:14 | The decimal rendering of a number is a non-empty digit string. It has one digit exactly for numbers below 10 |
| Text.NatToDecimalInjective | backend/src/routes/workspacesRoutes.js:14 | Different numbers render differently |
| Text.JoinThenSplit | backend/src/routes/workspacesRoutes.js:117 | Joining with a separator that no part contains, then splitting on it, gives back the parts |
| Text.ConcatAppend | backend/src/services/dockerService.js:466 | Accumulating chunks in two batches gives the concatenation of both |
| Text.ConcatLength | backend/src/services/dockerService.js:466 | The output is exactly as long as all chunks together |
| WorkspaceRoutes.LaunchIdsDistinct | backend/src/routes/workspacesRoutes.js:12-14 | Launches at different milliseconds get different workspace ids, and so different containers and volumes |
| WorkspaceRoutes.PostLaunch | backend/src/routes/workspacesRoutes.js:10-40 | The template goes to the service unvalidated, with a missing one as "undefined". It answers 200 exactly when the engine is reachable, the ping answers and `LaunchSucceeds` holds for that template and the fresh workspace name. The engine afterwards is as the service leaves it, so an unknown template answers 500 with the engine unchanged. On success the container is as the service promises |
| WorkspaceRoutes.LaunchResponse | backend/src/routes/workspacesRoutes.js:20-38 | 200 exactly on success. A failure answers 500 with "Failed to launch container." and the thrown message as `details` |
| WorkspaceRoutes.LaunchResponseKeys | backend/src/routes/workspacesRoutes.js:20-31 | The success body holds workspaceId, containerId, ideUrl, idePort, then the four `mern` members all or none, then message |
| WorkspaceRoutes.LaunchResponseValues | backend/src/routes/workspacesRoutes.js:20-24 | The body carries the workspace id, the container id and the IDE port with its loopback URL |
| WorkspaceRoutes.LaunchResponseExtras | backend/src/routes/workspacesRoutes.js:26-29 | Each optional member is present, with the service's value, exactly when the service reported the extra ports |
| WorkspaceRoutes.ExtraMembersFollowAccess | backend/src/routes/workspacesRoutes.js:26-29 | The four spreads add all four members or none, because the service's values are non-empty |
| WorkspaceRoutes.ActionResponse | backend/src/routes/workspacesRoutes.js:45-56 | The stop route's answer, shared with the delete route (lines 88-99): 200 exactly on success, and a failure answers 500 with the given error text ("Failed to stop workspace", "Failed to delete workspace") and the message as `details` |
| WorkspaceRoutes.ResumeResponse | backend/src/routes/workspacesRoutes.js:61-83 | 200 exactly on success. A failure answers 500 with "Failed to resume workspace" and the message as `details` |
| WorkspaceRoutes.ResumeResponseKeys | backend/src/routes/workspacesRoutes.js:67-78 | The success body holds message, workspaceId, idePort, ideUrl, then the four `mern` members all or none |
| WorkspaceRoutes.ResumeResponseValues | backend/src/routes/workspacesRoutes.js:67-71 | The body carries the workspace id and the IDE port with its loopback URL |
| WorkspaceRoutes.ResumeResponseExtras | backend/src/routes/workspacesRoutes.js:74-77 | Each optional member is present, with the service's value, exactly when the service reported the extra ports |
| WorkspaceRoutes.Delete | backend/src/routes/workspacesRoutes.js:88-99 | It answers 200 exactly when the engine is reachable. The container is then gone, and the volume goes with it exactly when the container existed and no other container mounts it. Otherwise it answers 500 and nothing changes. Images never change |
| WorkspaceRoutes.PostStop | backend/src/routes/workspacesRoutes.js:45-56 | It answers 200 exactly when the container was running, and the container is then stopped with nothing else changed. Otherwise it answers 500 and the containers are unchanged. Images and volumes never change |
| WorkspaceRoutes.PostStart | backend/src/routes/workspacesRoutes.js:61-83 | The response is that of the service's result. It answers 200 exactly when the engine is reachable, the container exists and is stopped, the start succeeds and the ports resolve. A success reports the ports the engine published. The containers afterwards are `ContainersAfterResume`, and images and volumes never change |
| WorkspaceRoutes.ExecResponse | backend/src/routes/workspacesRoutes.js:112-123 | 200 exactly on success. A failure answers 500 with "Failed to execute command" and the message as `details` |
| WorkspaceRoutes.ExecEchoesCommand | backend/src/routes/workspacesRoutes.js:115-119 | The body carries the output and the command joined by single spaces. That string splits back into the arguments when none contains a space |
| WorkspaceRoutes.PostExec | backend/src/routes/workspacesRoutes.js:104-124 | A non-array or empty command answers 400 before the service is called. A valid one answers the exec response of `ExecOutcome` for the connection, the exec start and the stream. With a running container and a clean stream this is 200 with the concatenated output. The status is always 200 or 500 |
| Http.FailureCarriesCause | backend/src/routes/workspacesRoutes.js:35-38 | A failure response is 500 and has exactly `error` and `details`, with the cause verbatim under `details` |
| AuthController.ClassifyAuthError | backend/src/controllers/authController.js:44-65 | The first matching substring decides the status: 400 (message kept), 500, 502, 500, 400, or 500 with "Authentication failed: " + message. The status is always 400, 500 or 502 |
| AuthController.InvalidUserDataIsClientError | backend/src/controllers/authController.js:59-61 | The handler's own "Invalid user data" error answers 400 |
| AuthController.InvalidUserDataClassified | backend/src/controllers/authController.js:59-61 | Any message starting "Invalid user data" that matches no earlier pattern answers 400 |
| AuthController.DetailsOnlyInDevelopment | backend/src/controllers/authController.js:67-71 | `details` is present, holding the thrown message, exactly when NODE_ENV is "development". `success` is false and `error` is the classified text |
| AuthController.AuthOutcome | backend/src/controllers/authController.js:16-41 | A returned user with an `_id` signs in with 200. Anything else clears the session and answers an error status. A thrown error answers `AuthFailure` of its own message. A missing user, or one without `_id`, answers `AuthFailure` of "Invalid user data" |
| AuthController.MissingIdRejected | backend/src/controllers/authController.js:19-21 | A missing user or a user without `_id` answers 400 as an "Invalid user data" error |
| AuthController.Session.GithubAuth | backend/src/controllers/authController.js:3-73 | A missing code answers 400 and leaves the session, whatever the GitHub service would say. Success stores `userId = user._id` and `user`. Every error resets both |
| AuthController.Session.CurrentUser | backend/src/controllers/authController.js:75-94 | 401 exactly when the session has no user, and otherwise 200 |
| AuthController.Session.Logout | backend/src/controllers/authController.js:96-109 | A failed destroy answers 500 and keeps the session. Otherwise 200 "Logged out successfully" and the session holds no user |
| AuthController.SignInThenAsk | backend/src/controllers/authController.js:24-89 | After a successful sign-in, getCurrentUser reports that user. After a failed one it answers 401 |
| WorkspaceController.ActiveAtMostTotal | backend/src/controllers/workspaceController.js:16-25 | The running count never exceeds the not-deleted count |
| WorkspaceController.DistinctCollaborators | backend/src/controllers/workspaceController.js:28-34 | The nested loops count exactly the distinct collaborator ids |
| WorkspaceController.CollaboratorsAtMostEntries | backend/src/controllers/workspaceController.js:28-34 | Distinct collaborators never outnumber collaborator entries |
| WorkspaceController.HoursSavedNonNegative | backend/src/controllers/workspaceController.js:37-42 | With no workspace created in the future, hoursSaved is not negative |
| WorkspaceController.HoursSavedMonotone | backend/src/controllers/workspaceController.js:37-42 | hoursSaved never decreases as time passes |
| WorkspaceController.TwoDaysSaveAnHour | backend/src/controllers/workspaceController.js:38-41 | One hour is saved per two whole days, and none before that |
| WorkspaceController.DashboardStats | backend/src/controllers/workspaceController.js:7-54 | 401 exactly without a session user. Otherwise it gives the running and not-deleted counts (active ≤ total), the number of distinct collaborators over all the user's workspaces (at most the entries), and hoursSaved |
| WorkspaceController.BuildQuery | backend/src/controllers/workspaceController.js:66-73 | The query excludes deleted records unless a truthy `status` replaces that condition with equality |
| WorkspaceController.Select | backend/src/controllers/workspaceController.js:75 | A record is selected exactly when it matches the query. Each matching record keeps its multiplicity and every other one has none |
| WorkspaceController.ListWorkspaces | backend/src/controllers/workspaceController.js:75-76 | The list is a permutation of the matching records, most recently accessed first |
| WorkspaceController.GetWorkspaces | backend/src/controllers/workspaceController.js:57-84 | 401 without a session user. By default exactly the user's non-deleted records, each as often as it is stored. With a `status`, exactly the user's records of that status, so `status=deleted` lists deleted ones. The order is by lastAccessed, newest first |
| WorkspaceController.FindWorkspace | backend/src/controllers/workspaceController.js:93-96 | It gives the first record matching both the workspace id and the user, or none exactly when no record matches |
| WorkspaceController.WorkspaceStore.GetWorkspace | backend/src/controllers/workspaceController.js:87-110 | 401 without a session user. 404 exactly when no record of this user has the id. A hit is saved with lastAccessed = now and returned as saved, and nothing else changes |
| WorkspaceController.EffectiveLimit | backend/src/controllers/workspaceController.js:119 | The limit is always at least 1. A missing limit, one that parses to NaN and one that parses to 0 give 20. Any other parsed value is used by its magnitude |
| WorkspaceController.LimitDefaults | backend/src/controllers/workspaceController.js:119 | A missing, empty, non-numeric or zero limit falls back to 20 |
| WorkspaceController.LimitFromDecimal | backend/src/controllers/workspaceController.js:119-123 | A positive decimal limit is used as written, and a negative one by its magnitude |
| WorkspaceController.RecentActivity | backend/src/controllers/workspaceController.js:113-131 | 401 without a session user. Otherwise at most `limit` of the user's activities, drawn from them as a sub-multiset, newest first, and fewer only when there are no more. No omitted activity is newer than a returned one |
| Ordering.SortDescSpec | backend/src/controllers/workspaceController.js:76 | Sorting gives a permutation of its input, ordered newest first |
| Ordering.TakeKeepsNewest | backend/src/controllers/workspaceController.js:122-123 | Limiting a sorted list keeps it sorted, keeps the newest entries and draws only from the list |
| NumberParsing.ParseDecimal | backend/src/controllers/workspaceController.js:119 | `parseInt` reads back the decimal rendering of any number |
| NumberParsing.ParseNegativeDecimal | backend/src/controllers/workspaceController.js:119 | `parseInt` reads a leading minus sign as negation |
| NumberParsing.NoDigitFirst | backend/src/controllers/workspaceController.js:119 | Text that starts with something other than white space, a sign or a digit is NaN |
| NumberParsing.HexPrefix | backend/src/controllers/workspaceController.js:119 | A `0x` prefix switches to base 16 |
| NumberParsing.SpaceIgnored | backend/src/controllers/workspaceController.js:119 | Leading white space does not change the result |
| Engine.Engine.CreateVolume | backend/src/services/dockerService.js:259 | An existing name fails with "volume <name> already exists" and changes nothing. Otherwise the volume is added, unless the engine fails |
| Engine.Engine.CreateContainer | backend/src/services/dockerService.js:279-292 | A taken name is a 409 conflict. Otherwise a new stopped container with the given spec exists |
| Engine.Engine.Start | backend/src/services/dockerService.js:295 | Only an existing stopped container starts, and it then has the published ports. Otherwise the error is 404, 304, or the outside failure |
| Engine.Engine.Stop | backend/src/services/dockerService.js:363 | Only a running container stops. A missing one is 404 and a stopped one is 304 |
| Engine.Engine.RemoveContainer | backend/src/services/dockerService.js:431 | Only an existing stopped container is removed |
| Engine.Engine.RemoveVolume | backend/src/services/dockerService.js:434-435 | Only an existing volume that no container mounts is removed |
| Engine.Engine.Inspect | backend/src/services/dockerService.js:302 | Inspect succeeds exactly for an existing container and reports its port table |
| Engine.Engine.ExecStart | backend/src/services/dockerService.js:455-462 | An exec starts exactly in an existing, running container |

## Left out

- The container engine itself. The dockerode client, HTTP transport errors after a
  connection, and the build progress stream are reduced to the `Engine` class and
  its oracle arguments.
- Engine.Engine.CreateVolume: it fails with "already exists" for an existing name,
  where the real daemon returns the existing volume. The state afterwards is the
  same either way, and the service reuses the volume in both cases.
- DockerService.Service.PrepareStorage: an injected volume failure is assumed never
  to contain "already exists" (a `requires`, also on Engine.Engine.CreateVolume, LaunchSteps,
  LaunchWorkspace and PostLaunch). The source would swallow such an error and go
  on, whatever caused it. Only the engine's own "already exists" failure for an
  existing name is modelled.
- Engine.Engine.Stop, Engine.Engine.RemoveContainer, Engine.Engine.RemoveVolume:
  they use representative daemon messages. Only whether they fail matters to the
  service.
- Timing. This covers the five-second ping timeout, the 5000 ms and 2000 ms sleeps
  before inspecting, and `Date.now()`. The clock reading is an argument and the
  sleeps are not modelled.
- The connection attempt made when the module loads (`dockerService.js:477-479`).
  The handle starts as `None` and is established by the first operation that needs it.
- Concurrency. Two requests connecting or launching at once are not modelled.
  Every operation runs to completion alone.
- DockerService.Service.ExecInContainer: chunks are strings. Stream framing
  (multiplexed stdout/stderr headers), the UTF-8 decoding in `chunk.toString()`,
  and data emitted before an error are not modelled.
- DockerService.Service.LaunchWorkspace: `userId` is accepted and unused, as in the
  source.
- Template names that are inherited object keys (for example `constructor`). They
  would make the table lookup truthy in JavaScript. Here only own keys count.
- Non-string request values: a non-string `template`, `code`, `status` or `limit`,
  and command arrays whose elements are not strings.
- WorkspaceRoutes.PostExec: the command elements are strings. The source checks
  only that the value is a non-empty array.
- NumberParsing.ParseInt: only ASCII white space is skipped, where `parseInt` also
  skips Unicode spaces. Numbers beyond double precision are exact here.
- WorkspaceController.EffectiveLimit: a negative limit is taken by its magnitude,
  as the database driver applies it. The cursor-closing side effect is not modelled.
- Ordering.SortDesc: records with equal timestamps come out in insertion-sort order.
  The database does not specify an order for them.
- WorkspaceController.DashboardStats: the database is a sequence argument.
  Query failures (the 500 branches), `populate` of collaborators and workspace
  names, and the rest of the record fields are outside the model.
- AuthController.Session.CurrentUser: the 500 branch for a missing session
  object is not modelled. A session always exists here.
- AuthController.Session.Logout: clearing the `connect.sid` cookie and logging
  are not modelled.
- The GitHub service (`githubService.js`). Its answer for a code is the
  `GithubReply` argument. As written it returns users without `_id`, so every
  real sign-in takes the "Invalid user data" path that `MissingIdRejected` states.
- The test file `dockerService.test.js` expects a `./docker/mern-template`
  context, a `java` template and lower-casing before matching. The service does
  none of these. The model follows the service (`CatalogImagesHaveContexts`,
  `UpperCaseNameHasNoContext`).
- Logging, the frontend, the app wiring and the diagnostic scripts.
