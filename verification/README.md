# Demo control plane: model and proofs

The repository runs "showcase" demos: an Owner publishes a Project from source, a Guest plays it in
a Session, a locked-down Docker Stack of its own that a reaper ends. This project models the control
plane's state machines and the run-contract compiler in Dafny and proves what they promise.

`dafny verify dfyconfig.toml` checks everything.

## What is modelled

Sessions. `Registry` is the shared route map. `Protocol` is the Session lifecycle as a step relation:
Plays, boot goroutines, docker outcomes, cancellation and the reaper's ticks, freely interleaved, the
reaper acting on a stale snapshot. Its theorems hold of every run; two history sets name exactly the
Sessions a hypothesis would exclude, `Protocol.HistoryIsWhatHappened` says what those sets are in
terms of steps, and `Overshoot` and `Protocol.FailedDownStrands` show neither hypothesis can go.
`Runner`, `Scrub` and `Boot` are the code that takes those steps, each method with whatever the other
goroutines do between its own (`Interleaving`); `Undisturbed` says how a boot ends when they do
nothing, `Shutdown` what draining leaves. `Reaper` is the tick over mutable clocks and a map of
arbitrary order, `Ticks` shows a tick to be a run of the lifecycle, `Verdicts` says what each verdict
means over whole scan histories, and `Lifetimes` puts clock, verdicts and lifecycle together.

Projects. `ImageCache` is the LRU image builder, `Projects` the guarded updates of the projects table,
`Published` what every sequence of them keeps, `Builds` publishing over time with crashes and the
recovery sweep, `Races` what each of its hypotheses is for, `Publisher` and `Publish` the code that
settles builds, publishes and plays, `Contents` what the images were built from.

Run contract. `Manifest` validates, `Compile` compiles, `Declared` says of a compiled plan
that it runs what was declared, `Stack` and `ComposeFile` what the plan is worth, `Interpolation` what docker makes of the file, `Egress` is the sidecar that parses what
the compiler rendered. `Rules` is the rule language that `Routing`, the proxy configuration, writes,
and `Metrics` the counters read back from its names. `Migrate` is the migrator.
`Text` and `NetAddr` hold the library functions these lean on.

Form. What the source updates in place is a class or an array method (the registry and its sort, the
reaper and its clocks, the builder, the store, the publisher, the manager, the database); loops are
loops; each such method is tied to a specification function whose properties are the lemmas. Docker,
git, clocks, randomness and scrapes are parameters that may answer anything.

## What the proofs found

Where code and documentation disagree the model follows the code.

- `Registry.Len` is documented as counting booting and live Sessions; it counts lingering failures
  too, and the table has no bound under any cap (`Overshoot.RouteTableIsUnbounded`).
- A failed boot is promised to leave nothing running. When `compose down` fails as well, its
  containers are out of every later step's reach (`Undisturbed.BootOutcome`, `Protocol.FailedDownStrands`).
- The cap holds only while the max-runtime reap spares boots in flight: every one it takes is a Session
  over the cap (`Overshoot.EarlyReapsOvershoot`). With boots shorter than that it takes none
  (`Lifetimes.PromptBootsKeepTheCap`).
- A boot that a shutdown ends is promised no Failed page; the context check and the page are two
  steps, and a cancellation between them leaves one (`Shutdown.RacingFailure`).
- The egress proxy checks a plain request's host with port 80 and then dials by the scheme, so an
  https URL without a port reaches 443 on a host declared for 80 only (`Egress.HttpsWithoutAPort`).
- What a failed proxy attachment printed reaches the Owner unscrubbed (`Boot.Compose.Provision`).
- Only one build of a Project is promised to run at a time. An edit while one runs lets a second start
  (`Races.EditWhileRunning`), so does a publish recorded but reported as failed
  (`Races.DoubtWhileRunning`), and a build of more services than its row has can be reclaimed alive
  and doubled (`Races.ShortWindow`). Without these it holds, and after the builds concerned have
  ended it holds again (`Builds.OneBuildAtATime`, `Builds.IdleProjectsAreSound`).
- A stale build is promised never to outlive an edited run contract. An edit while a build runs, or
  between the handler's read and the build's start, lets it be published under the new manifest
  (`Races.EditWhileRunning`, `Races.EditWhileReading`). So does an edit at rest: the cache goes by
  image name and commit, so after an edit of a Dockerfile alone, with no repository moved, the next
  publish is served the old Dockerfile's images without a build (`Contents.RepublishServesOldImages`,
  `Races.EditOfADockerfile`; exactly when, `Builds.UneditedIsUpToDateIff` and `Contents.AsDeclaredIff`).
- A host gets only its own Session's routers, provided that no rule's text holds a backquote. API
  prefixes are put into rules unescaped and are not checked for it, and an accepted one makes an API
  answer another host on every path (`Routing.QuotedIsAccepted`, `Routing.QuotedTakesOther`;
  `Rules.MountReadsIff` has the exact condition).
- A '$' in a static variable, a command or a health check is interpolated away by `docker compose`
  (`Interpolation.SurvivesIff`, `Interpolation.DoubledIsHalved`).
- A drain does not wait for a Play that has added its route and not yet counted its boot
  (`Shutdown.DrainedLeavesOnlyLive`, `Shutdown.PlayIsUncounted`).
- A use counter that wraps makes the image just built the coldest; in a full cache Build itself evicts
  it and returns its tag (`ImageCache.WrapForgetsTheNewest`).
- A host's lower-casing is not undone for a configured domain with capitals (`Registry.HostRoundTrip`).
- A Guest who spells a Project's uuid with capitals is answered, but asks for images nobody built
  (`Publish.PlayAsksForWhatWasBuilt`).
- Container addresses are called unique across Sessions; that needs ids without '-', which minted ids
  are but the Runner does not demand (`Runner.AddressesCanMeet`, `Stack.NetworkNamesMeet`).
- The migrator applies a late, lower-numbered file out of order without complaint
  (`Migrate.InOrderIff`), also on the way to refusing an edited one (`Migrate.RefusedIff`). A binary without any migrations does not refuse a database whose versions
  are all 0 or less (`Migrate.OlderRefusesNewerResumes`).

## Model

| member | source | states |
|---|---|---|
| Protocol.CapIsKept | internal/session/session.go:106-125 | Every single step, by any goroutine, keeps the number of Booting and Live routes within the cap, apart from Sessions reaped mid-boot |
| Protocol.OnlyPlayActivates | internal/session/session.go:117-137 | No step but the Play that holds the admission lock makes a Session active: neither the Runner's second Add, Promote, nor the route that Fail recreates |
| Protocol.FineIsKept | internal/runner/compose.go:117-204 | One step keeps, for each Session, that its boot owns its Booting route, that its containers sit behind an active route, and that what the reaper is about to do to it cannot have moved underneath its snapshot |
| Protocol.InvAlongRun | internal/session/session.go:149-162 | The whole invariant survives every interleaving of Plays, boots, failures, cancellation and reaper ticks |
| Protocol.SlotsAndStacksWithinCap | internal/session/session.go:98-125 | In every run from the empty world, active Sessions and running Stacks stay within maxSessions, apart from exactly the Sessions in the two history sets |
| Protocol.TerminalRoutesAreEmpty | internal/proxy/proxy.go:111-127 | In every run a Failed or Crashed route has no backends and no containers, and every container sits behind a Booting or Live route, apart from the history sets |
| Protocol.HistoryIsWhatHappened | internal/runner/compose.go:157-203 | The two history sets are exactly: Sessions with a failed `compose down` on the boot path, and Sessions the reaper began to tear down while their boot was in flight |
| Protocol.LifecycleTheorem | internal/session/session.go:98-162 | In terms of steps alone: with no reap of an in-flight boot the cap bounds active Sessions; if also no boot-path `compose down` fails, every Stack is visible to the reaper and Stacks are within the cap |
| Protocol.StrandedForever | internal/session/reaper.go:148-163 | Containers that outlive their Session's failed boot are never stopped by any later step: the reaper tears no terminal Session down |
| Protocol.FailedDownStrands | internal/runner/compose.go:196-203 | From every reachable world, for a Session the reaper has neither begun on nor listed in its current scan, a boot whose `compose down` fails and which then settles leaves its containers running through every later run, so the hypothesis above is needed |
| Overshoot.WithinCapAndEarly | internal/session/session.go:98-125 | In every run the active Sessions number at most the cap and the Sessions reaped mid-boot together |
| Overshoot.EarlyReapsOvershoot | internal/runner/compose.go:145-155 | That bound is tight: for every positive cap and every k there is a run with exactly k boots reaped in flight that ends with cap + k active Sessions, because each boot re-Adds the route the reaper took |
| Lifetimes.TimedIsARun | internal/session/reaper.go:129-208 | With a clock, in which the reaper tears down what its scans judge, everything that happens is a run of the lifecycle |
| Lifetimes.YoungIsSpared | internal/session/reaper.go:165-176 | A scan tears no boot down before MaxRuntime has passed since a scan first saw it |
| Lifetimes.PromptBootsKeepTheCap | internal/session/reaper.go:165-170 | If every boot ends before MaxRuntime has passed since a scan first saw it, no boot in flight is ever reaped and the cap bounds the active Sessions; if also no boot-path `compose down` fails, it bounds the Stacks, each of them visible to the reaper |
| Overshoot.LenIsActiveIff | internal/proxy/proxy.go:170-177 | The count of routes is the documented count of booting and live Sessions exactly when no route is terminal |
| Overshoot.RouteTableIsUnbounded | internal/proxy/proxy.go:170-177 | Under any positive cap the route table reaches any size n |
| Shutdown.BootingStaysInFlight | internal/session/session.go:128-162 | Along every run a Booting route has its boot behind it, counted in flight or about to be |
| Shutdown.DrainedLeavesOnlyLive | internal/session/session.go:164-183 | Once no boot is counted in flight, the only Booting routes are those of Plays between adding the route and counting the boot, and only Live Sessions have containers, apart from the history sets |
| Shutdown.PlayIsUncounted | internal/session/session.go:128-133 | Such routes occur: after the step that adds it a new Session is Booting and no drain waits for it |
| Shutdown.NoFailureAfterCancel | internal/session/session.go:153-161 | After cancellation the only Failed pages a run can still add are those of boots that had read the context as not done just before it |
| Shutdown.EachStillCan | internal/session/session.go:153-161 | Each of those boots can: its next step adds the page |
| Shutdown.RacingFailure | internal/session/session.go:153-161 | From any world with a failed boot, the run in which it reads the context, the shutdown cancels and the boot then adds its Failed page |
| Interleaving.OthersLeaveItStanding | internal/session/session.go:149-162 | Whatever the other goroutines do, a boot stays at the point it has reached, the reaper at its, a Play under the admission lock at its, and a cancellation stays |
| Interleaving.PathOthers | internal/session/session.go:149-162 | A goroutine's run with anything the others can do put in is still a run with the same steps of its own |
| Registry.Registry.Add | internal/proxy/proxy.go:76-88 | The map gains or replaces exactly this id's Booting route, host included |
| Registry.Registry.Promote | internal/proxy/proxy.go:92-102 | A present route turns Live and keeps its backends; an absent one is reported and nothing changes |
| Registry.Registry.Remove | internal/proxy/proxy.go:105-109 | Exactly this id goes |
| Registry.Registry.Fail | internal/proxy/proxy.go:111-127 | The route, recreated if gone, is terminal with no backend left; well-formedness is kept |
| Registry.Registry.Len | internal/proxy/proxy.go:170-177 | The number of routes in every state |
| Registry.Registry.Snapshot | internal/proxy/proxy.go:180-205 | Whatever order the map is walked in, the result is strictly increasing in the id and holds exactly the map's routes |
| Registry.Registry.StateByHost | internal/proxy/proxy.go:129-142 | The state of the one Session a host names, or none |
| Registry.SortRoutes | internal/proxy/proxy.go:199-205 | The in-place insertion sort leaves a permutation in id order |
| Registry.LessInDictionary | internal/proxy/proxy.go:199-205 | That order is the dictionary's: the first difference decides, and a text comes before what it begins |
| Registry.EnumerationIsUnique | internal/proxy/proxy.go:179-197 | Two listings with strictly increasing ids and the same members are the same list, so map order leaves no trace |
| Registry.HostRoundTrip | internal/proxy/proxy.go:144-160 | The id is read back from its own host, with or without a port, exactly when the configured domain is lower case |
| Registry.BareHostRoundTrip | internal/proxy/proxy.go:144-160 | The same for a host without a port |
| NetAddr.SplitUndoesJoin | cmd/egress-proxy/main.go:163-183 | Splitting host:port undoes joining it |
| NetAddr.JoinUndoesSplit | cmd/egress-proxy/main.go:163-183 | Joining what a plain address split into gives the address back |
| Boot.Compose.Provision | internal/runner/compose.go:117-176 | With any steps of other goroutines between its own: its own steps are those of its fate, registry and docker end where the whole run leads, it succeeds exactly when the plan, `up` and attaching all do; a failed `up` reaches the Owner without the minted password, a failed attach with docker's output as it is |
| Boot.Compose.Teardown | internal/runner/compose.go:180-204 | For a boot and for the reaper alike, with other goroutines in between: containers go before the route, and on failure the route stays |
| Undisturbed.BootStepsRun | internal/session/session.go:149-162 | A whole boot by itself is a run of the lifecycle made of boot steps only |
| Undisturbed.BootOutcome | internal/session/session.go:32-42 | An undisturbed boot ends Live over running containers, or Failed, or gone when stopping; containers stay behind exactly when it got to `up`, failed, and `down` failed too: the exact extent of the Provisioner contract |
| Boot.Manager.Play | internal/session/session.go:106-137 | Refused exactly when the cap is on and the table holds that many routes; otherwise, whatever others do in between, its own steps are admission and the Play of a new id, and then, without the lock, the launch that counts its boot in flight; it returns the Session's own URL |
| Boot.Manager.Boot | internal/session/session.go:149-162 | With any steps of other goroutines between its own, the goroutine's steps are exactly those of its fate, the context check and the settling apart, and registry, docker and the in-flight count end where the whole run leads |
| Boot.Manager.Shutdown | internal/session/session.go:164-183 | Its own step is the cancellation; it reports a drain exactly when no boot is counted in flight at the end of its wait and the deadline is not what it picks |
| Boot.Manager.constructor | internal/session/session.go:80-93 | A new manager over an empty registry shows the lifecycle's start |
| Runner.SessionBackends | internal/runner/compose.go:386-400 | The UI backend is the last UI service's and the API backends are exactly the API services', each at http://s-<id>-<service>-1:<port> |
| Runner.AddressLeadsBack | internal/runner/compose.go:382-391 | Split as an address, that URL gives the container's name and the port its service listens on |
| Runner.PortsTellApart | internal/runner/compose.go:386-391 | Services on different ports have different addresses |
| Runner.IdsAre | internal/runner/compose.go:361-372 | The Runner takes ids of a-z, 0-9 and '-', so every minted one |
| Runner.ApisAreTheApiServices | internal/runner/compose.go:386-400 | The API backends are exactly the API services, each with its own prefix and container address |
| Runner.UiIsTheUiService | internal/runner/compose.go:307-312 | With one UI service, the UI backend and the returned URL are its |
| Runner.AddressesAreUnique | internal/runner/compose.go:382-391 | Container addresses of ids without '-' are equal only for the same Session and service |
| Runner.AddressesCanMeet | internal/runner/compose.go:361-372 | With '-' in ids, which the Runner accepts, two Sessions' containers can have one address |
| Runner.ResolvePlatformEnv | internal/runner/compose.go:340-356 | It fails exactly on a platform variable other than DATABASE_URL and otherwise gives that one its DSN, if asked for |
| Runner.PlannableIff | internal/runner/compose.go:298-335 | A Project can be planned exactly when the contract holds, every service has an image, an allow-list has a proxy image, and platform variables are asked for only with a database and only the one |
| Runner.BuildPlan | internal/runner/compose.go:298-335 | It succeeds exactly on a plannable Project, with the compiled plan, the UI's URL and exactly the minted secrets |
| Runner.SessionRunsAsDeclared | internal/runner/compose.go:298-356 | A planned Session bears its own names, runs each service on its own image under the Runner's runtime, gives the database the minted password, and hands every service that asked for it the address of that database, credentials included |
| Runner.PrepareBoot | internal/runner/compose.go:117-143 | Everything before the first shared step fails exactly when the Session cannot be started |
| Scrub.ScrubSecrets | internal/runner/compose.go:421-429 | No secret apart from the marker's characters survives, in any order and overlap; nothing new appears; output without secrets is unchanged |
| Scrub.ReplaceAllIsExact | internal/runner/compose.go:419-429 | Replacing exchanges every occurrence and keeps every other character: one list of pieces, free of the old text, glued by either text |
| Scrub.OccurredBefore | internal/runner/compose.go:421-429 | What occurs after a replacement occurred before it, and is not what was replaced |
| Scrub.HexIsApart | internal/runner/compose.go:434-440 | A minted hexadecimal password shares no character with the marker |
| Reaper.Reaper.Tick | internal/session/reaper.go:129-208 | For every order the route map is walked in, routes, clocks and the set of teardown calls end up as the per-Session judgement says, each call made once |
| Reaper.Reaper.ScanSession | internal/session/reaper.go:148-206 | The loop body carries out the judgement of one Session on its clock, its route and the calls |
| Reaper.Reaper.DetectCrash | internal/session/reaper.go:215-237 | The health branch moves the unhealthy clock and crashes exactly as judged; an error does neither |
| Reaper.Reaper.CrashSession | internal/session/reaper.go:242-251 | A crash tears down and, only if that worked, leaves a Crashed route without backends |
| Reaper.Reaper.Reap | internal/session/reaper.go:256-265 | A reap untracks the Session exactly when its teardown worked; otherwise it is retried |
| Reaper.Reaper.Prune | internal/session/reaper.go:139-146 | Exactly the clocks of Sessions without a route are forgotten |
| Reaper.PartialNext | internal/session/reaper.go:148-206 | Visiting one Session puts its outcome in place and touches no other, which is why order does not matter |
| Reaper.PartialEnd | internal/session/reaper.go:129-208 | Having visited all is the pointwise result |
| Reaper.Scan.For | internal/session/reaper.go:148-206 | A scan's time, health answer and teardown outcome are the Session's own; there is no count exactly when the scrape failed, and a Session without a sample counts 0 |
| Verdicts.ClockIsOverItsHistory | internal/session/reaper.go:65-87 | A Session's clock in the reaper is the clock over its own sights alone, while its route is there |
| Verdicts.MaxRuntimeIff | internal/session/reaper.go:165-170 | The max-runtime verdict falls exactly at MaxRuntime after the first scan on a non-terminal Session: never early, never skipped |
| Verdicts.LifetimeIsBounded | internal/session/reaper.go:165-170 | With scans at most d apart and teardowns that work, no scan from t0 + MaxRuntime + d on still sees the Session |
| Verdicts.BootingIsOnlyTooOld | internal/session/reaper.go:165-176 | A boot in flight is torn down exactly when MaxRuntime has passed since a scan first saw it |
| Ticks.TickIsARun | internal/session/reaper.go:129-208 | A tick, visiting in any order, is a run of the lifecycle's reaper steps: same routes, and exactly the Stacks whose teardown worked are stopped |
| Verdicts.LingeredIff | internal/session/reaper.go:153-163 | A terminal route goes exactly when FailureLinger has passed since some earlier terminal scan, and a terminal scan tears nothing down |
| Verdicts.CrashIff | internal/session/reaper.go:215-237 | Crashed exactly when unhealthy now and at least CrashGrace ago with no healthy answer between; failed polls count neither way |
| Verdicts.IdleIff | internal/session/reaper.go:172-206 | Idle exactly when the count is compared now, was compared at least Idle ago, and every comparison between read the same; failed scrapes are no comparison |
| Verdicts.UnrequestedIsReaped | internal/session/reaper.go:148-206 | A Live Session that no successful scrape has a sample of, never unhealthy and younger than MaxRuntime, is torn down as idle by a tick no later than the second of two successful scrapes Idle apart: the call is made and, if it works, the route goes |
| ImageCache.Builder.Build | internal/builder/builder.go:114-144 | One request refines the move-to-front list, or, when the 64-bit counter wraps, the list with the image at its end; the answer is name:version, a version over 12 characters cut to 12, exactly when served; with ':'-free names every cached image is in docker's store, built at its version with the Dockerfile of the request that built it, and the returned tag names such an image unless it was evicted at once |
| ImageCache.Builder.Evict | internal/builder/builder.go:148-160 | The loop ends with the list cut to the cap, taking no remaining entry's image |
| ImageCache.Builder.Coldest | internal/builder/builder.go:150-156 | The least stamp is found whatever the map order, the empty start key included |
| ImageCache.Builder.RemoveImage | internal/builder/builder.go:162-166 | At most that tag goes; a failure is ignored |
| ImageCache.Builder.constructor | internal/builder/builder.go:94-106 | A cap below one becomes one, and the cache is empty |
| ImageCache.StampFront | internal/builder/builder.go:117-123 | Stamping an entry with the next counter value puts it in front and keeps the order of the rest |
| ImageCache.DropColdest | internal/builder/builder.go:148-160 | The entry with the least stamp is the last of the list, so evicting it drops exactly the last |
| ImageCache.HitIff | internal/builder/builder.go:119 | The map hits exactly when the list holds that name at that version |
| ImageCache.CacheIsLastServed | internal/builder/builder.go:146-160 | After any history, failed builds included, the cache is the max most recently served names, each at its last served version |
| ImageCache.RecencyIsLastServed | internal/builder/builder.go:59-65 | The uncut list names exactly what was served, ordered by last serving |
| ImageCache.StampsAreLastServings | internal/builder/builder.go:59-65 | Each stamp is the place of that name's last serving |
| ImageCache.CacheAgreesWithBuilding | internal/builder/builder.go:108-144 | A miss answers what building answers; a hit answers the image of the request that built it, and that is what building now would give exactly when that request had the same Dockerfile |
| ImageCache.OneDockerfileAgrees | internal/builder/builder.go:108-113 | So on a history that never asked for an image with two Dockerfiles the cache answers as building does, sparing only builds that would fail now |
| ImageCache.DockerfileEditIsMissed | internal/builder/builder.go:117-123 | After any served request, the same version under any other Dockerfile is answered with the image that was there |
| ImageCache.HitWasBuilt | internal/builder/builder.go:108-123 | A cached image was built by the last request at which it was not cached, at exactly that version, and its Dockerfile on record is that request's |
| ImageCache.TagsApart | internal/builder/builder.go:131 | Tags of ':'-free names are equal only for the same name and the same 12-character prefix |
| ImageCache.CommitsApart | internal/builder/builder.go:168-178 | A full commit's tag ends in its first 12 characters, so commits that differ there have different tags |
| ImageCache.BackedAfterReplace | internal/builder/builder.go:136-141 | Invalidation takes no other entry's image, also when two versions share a 12-character prefix and so one tag |
| ImageCache.BackedAfterDrop | internal/builder/builder.go:157-158 | Eviction takes no other entry's image |
| ImageCache.WrapForgetsTheNewest | internal/builder/builder.go:117-160 | A request that meets the wrapping counter is forgotten by Build itself exactly when the cache is full of other names; otherwise it is next to be evicted |
| ImageCache.ColonsCollide | internal/builder/builder.go:131 | With ':' in names two entries can share a tag |
| Projects.Store.CreateProject | internal/store/projects.go:79-95 | A fresh draft, or NameTaken when the Owner uses the name |
| Projects.Store.GetOwnerProject | internal/store/projects.go:100-117 | The Owner's own row and nobody else's |
| Projects.Store.GetPublishedProject | internal/store/projects.go:124-141 | The row exactly when the id is a uuid and the row is published |
| Projects.Store.StartBuild | internal/store/projects.go:347-371 | 'building' and stamped exactly when the row is the Owner's and not building already; else NotFound or InProgress |
| Projects.Store.MarkBuildFailed | internal/store/projects.go:378-393 | 'failed' with its error, published untouched |
| Projects.Store.PublishProject | internal/store/projects.go:247-262 | Published, settled and pinned in one step |
| Projects.Store.UpdateProject | internal/store/projects.go:274-308 | A changed manifest makes a draft of the row; a rename changes the name only; NotFound and NameTaken leave the table alone |
| Projects.Store.SetProjectSlug | internal/store/projects.go:173-190 | Only the slug changes, empty clearing it; SlugTaken and NotFound leave the table alone |
| Projects.Store.ReclaimStuckBuilds | internal/store/projects.go:319-338 | In any row order, exactly the stale building rows turn 'failed', and the count is theirs |
| Projects.UuidText | internal/store/projects.go:18-20 | A project id is five groups of 8, 4, 4, 4 and 12 hexadecimal digits with dashes between |
| Projects.KeyFoldsCase | internal/store/projects.go:100-117 | Two ids name one row exactly when they differ in case at most |
| Published.TableStaysOk | internal/store/projects.go:45-72 | After any sequence of statements: published exactly when a commit is recorded, build error exactly when 'failed', building rows stamped, names and slugs unique per Owner |
| Published.PinStep | internal/store/projects.go:239-308 | Only a publish or a manifest change moves the played version; failures, reclaims, starts, renames and slugs never do |
| Published.PlayedIsLatestPublish | internal/store/projects.go:119-141 | At any point a Guest gets these commits exactly when some statement published them and none since published or changed the manifest |
| Published.OthersSeeNothing | internal/store/projects.go:97-99 | Another Owner's statement on a row answers and acts exactly as if the row were missing |
| Published.OtherRowsUntouched | internal/store/projects.go:247-393 | A statement about one Project leaves every other row as it was |
| Published.OwnersAreForever | internal/store/projects.go:40-73 | Whatever statements follow, a Project stays and stays its Owner's |
| Builds.InvAlongRun | internal/project/publisher.go:41-87 | Every interleaving of requests, builds, sweeps, edits, crashes and restarts keeps the timed invariant |
| Builds.OneBuildAtATime | internal/store/projects.go:310-371 | While no running build of a Project lost its row to an edit or a doubtful publish, and none has more services than the row had, there is at most one; the row is 'building' since its start, and no sweep reclaims it |
| Builds.IdleProjectsAreSound | internal/store/projects.go:347-371 | Once no build of a Project runs, whatever befell it before no longer matters to the theorem above |
| Races.EditWhileRunning | internal/store/projects.go:282-308 | Every manifest edit during a running build leads on to two live builds, and to a publish of that build under the edited manifest, which is not the one it read unless the edit went back to it |
| Races.DoubtWhileRunning | internal/project/publisher.go:81-86 | Every publish that is recorded but reported as failed leads on to two live builds |
| Races.ShortWindow | internal/store/projects.go:310-338 | Every build that starts on a row of fewer services than it read can be reclaimed alive by the sweep, and then doubled |
| Races.EditWhileReading | internal/project/project.go:267-310 | Every manifest edit between the handler's read and its build leads on to a publish of that build under the edited manifest, with the same exception |
| Races.EditOfADockerfile | internal/store/projects.go:264-308 | Every edit of Dockerfiles alone: with its last images still cached and no repository moved, the Project is published again without a build, under the edited manifest and with the images of the Dockerfiles before |
| Builds.RecoveredInTime | internal/project/publisher.go:106-141 | A Project still 'building' started at most (n+1)T + grace before the last sweep that worked, whatever crashed, was cancelled or edited; with sweeps on schedule it stays so at most max(grace, 1 min) longer |
| Builds.RestartRecovers | internal/project/publisher.go:113-114 | The first sweep of a restart that works settles a build whose window has passed |
| Builds.PlayedAsBuiltIff | internal/store/projects.go:264-273 | What was last published is what the played manifest declares, Dockerfiles included, exactly when the latest publish found the row with the manifest that was built and every image made with its Dockerfile |
| Builds.UneditedIsUpToDateIff | internal/project/publisher.go:78-81 | Of a build whose Project was not edited since it was read, that holds exactly when every image it published was made with the Dockerfile the manifest declares |
| Contents.AsDeclaredIff | cmd/controlplane/main.go:396-410 | The images of a publish or a play are those the manifest declares exactly when each one that was cached as it was asked for had been built with the Dockerfile declared now |
| Contents.PublishedAsDeclaredIff | cmd/controlplane/main.go:224-259 | The same of a publish at its pins |
| Contents.ServedAgain | internal/builder/source.go:52-60 | Right after a build of images that fit, asking for them again, with whatever Dockerfiles, builds none and yields the same images |
| Contents.RepublishServesOldImages | cmd/controlplane/main.go:242-259 | Publish, edit only Dockerfiles, publish again with no repository moved: the same images are asked for, none is built, and those of the Dockerfiles before are published |
| Publisher.HeadlineCommit | internal/project/publisher.go:92-104 | The first UI service's commit; without one, the first non-empty commit if there is one |
| Publisher.HeadlineIsTheUi | internal/project/publisher.go:89-98 | With one UI service, as validation has it, the headline is its commit, empty if it has none |
| Publisher.HeadlineWithoutUi | internal/project/publisher.go:98-104 | With no UI service it is the commit of the first service that has one, and empty exactly when none has |
| Publisher.Publisher.Settle | internal/project/publisher.go:55-87 | A finished build's writes are exactly steps of the timed machine that end its flight, whether each write is recorded, lost, or recorded and reported as failed, and whatever others do in between; a build that finds itself cancelled leaves its row to the sweep, and a cancellation after it looked does not stop its failure write |
| Publisher.FailureText | internal/project/publisher.go:68-85 | The recorded error is the missing installation, the output of the build or its last 4096 characters after a mark, or that publishing failed |
| Publisher.Publisher.ReapOnce | internal/project/publisher.go:132-141 | One sweep of the timed machine |
| Publish.ResolveCommits | cmd/controlplane/main.go:232-253 | It fails exactly when a reference does not parse or a repository's one question is not answered; otherwise each name gets a HEAD of its last service's own repository |
| Publish.QuestionsOnce | cmd/controlplane/main.go:232-251 | However HEAD moves, every repository is asked, none twice, and nothing else |
| Publish.PinsAreOnePerRepo | cmd/controlplane/main.go:232-253 | Every service gets a full commit, and services sharing a repository, each the last of its name, the same one |
| Publish.BuildServices | internal/builder/source.go:46-81 | Pinned or not, it succeeds exactly when each image is specified and served, and yields for each name its last service's own tag, at its pin, the Project's, or else its repository's HEAD; the Dockerfile behind each image is its service's if it missed and the cached one if it hit; with ':'-free names every cached image stays in docker's store with its content |
| Publish.TagsSpelled | internal/builder/source.go:60-70 | Each pinned service's tag is showcase/<project>-<service>: with the first 12 characters of its own pin, or of the Project's |
| Publish.BuildProject | cmd/controlplane/main.go:224-259 | A publish works exactly for a non-empty draft whose repositories resolve and whose images are all served at their pins; it returns the pins, leaves those images freshly in the cache, and says which Dockerfile each was made with |
| Publish.PlayAsksForWhatWasBuilt | internal/project/source.go:36-63 | Playing a recorded publish asks for exactly the images it built if and only if the id is spelled canonically |
| Publish.PlayReturnsWhatWasPublished | internal/project/source.go:50-63 | From publish to play: whatever was built in between and wherever HEAD is by then, a play that works returns for each service the very tag the publish built |
| Publish.PlayAfterPublishBuildsNothing | internal/builder/source.go:52-60 | If the services fit the cache, a play right after its publish is served even where no build would succeed |
| Manifest.Validate | internal/runcontract/manifest.go:156-279 | The reported problems are exactly the broken rules, and there are none exactly when the contract holds |
| Manifest.ValidIffContract | internal/runcontract/manifest.go:156-279 | No rule is broken exactly when the order-free contract holds: unique unreserved names, one UI, unique API prefixes, seed and db rules |
| Manifest.SafePathStaysInside | internal/runcontract/manifest.go:130-152 | A Dockerfile path is accepted exactly when it is relative, has no backslash, and the walk along it never leaves the context and ends below its root |
| Manifest.NamesAre | internal/runcontract/manifest.go:20-134 | Names, egress hosts and ports are exactly those of the documented patterns |
| Compile.Compile | internal/runcontract/compile.go:79-202 | It succeeds exactly on what can be compiled, with the plan; otherwise the failure names something really wrong |
| Declared.PlanIsAsDeclared | internal/runcontract/compile.go:79-279 | Said of the plan alone: each service declared has one container of its name, on its image, with its argv as probe and the resolved environment, each name's last variable or the proxy's; the seed runs its command on its service's image; the database is engine:version with the given credentials; the sidecar has the rules; every container is one of these, confined and capped as documented |
| Compile.ResolveAppEnv | internal/runcontract/compile.go:323-340 | Static and platform variables, the last of a name winning, never an Owner secret; it fails exactly on a missing platform value |
| Compile.InjectProxyEnv | internal/runcontract/compile.go:256-279 | The six proxy variables are added over the environment, in any order |
| Compile.ProxyKeysClobberNothing | internal/runcontract/compile.go:251-269 | On a valid manifest the proxy variables overwrite none of the Owner's |
| Stack.PlanNamesDistinct | internal/runcontract/compile.go:96-199 | No two services of a compiled plan share a name |
| Stack.AppServices | internal/runcontract/plan.go:116-125 | The filter gives back exactly the Owner's services in the manifest's order |
| Stack.PlanDependsEarlier | internal/runcontract/compile.go:96-199 | Every dependency names a strictly earlier service |
| Stack.AppsWaitForTheirData | internal/runcontract/compile.go:133-198 | In every admissible startup no app starts before the seed exited or, without one, the db is healthy |
| Stack.InOrderIsAdmissible | internal/runcontract/compile.go:96-199 | A plan with backward dependencies can be brought up in list order, to the last service |
| Stack.PlanCanStart | internal/runcontract/compile.go:96-199 | Every compiled plan has a complete admissible startup |
| Stack.OnlyTheSidecarLeavesTheNetwork | internal/runcontract/compile.go:96-134 | The sidecar is the only service off the internal network, and it and the outbound network exist exactly when there is an allow-list |
| Stack.OwnerImagesAreConfined | internal/runcontract/compile.go:151-199 | Every Owner image, the seed's included, runs hardened and without the database volume, with only injected variables |
| Stack.RunnerNetworksDiffer | internal/runner/compose.go:298-305 | With the Runner's options the two network names differ, and no two Sessions share one of a kind |
| Stack.NetworkNamesMeet | internal/runcontract/compile.go:98-125 | One Session's internal network bears another's outbound name exactly when its id is the other's with -egress appended |
| ComposeFile.ToCompose | internal/runcontract/compose.go:9-75 | Each key holds the last service of that name; networks and volumes are the plan's |
| ComposeFile.RenderedText | internal/runcontract/compose.go:33-72 | Every setting of a service under its own key, volumes in the long form, dependency conditions by Compose's names |
| ComposeFile.RenderingLosesNothing | internal/runcontract/compose.go:33-72 | A rendered service reads back as the service it came from |
| ComposeFile.CompiledFileIsLossless | internal/runcontract/compose.go:33-72 | For a compiled plan the map has one entry per service and each reads back: none lost, none overwritten |
| Interpolation.SurvivesIff | internal/runner/compose.go:155-160 | Under `docker compose`'s interpolation a value comes out as it went in, in every environment, exactly when it holds no '$' |
| Interpolation.CompiledFileSurvivesIff | internal/runcontract/compose.go:33-72 | Every service of a compiled plan reaches docker as compiled, in every environment, exactly when no value of it holds a '$' |
| Interpolation.StaticDollarIsLost | internal/runcontract/compose.go:47 | A variable whose value holds a '$' is not one of those |
| ComposeFile.SealedNetworkSurvives | internal/runcontract/compose.go:17-31 | The sealed network stays sealed exactly when no outbound network has its name |
| Egress.ParseAllowlist | cmd/egress-proxy/main.go:143-158 | The allowed set is exactly the destinations of the entries, blank and malformed ones skipped |
| Egress.AllowlistRoundTrip | internal/runcontract/compile.go:314-320 | Parsing what the compiler rendered, in the other program, gives exactly the declared pairs |
| Egress.AllowedIffDeclared | cmd/egress-proxy/main.go:131-183 | For a validated list, a well-formed destination is allowed exactly when that pair was declared |
| Egress.OnlyDeclaredIsAdmitted | cmd/egress-proxy/main.go:131-183 | Whatever the client sends, what the check lets through is a declared pair |
| Egress.DialedIsDeclaredIff | cmd/egress-proxy/main.go:67-129 | What a request dials is a declared pair exactly when it is a CONNECT, or its host has no blanks around it and it names a port, has scheme http, or the host is declared for 443 too |
| Egress.DeclaredIsDialed | cmd/egress-proxy/main.go:67-129 | A declared pair asked for by CONNECT, or with its port over http or https, is dialed |
| Egress.DialedIff | cmd/egress-proxy/main.go:67-129 | What the check admits is dialed, but for a scheme that is neither http nor https |
| Egress.HttpsWithoutAPort | cmd/egress-proxy/main.go:95-129 | For every host declared for 80 and not for 443: a plain request for its https URL is let through and dials 443 |
| Egress.SidecarEnforcesTheManifest | internal/runcontract/compile.go:288-320 | The sidecar of a compiled plan, given its own environment, allows exactly what the manifest declares |
| Rules.ReadsIff | internal/proxy/config.go:64-97 | Any rule, written out, reads back as the expression meant exactly when no literal in it holds a backquote |
| Rules.HostReadsIff | internal/proxy/config.go:66 | A rendered host rule reads as that host exactly when the host has no backquote |
| Rules.MountReadsIff | internal/proxy/config.go:83-118 | A rendered mount rule reads as the host and the mount on a segment boundary exactly when neither holds a backquote |
| Routing.MountIsASegmentPrefix | internal/proxy/config.go:111-119 | Of texts without a backquote, the rendered rule matches exactly that host and the paths at or below the prefix on a segment boundary |
| Routing.SlashMakesNoDifference | internal/proxy/config.go:111-119 | A prefix declared with a slash at its end or without gives the same rule |
| Routing.RoutersListen | internal/proxy/config.go:99-105 | Every router has the configured entry point, or none, and priority 1 or 100 |
| Manifest.AnyRootedPrefixIsFree | internal/runcontract/manifest.go:191-207 | Of an API prefix the contract asks only for a leading '/' and that no other service has it |
| Routing.QuotedIsAccepted | internal/runcontract/manifest.go:191-207 | So it accepts, for every host, a certain prefix with backquotes |
| Routing.QuotedTakesOther | internal/proxy/config.go:74-97 | With which that API's router answers that host, whoever's it is, on every path: the condition of the next four rows is needed |
| Routing.KeyNamesOneSession | internal/proxy/config.go:80-90 | A router or service key of ids over a-z2-7 names one Session and one service |
| Routing.Build | internal/proxy/config.go:64-97 | The loops give the Live Sessions' own entries and the status entries of the others, with the rules as rendered text |
| Routing.SessionsApart | internal/proxy/config.go:80-90 | No two Sessions write one key |
| Routing.NothingIsOverwritten | internal/proxy/config.go:64-97 | Every Session's entries survive the building of all others |
| Routing.LiveIsServed | internal/proxy/config.go:74-97 | If no rendered text holds a backquote: a Live host's path goes to an API exactly when some mount holds it, and otherwise to the UI, and the answering router leads to that backend's address |
| Routing.NonLiveIsStatus | internal/proxy/config.go:66-73 | If no rendered text holds a backquote: every host that is not live goes to the status service on every path |
| Routing.StrangersAreUnanswered | internal/proxy/config.go:64-97 | If no rendered text holds a backquote: a host that is no Session's gets no router |
| Routing.MatchIsOwn | internal/proxy/config.go:64-97 | If no rendered text holds a backquote: a matching router always belongs to the host's own Session |
| Metrics.UiNameLeadsBack | internal/proxy/metrics.go:62-69 | A line labelled with a minted UI service name, provider suffix or not, is attributed to its id |
| Metrics.ApiNameLeadsBack | internal/proxy/metrics.go:62-69 | So is one labelled with a minted API service name |
| Metrics.SampleOfALine | internal/proxy/metrics.go:71-100 | A line of Traefik's service request counter labelled with a Session's UI or API adds its last field to that Session |
| Metrics.OnlyCounterLinesCount | internal/proxy/metrics.go:71-100 | No line adds anything that is not the counter's, has no such label, or ends in no number |
| Metrics.ParseCounts | internal/proxy/metrics.go:71-100 | Each Session seen gets the 64-bit sum of its samples; a read error yields nothing |
| Metrics.NoiseIsIgnored | internal/proxy/metrics.go:71-100 | Interleaved unrelated lines change nothing |
| Metrics.SumsAreConserved | internal/proxy/metrics.go:71-100 | The sums over the Sessions add up to the sum over the matching lines |
| Metrics.CountsAreConserved | internal/proxy/metrics.go:71-100 | So do the returned counts, modulo 2^64 |
| Migrate.LoadMigrations | internal/store/migrate.go:144-177 | Refused exactly for an unreadable name or a repeated version; otherwise strictly increasing, each migration some file's number, name, body and that body's checksum, and each file's there |
| Migrate.NumberedNameIsRead | internal/store/migrate.go:180-191 | A numbered file name is read back, leading zeros or not |
| Migrate.OnlyNumberedNamesAreRead | internal/store/migrate.go:180-191 | Only a number, a '_' and a name that is not empty is read |
| Migrate.Database.ApplyOne | internal/store/migrate.go:104-119 | Body and record go in together or not at all, also when the commit's answer is lost |
| Migrate.Database.Migrate | internal/store/migrate.go:47-100 | One start is the specified run: refused, failed or done, with what it applied |
| Migrate.RunExtendsPrefix | internal/store/migrate.go:88-99 | From a prefix a run never refuses, ends in the same or a longer prefix, succeeds only with the whole list, and does nothing on the whole list |
| Migrate.AlwaysAPrefix | internal/store/migrate.go:43-46 | After any sequence of starts, of any versions of the binary whose lists begin one append-only list, rolled forward and back, each failing anywhere, the database holds a prefix of that list, each migration applied once and in order |
| Migrate.OneStart | internal/store/migrate.go:75-100 | No start of any of those binaries takes anything back |
| Migrate.EditedIsRefused | internal/store/migrate.go:88-94 | Against its own first n versions a run is refused exactly when a recorded file was edited, and then applies nothing |
| Migrate.EditedFileIsRefused | internal/store/migrate.go:88-99 | From files to verdict: a binary whose files bear the names the database was migrated with is refused exactly when some recorded file's body was edited, and then applies nothing, as long as no two bodies share a checksum |
| Migrate.RefusedIff | internal/store/migrate.go:75-99 | Against any database a run is refused exactly for newer versions or when all that is missing before the first edited file commits; it has then applied just that, so nothing exactly when every version before that file is recorded |
| Migrate.OlderRefusesNewerResumes | internal/store/migrate.go:75-86 | An older binary leaves a newer one's database unchanged, and refuses it unless it has no migrations at all and all versions applied are at most 0; a newer binary takes up what an older one left, and its success completes it |
| Migrate.InOrderIff | internal/store/migrate.go:75-100 | A run that succeeds on a database in version order applies exactly what is missing, and leaves it in version order exactly when the versions recorded before were the first of its list |
| Migrate.InsertedBelowIsOutOfOrder | internal/store/migrate.go:43-46 | So a migration numbered below the last applied one is always applied out of order, with success |

## Left out

- Reaper.Reaper.Tick: is stated for a registry nobody else touches during the tick; `Ticks.TickIsARun` makes it a run, and `Protocol` interleaves runs.
- ImageCache.Builder.Build: is stated up to and including the request at which the 64-bit counter wraps, not beyond it, where stamps can be equal.
- Publish.BuildServices: is stated for a builder whose counter has a value left for each service, as is Publish.BuildProject.
- Manifest.Validate: reports kinds of problems with their places instead of message texts.
- Routing.LiveIsServed: says some matching API when prefixes nest, since Traefik breaks equal priorities itself; hosts match exactly.
- Metrics.ParseCounts: takes the number syntax of a sample, and its conversion to 64 bits, as a parameter.
- Publish.ResolveCommits: takes the parsing of repository references as a parameter; installation tokens are part of the answers.
- Publisher.Publisher.Settle: counts characters, not bytes, in the error tail; the publisher's drain is not modelled.
- Egress.DialedIsDeclaredIff: leaves out the IDNA conversion of host names, a proxy environment of the sidecar itself, and name resolution.
- Builds.OneBuildAtATime: assumes that a build settles by its (n+1)T deadline plus grace; the row and the build are stamped by one clock.
- Rules.ReadsIff: reads the part of Traefik's rule language that the proxy writes; its other matchers and signs, and what its lexer does to control characters inside a literal, are not modelled.
- Interpolation.SurvivesIff: takes what a braced expression stands for as a parameter, without nested braces.
- Running without a registry (the Runner's standalone mode), the demo fixture, its fallback source and the startup warm-up.
- Docker, git, BuildKit, Traefik, GitHub and Postgres themselves; each SQL statement is one atomic guarded update.
- HTTP handlers, cookies, OAuth, configuration loading, logging and the user interface: no deep property of their own.
- JSON and YAML encoding, taken as injective; rendering is modelled up to the maps it marshals.
- Fresh ids of the minted alphabet, fresh uuids and fresh secrets are assumptions, not modelled randomness.
- `docker compose ps` parsing, form mapping, slug and username syntax, list queries: easy members.
- Strings are sequences of code points, lower-casing is ASCII, and a zero time is an absent option.
