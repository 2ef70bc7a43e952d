# A model of BuildKit CLI for kubectl

`kubectl buildkit` keeps BuildKit builders running as Deployments in a Kubernetes cluster. This project models its
cores that are easy to get wrong, and proves what they keep in every run. `dafny verify dfyconfig.toml` checks all of
it.

| file | what it models |
|---|---|
| `BuilderProtocol.dfy` | any number of processes bootstrapping one Deployment: polling, the runtime flip, the forced clean-up |
| `BuilderHistory.dfy` | what such a process's steps add up to: its error, its reports, its clean-up |
| `BuilderLoop.dfy` | `createBuilder` itself, loops and variables: it takes the steps of such a process |
| `FlipDecision.dfy` | exactly when such a process flips the runtime |
| `ConfigMapProtocol.dfy` | any number of processes creating or updating one ConfigMap |
| `WaitProtocol.dfy` | a whole bootstrap, repeated by `Boot` or not: first the ConfigMap, then the Deployment |
| `EventLog.dfy` | `logEvents`: which event messages are reported, and which reach the callback |
| `Boot.dfy` | the outer retry loop |
| `Factory.dfy` | driver options to driver fields, the flip of the runtime, the environment option |
| `DriverMeaning.dfy` | what the options of a new driver mean, read off the option map by name |
| `Manifest.dfy` | the Deployment and the ConfigMap built from the options, and what a pod's labels advertise |
| `ImageIndex.dfy`, `Combine.dfy` | the manifest-list merge: parallel gather, merge loop, closed form, nesting |
| `FanIn.dfy` | the progress fan-in: goroutines, a once, a wait group and the close of a shared channel |
| `CredentialDecoding.dfy` | registry credentials: base64 (section 4 of RFC 4648) and `user:password` |
| `PodChooser.dfy` | listing, random choice and sticky choice of builder pods |
| `PlatformUtil.dfy` | platform lists: parsing, removing duplicates, formatting in groups |
| `ResetTime.dfy` | rebasing progress timestamps |
| `Text.dfy` | the string functions of Go's standard library that these need |

Concurrent code is a step machine: `Next` gives the state after one action or None, `Run` folds it over any list of
actions, so a theorem about `Run` covers every interleaving, failed call and early end. Sequential code that updates
things in place is a method on a class or an array, proved against a function; the laws are lemmas about that
function.

What the model assumes of the outside:

- The API server answers Create on an existing object, and Update with a stale version, with an error; every write
  that changes the object gets a new version, and an Update that changes nothing keeps the old one. A call may fail at any time, also after the server has carried it out. Lists and events are
  arbitrary. Nobody runs `rm`.
- Fetching, JSON, digests, the platform library and the hash ring are functions of their arguments. Only where a law
  needs it, JSON is lossless but for empty annotation maps, `Normalize` is idempotent, and the ring gives a member of
  a non-empty list.
- The random choice reads `pods[n]` before the slice is shifted. Go leaves that order open;
  `PodChooser.OrderOfReadingMatters` says when it shows.
- Progress records are fresh and distinct objects (`ResetTime.Run`). `ResetTime.WriteThroughReset` shows what
  `progress.Write`, which sends a copy of a record, gets instead.

Where the code does something else than its comments or one's expectation, the model follows the code:

- `createBuilder` may return nil at the end of its context with no builder ready: wrapping a nil error gives nil. It
  returns an error there exactly when the last answer that it kept was one
  (`BuilderHistory.ContextExitReturnsLastAnswer`), so an ordinary time-out, in which every call succeeded and too few
  replicas were ready, gives nil (`BuilderHistory.OrdinaryTimeoutReturnsNil`). Only the other exit means ready
  (`BuilderProtocol.ReturnMeansReady`), and only `Boot.Boot` promises that success was earned. The comment at
  `pkg/driver/kubernetes/creation.go:58` says that the latest error is returned.
- Errors of the flip callback go to a shadowed variable and are lost; the loop keeps polling.
- A flip is tried once. One that ends in rootless with containerd, or with an unreadable config file, fails after the
  options were edited; one whose Update is refused or lost is not repeated either, and any change of the Deployment's
  status between the last read and the Update refuses it. The runtime then counts as the user's choice
  (`BuilderHistory.FailedFlipIsFinal`, `BuilderHistory.StatusChangeSpoilsFlip`).
- The docker socket follows the docker exporter exactly, but the containerd socket follows the `worker` option while
  the containerd exporter follows the `runtime` label (`Manifest.ContainerdSocketMatchesFeature`,
  `Factory.ContainerdSocketNeedsWorker`).
- The index that `Combine` makes is typed as a Docker manifest list, whatever its sources were.
- Combining nothing, and then a single index, re-encodes that index: the one case in which two rounds of `Combine`
  differ from one.
- A `WithPrefix` call is safe from the goroutines exactly while no call has been made yet, or the writer is not done
  and some input is still open (`FanIn.OpenIsExactlySafe`). Otherwise the last exit may release the waiting closer at
  any time, for good: a group that has grown again when the closer wakes makes it panic, and so does a later send on
  the closed output. The writer's own end is nobody's choice; counting it too, only calls made before there is any
  forwarder are safe (`FanIn.OnlyFirstCallsAreSafeFromWriterEnd`).
- The merge loop writes into the annotation map of the first descriptor of each digest. A list in which another
  descriptor shares a written map, and is read later or kept under another digest, shows the write
  (`Combine.SharedMapShowsWrite`, `Combine.MergeSharedUnderTwoDigests`, `Combine.MergeSharedAcrossWrite`);
  `Combine.MergeEntries` allows every other sharing.

## Model

| member | source | states |
|---|---|---|
| BuilderProtocol.CompareAndSwapIsSafe | pkg/driver/kubernetes/creation.go:105-116 | In every run of any number of processes at most one Create is ever stored, it is the first write and happens only when no Deployment was there; no two stored Updates replaced the same version, unless the first of them changed nothing; the object is always the last write |
| BuilderProtocol.UpdateReplacesWhatWasRead | pkg/driver/kubernetes/creation.go:212-218 | An Update that changes the server replaced exactly the object this process last read, appends one write with that version as its base, and stores a containerd Deployment |
| BuilderProtocol.RuntimeNeverGoesBack | pkg/driver/kubernetes/creation.go:192-218 | Between any two moments of a run the Deployment stays, keeps its UID, its version does not fall, and a containerd runtime never goes back to docker |
| BuilderProtocol.FlipAndCleanupAreSafe | pkg/driver/kubernetes/creation.go:186-240 | Over all calls of createBuilder that a process makes with its driver: one whose user chose the runtime never flips; deletions come only after its own stored Update, first the one replica set owned by the Deployment it read, then pods owned by that replica set, nothing else |
| FlipDecision.FlipStartsExactlyOnMountFailure | pkg/driver/kubernetes/creation.go:186-191 | In every run a step starts a flip if and only if it handles an event about the pod in hand, not Normal, with a message not reported before, whose reason is FailedMount and whose text says somewhere that something is not a socket file, and the user did not choose the runtime |
| BuilderLoop.BuilderCall.CreateBuilder | pkg/driver/kubernetes/creation.go:98-248 | The polling loop with its variables takes exactly the steps of a process of the protocol, until it returns or its inputs end |
| BuilderLoop.BuilderCall.GetOrCreate | pkg/driver/kubernetes/creation.go:105-122 | Get, or Create where nothing is found, and the return once enough replicas are ready |
| BuilderLoop.BuilderCall.InspectReplicas | pkg/driver/kubernetes/creation.go:126-246 | The loop over the owned replica sets, in order, broken off by a failed listing of events |
| BuilderLoop.BuilderCall.InspectPods | pkg/driver/kubernetes/creation.go:155-245 | The loop over the pods of one replica set, in order, skipping those that it does not own |
| BuilderLoop.BuilderCall.LogPodEvent | pkg/driver/kubernetes/creation.go:186-243 | One event of a pod and its callback, with all of its exits |
| BuilderLoop.BuilderCall.Flip | pkg/driver/kubernetes/creation.go:192-209 | The edit of the two options and the new initialisation |
| BuilderLoop.BuilderCall.UpdateAndCleanUp | pkg/driver/kubernetes/creation.go:211-240 | The guarded Update, and after a stored one the deletions |
| BuilderLoop.BuilderCall.DeleteReplica | pkg/driver/kubernetes/creation.go:221-239 | The forced deletions: the replica set, then those of the listed pods that it owns |
| BuilderLoop.BuilderCall.Report | pkg/driver/kubernetes/creation.go:70-93 | One event of logEvents, with the message written out |
| BuilderLoop.BuilderCall.HasOwner | pkg/driver/kubernetes/driver.go:96-103 | True exactly if some owner reference has the UID |
| BuilderLoop.BuilderCall.OwnedBy | pkg/driver/kubernetes/creation.go:274-281 | The filter of getReplicaSets as a loop |
| BuilderProtocol.EffectsOccurOnce | pkg/driver/kubernetes/creation.go:187-209 | Over all calls of createBuilder that a process makes with its driver it flips at most once, deletes at most one replica set, and deletes nothing before its flip was stored |
| BuilderHistory.CleanupIsComplete | pkg/driver/kubernetes/creation.go:221-239 | In every run, once the clean-up is over it has asked for the deletion of exactly the listed pods owned by the deleted replica set: all of them, once each per listing, in list order; and of none without a deleted replica set |
| BuilderHistory.FailedFlipIsFinal | pkg/driver/kubernetes/creation.go:187-217 | A process whose flip has begun and which is not about to send its Update never stores one and never deletes anything, in this call of createBuilder or a later one |
| BuilderHistory.StatusChangeSpoilsFlip | pkg/driver/kubernetes/creation.go:211-217 | Any status change between the last read and the Update makes the Update fail, and with it the flip for good |
| BuilderHistory.DeleteKeepsCleanupInv | pkg/driver/kubernetes/creation.go:230-239 | One step of the clean-up extends the pods deleted so far to those owned among one more listed pod |
| BuilderProtocol.ReportsAndIdentity | pkg/driver/kubernetes/creation.go:67-95 | Over all polling rounds of a call no message is logged or handed on twice, and over all calls the Deployment that a process would write differs from its first one only in what a flip may change |
| BuilderProtocol.ReturnMeansReady | pkg/driver/kubernetes/creation.go:118-122 | Leaving the loop other than by the context: no error, and at least int32(minReplicas) replicas were ready when last read |
| BuilderHistory.ContextExitReturnsLastAnswer | pkg/driver/kubernetes/creation.go:98-139 | In every run, a call that its context ends returns an error if and only if the last answer it kept, of Get, Create, the replica set listing or their event listings, was an error; none at all counts as no error |
| BuilderHistory.RunKeepsErrInv | pkg/driver/kubernetes/creation.go:98-139 | In every state of a run the error variable says whether the last kept answer was an error, and is nil inside a round |
| BuilderHistory.QuietRoundThenTimeout | pkg/driver/kubernetes/creation.go:98-103 | From any reachable state at the end of a round, a context that ends then makes the result nil, however few replicas are ready |
| BuilderHistory.OrdinaryTimeoutReturnsNil | pkg/driver/kubernetes/creation.go:98-131 | Wherever a Deployment with too few ready replicas is stored, there is a run in which all calls succeed, the context ends, and the result is nil |
| BuilderHistory.TimeoutCanReturnNil | pkg/driver/kubernetes/creation.go:98-103 | So does a context that has ended before the first call |
| BuilderHistory.PodEventsAreReported | pkg/driver/kubernetes/creation.go:179-186 | In every run, a process at the end of a pod's events has reported every listed event that is about the pod, also across a flip |
| BuilderHistory.ReplicaEventsAreReported | pkg/driver/kubernetes/creation.go:133-138 | The step that lists a replica set's events reports every one that is about it |
| BuilderHistory.MoverKeepsErrInv | pkg/driver/kubernetes/creation.go:98-160 | One step of a process changes the error variable to the answer it keeps, and else leaves it |
| BuilderProtocol.ReturnKeepsInv | pkg/driver/driver.go:126-154 | Another call of createBuilder with the same driver keeps the invariant: what the calls before did stays on record |
| WaitProtocol.ConfigMapComesFirst | pkg/driver/kubernetes/driver.go:106-115 | In every run of any number of processes, repeated bootstraps included, createBuilder reaches the server and a Deployment is written only when the ConfigMap exists already |
| WaitProtocol.DefaultNeverOverwrites | pkg/driver/kubernetes/creation.go:43-47 | Repeated bootstraps included, the ConfigMap is never removed, and overwritten only by a process with a user's config, with its own contents |
| WaitProtocol.EachCallStoresTheUsersConfig | pkg/driver/kubernetes/creation.go:26-54 | Of each call in a repeated bootstrap: createConfigMap returns nil only with the ConfigMap there, and in a process with a user's config only after its own contents were stored in that same call |
| WaitProtocol.UserConfigIsTheDrivers | pkg/driver/kubernetes/creation.go:43 | In every run the ConfigMap's part and the driver agree on whose config it is, also after a flip |
| WaitProtocol.BuilderPartIsARun | pkg/driver/kubernetes/driver.go:106-115 | The Deployment's part of a run of whole bootstraps is a run of the builder protocol, so that all its theorems hold there |
| BuilderProtocol.NextKeepsInv | pkg/driver/kubernetes/creation.go:98-248 | One step of any process or of the cluster keeps the invariant of the server and of every process, and only moves the server's object on |
| BuilderProtocol.RunKeepsInv | pkg/driver/kubernetes/creation.go:59-248 | The invariant holds after every run |
| BuilderProtocol.StepKeepsInv | pkg/driver/kubernetes/creation.go:98-248 | The same for one step of one process, seen by that process and by the others |
| BuilderProtocol.UpdateKeepsInv | pkg/driver/kubernetes/creation.go:212-218 | A stored Update keeps the chain of versions and the containerd runtime |
| BuilderProtocol.CreateKeepsInv | pkg/driver/kubernetes/creation.go:106-111 | A stored Create keeps it, as the first write |
| BuilderProtocol.FollowsKeepsOthers | pkg/driver/kubernetes/creation.go:105-116 | What the other processes know stays true when one process writes |
| BuilderProtocol.StartFlipKeepsInv | pkg/driver/kubernetes/creation.go:187-209 | Starting a flip is possible only from the untouched driver, and marks the runtime as chosen whether or not initialisation succeeds |
| BuilderProtocol.FlipOfNewDriver | pkg/driver/kubernetes/creation.go:204-209 | What a flip leaves in a driver fresh from its factory: chosen runtime, same identity, containerd if it succeeded |
| BuilderProtocol.DeleteKeepsInv | pkg/driver/kubernetes/creation.go:221-239 | Every forced deletion is of the flipped replica set or of a pod owned by it |
| BuilderProtocol.VersionsGrow | pkg/driver/kubernetes/creation.go:211-213 | Versions grow along the writes: each Update's base is at least every earlier write's version |
| BuilderProtocol.ChildrenOf | pkg/driver/kubernetes/creation.go:274-280 | getReplicaSets keeps exactly the listed replica sets owned by the Deployment's UID |
| EventLog.EventLogger.LogEvents | pkg/driver/kubernetes/creation.go:69-95 | The closure with its growing map does what the specification function says, for every batch and callback |
| EventLog.VisitKeepsLogInv | pkg/driver/kubernetes/creation.go:70-93 | One event keeps: messages logged once, callbacks once per message and never for Normal; a matching event ends up reported |
| EventLog.VisitAllKeepsLogInv | pkg/driver/kubernetes/creation.go:69-95 | A batch keeps that; when it completes every matching event is reported |
| EventLog.BatchReportsItsEvents | pkg/driver/kubernetes/creation.go:70-85 | A batch reports only messages of its own object's events, and exactly all of them when it completes |
| EventLog.RoundsReportOnce | pkg/driver/kubernetes/creation.go:67-95 | Over any number of rounds and batches nothing is logged or handed on twice, and nothing is forgotten |
| ConfigMapProtocol.OnlyUserConfigsOverwrite | pkg/driver/kubernetes/creation.go:33-47 | In every run the object is created at most once, every later write is an Update by a process with a user's config, and the object is the last write |
| ConfigMapProtocol.StepOverwritesOnlyWithUserConfig | pkg/driver/kubernetes/creation.go:43-47 | A step never removes the object, and changes existing contents only to the stepping process's own user config |
| ConfigMapProtocol.ReturnIsTruthful | pkg/driver/kubernetes/creation.go:26-54 | A process returns an error exactly when it leaves by its context; without one the object exists, and a user config was itself stored at some step |
| ConfigMapProtocol.UndisturbedCall | pkg/driver/kubernetes/creation.go:26-54 | A call that nobody disturbs returns nil: it creates a missing object, updates one with a user's config, and leaves one alone otherwise |
| ConfigMapProtocol.RunKeepsInv | pkg/driver/kubernetes/creation.go:22-55 | The invariant behind these holds after every run |
| ConfigMapProtocol.NextKeepsInv | pkg/driver/kubernetes/creation.go:26-53 | One step of any process keeps the invariant |
| ConfigMapProtocol.NextShape | pkg/driver/kubernetes/creation.go:33-47 | A step moves one process, and its write, if any, is a Create exactly when there is no object yet |
| Boot.Boot | pkg/driver/driver.go:122-156 | Success is exactly the result of the first successful Clients call made in an iteration where Info said Running or Bootstrap returned nil, with no Info error before; the first Info error ends the loop; otherwise the context ends it, always with an error |
| Factory.OptionsAreOrderIndependent | pkg/driver/kubernetes/factory.go:127-196 | For every order of Go's map iteration the option loop fails exactly when some option is not accepted, and else gives the settings that the set of options means, each field on its own |
| Factory.ApplyAllPrefix | pkg/driver/kubernetes/factory.go:129-196 | The same for the part of the map that has been walked, in any order |
| Factory.Driver.ReadOptions | pkg/driver/kubernetes/factory.go:127-196 | The loop that writes driver fields as it goes equals the fold over its order |
| Factory.Driver.InitDriverFromConfig | pkg/driver/kubernetes/factory.go:110-252 | For any map order: accepted options give exactly the fields and the result of the order-free specification; otherwise it fails and leaves Deployment, ConfigMap and minReplicas as they were |
| Factory.FlipStaysAccepted | pkg/driver/kubernetes/creation.go:204-206 | Options that were accepted are accepted again after the flip edits runtime and worker |
| Factory.FlipSetsUserSpecified | pkg/driver/kubernetes/factory.go:171-182 | After a flip the runtime counts as the user's choice, even if initialisation fails later |
| Factory.FlipKeepsIdentity | pkg/driver/kubernetes/creation.go:204-209 | A flip keeps name, selector, replicas, image, environment and rootless label; if it succeeds the runtime is containerd |
| Factory.UserConfigIsFixed | pkg/driver/kubernetes/factory.go:228-250 | The config is the user's exactly when the driver was made with a config file, and no flip changes that |
| Factory.FlipFailsExactlyWhenRootlessOrUnreadable | pkg/driver/kubernetes/factory.go:203-250 | A flip succeeds if and only if the options do not ask for rootless and the config file, if any, can be read |
| Factory.FlippedOpt | pkg/driver/kubernetes/factory.go:198-221 | The deployment options after a flip are those before it with runtime and worker containerd |
| Factory.NewDriverFields | pkg/driver/kubernetes/factory.go:171-182 | A new driver counts the runtime as the user's choice exactly when an option other than auto names one; else it builds for docker |
| Factory.ContainerdSocketNeedsWorker | pkg/driver/kubernetes/factory.go:203-205 | With runtime=containerd the containerd socket is mounted exactly when a worker option says auto or containerd |
| DriverMeaning.ExactlyTheseAreAccepted | pkg/driver/kubernetes/factory.go:130-195 | The accepted options, by name and value |
| DriverMeaning.OptionsMean | pkg/driver/kubernetes/factory.go:110-221 | All deployment options of a new driver, read off the option map by name: defaults, overrides, rootless image, runtime and worker |
| DriverMeaning.NewDriverSucceedsExactly | pkg/driver/kubernetes/factory.go:198-250 | A driver can be made if and only if the options do not ask for rootless with a containerd worker, named or following a containerd runtime, and the config file, if any, can be read |
| DriverMeaning.NewDriverFieldsMean | pkg/driver/kubernetes/factory.go:222-250 | Namespace, load balancing, replica count, Deployment and ConfigMap of a driver that was made; both objects share name, labels and annotations |
| DriverMeaning.NewDriverBuilds | pkg/driver/kubernetes/manifest/manifest.go:59-152 | What its Deployment says, in terms of the options: names, image, replicas, labels, arguments, privileges, environment, anti-affinity |
| DriverMeaning.RootlessPodsAreUnconfined | pkg/driver/kubernetes/manifest/manifest.go:154-166 | The annotations of its pods |
| DriverMeaning.NewDriverSockets | pkg/driver/kubernetes/factory.go:198-211 | For every runtime: the containerd socket is mounted iff the worker is containerd, or auto with a containerd runtime; the docker socket iff the runtime is not containerd and rootless is not wanted |
| DriverMeaning.NewDriverMountsShowRight | pkg/driver/kubernetes/manifest/manifest.go:105-350 | What its pods find at each mounted path: the host's sockets as the options name them, the driver's own ConfigMap, the custom one, and else the host's directory of the same path |
| DriverMeaning.AtoiOfItoa | pkg/cmd/create.go:73 | The number of replicas that the command line writes is the one that is read, for every 64-bit number |
| DriverMeaning.AtoiReadsSignedDigits | pkg/driver/kubernetes/factory.go:136 | Nothing but digits with at most a sign is read as a number |
| DriverMeaning.ParseBoolKnowsTwelveWords | pkg/driver/kubernetes/factory.go:141 | The words that are read as a truth value |
| Factory.EnvOptionRoundTrip | pkg/driver/kubernetes/factory.go:185-192 | Joining any entries with ';' and reading the option back gives the last-wins map of their ';'-separated pieces, the empty list included |
| Factory.PlainEntriesRoundTrip | pkg/cmd/create.go:82 | For entries without ';' the option reads back as exactly the last-wins map of the entries that contain '=', cut at the first one |
| Factory.EnvReachesDeployment | pkg/driver/kubernetes/manifest/manifest.go:50-57 | From the command line to the Deployment: the entries handed to `--env` come out of the rendered EnvVar list as their last-wins map |
| Factory.SplitOfJoin | pkg/cmd/create.go:82 | Splitting a joined list gives the pieces of its members, in order |
| Factory.CollectEnvIsLastWins | pkg/driver/kubernetes/factory.go:187-192 | The loop over the items builds the last-wins map |
| Manifest.Environments | pkg/driver/kubernetes/manifest/manifest.go:50-57 | Rendering the map in any order: every name once, and the list stands for exactly the map |
| Manifest.NewDeployment | pkg/driver/kubernetes/manifest/manifest.go:59-354 | The base object and its amendments, made in place and in order, give field by field the Deployment of the closed form, with every variable rendered once |
| Manifest.DeploymentIsWellFormed | pkg/driver/kubernetes/manifest/manifest.go:59-354 | For any options at all: mounts and volumes match one to one by name, names and mount paths are unique, and the selector is not empty and contained in the pod labels |
| Manifest.MountsMatchVolumes | pkg/driver/kubernetes/manifest/manifest.go:105-125 | Mounts and volumes match one to one by name, for any options |
| Manifest.MountsDoNotClash | pkg/driver/kubernetes/manifest/manifest.go:177-208 | No two mounts share a name or a path, whatever the builder is called |
| Manifest.MountsShowRight | pkg/driver/kubernetes/manifest/manifest.go:105-350 | For any options, behind each mounted path is the right volume: the named sockets, the ConfigMaps, or the host's same directory |
| Manifest.Features | pkg/driver/kubernetes/driver.go:367-390 | The exporters advertised: exactly those of a chosen pod with containers, not labelled rootless, and with that runtime label |
| Manifest.DockerSocketMatchesFeature | pkg/driver/kubernetes/driver.go:379-385 | The docker socket is mounted if and only if the builder's own pods advertise the docker exporter |
| Manifest.ContainerdSocketMatchesFeature | pkg/driver/kubernetes/driver.go:379-383 | The containerd socket matches the containerd exporter exactly when worker and runtime agree |
| Manifest.MountsByName | pkg/driver/kubernetes/manifest/manifest.go:136-145 | Which sockets are mounted, by the options |
| Manifest.PodAdvertises | pkg/driver/kubernetes/manifest/manifest.go:35-42 | What the labels written by NewDeployment advertise when read back, the rootless label through ParseBool included |
| ImageIndex.MergeIsClosedForm | pkg/imagetools/create.go:77-116 | The merge equals its closed form: unique digests in order of first occurrence, each entry with the first non-empty media type, the last platform and the right-biased union of all annotations |
| ImageIndex.FirstsAreTheElements | pkg/imagetools/create.go:97-100 | The output's digests are, as a set, those of the input, each once |
| ImageIndex.AddDescStep | pkg/imagetools/create.go:80-101 | One step of the loop takes the closed form of what was seen to the closed form with one more |
| ImageIndex.MergeFixesExactlyDistinct | pkg/imagetools/create.go:70-116 | Merging changes nothing if and only if there are no duplicates, and merging is idempotent |
| ImageIndex.MergeNested | pkg/imagetools/create.go:103-116 | Merging any stretch of the list beforehand gives the same entries, with nil and empty annotations identified |
| ImageIndex.MergeOfSameJson | pkg/imagetools/create.go:90-92 | Lists with the same JSON merge to lists with the same JSON |
| ImageIndex.FirstsOfFirsts | pkg/imagetools/create.go:97-100 | Dropping duplicates of a part first leaves the order of first occurrences |
| Combine.GatherIsScheduleIndependent | pkg/imagetools/create.go:28-68 | Every complete schedule of the goroutines ends in the slots that resolving each source alone gives, and fails exactly when some source does |
| Combine.GatherStepKeepsInv | pkg/imagetools/create.go:28-64 | A goroutine touches only its own slot, and each slot holds what its own source gives, also after a cancellation |
| Combine.GatherRunKeepsInv | pkg/imagetools/create.go:28-64 | The same in every state of a run |
| Combine.GatherTerminates | pkg/imagetools/create.go:28-66 | An unfinished gather can always move, and every move uses up a bounded budget |
| Combine.ResolveAll | pkg/imagetools/create.go:32-61 | The sources resolve together exactly when each does, each to its own result |
| Combine.ResolvedSource | pkg/imagetools/create.go:32-61 | What a source becomes, in terms of the registry's answers: its bytes, its media type, and the platform that was given or that its config says; everything else as given |
| Combine.ResolveFailsExactly | pkg/imagetools/create.go:32-61 | The gather fails if and only if some source cannot be fetched, has no readable media type or platform where one is needed, or is schema1 |
| Combine.CombineFailsExactly | pkg/imagetools/create.go:66-116 | Combine fails if and only if that is so, or an index among several sources cannot be parsed |
| Combine.ManifestsKeepTheirPlatforms | pkg/imagetools/create.go:47-116 | Image manifests with different digests come out as the entries of the new index, in order, each with the platform that was given or that its own config says |
| Combine.OutputDescribesItself | pkg/imagetools/create.go:118-144 | A new index is described by its own media type, length and digest, and nothing else |
| Combine.LoneIndexComesBack | pkg/imagetools/create.go:70-75 | A lone index comes back as it was fetched |
| Combine.CombineIsAssociative | pkg/imagetools/create.go:20-145 | Combining a pushed result with more sources gives, byte for byte and error for error, what combining all original sources gives, with the one exception spelled out |
| Combine.CombineSourcesNested | pkg/imagetools/create.go:70-145 | The same for sources already fetched |
| Combine.FastPathAgreesWithLoop | pkg/imagetools/create.go:70-75 | A single index is returned as it is, and the merge loop would keep its entries if and only if they have no duplicate digest |
| Combine.LoneIndexAfterNothing | pkg/imagetools/create.go:70-75 | The exception: a lone index next to the result of combining nothing goes through the loop |
| Combine.OutputEntries | pkg/imagetools/create.go:103-140 | The entries read back from a result are the merge of its sources' entries |
| Combine.MergeEntries | pkg/imagetools/create.go:77-116 | The loop on the heap, which updates annotation maps in place, computes the merge of what the list said on entry, with any sharing of maps in which no write is seen through another entry |
| Combine.CombineAfter | pkg/imagetools/create.go:66-145 | Any complete schedule of the goroutines, followed by the error check, the fast path, the merge loop on the heap and the output, gives the one result that the specification says |
| Combine.RepeatsAreUnseen | pkg/imagetools/create.go:90-95 | No write is seen, in particular, when equal digests come with the same map, as when a descriptor is listed twice |
| Combine.SharedMapShowsWrite | pkg/imagetools/create.go:90-95 | Merging into an entry changes every other entry with its map, exactly unless the copied annotations are there already |
| Combine.MergeSharedUnderTwoDigests | pkg/imagetools/create.go:80-101 | Three descriptors, two of them under different digests with one map: the loop gives the merge of what the list said if and only if the third neither adds nor changes a key of it |
| Combine.MergeSharedAcrossWrite | pkg/imagetools/create.go:80-101 | Three descriptors of one digest, first and last with one map: the loop gives the merge of what the list said if and only if the second changes no key of it |
| Combine.ChangesAreUnseen | pkg/imagetools/create.go:80-101 | In such a list, adding an entry changes no map that another entry of the result or of the rest of the list has |
| Combine.Merger.AddDesc | pkg/imagetools/create.go:80-101 | One call adds or merges one descriptor; `positions` keeps mapping each digest to its place |
| Combine.MergeEntry | pkg/imagetools/create.go:83-96 | The merged entry; the annotation map is the old entry's own one, or a fresh one if it had none |
| Combine.PutAll | pkg/imagetools/create.go:93-95 | Copying annotations in any order gives the right-biased union |
| FanIn.FanInIsSafe | pkg/progress/multiwriter.go:19-49 | When every WithPrefix call is made while none has been made yet, or while some input is open and the writer is not done: in every interleaving no panic, at most one close and only after every forwarder exited, each forwarder's share of the output a prefix of its renamed input, and all of it after a normal end |
| FanIn.RenamedAllAt | pkg/progress/multiwriter.go:34-38 | Renamed means: with force every name of every batch gets the prefix, else none |
| FanIn.PrefixGoesInBrackets | pkg/progress/multiwriter.go:101-106 | A bracketed name gets the prefix inside its bracket, any other in brackets of its own |
| FanIn.PrefixIsInjective | pkg/progress/multiwriter.go:101-106 | No two names become the same |
| FanIn.OpenIsExactlySafe | pkg/progress/multiwriter.go:19-49 | After any such run, a further WithPrefix call with something to send is safe, however the goroutines move before it takes effect and as long as the writer does not end meanwhile, if and only if that condition holds |
| FanIn.OnlyFirstCallsAreSafeFromWriterEnd | pkg/progress/multiwriter.go:43-44 | Counting the writer's own end among what may happen before the call takes effect: in any reachable state the call is safe if and only if there is no forwarder yet |
| FanIn.WriterEndLeadsToHazard | pkg/progress/multiwriter.go:43-44 | From any reachable state with a forwarder, the writer's end and steps of the goroutines make the next such call a hazard |
| FanIn.NotOpenLeadsToHazard | pkg/progress/multiwriter.go:88-92 | From any reachable state where it does not hold, the goroutines alone can end the wait, and the call is then such a hazard |
| FanIn.PanicComesExactlyFromHazard | pkg/progress/multiwriter.go:80-99 | In any reachable state, however the client behaves: a panic can still come if and only if the wait has ended and the group is in use again before the closer has woken, or some forwarder has something left to send |
| FanIn.LateWithPrefixIsHazard | pkg/progress/multiwriter.go:19-49 | A WithPrefix call with something to send creates that hazard exactly when the wait has ended, be the closer awake or not; one with nothing to send exactly until the closer has woken |
| FanIn.DisciplinedRunIsSafe | pkg/progress/multiwriter.go:88-92 | Under that condition on the calls the wait ends only when all forwarders have exited |
| FanIn.RunKeepsInv | pkg/progress/multiwriter.go:26-47 | In every run, disciplined or not, what a forwarder has sent and still holds is what it received, renamed, in order |
| FanIn.NextKeepsSafeInv | pkg/progress/multiwriter.go:88-92 | A step keeps safety unless it is a WithPrefix call after the wait |
| FanIn.HarmlessStaysHarmless | pkg/progress/multiwriter.go:39-44 | Without new forwarders a state without the hazard never panics |
| FanIn.HazardLeadsToPanic | pkg/progress/multiwriter.go:39 | The steps from something left to send after the wait to a panic: of the closer that wakes, or of a send on the closed channel |
| FanIn.BlockedIsBusy | pkg/progress/multiwriter.go:90 | A closer blocked in its wait always has a forwarder to wait for: the last exit releases it |
| FanIn.PrefixVertexes | pkg/progress/multiwriter.go:34-38 | Renaming in place prefixes a vertex once for each time the batch lists it |
| FanIn.DistinctVertexesOccurOnce | pkg/progress/multiwriter.go:34-38 | so exactly once in a batch of distinct vertexes |
| CredentialDecoding.CredentialRoundTrip | pkg/driver/kubernetes/authprovider.go:130-151 | Decoding the base64 text of user ":" password gives back exactly that pair if and only if the user has no ':' and the password neither starts nor ends with NUL |
| CredentialDecoding.DecodeAuthOfEncoding | pkg/driver/kubernetes/authprovider.go:135-150 | The zero bytes left by the over-allocation never show; only NULs of the password itself are lost |
| CredentialDecoding.DecodeAuth | pkg/driver/kubernetes/authprovider.go:130-151 | The code with its buffer computes the specification, for every input, malformed ones included |
| CredentialDecoding.DecodeInto | pkg/driver/kubernetes/authprovider.go:136-141 | The decoder succeeds exactly on valid base64, fills a prefix of the buffer with the decoded bytes, and leaves the rest alone |
| CredentialDecoding.DecodeQuantum | pkg/driver/kubernetes/authprovider.go:138 | One group of four symbols at a time, padding only at the end |
| CredentialDecoding.DecodeInvertsEncode | pkg/driver/kubernetes/authprovider.go:138 | Decoding inverts the encoder of RFC 4648 for every byte string |
| CredentialDecoding.DecodesExactlyPaddedGroups | pkg/driver/kubernetes/authprovider.go:138 | What can be decoded: whole groups of symbols of the alphabet, but for one or two pads at the very end |
| CredentialDecoding.AlphabetIsStandard | pkg/driver/kubernetes/authprovider.go:138 | The alphabet of RFC 4648 |
| CredentialDecoding.OnlyLineBreaksAreDropped | pkg/driver/kubernetes/authprovider.go:138 | Line breaks in the input are dropped, and nothing else |
| CredentialDecoding.DecodeAuthFailsExactly | pkg/driver/kubernetes/authprovider.go:131-148 | The empty text gives empty credentials; text that is not base64, and credentials without a colon, are refused, and nothing else |
| CredentialDecoding.TrimNulIgnoresPaddingZeros | pkg/driver/kubernetes/authprovider.go:149 | Trimming removes any number of trailing zero bytes and gives what it gives without them |
| CredentialDecoding.TrimNulDropsOnlyZeros | pkg/driver/kubernetes/authprovider.go:149 | Trimming changes nothing exactly for text that neither starts nor ends with NUL |
| PodChooser.ListRunningPods | pkg/driver/kubernetes/podchooser/podchooser.go:94-128 | The running pods of the listing, no more and no less, sorted by name |
| PodChooser.SortByName | pkg/driver/kubernetes/podchooser/podchooser.go:124-126 | In-place sorting: a permutation in name order |
| Text.LessIsLexicographic | pkg/driver/kubernetes/podchooser/podchooser.go:124-126 | The order of names is that of a dictionary |
| PodChooser.ListingIsCanonical | pkg/driver/kubernetes/podchooser/podchooser.go:116-127 | Two listings of the same pods, in any order, give the same list |
| PodChooser.ChooseRandom | pkg/driver/kubernetes/podchooser/podchooser.go:31-47 | The chosen pod and the others are a permutation of the running pods; it fails exactly when listing fails or nothing runs |
| PodChooser.RemoveAt | pkg/driver/kubernetes/podchooser/podchooser.go:46 | The in-place shift gives the list without its n-th pod |
| PodChooser.OrderOfReadingMatters | pkg/driver/kubernetes/podchooser/podchooser.go:46 | Were the slice shifted before pods[n] is read, the result would be a partition only for the last pod |
| PodChooser.ChooseSticky | pkg/driver/kubernetes/podchooser/podchooser.go:55-92 | The chosen pod is the one the ring names; the others fill the slots in order, and slots beyond them stay nil |
| PodChooser.FillOthers | pkg/driver/kubernetes/podchooser/podchooser.go:81-89 | The loop with its index fills the slots with all pods of other names |
| PodChooser.IndexPods | pkg/driver/kubernetes/podchooser/podchooser.go:63-68 | Names in order, and a pod of the right name for each |
| PodChooser.StickyIsPartition | pkg/driver/kubernetes/podchooser/podchooser.go:80-91 | With unique names, the chosen pod and the others are a permutation of the running pods, the others in name order and with no nil slot |
| PodChooser.StickyIsCanonical | pkg/driver/kubernetes/podchooser/podchooser.go:55-92 | With unique names, any two listings of the same pods give the same choice and the same slots for one key |
| PodChooser.PermutationKeepsDistinctNames | pkg/driver/kubernetes/podchooser/podchooser.go:124-126 | Sorting keeps names unique |
| PlatformUtil.Parse | pkg/platformutil/parse.go:10-32 | The recursive parser terminates and equals parse-then-normalize over the comma-flattened list |
| PlatformUtil.ParseDistributes | pkg/platformutil/parse.go:10-32 | Parsing distributes over concatenation |
| PlatformUtil.ParseFailsExactly | pkg/platformutil/parse.go:18-28 | Parsing fails if and only if some piece fails |
| PlatformUtil.ParsedPieces | pkg/platformutil/parse.go:25-39 | Each piece becomes the local platform or the parsed one, normalised, in order |
| PlatformUtil.ParseFailsOnUnknownPieces | pkg/platformutil/parse.go:25-39 | Only a piece that is not "local" and that the library does not parse makes parsing fail |
| PlatformUtil.LocalInAnyCase | pkg/platformutil/parse.go:35 | "local" in any mixture of cases |
| PlatformUtil.Dedupe | pkg/platformutil/parse.go:41-54 | The loop keeps the first platform of every key, normalised: the result formats to every key of the list, and to each once |
| PlatformUtil.DedupedTakesTheFirst | pkg/platformutil/parse.go:41-54 | The result holds the first platform of each key, normalised, and nothing else |
| PlatformUtil.DedupeIsIdempotent | pkg/platformutil/parse.go:41-54 | With Normalize idempotent, removing duplicates twice is removing them once |
| PlatformUtil.FormatInGroups | pkg/platformutil/parse.go:56-75 | The output is the format of the deduplicated concatenation, with stars exactly on the entries of the deduplicated first group |
| PlatformUtil.FormatGroup | pkg/platformutil/parse.go:60-72 | One group continues what the groups before it gave |
| ResetTime.Run | pkg/progress/reset.go:9-60 | Over a whole stream of fresh records: batches come out in order, every time of a batch is moved exactly once by the offset in force after it, close is passed on at most once and only when the input is closed |
| ResetTime.TimeWriter.Rebase | pkg/progress/reset.go:21-54 | One batch: the offset is set at most once, and all its records move by it |
| ResetTime.TimeWriter.FindAnchor | pkg/progress/reset.go:21-28 | The offset is fixed by the last started vertex of the first batch that has one |
| ResetTime.OffsetIsFixed | pkg/progress/reset.go:21-28 | Once fixed, the offset never changes |
| ResetTime.DistancesAreKept | pkg/progress/reset.go:29-53 | For the records as the stream leaves them: any two times of any two records from the anchor's batch on keep their distance, within a record, within a batch and across batches |
| ResetTime.NothingMovesBeforeAnchor | pkg/progress/reset.go:29-53 | The records of the batches before the anchor's are as they were |
| ResetTime.OffsetComesWithStart | pkg/progress/reset.go:21-28 | There is an offset exactly from the first batch on in which some vertex has started |
| ResetTime.AnchorBecomesCreationTime | pkg/progress/reset.go:24-35 | For the records as the stream leaves them: the anchor's start is the writer's creation time, exactly when its distance from that is a duration that can be negated |
| ResetTime.WriteThroughReset | pkg/progress/writer.go:17-44 | A copy of a record that has gone through is moved a second time: its duration is kept exactly when the offset is zero |
| Text.Split | pkg/platformutil/parse.go:16 | strings.Split: separator-free pieces that join to the input |
| Text.ContainsIsSomewhere | pkg/driver/kubernetes/creation.go:187 | strings.Contains: the text begins somewhere in the string |
| Text.SplitJoin | pkg/cmd/create.go:82 | Splitting inverts joining for separator-free pieces |

## Left out

- Kubernetes, registry, gRPC, exec and console I/O (`Clients`, `GetVersion`, `Push`, `Resolver`, `NewPrinter`, `Rm`): calls are steps or parameters with arbitrary failure.
- Deletion of the Deployment or the ConfigMap by other users, and edits of the Deployment's spec by people: with them neither the single Create nor the runtime property holds.
- Error texts: every error is one value, or the few values the callers can tell apart.
- Real time, sleeps, liveness, and the quality of randomness; the random number is any number.
- The hash ring, JSON encoding, digest hashing and the platform library are parameters; the branch for a ring that names no pod of a non-empty list is therefore not there.
- `RandomPodChooser` and `StickyPodChooser` start from the API's answer; the label selector of the query is not modelled.
- The default config template is kept as "the default template for this containerd namespace"; its text is not expanded, and parse errors of a constant template are not there.
- The version string in the annotations is one constant.
- Parts of the Deployment that are the same for all builders, such as its readiness probe, and the copying of a shared backing array of `BuildkitFlags` by `append`.
- The resource version that the flip writes into the driver's own Deployment object is the version of the Update call; it is not a field of the built Deployment.
- Forced deletions are by name, while ownership was seen in the listing of the same round: an object recreated under the same name in between is not told apart.
- `Combine.MergeEntries`: lists in which a written map is seen through another entry are excluded; what they give depends on the order of the writes, and JSON never makes such a list.
- `WaitProtocol`: the ConfigMap's contents in a repeated bootstrap are any contents, not those computed by the flip.
- `BuilderProtocol.ReportsAndIdentity`: the log keeps the events of `logEvents`; other progress lines, such as the one that announces the flip, are not in it.
- Base64: the decoder's fast path, which reads eight symbols at a time, is not modelled; its symbol-by-symbol path is.
- `Combine.GatherIsScheduleIndependent`: cancellation by the caller's own context, and the parsing of the reference before the gather.
- Fan-in: a send meets its receiver in one step, and the last exit and the release of the waiter are one step (a call between the two panics at once in the code, and is a hazard in the model); the nil writer is not modelled.
- `ResetTime.Run`: requires fresh, distinct records, as the code does silently; monotonic clock readings are not modelled.
- `Driver.Info`, `Stop`, `List`, secrets, `kubeConn.Close`, `progress.Wrap`, `GetFactory`, command line flags and commands: they would only add easy members.
- `pkg/build` is not part of this model.
