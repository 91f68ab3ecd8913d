# Stream platform: verified model

A Dafny model of the four state machines of the stream platform, with proofs of what they keep over whole runs.

1. **Ingest operator.** A first-fit allocator of node ports; the six cluster objects of an ingest, created and deleted by
   six concurrent goroutines; the leased port, recorded nowhere but inside those objects and found again by a race of two
   searches; the gRPC service (stop, then start); the draining at shutdown,
   all jobs at once.
2. **Identity sessions.** Five relational tables with uniqueness, foreign keys and cascades, and four operations
   (register, login, exchange, sign-out), each one transaction that may roll back at any statement, two of them reading
   around it.
3. **Stream lifecycle.** Starting and stopping a stream, the standalone controller stub, and the two workers that handle
   its messages, sharing two tables, in every interleaving.
4. **The VP8 writer.** Key-frame gate, frame size, millisecond timecodes.

## How it is built

| file | what it holds |
|---|---|
| `Wrappers.dfy`, `Bundles.dfy` | Option and Result; adding and removing one map entry per slot |
| `PortRange.dfy` | the port pool as a value, the allocator class, histories of calls |
| `IngestResource.dfy` | names, builders and searches of the six objects |
| `WebrtcRace.dfy` | the three goroutines and one receiver over the channel |
| `IngestSystem.dfy`, `IngestProperties.dfy` | Start and Stop as methods, their specifications, and what these promise |
| `LeaseProtocol.dfy` | all interleavings of start and stop requests, one API call or pool call a step |
| `LeaseRuns.dfy` | requests driven alone do what the methods do; every run can come to rest; which fleets and templates are safe |
| `Overlap.dfy` | several requests of one app at once, and which apps may overlap so |
| `Ownership.dfy` | whose objects the steps of a run touch |
| `StopCrowd.dfy`, `ShutdownJobs.dfy` | any stops at once, without starts; the shutdown jobs, all running at the same time |
| `Shutdown.dfy`, `IngestService.dfy` | one shutdown job after another; the gRPC service |
| `IngestFailures.dfy` | what API failures do to the leases |
| `IdentityStore.dfy`, `UserService.dfy`, `IdentityRuns.dfy` | tables and statements; the operations; every run |
| `StreamStore.dfy`, `StreamServices.dfy`, `StreamLifecycle.dfy` | tables; service and workers; every interleaving |
| `StreamRuns.dfy` | what each start, stop and deployed message does, and when a row is safe |
| `Vp8Muxer.dfy` | the writer and its output for any packets |

Code that changes state is a class whose methods are proved equal to a specification function of the old state
(`StartSpec`, `StopSpec`, `RegisterTx`, `DeployedTx`, `WriteSpec`, ...); the properties are lemmas about those functions
and about the state machines made of them. Results about port names, object names, labels, limits, claims and messages
state these literally, not through the definitions that compute them. Failures are inputs. An API call is answered
`Works`, `Refused`, or `ReplyLost`, when it takes effect and still reports an error. A statement of a transaction fails
where `Env.fails` says so. *Reliable API* means: Create fails only on a taken key, an owner-checked read only when the
object is absent or another's, and Delete of an object just read succeeds.

Vocabulary: a *lease* is a port taken with GetPort for an app and not given back; an app is *lent* a port while it holds
one. The *fleet* is the apps that a run may start. Two apps *collide* when one is named like a webrtc gateway service of
the other. A cluster key is (kind, namespace, name). Goroutine order, race winners, and reads of earlier committed
databases are nondeterministic or quantified, never fixed.

## Where the code falls short of what one might expect

For each: when exactly the property holds, and a run or an input where it does not.

- **Start, failing, leaves objects behind.** It leaves the cluster as it was exactly when every Create was refused or
  found its key taken (`StartLeavesNothing`), and keeps the lease invariant exactly when every Create was refused
  (`FailedStartKeepsLeases`). Otherwise a later app leases the port of a deployment left behind, the owner's stop frees
  it, and the next start is given it too (`LeakFreesOthersPort`, `LeakSharesPort`; with concrete apps, `LeakOnce`).
- **Stop, failing, gives the port back all the same.** The port is freed while the deployment stands exactly when the
  deployment is read but its Delete refused, or only the gateway service is read (`StopUnderFailures`); Stop keeps the
  lease invariant exactly when it did all of its work or none (`StopKeepsLeases`). Otherwise two deployments can have one
  port (`RefusedDeleteSharesPort`; with concrete apps, `RefusedDeleteOnce`).
- **The race can decide about the pool**: from any cluster, exactly when the two records differ and one of the ports is
  busy (`RaceMatters`); after a reliable start, exactly when the template's own webrtc port is not the leased one
  (`RaceAfterStart`; a concrete start, `RaceCanMatter`). So Start then Stop restores the pool exactly when that port is
  the leased one (`StartThenStop`), and always exactly for templates without one (`StartThenStopExactly`,
  `DeploymentRoundTrip`; `DeploymentRoundTripCanFail`).
- **Names and templates**: with a reliable API, at least two ports and two apps, every run is safe exactly when no app of
  the fleet collides with another and no template names a port `webrtc-tcp` or `webrtc-udp` (`SafeExactly`, whose unsafe
  runs are `UnsafePair` and `UnsafeAlone`). Even so a stop deletes only its own objects: alone, under any failures
  (`OwnershipFrame`), and in every interleaving, for any fleet and templates (`OwnershipOverRuns`).
- **Two requests of one app at once**: let only some apps, the loose ones, have several requests in flight. In a fleet of
  at least two apps that do not collide, every run is safe exactly when no app is loose (`OverlapExactly`). With two
  stops of a loose app, for every range and any launches of it and of another app, a port is given back twice and the
  other's deployment is left with a free port (`PortGivenBackTwice`).
- **Two shutdown jobs can swallow a message**: every reconciliation of a template registers one more job, and all jobs
  run at once. Once they are done, however they interleave, no object is left, no port is busy, and no message has been
  sent twice (`DrainIsComplete`). But each lease with a broadcaster id sends its message in every interleaving exactly when
  its template was registered once (`MessagesExactly`): of two jobs, one may delete the deployment and the other the
  headless service, so that both stops fail (`TwoJobsMayNotTell`; with a concrete app, `SpoiledOnce`).
- **A failed start can end the stream that runs**: it changes the tables exactly when the start call failed, the
  broadcaster has a row already, and the compensation can read and delete it; then that row is gone (`StartDecides`;
  a run, `FailedStartCanDeleteRow`).
- **A deployed message can be lost** (`DeployedCanBeLost`): it takes effect exactly when no statement fails, its
  broadcaster has a row by then, and the generated egress ids are free and distinct (`DeployedDecides`).
- **A destroyed message can delete a newer row** (`DestroyedCanHitNewRow`): with no request of its broadcaster in flight,
  a row is safe until they start or stop again exactly when none of their destroyed messages is unsettled, usable and
  below its last retry (`RowIsSafeExactly`).
- **Exchange does not invalidate the refresh token it replaces**: validation consults the key, never the token table.
  After an exchange that commits every token validates as before, the one it was given included
  (`ExchangeInvalidatesNothing`; a run, `ReplacedTokenValidates`); it ends only by its expiry or its key's sign-out
  (`IssuedTokensValidate`).

## Model

| member | source | states |
|---|---|---|
| PortRanges.RangeProblem | operators/ingestion-operator/pkg/portrange/portrange.go:83-101 | the guards, wrapping subtraction included, accept exactly the ranges inside the borders with at least two ports |
| PortRanges.ValidatePort | operators/ingestion-operator/pkg/portrange/portrange.go:70-81 | a port is accepted exactly when it lies within the borders |
| PortRanges.NewPortRange | operators/ingestion-operator/pkg/portrange/portrange.go:83-108 | succeeds exactly on a good range, with no busy port, and otherwise names the failed guard |
| PortRanges.PortRange.GetPort | operators/ingestion-operator/pkg/portrange/portrange.go:28-42 | the counting loop leases as the pool function does and never overflows uint16 |
| PortRanges.PortRange.PortBack | operators/ingestion-operator/pkg/portrange/portrange.go:44-63 | gives back as the pool function does, with its error for a port out of the borders or not busy |
| PortRanges.BackDecides | operators/ingestion-operator/pkg/portrange/portrange.go:44-81 | giving a port back frees it if it is busy, and otherwise changes nothing and answers that it is 0, above 24999, below 20000, or not busy |
| PortRanges.RangeErrors | operators/ingestion-operator/pkg/portrange/portrange.go:83-101 | which guard refuses which range, in plain comparisons: uint16 wrap-around never decides |
| PortRanges.LeaseIsLeast | operators/ingestion-operator/pkg/portrange/portrange.go:28-42 | a get yields the least free port of the range, and nothing exactly when the busy count is max - min + 1 |
| PortRanges.NoDoubleLease | operators/ingestion-operator/pkg/portrange/portrange.go:28-63 | over any history of calls, a port is handed out again only after a successful give-back of it in between |
| PortRanges.Conservation | operators/ingestion-operator/pkg/portrange/portrange.go:28-63 | over any history, successful gets minus successful backs is the change of the busy count |
| PortRanges.FreshGets | operators/ingestion-operator/pkg/portrange/portrange.go:28-42 | n gets from a fresh pool yield min, min + 1, ... in order, then nothing |
| IngestResources.SlotsHaveOwnKeys | operators/ingestion-operator/resource/ingestresource/ingest_system.go:55-60 | the six object keys of one app are distinct, whatever its name |
| IngestResources.AppsShareKey | operators/ingestion-operator/resource/ingestresource/ingest_system.go:55-61 | two apps share a key if and only if they have the same namespace and one name is the other plus a webrtc gateway suffix |
| IngestResources.AppsShareNoKey | operators/ingestion-operator/resource/ingestresource/ingest_system.go:55-61 | two apps that share a key collide, so one of their names ends in a gateway suffix |
| IngestResources.BadNameCollides | operators/ingestion-operator/resource/ingestresource/ingest_system.go:55-61 | every app so named does collide with some other app |
| IngestResources.IngestHeadlessService | operators/ingestion-operator/resource/ingestresource/ingest_resource_manager.go:130-160 | the loop gives the service one port for each template port, in order |
| IngestResources.IstioVirtualService | operators/ingestion-operator/resource/istioresource/istio_resource_manager.go:78-117 | the filtering loop yields the routes of the TCP ports, in order |
| IngestResources.RoutesMeetService | operators/ingestion-operator/resource/istioresource/istio_resource_manager.go:81-101 | a route to a number exists exactly when the headless service has a TCP port of that number |
| IngestResources.FindDeploymentIngestWebrtcPort | operators/ingestion-operator/resource/ingestresource/ingest_system.go:181-197 | the two nested scans find what the search function does, which FirstContainerPortIsFirst and DeploymentRoundTrip characterise by the two literal names |
| IngestResources.FindServiceIngestWebrtcPort | operators/ingestion-operator/resource/ingestresource/ingest_system.go:199-211 | the scan finds the first webrtc-named port of the service |
| IngestResources.FirstContainerPortIsFirst | operators/ingestion-operator/resource/ingestresource/ingest_system.go:189-196 | nothing is found exactly when no port is called webrtc-tcp or webrtc-udp; otherwise the first port so called is |
| IngestResources.FoundInBuiltDeployment | operators/ingestion-operator/resource/ingestresource/ingest_resource_manager.go:54-65 | in a built deployment the search finds the template's own webrtc port if there is one, else the leased port |
| IngestResources.DeploymentRoundTrip | operators/ingestion-operator/resource/ingestresource/ingest_resource_manager.go:54-65 | every port is recovered from the built deployment if and only if the template names no port webrtc-tcp or webrtc-udp |
| IngestResources.DeploymentRoundTripCanFail | operators/ingestion-operator/resource/ingestresource/ingest_resource_manager.go:54-65 | a template and a lease for which another port is recovered |
| IngestResources.GatewayRoundTrip | operators/ingestion-operator/resource/ingestresource/ingest_resource_manager.go:173-199 | both gateway services give every port back, losslessly through int32 and uint16 |
| IngestResources.BuiltObjectsServe | operators/ingestion-operator/resource/ingestresource/ingest_system.go:55-170 | the six objects built for a launch, under their literal names, fit one another: each gateway service leads to the pod and exposes one port that its container has, by name, number and protocol; the headless service exposes the template's ports; the virtual service names the gateway, has its host, and routes to exactly the headless service's TCP ports; all labels |
| WebrtcRaces.FindFirstWebrtcPort | operators/ingestion-operator/resource/ingestresource/ingest_system.go:213-243 | run to the end in any schedule: nil exactly when neither search found a port, else one of the two finds |
| WebrtcRaces.SomeoneCanMove | operators/ingestion-operator/resource/ingestresource/ingest_system.go:213-243 | until all goroutines are done, one can move: the capacity of two suffices and none stays blocked |
| WebrtcRaces.ChannelHoldsTwo | operators/ingestion-operator/resource/ingestresource/ingest_system.go:213-243 | in every schedule the channel holds at most two values, and while it does the third goroutine waits |
| WebrtcRaces.CompleteSchedule | operators/ingestion-operator/resource/ingestresource/ingest_system.go:213-243 | a schedule that cannot go on has at most six steps, has finished every goroutine and received the port |
| WebrtcRaces.BothWinnersHappen | operators/ingestion-operator/resource/ingestresource/ingest_system.go:213-243 | with two finds, each of them is received in some complete schedule |
| IngestSystems.FetchOwned | operators/ingestion-operator/resource/ingestresource/ingest_resource_manager.go:223-268 | an owner-checked read yields only an object stored under the key, of its kind, labelled with the owner |
| IngestSystems.OwnedReadDecides | operators/ingestion-operator/resource/ingestresource/ingest_resource_manager.go:206-268 | an owner-checked read succeeds if and only if it is answered and the object under the key is of its kind and carries the literal owner label with that owner |
| IngestSystems.IngestSystem.GetOwned | operators/ingestion-operator/resource/istioresource/istio_resource_manager.go:126-171 | a getter reports an object of another owner as not found |
| IngestSystems.StartedOneMore | operators/ingestion-operator/resource/ingestresource/ingest_system.go:85-170 | running one more goroutine of Start is one Create on the cluster left by any set of others: the order is immaterial |
| IngestSystems.IngestSystem.CreateBundle | operators/ingestion-operator/resource/ingestresource/ingest_system.go:83-172 | in any order of the six goroutines the same cluster results, and the group fails exactly when some Create failed |
| IngestSystems.IngestSystem.StartIngestSystem | operators/ingestion-operator/resource/ingestresource/ingest_system.go:54-179 | whatever the order, cluster, pool and error are those of the specification |
| IngestSystems.StoppedOneMore | operators/ingestion-operator/resource/ingestresource/ingest_system.go:260-346 | ending one more goroutine of Stop changes only its own key, and the group has failed exactly when some goroutine has |
| IngestSystems.IngestSystem.StopBundle | operators/ingestion-operator/resource/ingestresource/ingest_system.go:255-348 | in any interleaving of the six Gets and Deletes the same cluster and captured objects result |
| IngestSystems.IngestSystem.StopIngestSystem | operators/ingestion-operator/resource/ingestresource/ingest_system.go:245-384 | whatever the interleaving, cluster, pool, messages and error are those of the specification for one race winner |
| IngestProperties.OwnershipFrame | operators/ingestion-operator/resource/ingestresource/ingest_system.go:260-362 | from any cluster and under any failures, Stop deletes only objects labelled with the app's name, changes no other, and gives back only a port read from such an object |
| Ownerships.OwnershipOverRuns | operators/ingestion-operator/resource/ingestresource/ingest_system.go:83-346 | in every interleaving, for any fleet and any launches, colliding or not, each step deletes and creates only objects labelled with its own app's name and changes no other |
| IngestProperties.RaceMatters | operators/ingestion-operator/resource/ingestresource/ingest_system.go:348-362 | the winner never matters to the cluster; it matters to the pool if and only if the two records differ and one of the ports is busy |
| IngestProperties.RaceAfterStart | operators/ingestion-operator/resource/ingestresource/ingest_system.go:348-362 | after a reliable start the pool depends on the winner if and only if the template's own webrtc port is not the leased one |
| IngestProperties.RaceCanMatter | operators/ingestion-operator/resource/ingestresource/ingest_system.go:348-362 | a reliable start with free keys after which the pool does depend on the winner |
| IngestProperties.FailedStartKeepsPool | operators/ingestion-operator/resource/ingestresource/ingest_system.go:63-66 | Start fails exactly on an exhausted pool, a bad answer or a taken key; a failed Start leaves the pool as it was, and no Start touches an existing object |
| IngestProperties.StartDecides | operators/ingestion-operator/resource/ingestresource/ingest_system.go:54-179 | what Start does, exactly: which objects it creates, when it leases which port, and which of its two errors it returns |
| IngestProperties.StartServes | operators/ingestion-operator/resource/ingestresource/ingest_system.go:54-179 | after a reliable start from a free port and free keys the cluster serves the app at the leased port: six fitting objects as in BuiltObjectsServe |
| IngestProperties.StartLeavesNothing | operators/ingestion-operator/resource/ingestresource/ingest_system.go:83-178 | Start leaves the cluster as it was if and only if every Create was refused or found its key taken |
| IngestProperties.FailedStartLeaks | operators/ingestion-operator/resource/ingestresource/ingest_system.go:172-176 | a failed Start that created the deployment leaves it there with a port that the next get hands out |
| IngestProperties.StopAfterStart | operators/ingestion-operator/resource/ingestresource/ingest_system.go:245-374 | with a reliable API and free keys, Start then Stop restores the cluster, gives back the port found, and publishes once if there is a broadcaster id |
| IngestProperties.StartThenStop | operators/ingestion-operator/resource/ingestresource/ingest_system.go:54-374 | Start then Stop is the identity on cluster and pool for both race winners if and only if the template's own webrtc port, if any, is the leased one |
| IngestProperties.StartThenStopIsIdentity | operators/ingestion-operator/resource/ingestresource/ingest_system.go:54-384 | for a template without webrtc names and a non-empty broadcaster id, all is restored and exactly one message with that id is published |
| IngestProperties.StartThenStopExactly | operators/ingestion-operator/resource/ingestresource/ingest_system.go:54-374 | Start then Stop is the identity on cluster and pool, from every state and for both race winners, if and only if the template calls no port webrtc-tcp or webrtc-udp |
| IngestProperties.StopDecides | operators/ingestion-operator/resource/ingestresource/ingest_system.go:348-374 | under any failures: each of the errors, the port that is freed and the message sent, by which reads and deletes worked, what the winner found, and the literal broadcaster label |
| LeaseProtocol.ReadFindsOwn | operators/ingestion-operator/resource/ingestresource/ingest_resource_manager.go:223-268 | in every reachable state an owner-checked read of an app's key finds the object of its own lease, or nothing |
| LeaseProtocol.StepKeeps | operators/ingestion-operator/resource/ingestresource/ingest_system.go:54-374 | every API call, pool call, join and publish of any request keeps the lease invariant |
| LeaseProtocol.StopJoinKeeps | operators/ingestion-operator/resource/ingestresource/ingest_system.go:348-362 | when the goroutines of Stop have ended, exactly the app's own lease has ended, whoever won the race |
| LeaseProtocol.LeaseSafety | operators/ingestion-operator/grpcserver/ingest/service.go:46-86 | in every interleaving from a fresh operator, for a fleet without colliding apps: busy ports are exactly the lent ones, leases are distinct, every deployment carries its own app's lease |
| LeaseProtocol.GoodNamesAreApart | operators/ingestion-operator/resource/ingestresource/ingest_system.go:59-60 | apps whose names end in no gateway suffix never collide |
| LeaseProtocol.QuiescentBijection | operators/ingestion-operator/resource/ingestresource/ingest_system.go:54-374 | with no request in flight, the port found in a deployment is a bijection from the deployments onto the busy ports |
| LeaseProtocol.QuiescentBundles | operators/ingestion-operator/resource/ingestresource/ingest_system.go:83-172 | with no request in flight, every lent app has all six objects, built for its launch and port |
| Shutdowns.QuiescentServes | operators/ingestion-operator/resource/ingestresource/ingest_system.go:83-172 | in every state at rest, each lent app is served at its busy port by six fitting objects as in BuiltObjectsServe |
| LeaseProtocol.RequestCanMove | operators/ingestion-operator/grpcserver/ingest/service.go:46-86 | a request in flight always has a step of its own that brings it nearer to its end |
| LeaseProtocol.OthersDoNotInterfere | operators/ingestion-operator/grpcserver/ingest/service.go:46-86 | no step of another app's request undoes that progress |
| LeaseRuns.StopDriven | operators/ingestion-operator/resource/ingestresource/ingest_system.go:245-384 | from any state, the protocol's calls of a stop, without interference, leave the cluster, pool and messages that the method leaves |
| LeaseRuns.StartServerDriven | operators/ingestion-operator/grpcserver/ingest/service.go:46-75 | and so do those of a StartServer, for any name and template |
| LeaseRuns.EveryRunCanRest | operators/ingestion-operator/grpcserver/ingest/service.go:46-86 | every run continues, by the calls of the requests in flight alone, to a state with none in flight |
| LeaseRuns.SafeExactly | operators/ingestion-operator/resource/ingestresource/ingest_system.go:54-374 | every run is safe if and only if no two apps of the fleet collide and no template names a port like the webrtc ports |
| LeaseRuns.UnsafePair | operators/ingestion-operator/resource/ingestresource/ingest_system.go:83-176 | two starts of colliding apps, or of a template that names the least port, end unsafe |
| LeaseRuns.UnsafeAlone | operators/ingestion-operator/resource/ingestresource/ingest_system.go:181-197 | one start of a template that names another port ends unsafe |
| Overlaps.StepIsLocal | operators/ingestion-operator/grpcserver/ingest/service.go:46-86 | a step sees and touches no request but its own |
| Overlaps.InTurnIsSafe | operators/ingestion-operator/grpcserver/ingest/service.go:46-86 | the safe half of OverlapExactly: requests by id are safe as long as each begins when no other of its app is in flight |
| Overlaps.PortGivenBackTwice | operators/ingestion-operator/resource/ingestresource/ingest_system.go:260-362 | two stops of one app at once free a port that another app has leased in between, for any two launches |
| Overlaps.OverlapExactly | operators/ingestion-operator/grpcserver/ingest/service.go:46-86 | in a fleet of at least two apps without collisions, with only the loose apps beginning while another request of theirs is in flight, every run is safe if and only if no app is loose |
| IngestFailures.FailedStartKeepsLeases | operators/ingestion-operator/resource/ingestresource/ingest_system.go:172-176 | a failed Start keeps the lease invariant if and only if every Create was refused |
| IngestFailures.LeakFreesOthersPort | operators/ingestion-operator/resource/ingestresource/ingest_system.go:172-176 | after a failed start of one app, a start of another and a stop of the first, the other's deployment stands with a free port, whoever wins the race |
| IngestFailures.LeakSharesPort | operators/ingestion-operator/resource/ingestresource/ingest_system.go:172-176 | and the next start is given that port: two deployments carry it |
| IngestFailures.LeakOnce | operators/ingestion-operator/resource/ingestresource/ingest_system.go:172-176 | the same with three concrete apps and one refused Create |
| IngestFailures.StopUnderFailures | operators/ingestion-operator/resource/ingestresource/ingest_system.go:348-356 | which objects of a bundle a failing Stop removes and whether it frees the port, exactly; so when the port is free while the deployment stands |
| IngestFailures.StopKeepsLeases | operators/ingestion-operator/resource/ingestresource/ingest_system.go:348-362 | a Stop keeps the lease invariant if and only if it did all of its work or none |
| IngestFailures.RefusedDeleteSharesPort | operators/ingestion-operator/resource/ingestresource/ingest_system.go:348-356 | after a stop refused the Delete of its deployment, the next start is given the same port |
| IngestFailures.RefusedDeleteOnce | operators/ingestion-operator/resource/ingestresource/ingest_system.go:348-356 | the same with two concrete apps |
| Shutdowns.StopEndsLease | operators/ingestion-operator/resource/ingestresource/ingest_system.go:245-374 | with a reliable API, Stop of a lent app ends exactly its lease, keeps the invariant and sends its message |
| Shutdowns.ListedAreLent | operators/ingestion-operator/internal/controller/romashorodok.github.io/ingesttemplate_controller.go:47-59 | at rest, the deployments labelled with a template are those of the apps lent a port for it |
| Shutdowns.DrainTemplate | operators/ingestion-operator/internal/controller/romashorodok.github.io/ingesttemplate_controller.go:46-73 | one job run alone stops each app lent a port for its template, each once, and ends no other lease |
| Shutdowns.DrainAll | operators/ingestion-operator/internal/controller/romashorodok.github.io/ingesttemplate_controller.go:46-73 | jobs run one after another, the schedule there is when one is registered, leave no object and no busy port, with one message for each stopped app that has a broadcaster id |
| Shutdowns.RunsCanBeDrained | operators/ingestion-operator/internal/controller/romashorodok.github.io/ingesttemplate_controller.go:46-73 | every run that has come to rest is a state that draining starts from |
| StopCrowds.OverlappingStopsDrain | operators/ingestion-operator/resource/ingestresource/ingest_system.go:245-384 | from any state at rest, any stops that overlap in any way, several of one app included: if each lent app is stopped at least once and none is in flight at the end, no object and no busy port is left, and no message is sent twice |
| StopCrowds.StopsInTurnTell | operators/ingestion-operator/resource/ingestresource/ingest_system.go:364-384 | and each lease with a broadcaster id has sent its message if its app's stops took turns, whatever those of other apps did |
| ShutdownJobs.RemoveKeeps | operators/ingestion-operator/internal/controller/romashorodok.github.io/ingesttemplate_controller.go:71 | the job's own Delete after a stop never finds an object: in every interleaving the deployment is gone by then |
| ShutdownJobs.DrainIsComplete | pkg/shutdown/shutdown.go:46-64 | with any number of jobs for each template, all running at once, in every interleaving: once all are done the cluster is empty, no port is busy, and each message sent is that of one lease with a broadcaster id, none twice |
| ShutdownJobs.EveryDrainCanEnd | pkg/shutdown/shutdown.go:53-64 | the jobs never get stuck: every partial interleaving continues to one that is done |
| ShutdownJobs.MessagesExactly | operators/ingestion-operator/internal/controller/romashorodok.github.io/ingesttemplate_controller.go:46-73 | every lease with a broadcaster id sends its message in every interleaving that ends, if and only if the template of each such lease has one job |
| ShutdownJobs.SpoiledOnce | operators/ingestion-operator/internal/controller/romashorodok.github.io/ingesttemplate_controller.go:46-73 | a shutdown after two reconciliations of one template that empties the cluster without the one message due |
| IngestServices.IngestControllerService.StartServer | operators/ingestion-operator/grpcserver/ingest/service.go:46-75 | an unknown template changes nothing; otherwise the stop's error is dropped and the start's decides the reply |
| IngestServices.IngestControllerService.StopServer | operators/ingestion-operator/grpcserver/ingest/service.go:77-86 | the reply is an error exactly when the stop failed |
| IngestServices.StopOfUnlent | operators/ingestion-operator/resource/ingestresource/ingest_system.go:245-356 | stopping an app that holds no lease fails and changes nothing, even if other apps' objects bear its names |
| IngestServices.StartTakesLease | operators/ingestion-operator/resource/ingestresource/ingest_system.go:54-179 | starting an app that holds no lease fails exactly on an exhausted pool, changing nothing; otherwise it adds a lease of the least free port and keeps the invariant |
| IngestServices.StartServerReplaces | operators/ingestion-operator/grpcserver/ingest/service.go:57-69 | StartServer replaces the app's lease and sends the old one's message; it fails exactly when the app held no lease and the pool is exhausted |
| IngestServices.StartServerThenStopServer | operators/ingestion-operator/grpcserver/ingest/service.go:57-86 | a StartServer that succeeds serves the request's app with the request's template and broadcaster id; the StopServer after it succeeds, ends the lease and sends exactly one message, with that id and the app's name |
| IdentityStores.FourWayCounts | services/identity/migrations/000003_create_refresh_token_table.up.sql:2-23 | in a four-way database the four tables have equally many rows |
| IdentityStores.InsertsKeepConstraints | services/identity/migrations/000003_create_refresh_token_table.up.sql:2-13 | an insert that succeeds keeps every UNIQUE and foreign key constraint |
| IdentityStores.AttachesKeepConstraints | services/identity/internal/storage/postgres/user/repository.go:99-128 | so does attaching a key or a token to a user |
| IdentityStores.DeletesKeepConstraints | services/identity/migrations/000002_create_private_key_table.up.sql:9-17 | so do the deletes with their cascades |
| IdentityStores.ValidationDecides | services/identity/internal/security/service.go:164-200 | a token validates if and only if it bears a stored key's id, that key's signature and an expiry to come; which error otherwise |
| IdentityStores.StatementErrors | services/identity/migrations/000003_create_refresh_token_table.up.sql:2-23 | which constraint a refused statement names |
| UserServices.UserService.UserGenerateRefreshToken | services/identity/internal/user/service.go:57-81 | inside the transaction: the signed token is stored and attached, or the first failure is returned |
| UserServices.UserService.UserGenerateTokens | services/identity/internal/user/service.go:83-121 | inside the transaction: key, owner row and refresh token, or the first failure |
| UserServices.UserService.RegisterUser | services/identity/internal/user/service.go:177-209 | commits the whole operation, or leaves the committed tables as they were at any failing step |
| UserServices.UserService.UserLogin | services/identity/internal/user/service.go:211-242 | the same, with the user row read outside the transaction |
| UserServices.UserService.UserExchangeAccessToken | services/identity/internal/user/service.go:244-272 | the same, with validation, owner, user and key each read outside the transaction |
| UserServices.UserService.UserDeleteRefreshToken | services/identity/internal/user/service.go:274-302 | the same for sign-out, which does not verify the token |
| IdentityRuns.GenerateTokensAdds | services/identity/internal/user/service.go:83-121 | generating tokens succeeds only on free ids and adds exactly the four rows of one session, its tokens signed by the new key |
| IdentityRuns.RegisterDecides | services/identity/internal/user/service.go:177-209 | register commits if and only if nothing fails, the name is at most 30 long and free, and the three new ids are free; then it has added the user with one session |
| IdentityRuns.LoginDecides | services/identity/internal/user/service.go:211-242 | login commits if and only if the row it reads has the name and password, its user still exists, nothing fails and the new ids are free; then it has added one session |
| IdentityRuns.LoginErrors | services/identity/internal/user/service.go:213-220 | not found exactly when no row has the name, different password exactly when the row's is another; all else is an internal error |
| IdentityRuns.SignOutDecides | services/identity/internal/user/service.go:274-302 | sign-out commits exactly when nothing fails and the delete sees the key's token row, and then removes exactly the session, or nothing when the kid has no key |
| IdentityRuns.KeyCannotGoFirst | services/identity/migrations/000003_create_refresh_token_table.up.sql:11 | deleting the key before the token always violates the non-cascading foreign key |
| IdentityRuns.SignOutRemovesOneSession | services/identity/internal/user/service.go:286-299 | exactly one row leaves each of the four tables, and every other row stays |
| IdentityRuns.ExchangeDecides | services/identity/internal/user/service.go:123-175 | for any reads, exchange commits if and only if they succeed, nothing fails, and the current tables satisfy the foreign keys and UNIQUE columns; then it replaces the key's token row |
| IdentityRuns.ExchangeErrors | services/identity/internal/user/service.go:244-262 | the validation's error exactly when it fails; then which of owner, user and key was not found |
| IdentityRuns.ForgedTokenIsRefused | services/identity/internal/security/service.go:189-192 | in every state of every run, an exchange of a token signed with anything but its kid's key material in some committed database is refused and changes nothing, whatever its reads see |
| IdentityRuns.StaleReadsAreHarmless | services/identity/internal/storage/postgres/user/repository.go:74-97 | reading from any earlier committed states, exchange aborts with the database unchanged or commits with the key's current owner and secret, keeping the correspondence |
| IdentityRuns.PerformKeeps | services/identity/internal/user/service.go:123-302 | each operation, committed or rolled back, keeps the invariant of the run |
| IdentityRuns.FreshRunsAreRuns | services/identity/internal/user/service.go:177-302 | asking only that key ids are new is enough for all results about runs: every database that a login may read has unique names, so that its row is determined |
| IdentityRuns.EveryDatabaseIsFourWay | services/identity/migrations/000002_create_private_key_table.up.sql:2-17 | in every reachable database each key has one owner row, one refresh token and one user row of that token, and the users agree |
| IdentityRuns.KeysAfterStep | services/identity/internal/user/service.go:177-302 | an operation adds only its own fresh key, and removes only the key it signs out |
| IdentityRuns.SignOutIsPermanent | services/identity/internal/security/service.go:164-200 | after a committed sign-out no token with that kid validates in any later state |
| IdentityRuns.KeyStays | services/identity/internal/user/service.go:274-302 | over a run with no sign-out that names it, a key stays |
| IdentityRuns.IssuedTokensValidate | services/identity/internal/security/service.go:35-126 | a token issued by register, login or exchange validates in every later state until it expires or its kid is signed out, and names the owner of its kid, by id and by current name, with the claims user and broadcaster |
| IdentityRuns.FreshTokensValidate | services/identity/internal/security/service.go:35-110 | after register, login or exchange commits, both its tokens validate in the new database: the access token for exactly sixty seconds, the refresh token exactly until a year later |
| IdentityRuns.ExchangeInvalidatesNothing | services/identity/internal/user/service.go:123-175 | after a committed exchange every token validates at any time as before, and the token exchanged still validates |
| IdentityRuns.ReplacedTokenValidates | services/identity/internal/security/service.go:164-200 | a run after which a replaced token, in no row of the token table, validates |
| StreamStores.InsertAllCounts | services/stream/internal/storage/postgress/repository/stream_egress.go:24-43 | inserting many egresses adds each as often as it is listed and nothing else, and keeps the foreign key |
| StreamStores.DeleteCounts | services/stream/migrations/000002_create_active_stream_egresses_table.up.sql:14 | deleting a stream takes all its egresses and no other, and keeps foreign key and UNIQUE columns |
| StreamServices.IngestStatusWorker.Handler | services/stream/internal/workers/ingest/status_handler.go:26-73 | the row is marked and its egresses inserted, both or neither |
| StreamServices.IngestDestroyedWorker.Handler | services/stream/internal/workers/ingest/destroyed_handler.go:23-64 | each delivery's answer, delete and notification, for every kind of bad message and failure |
| StreamServices.AnswersDecide | services/stream/internal/workers/ingest/destroyed_handler.go:23-64 | when a delivery is acknowledged, refused or left unanswered, when it deletes and when it notifies; the fourth delivery is dropped |
| StreamServices.StreamService.StartIngestServer | services/stream/internal/streamsvc/streamservice.go:30-72 | whatever fails, state and answer are those of the specification that StartDecides characterises |
| StreamServices.StreamService.StopIngestServer | services/stream/internal/streamsvc/streamservice.go:74-99 | whatever fails, state and answer are those of the specification that StopDecides characterises; the row goes before the stop call |
| StreamRuns.StartDecides | services/stream/internal/streamsvc/streamservice.go:30-72 | a start succeeds if and only if its two calls work, name and namespace fit, and the row id and the three unique values are free, and has then added the row; a duplicate is answered as such and sends no message, any other failing insert as unable to insert with one destroyed message; a failed start changes the tables if and only if the start call failed and the broadcaster's existing row could be read and deleted, and then that row is gone and one destroyed message sent |
| StreamRuns.FailedStartCanDeleteRow | services/stream/internal/streamsvc/streamservice.go:41-45 | a reachable state at rest in which a start that fails deletes the row of the broadcaster's running stream |
| StreamRuns.StopDecides | services/stream/internal/streamsvc/streamservice.go:74-99 | a stop succeeds if and only if there is a row and none of its three calls fails, and each error says which did; exactly that row goes and one message is sent when the first two work, and otherwise nothing changes |
| StreamLifecycles.StepKeeps | services/stream/internal/workers/ingest/status_handler.go:44-72 | every step of every party keeps the invariant of tables and messages |
| StreamLifecycles.RowsMatchEgresses | services/stream/migrations/000001_create_active_streams_table.up.sql:10-14 | in every interleaving: one row a broadcaster, username and deployment; egresses refer to live rows; deployed exactly when there are egresses; one of each type for every deployed transaction since the insert |
| StreamLifecycles.DestroyedMessagesSettle | services/stream/internal/workers/ingest/destroyed_handler.go:23-64 | in every interleaving: settled by delivery retry + 1, at most retry delete attempts, each notification right after a successful delete of the same delivery |
| StreamLifecycles.DeliveriesRunOut | services/stream/internal/workers/ingest/destroyed_handler.go:33-37 | each delivery of an unsettled message lowers retry + 1 minus its count, and nothing raises it |
| StreamLifecycles.DeliveryDecides | services/stream/internal/workers/ingest/destroyed_handler.go:33-63 | a message is settled exactly when its row and egresses are gone and the notification is sent, or it is unusable or out of retries and nothing is touched |
| StreamLifecycles.RowsLeaveByTheirBroadcaster | services/stream/internal/storage/postgress/repository/active_stream.go:69-75 | a row leaves only by a stop or a destroyed message of its own broadcaster |
| StreamLifecycles.DeployedCanBeLost | services/stream/internal/workers/ingest/status_handler.go:51-55 | a reachable state at rest whose row is undeployed because its message came before the insert |
| StreamLifecycles.DestroyedCanHitNewRow | services/stream/internal/workers/ingest/destroyed_handler.go:52-56 | a reachable state at rest in which the next delivery, of an older stop, deletes a newer row |
| StreamRuns.DeployedDecides | services/stream/internal/workers/ingest/status_handler.go:44-72 | a deployed message takes effect if and only if no statement fails, its broadcaster has a row, and the new egress ids are free and distinct; then the row is marked and has one more egress of each type |
| StreamRuns.DeployedTxDecides | services/stream/internal/workers/ingest/status_handler.go:31-72 | any deployed message takes effect if and only if its broadcaster has a row, it lists an egress, no statement fails and the egress ids are free and distinct |
| StreamRuns.DeployedInserts | services/stream/internal/workers/ingest/status_handler.go:51-68 | then the row is marked as the message says, has as many more egresses of each type as it lists, and no other row changes |
| StreamRuns.RowIsSafeExactly | services/stream/internal/workers/ingest/destroyed_handler.go:33-56 | with no request of its broadcaster in flight, a row stays through every run in which they neither start nor stop if and only if none of their destroyed messages is unsettled, usable and below its last retry |
| StreamLifecycles.StartAlone | services/stream/internal/ingestcontroller/ingestcontroller.go:27-58 | driven without interference, the calls of a start leave what the service's own method leaves |
| StreamLifecycles.StopAlone | services/stream/internal/streamsvc/streamservice.go:74-99 | and so do those of a stop |
| Vp8Muxers.SizeRoundTrip | services/ingest/internal/media/vp8/muxerwriter.go:60-63 | sizes below 2^14 laid out as section 9.1 of RFC 6386 says are recovered exactly, whatever the scales |
| Vp8Muxers.RtpToWebmVP8MuxWriter.Write | services/ingest/internal/media/vp8/muxerwriter.go:37-85 | the state and the result after each packet, with each early return leaving the state as it was |
| Vp8Muxers.WriteDecides | services/ingest/internal/media/vp8/muxerwriter.go:37-84 | when each answer is given, in arithmetic on the first byte: a file begins only with a sample whose first byte is even and that has the ten header bytes, and then takes every sample |
| Vp8Muxers.EmittedBlocks | services/ingest/internal/media/vp8/muxerwriter.go:54-84 | for any packets, the blocks are exactly the samples from the first that has ten bytes and an even first byte, in order, each flagged by the parity of its first byte, with the exact sum of durations as its time; the track is that key frame's |
| Vp8Muxers.TimecodesAreExact | services/ingest/internal/media/vp8/muxerwriter.go:82-84 | each timecode is the exact sum of durations, in milliseconds, rounded towards zero: no error accumulates |
| Vp8Muxers.TimecodesNeverGoBack | services/ingest/internal/media/vp8/muxerwriter.go:82-84 | without a negative duration, timecodes never go back |
| Vp8Muxers.FirstBlockIsKeyframe | services/ingest/internal/media/vp8/muxerwriter.go:54-63 | the first block is flagged a key frame, has an even first byte, and the track keeps its size to the end |

## Left out

- HTTP, gRPC and WebSocket plumbing, dependency injection, configuration, logging, claim checks, `Bearer ` trimming, front end, charts, generated code.
- Kubernetes, NATS, PostgreSQL, JWS and bcrypt themselves: a map from keys to objects with an answer per call, bags of messages with delivery counts, tables with checked constraints, symbolic signing (kid as in section 4.1.4 of RFC 7515, exp as in section 4.1.4 of RFC 7519), and hashes that match exactly their own password.
- Container environment, affinity, sidecars, gateway selectors and the other object fields that no step reads back.
- Operator restart: the pool is in memory and starts empty, so runs start from a fresh operator and an empty cluster.
- Slice aliasing when the webrtc ports are appended to a template's ports: modelled as concatenation of values.
- Goroutine interleaving inside Start and Stop as methods: CreateBundle runs one Create at a time and StopBundle one Get or Delete at a time, in every order; the two searches are made before the race, in which only sends, receives and waits interleave.
- LeaseProtocol.LeaseSafety: assumes a reliable API, a fleet without colliding apps, templates without webrtc-named ports, and at most one request in flight per app; what happens without each is stated by FailedStartKeepsLeases and StopKeepsLeases, SafeExactly, and OverlapExactly.
- LeaseProtocol.Step: a request of an app that has one in flight is not taken up; Overlap.dfy has several at once, one id each.
- IngestSystems.IngestSystem.StopIngestSystem: says what Stop does for one winner of the race and leaves the winner open; a publish that reports an error may or may not have stored the message.
- Shutdowns.DrainAll: one job after another; the source runs every registered job in its own goroutine, one for each reconciliation of a template, which is what ShutdownJobs.DrainIsComplete covers.
- ShutdownJobs.DrainIsComplete: a reliable API, shutdown from a state at rest, and no start while it runs; a failing listing, which ends a job at once, is not modelled.
- Transactions of the identity service run one after another, except that reads outside a transaction see any earlier committed database and the DELETE of a refresh token sees any given set of rows; a COMMIT either happens or reports its failure.
- IdentityRuns.SignOutIsPermanent: needs generated key ids never to repeat, which the step condition of a run demands.
- Composite UNIQUE columns of the two link tables: the single-column ones imply them, and they appear as map keys.
- The calendar arithmetic of "one year later": a parameter. Key ids, token ids, user ids and key material are parameters too.
- Listing queries over streams, the egress type names of generated code, which are mapped one to one, and an egress type outside the enumeration.
- Delivery policy of the message server: any unsettled message may be delivered at any time, deployed messages may be lost at any time, and an acknowledgement is not lost.
- StreamServices.StreamService.StartIngestServer: a start call publishes its message even when it fails; in the interleavings the message may be lost right away, which covers a call that published none.
- The sample builder, the WebM container and the pipe: the builder is an oracle that yields an optional sample a packet, and blocks are collected in a sequence; a write error of the container is not modelled.
- Vp8Muxers.TimecodesAreExact: assumes no overflow of the int64 sum; a sample too short for the header bytes is the result Panicked, with the state unchanged.
- The Opus writer: the same timecode arithmetic without the key-frame gate, so it would only add easy members.
