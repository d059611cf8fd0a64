# Verified model of the Secret Manager / Parameter Manager CSI provider

This project models how the provider turns one mount request into files: how resource
names are classified, how clients are cached and built, how the entries of a request are
fetched concurrently, and how one answer is put together. Everything is proved for all
inputs: all names, all configurations, all remote answers and all schedules.

## How the model is laid out

- `ResourceNames.dfy`: the four name patterns with a relational meaning (a start position
  and the text of each slot), the slash-segment parser proved equal to it, the
  classifiers, the location extractors and the route they give together.
- `ClientOptions.dfy`: Go slices (backing array, length, capacity), `append` on the heap.
- `RegionalClients.dfy`: the regional client caches over any series of mounts.
- `Fetching.dfy`, `Goroutines.dfy`: one fetch as a function of the environment, and the
  fetcher goroutine, channel, WaitGroup and metrics as classes proved against it.
- `MountSpec.dfy`: the sequential meaning. A *plan* says how each entry fares (rejected,
  lost to a panic, delivered); an *order* says in which order deliveries were sent; the
  answer is a function of both.
- `MountOrders.dfy`: how the answer depends on the order.
- `MountSetup.dfy`: phase 1, and the plan that a configuration and an environment give.
- `MountProtocol.dfy`: the fan-out/fan-in protocol as a transition system with arbitrary
  interleaving, its invariant, progress, termination and refinement of the sequential
  meaning. `MountSchedules.dfy`: the converse, a schedule for every order, and what
  follows for whole mounts. `MountInputs.dfy`: which ends of a mount a configuration makes
  possible, and for which configurations a promise about failures can be broken.
- `ErrorReport.dfy`, `MountServer.dfy`, `Permissions.dfy`: the imperative handler, its
  aggregated error and what that says of each entry, and `Mount` with its permission
  string.
- `WorkloadIdentity.dfy`: the token audience on the fleet path.

A Go string is a sequence of bytes; a byte is written as the `char` with that code, so
`|s|` is Go's `len(s)`. The environment (`Env`) holds the remote calls, the decoders and
the client constructors as arbitrary functions; a remote call is named by the index of its
fetcher and a construction by its attempt number, so repeated calls may answer differently.
`Server.constructions` counts those attempts and is the one field the source does not have.

Assumed of the caller: configured entries and cache maps are not nil, and `Mount` calls on
one server do not overlap (its maps have no lock). Nil clients and nil payloads are not
assumed away: they make a fetcher panic. In `MountProtocol` the deferred `Done` of a
panicking fetcher runs before the process ends, so the handler may still move in between.

## Where the code differs from what it says

- `server/server.go:175-183` says that any failed access fails the mount. Two entries with
  the same (resource name, file name, path) share one slot of the result map, and the last
  result drained wins, so a mount can succeed although an access failed.
  `MountInputs.FailureCanBeMasked` gives the exact configurations, and
  `MountInputs.MaskedRun` such a run; `MountOrders.MaskedMeansDuplicate` shows that
  distinct identities rule it out.
- `server/server.go:175-176` says that the error includes each individual status error. It
  has one per identity. `MountInputs.DetailCanBeOmitted` gives the exact configurations
  that can lose one, and `MountInputs.OmittingRun` such a run;
  `ErrorReport.EveryFailureListed` says for which answers none is lost.
- `server/server.go:206-209` calls the "result missing" branch one that should never be
  hit. It is unreachable without a panic (`MountSpec.MissingOnlyAfterPanic`), and reachable
  in the moment before a panic ends the process: `MountInputs.MissingReachable` gives the
  exact configurations for the first mount of a server, and `MountInputs.MissingRun` such
  a run.
- `util/location_extractor.go:25-26` and `config/config.go:42-43` describe names that start
  with `projects/`. The patterns are not anchored: `ResourceNames.RouteIgnoresPrefix` shows
  that text in front of a name is ignored, `ResourceNames.DocumentedExact` exactly which
  accepted names have a documented form, and `ResourceNames.PrefixedIsUndocumented` names
  that do not.

## Model

| member | source | states |
|---|---|---|
| `ResourceNames.PatternsReadAsWritten` | util/constants.go:21-27 | the pattern values stand for the texts of the four regular expressions, at any start position, with non-empty slash-free captures |
| `ResourceNames.ParserIsRegex` | util/constants.go:18-28 | for every pattern with slash-free words, looking at the last segments of a name finds a tuple of slot texts if and only if the regular expression matches with it |
| `ResourceNames.MatchUnique` | util/location_extractor.go:28-33 | a name matches a pattern in at most one way: one start and one tuple of captures |
| `ResourceNames.LeftmostRuleIrrelevant` | util/location_extractor.go:49-54 | the match reported by the leftmost rule is simply the match |
| `ResourceNames.PatternLattice` | util/resource_validator.go:24-36 | no name is both a secret and a parameter, global and regional secrets are disjoint, and a global parameter is a regional one whose location is `global` |
| `ResourceNames.ClassifiersAreRegexes` | util/resource_validator.go:24-36 | the Boolean classifiers accept exactly the names one of their two regular expressions matches |
| `ResourceNames.SecretRouteExact` | server/server.go:124-133 | a name goes to the secret service at a location exactly when the regional expression captures that location, within the limit, or the global one matches and the location is empty |
| `ResourceNames.ParameterRouteExact` | server/server.go:134-143 | the same for parameters, where the location `global` belongs to the global expression alone |
| `ResourceNames.RejectedExact` | server/server.go:124-146 | a name is of unknown type exactly when no expression matches it, and an invalid location exactly when a regional expression captures more than 30 bytes |
| `ResourceNames.ExtractorAgreesWithClassifier` | util/location_extractor.go:27-61 | for accepted names extraction fails exactly on a regional location over 30 bytes; "invalid name" is answered exactly for names the classifier rejects |
| `ResourceNames.ExtractedLocation` | util/location_extractor.go:27-61 | an extracted location is empty exactly for global names, otherwise a slash-free text within the limit, and never the word `global` for parameters |
| `ResourceNames.BuildThenExtractSecret` | util/location_extractor.go:32-38 | from any prefix and components, a built regional secret name gives its location back, or the length error beyond 30 bytes |
| `ResourceNames.BuildThenExtractGlobalSecret` | util/location_extractor.go:28-31 | from any prefix and components, a built global secret name gives the empty location |
| `ResourceNames.BuildThenExtractParameter` | util/location_extractor.go:48-61 | the same for parameters, with `global` the one location that comes back empty |
| `ResourceNames.RouteIgnoresPrefix` | server/server.go:124-146 | the "invalid name" errors are unreachable from a mount, and text in front of a name of a known kind never changes its route |
| `ResourceNames.WholeFormExact` | util/constants.go:18-28 | a match of a pattern takes the whole text if and only if the text has just one segment before the slots and that is `projects` |
| `ResourceNames.DocumentedExact` | util/location_extractor.go:25-48 | an accepted name has a documented form if and only if its first segment is `projects` and it has 6 segments when it is a global secret, 8 otherwise |
| `ResourceNames.PrefixedIsUndocumented` | util/location_extractor.go:25-31 | any text in front of a global secret name, even `projects/x/`, gives a name that is accepted and routed alike and has no documented form |
| `ClientOptions.RegionalEndpointInjective` | util/client_initiator.go:34-47 | an address is the text `secretmanager.` or `parametermanager.`, the region, and the domain and port; no two regions or services share one |
| `ClientOptions.Append` | util/client_initiator.go:35 | append returns the old elements followed by the new one, never changes the base slice, and writes the shared array in one slot exactly when there is spare capacity |
| `ClientOptions.EarlierAppendSurvives` | main.go:141 | of two appends to one base with spare capacity the first result survives exactly when both appended the same option |
| `ClientOptions.StartupOptions` | main.go:118-141 | the start-up slices hold the settings plus the secret endpoint, and those plus the parameter endpoint, and share an array exactly when the first append left spare capacity |
| `RegionalClients.GetRegionalClient` | util/client_initiator.go:32-55 | the constructor receives the base options followed by the address, given as text, of that region of that service; a failure gives nil, and the base options are unchanged |
| `RegionalClients.StartThenBuild` | main.go:118-141 | after start-up the first regional client gets the base options and its own endpoint, and overwrites the last option of the parameter manager's slice exactly when the base slice has spare capacity |
| `RegionalClients.CacheOnlyGrows` | server/server.go:130-143 | over any series of mounts from any caches no entry is removed or replaced, and the regions added are exactly those some name is routed to |
| `RegionalClients.CacheConsistentAlways` | server/server.go:130-143 | over any series of mounts from empty caches each region of each service is constructed at most once, a failed nil included, and every client cached was built for its own endpoint |
| `RegionalClients.CachedAddresses` | util/client_initiator.go:32-55 | over any series of mounts from empty caches a cached client is one of its own service with exactly the base options and its region's address, given as text |
| `RegionalClients.RoutingAgreement` | server/resourcefetcher.go:50-79 | a fetcher uses the global client exactly for global names, otherwise finds its key and a client for its own endpoint or nil, and never reads the entry under the empty key |
| `RegionalClients.NilNeverRecovers` | server/server.go:130-143 | a regional client remembered as nil stays nil for every name routed there, over any further mounts and whatever their constructors would answer |
| `MountSetup.DeadRegionPanics` | server/resourcefetcher.go:50-79 | a configured name whose regional client is remembered as nil makes its fetcher panic |
| `Fetching.DeliveryIsOwn` | server/secretfetcher.go:15-85 | a result carries its own entry's identity, and is free of error exactly when it holds the version and selected content of a successful call for that entry's name |
| `Fetching.SlotIsTriple` | server/server.go:56-62 | two entries share a slot of the result map exactly when resource name, file name and path are all equal |
| `Fetching.ErrorKinds` | server/secretfetcher.go:22-70 | the kind of every error: the refusal of the call, both keys set although the call was granted, or the fault that the decoder of the one key finds in what was returned |
| `Fetching.PanicKinds` | server/secretfetcher.go:20-46 | a fetcher panics exactly without a client, or on a secret granted without a payload that is looked at |
| `Goroutines.ResourceFetcher.FetchSecrets` | server/secretfetcher.go:15-85 | exactly one result is sent and the call is recorded once on every branch, under the status code of a refusal and as `ok` otherwise, except for the panics on a nil client or payload |
| `Goroutines.ResourceFetcher.FetchParameterVersions` | server/parameter_version_fetcher.go:17-86 | the same for parameters, where a missing payload is not a panic |
| `Goroutines.ResourceFetcher.Orchestrator` | server/resourcefetcher.go:48-88 | the goroutine delivers what its route and the caches call for, records its call under the kind of its service and the status of its answer, and counts itself down on every path |
| `Goroutines.OneRecordPerDelivery` | csrmetrics/csrmetrics.go:62-69 | a routed fetcher that delivers has recorded exactly once; without a client it has recorded nothing |
| `MountSetup.Phase1Prepares` | server/server.go:123-147 | phase 1 leaves the caches that the names of the request ask for in list order |
| `MountSetup.Phase1RecordsExactly` | server/server.go:123-147 | phase 1 records an error for exactly the identities whose name has no route, with the reason the classifiers and extractors give, and nothing else |
| `MountSpec.EarlyErrorsSurvive` | server/server.go:150-174 | an identity with an early error is never dispatched and keeps that error whatever is drained |
| `MountSpec.SettleLookup` | server/server.go:168-174 | the result map after draining holds for each identity the last delivery for it, or what phase 1 left |
| `MountSpec.FailureRule` | server/server.go:168-187 | the mount reports failed access if and only if some name was rejected or for some identity the last result sent carries an error |
| `MountSpec.MissingOnlyAfterPanic` | server/server.go:206-211 | the "result missing" answer names an identity all of whose fetchers panicked, that of the first such entry |
| `MountSpec.PermissionRule` | server/server.go:194-196 | when no failure is left the permission is refused exactly from 2^31 on |
| `MountSpec.NoMixing` | server/server.go:197-228 | on success every entry has its own path, or its file name when the path is empty, its own mode and name, and contents and version from one successful fetch of the same name, file name and path |
| `MountOrders.DistinctIdentitiesOrderFree` | server/server.go:148-230 | with distinct identities every order of deliveries gives what fetching the entries one by one in list order, gathering failures by identity, gives |
| `MountOrders.AllGoodAnswer` | server/server.go:185-228 | when every fetch succeeds, every order mounts with a permission below 2^31 and answers that it is invalid with a larger one |
| `MountOrders.MaySucceed` | server/server.go:168-230 | some order mounts everything if and only if the permission is in range, no name is rejected and every identity has a successful fetch |
| `MountOrders.MayFail` | server/server.go:168-187 | some order reports failed access if and only if some name is rejected or some fetch fails |
| `MountOrders.MustFail` | server/server.go:168-187 | every order reports failed access if and only if some name is rejected or some identity has failing fetches and no successful one |
| `MountOrders.MayMiss` | server/server.go:203-211 | some order answers "result missing" if and only if nothing fatal comes first and all fetchers of a configured identity panicked |
| `MountOrders.MaskedMeansDuplicate` | server/server.go:175-187 | a failed fetch that goes unreported has a successful fetch of the same identity beside it |
| `MountProtocol.PrimitiveRules` | server/server.go:149-167 | a send waits for room within the capacity, a send on a closed channel and a `Done` below zero panic, and `Wait` returns only at zero |
| `MountProtocol.StepKeeps` | server/server.go:123-187 | every step of handler, fetcher or process end keeps the protocol invariant: logs, counter, buffer contents, result map and caches |
| `MountProtocol.ChannelAndCounter` | server/server.go:149-174 | after every schedule the buffer is within capacity, no send met a closed channel, the counter equals started-but-unfinished, and every unfinished fetcher can move |
| `MountProtocol.Progress` | server/server.go:149-174 | no deadlock: in every reachable state before the end somebody can move, a fetcher while the handler waits |
| `MountProtocol.StepDecreases` | server/server.go:123-231 | an explicit measure goes down on every step |
| `MountProtocol.EveryRunIsShort` | server/server.go:123-231 | a mount of n entries takes at most 7n + 4 steps under any schedule |
| `MountProtocol.EveryRunRefines` | server/server.go:115-231 | a run that returns gives the answer of a complete order of deliveries and leaves the caches of phase 1, and a run that cannot go on has returned unless a panic ended the process |
| `MountProtocol.OneRecordEach` | csrmetrics/csrmetrics.go:62-69 | there are as many recordings as deliveries |
| `MountProtocol.RecordedAlways` | server/secretfetcher.go:20-34 | after every schedule, panics included, there is one recording for each call made so far, in the order of the calls, and recording k tells the service asked and how call k was answered |
| `MountProtocol.Conservation` | server/server.go:151-174 | without a panic the fetchers dispatched, calls, recordings, sends, `Done`s and items drained are as many, and belong to the same fetchers, each once |
| `MountSchedules.EveryOrderHasARun` | server/server.go:148-174 | every complete order of deliveries is realised by some schedule |
| `MountSchedules.RunsAreOrders` | server/server.go:148-230 | the answers runs can give are exactly the answers of complete orders |
| `MountSchedules.ExitReachable` | server/resourcefetcher.go:48-50 | a run can end with the process gone if and only if some fetcher panics |
| `MountSchedules.DistinctMountIsSequential` | server/server.go:148-230 | with distinct identities and no panic every schedule ends with the one-by-one answer |
| `MountSchedules.MountedMeansFetched` | server/server.go:197-228 | in any run that mounts, each file and version come from one remote call for an entry of the same identity, made with the client its route selects |
| `MountSchedules.RunsMustFail` | server/server.go:175-187 | every run that returns reports failed access if and only if a name is rejected or an identity has only failing deliveries |
| `MountInputs.FailureCanBeMasked` | server/server.go:175-187 | for any decoders, a mount can succeed despite a failed access, for some answers and schedule, if and only if the configuration has a permission in range, no rejected name, for every identity an entry that some payload can satisfy, and two entries of one identity |
| `MountInputs.MaskingByInspection` | server/server.go:175-187 | with decoders that can find any key, the same condition read off the text: for every identity an entry that does not set both keys |
| `MountInputs.TwoAlikeMaskable` | server/server.go:168-187 | one global secret configured twice, without keys and with a permission in range, is such a configuration, whatever its components |
| `MountInputs.MaskedRun` | server/server.go:168-230 | it has a run in which one fetch fails and the mount returns a file for each of the two entries |
| `MountInputs.DetailCanBeOmitted` | server/server.go:175-187 | for some answers and schedule the aggregated error leaves out the error of a rejected or failing entry if and only if two entries share an identity and their name has a route |
| `MountInputs.OmittingRun` | server/server.go:236-257 | one global secret configured twice has such a run |
| `MountInputs.DetailsCanBeMiscounted` | server/server.go:236-257 | for some answers and schedule the number of details is not the number of rejected and failing entries if and only if two entries share an identity |
| `MountInputs.MountReachable` | server/server.go:115-231 | some first mount of a server with its global clients succeeds if and only if the permission is in range, no name is rejected and every identity has an entry that some payload can satisfy |
| `MountInputs.FailureAvoidable` | server/server.go:185-187 | some first mount ends otherwise than in failed access if and only if no name is rejected and every identity can succeed or vanish: it is regional, or a global secret none of whose entries sets both keys |
| `MountInputs.MissingReachable` | server/server.go:203-211 | some first mount answers "result missing" if and only if, besides, the permission is in range and some identity can vanish |
| `MountInputs.MissingRun` | server/server.go:203-211 | one global secret without keys has a run that answers "result missing" for it |
| `ErrorReport.BuildErr` | server/server.go:236-257 | the error is absent exactly when no result failed, and otherwise its messages and details correspond pairwise and list each failing identity once |
| `ErrorReport.ReportsUpToOrder` | server/server.go:243-251 | two walks of the same map give the same messages up to a permutation |
| `ErrorReport.OneDetailPerFailingEntry` | server/server.go:236-257 | in every order of deliveries the aggregated error has as many details as entries were rejected or failed, if and only if none of those shares its identity with another entry that did not panic; distinct identities are such a case |
| `ErrorReport.EveryFailureListed` | server/server.go:175-187 | in every order the aggregated error has the error of every rejected or failing entry if and only if entries of one identity never fare differently when one of them fails |
| `MountServer.Server.EnsureClient` | server/server.go:130-133 | on a miss exactly one construction happens and is remembered, on a hit nothing does |
| `MountServer.Server.ClassifyAll` | server/server.go:121-147 | the classification loop computes phase 1 and leaves the shared options alone |
| `MountServer.Server.RunFetchers` | server/server.go:148-167 | the goroutines, finishing in any order, fill the channel with a complete order of deliveries unless one panics |
| `MountServer.Server.HandleMountEvent` | server/server.go:115-231 | the handler's reply conveys the sequential answer of a complete order of deliveries, an error reporting exactly the failures of that order, with every call recorded and the caches of phase 1; no result is missing |
| `MountServer.RepliesAreRuns` | server/server.go:115-231 | a reply conveys the answer of a complete order of deliveries, as the handler promises, if and only if it conveys the answer of an interleaved run |
| `MountServer.Server.Mount` | server/server.go:68-101 | a response has for every entry its own path or file name, its own mode or exactly the number the permission is written as, its own name, and version and content of one call; when every fetch succeeds a permission below 2^31 is answered with files and a larger one refused; bad input touches no cache; a handled request leaves the caches its names ask for, has each delivery recorded once, and crashes if it names a region whose client is remembered as nil; caches only grow and stay consistent |
| `Permissions.ReadPermission` | server/server.go:69-73 | the reader accepts exactly the non-empty digit strings below 2^32, and reads the decimal digits of a number below 2^32 as that number |
| `Permissions.DecimalRoundTrip` | server/server.go:69-73 | the decimal digits of any number are read back as that number |
| `Permissions.DigitsOfValue` | server/server.go:69-73 | digits without a superfluous leading zero are the decimal digits of the number they are read as |
| `WorkloadIdentity.AudienceRebuilt` | auth/auth.go:320-328 | on the fleet path an audience with two or more colons becomes `identitynamespace:` and everything after its first colon, the pool being what stands between the first two colons; any other non-empty one is unchanged |
| `WorkloadIdentity.AudienceRoundTrip` | auth/auth.go:138-143 | the audience comes back unchanged exactly when it is not empty and, with two colons, starts with the namespace |
| `WorkloadIdentity.ExtractSAToken` | auth/auth.go:212-223 | a token is found exactly when pool or audience names one, and it is the token of one of them |
| `WorkloadIdentity.TokenChoiceUnique` | auth/auth.go:217-221 | map order cannot matter exactly when pool and audience do not name different tokens |

## Left out

- `MountServer.Server.RunFetchers`: runs one goroutine at a time in an arbitrary order; finer interleavings are in `MountProtocol`, and `MountServer.RepliesAreRuns` shows that they lead to no other replies.
- `MountServer.Server.HandleMountEvent`: treats a panic as the immediate end of the process; the steps the handler may take before the process is gone are in `MountProtocol`.
- `MountServer.Server.Mount`: takes the parsed configuration and the choice of token source as "a configuration or none" and "authorized or not"; `config.Parse` and `TokenSource` are small case splits.
- `Goroutines.ResourceFetcher.FetchSecrets`: errors are kinds, so the wording of messages, including the format string at server/secretfetcher.go:41, is not modelled.
- `Permissions.ReadPermission`: stands for the standard library's unsigned parser by what that parser is documented to accept.
- `RegionalClients.CacheConsistentAlways`: claimed for mounts that do not overlap, because the caches have no lock.
- Remote services, HTTP, Kubernetes, IAM and the metadata server: each call is an arbitrary answer of the environment.
- JSON and YAML decoding: a decoder is an arbitrary function from a payload to a map of tagged values.
- Latency histograms, logging, tracing and environment variables.
- The service account exchange after the audience is known, and the generation of pod tokens.
- Start-up apart from the shape of the option slices, and the deployment files.
