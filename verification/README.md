# Verified models of the platform's stateful cores

This project models the parts of the repository whose correctness rests on state that
several functions share, and proves what those parts are for. Each model follows its Go
code branch by branch. Code that changes state in place is a class whose methods are
proved against specification functions, and the theorems are lemmas about those functions.

- **Package dependency graph** (`Digraph`, `PackageNodes`, `GraphSearch`, `Dag`,
  `UpgradingDag`, `Resolver`): walks, cycles and topological orders are defined without reference to
  the searches. The depth-first sort and the transitive trace are proved sound and complete
  for every graph, cyclic ones included, and every order of map iteration.
- **Circuit breaker and its filter** (`CircuitState`, `Breaker`, `Filter`, `CircuitRuns`,
  `CollectionLimits`, `Strings`): the token bucket, the ring of recent sources and the collection of
  idle targets as objects; then theorems over whole runs of the filter, and exactly which
  configurations let idle targets be collected unnoticed.
- **Requirements loop** (`Requirements`, `ListOrder`): the loop that calls a function until
  what it requires settles, its early return, and the order of listed resources.
- **Controller engine and informer tracking cache** (`EngineState`, `EngineInvariant`,
  `EngineTracking`, `EngineLists`, `EngineObject`): a state machine whose steps are the
  stretches between lock operations, goroutines interleaving freely, and theorems over all
  its runs; then the operations as code over shared objects, other goroutines taking any
  number of steps in between, each proved to be a run of that machine.
- **Expectations and connections** (`Expectations`, `Connections`): two stores kept in
  agreement, and a cache of connections of which none leaks.

## What the proofs found

Where the code does not always do what it is for, it is modelled as it is, and the project
proves when it does.

- `Sort` marks a free slot of its result with the empty string
  (`components/crossplane/internal/dag/dag.go:253-258`). A node called "" therefore always
  ends up last, and the result is a topological order if and only if no node has "" as a
  neighbour (`OutcomeTopologicalIff`).
- The comment at `components/crossplane/internal/xfn/required_resources.go:145-154` calls
  the early return of the first iteration sound because a second call would receive an
  identical request. The second call would also receive the response's context
  (line 176). The return is sound for every deterministic function giving that response if
  and only if the response leaves the context as it was (`EarlyReturnSoundIff`).
- `StartWatches` looks at the active informers once before its loop
  (`components/crossplane/internal/engine/engine.go:526-533`). A controller never has two
  live handlers for one watch if and only if no call lists a watch twice
  (`UniqueIffListedOnce`).
- The operations of the expectations that set or change counters alone leave the UIDs as
  they are. Over any run the counter of deletions equals the number of pending UIDs after
  every operation if and only if each of them minds the UIDs then pending
  (`CounterEqualsPendingIff`); `ExpectCreations` does exactly when no deletion is pending
  (`ExpectCreationsAgreesIff`).
- Collecting an idle target changes no decision of the filter, over all runs, if and only if
  the half-open interval is negative, or expireAfter is no shorter than the cooldown and the
  half-open interval and, unless no bucket can ever hold a token, refills an empty bucket
  (`CollectionUnnoticedIff`). The defaults meet this. A collected target does forget its ring
  and its trigger, so `TriggeredBy` can differ.
- The trigger named when a circuit opens is a most frequent source if and only if the
  circuit was closed (`TriggerIsMostFrequentIff`): an event that closes a circuit and opens
  it again at once, which happens exactly when the cooldown is over and the refilled bucket
  holds no token, finds a cleared ring and keeps the earlier trigger
  (`ReopeningKeepsTrigger`).

The order of listed resources is independent of the order of the listing if and only if
different resources have different keys (`ListingDeterminedIff`). The key joins namespace and
name with a slash. Kubernetes allows a slash in neither, so a listing from the API server
always has such keys (`ProperListingIsDetermined`); `SlashConfuses` shows why that is needed.

## Reading the model

Times and token amounts are real numbers, in seconds and tokens. The clock, the order of map
iteration, the Kubernetes API, the called function, the dialling of a connection and the
wrapped cache are parameters, nondeterministic choices or boolean outcomes of the steps.
A Go `map[K]bool` used as a set is a set. `CollectsOnlySettled`, `Healthy`, `Simulates` and
`Bounded` (in `CircuitRuns`), `HoldsAll` (in `Requirements`) and `Inv` (in `EngineInvariant`)
are the invariants the theorems rest on. `Valid` of `EngineObject.ControllerEngine` says that
the objects are in a state the machine reaches, by way of the states noted in `history`. `op`
notes of the operation in hand the states before it, the state in which it found its
controller and the one its answer rests on (`found` and `seen`, both passed during the call);
`Others` stands for the other goroutines. What goroutines of the connection cache carry from
one critical section to the next are arguments of the next method, and `Interleave` takes the
critical sections of any goroutines in any order.

## Model

| member | source | states |
|---|---|---|
| GraphSearch.Sort | components/crossplane/internal/dag/dag.go:219-233 | fails exactly when the graph has a cycle (self-loops included) or a neighbour that is no node, and the error names such a node; otherwise lists every identifier exactly once, and in topological order exactly when nobody has "" as a neighbour; for every iteration order |
| GraphSearch.SortFrom | components/crossplane/internal/dag/dag.go:223-230 | one round of the loop: afterwards the node has finished, and what had finished still has |
| GraphSearch.Visit | components/crossplane/internal/dag/dag.go:235-263 | a visit ends with its node and everything below it finished, each after its neighbours, the stack as before; it fails only on a real cycle or a missing neighbour |
| GraphSearch.VisitNeighbor | components/crossplane/internal/dag/dag.go:239-251 | an unvisited neighbour is visited, one on the stack closes a cycle in the graph, any other has finished already |
| GraphSearch.FinishVisit | components/crossplane/internal/dag/dag.go:253-262 | the node takes the next slot and leaves the stack |
| GraphSearch.Place | components/crossplane/internal/dag/dag.go:253-258 | writing into the first slot holding "" appends the node to the finished non-empty ones, and changes nothing for a node called "" |
| GraphSearch.SlotsAtTheEnd | components/crossplane/internal/dag/dag.go:222-232 | once every node has finished no slot is left free, and "" stands last if it is a node |
| GraphSearch.OutcomeListsEachOnce | components/crossplane/internal/dag/dag.go:219-233 | the result lists every identifier exactly once |
| GraphSearch.OutcomeTopologicalIff | components/crossplane/internal/dag/dag.go:253-258 | the result is a topological order if and only if no node has "" as a neighbour |
| GraphSearch.EmptyNeighborBreaksOrder | components/crossplane/internal/dag/dag.go:253-258 | with a neighbour called "" the result is not topological, whatever the order of visits |
| Digraph.TopologicalMeansAcyclic | components/crossplane/internal/dag/dag.go:218-233 | only a graph without cycles and missing neighbours has a topological order of all its nodes: why success of the sort rules both out |
| Digraph.BackEdgeMakesCycle | components/crossplane/internal/dag/dag.go:248-250 | a neighbour that is on the stack lies on a cycle |
| GraphSearch.TraceNode | components/crossplane/internal/dag/dag.go:142-149 | terminates on every graph; fails exactly when something reached in zero or more steps is no node; otherwise the keys are exactly what is reached in one or more steps, and each value is the bare node of a dependency entry, naming that key, of a node reached in zero or more steps |
| GraphSearch.TraceInto | components/crossplane/internal/dag/dag.go:151-170 | a call adds only what its node reaches, each addition with all its neighbours and as the bare node of an entry of its node or of another in the tree; it fails only if something reached is missing |
| GraphSearch.TraceNeighbor | components/crossplane/internal/dag/dag.go:156-167 | a neighbour already in the tree is skipped; any other is added with all it reaches, as the bare node of the entry it comes from |
| GraphSearch.TracedIsReached | components/crossplane/internal/dag/dag.go:142-170 | a tree closed under neighbours and holding only what is reached holds exactly that |
| GraphSearch.SourcedIsReached | components/crossplane/internal/dag/dag.go:156-167 | if every node of a tree is that of an entry of the root or of another node of the tree, it is that of an entry of something the root reaches |
| Dag.MapDag.Init | components/crossplane/internal/dag/dag.go:71-93 | fails exactly when two nodes share an identifier; otherwise the implied nodes are the neighbours that were not supplied, each once and in the order first named, and the keys are the union of both |
| Dag.MapDag.AddAllEdges | components/crossplane/internal/dag/dag.go:80-92 | the second loop: adds the unknown neighbours of all nodes, each once, and stores them |
| Dag.MapDag.AddEdgesOf | components/crossplane/internal/dag/dag.go:81-90 | one round of it, for one node of either kind |
| Dag.MapDag.AddEdges | components/crossplane/internal/dag/dag.go:182-199 | for one package: returns and stores a node for each unknown entry, once, carrying the entry's parent constraints and then its own |
| Dag.MapDag.AddEdgeTo | components/crossplane/internal/dag/dag.go:186-195 | one edge of that loop, with what the list of missing nodes is afterwards |
| Dag.MapDag.AddEdge | components/crossplane/internal/dag/dag.go:202-216 | fails exactly when the near node is missing, changing nothing and naming the far node; stores the far node exactly when it is unknown, and adds the near node's constraint to it |
| Dag.MapDag.AddNodes | components/crossplane/internal/dag/dag.go:96-104 | succeeds exactly when every node is new when its turn comes, and stores them all |
| Dag.MapDag.AddNode | components/crossplane/internal/dag/dag.go:107-115 | fails exactly on a known identifier, naming it and changing nothing; otherwise stores the node |
| Dag.StorableIff | components/crossplane/internal/dag/dag.go:71-78 | a list can be stored exactly when its identifiers are distinct and unknown |
| Dag.FirstSeenExact | components/crossplane/internal/dag/dag.go:80-92 | the implied identifiers are exactly the neighbours that were not supplied |
| Dag.FirstSeenOnce | components/crossplane/internal/dag/dag.go:80-92 | each is implied once |
| Dag.FirstSeenInOrder | components/crossplane/internal/dag/dag.go:80-92 | and they come in the order first named: one entry more adds one exactly when it is the first to name something unknown |
| Dag.EntriesInOrder | components/crossplane/internal/dag/dag.go:80-92 | the entries looked at are those of the packages, one node after the other |
| Dag.PutLast | components/crossplane/internal/dag/dag.go:96-104 | of several nodes under one identifier the last is the one stored |
| Dag.InitStores | components/crossplane/internal/dag/dag.go:69-93 | after Init every supplied and every implied node is stored under its own identifier and nothing else is |
| Dag.InitCompletes | components/crossplane/internal/dag/dag.go:69-93 | the stored graph is the declared one with every neighbour stored as a node |
| Dag.SortFailsOnlyOnDeclaredCycles | components/crossplane/internal/dag/dag.go:71-93 | after Init no neighbour is missing, and the stored graph is cyclic exactly when the declared dependencies are: that alone decides whether the sort fails |
| Dag.MapDag.Sort | components/crossplane/internal/dag/dag.go:219-233 | the contract of GraphSearch.Sort for the stored nodes |
| Dag.MapDag.TraceNode | components/crossplane/internal/dag/dag.go:142-149 | the contract of GraphSearch.TraceNode for the stored nodes |
| PackageNodes.Node.Neighbors | components/crossplane/internal/dag/pkg.go:54-61 | one new node for each dependency entry in order, with the entry's package, constraint and parent constraints; none for a bare dependency |
| PackageNodes.Node.AddNeighbors | components/crossplane/internal/dag/pkg.go:65-76 | every listed node is given this node's constraint for it, as often as it is listed, after those it had |
| PackageNodes.Node.AddNeighbor | components/crossplane/internal/dag/pkg.go:67-72 | one round of it: a package hands over the constraint of its first entry for the node, if any; a bare dependency its own (lines 40-46) |
| PackageNodes.Node.AddParentConstraints | components/crossplane/apis/pkg/v1beta1/lock.go:85-87 | appends, keeping what was there |
| PackageNodes.FirstMatchAt | components/crossplane/internal/dag/pkg.go:67-72 | the first entry naming the node decides |
| PackageNodes.FirstMatchNone | components/crossplane/internal/dag/pkg.go:67-72 | without an entry naming it nothing is handed over |
| UpgradingDag.ParentConstraintsExactly | components/crossplane/internal/dag/upgrading_dag.go:41-63 | after Init the parent constraints of a node are exactly those it was supplied with, those carried by the entries naming it, and for each package with such an entry the constraint of its first one |
| UpgradingDag.MapUpgradingDag.Init | components/crossplane/internal/dag/upgrading_dag.go:41-63 | fails exactly when two nodes share an identifier; otherwise the reported entries are, in order, the edges that ReportedIff says need it, what is held for every node is what those edges leave, and every stored node is a supplied one or the bare node of a reported entry |
| UpgradingDag.ReportedIff | components/crossplane/internal/dag/upgrading_dag.go:180-201 | an edge is reported if and only if no supplied node and no earlier edge has its identifier, or the version held then (the supplied one, else the constraint of the first edge naming it) is neither the edge's constraint nor satisfies it |
| UpgradingDag.SuppliedReportedIff | components/crossplane/internal/dag/upgrading_dag.go:183-194 | a supplied identifier is among the reported if and only if some edge to it rejects the version it was supplied at |
| UpgradingDag.EdgesInOrder | components/crossplane/internal/dag/upgrading_dag.go:50-62 | the edges are taken one node after the other, and its entries in order |
| UpgradingDag.InitCompletes | components/crossplane/internal/dag/upgrading_dag.go:41-63 | after Init the stored graph is the declared one with every neighbour stored: added nodes are the bare nodes of reported entries, and no neighbour is missing |
| Resolver.Resolve | components/crossplane/internal/controller/pkg/resolver/reconciler.go:265-286 | building the graph and then sorting it fails exactly when two packages share an identifier or the declared dependencies have a cycle; otherwise what comes back is exactly what is missing from the lock |
| Resolver.ResolveUpgrading | components/crossplane/internal/controller/pkg/resolver/reconciler.go:265-286 | the same with the graph that looks for upgrades; every node missing from the lock is among what comes back, and a package of the lock is if and only if some entry for it has another constraint that its version does not satisfy |
| Resolver.ReturnedIffOutdated | components/crossplane/internal/dag/upgrading_dag.go:180-201 | why: the reported entries for a supplied package are those that reject its own version, whatever constraints it collects on the way |
| UpgradingDag.MapUpgradingDag.AddAllEdges | components/crossplane/internal/dag/upgrading_dag.go:50-62 | the second loop, over all nodes |
| UpgradingDag.MapUpgradingDag.AddEdgesOf | components/crossplane/internal/dag/upgrading_dag.go:51-60 | one round of it; stored objects stay, added ones are new and reported |
| UpgradingDag.MapUpgradingDag.AddEdges | components/crossplane/internal/dag/upgrading_dag.go:156-173 | for one package: all its entries are absorbed in order, and exactly those that need it (see ReportedIff) reported |
| UpgradingDag.MapUpgradingDag.AddEdgeTo | components/crossplane/internal/dag/upgrading_dag.go:160-169 | one edge of that loop |
| UpgradingDag.MapUpgradingDag.AddEdge | components/crossplane/internal/dag/upgrading_dag.go:176-201 | fails exactly when the near node is missing, naming the far node; reports exactly a far node that is unknown, or held at a version that differs from the constraint and does not satisfy it; either way the stored node takes over the constraints |
| UpgradingDag.MapUpgradingDag.HandOver | components/crossplane/internal/dag/upgrading_dag.go:197-198 | the stored node gains what the far node carries and the near node's constraint, even when it is the far node itself, and no other node changes |
| UpgradingDag.MapUpgradingDag.AddOrUpdateNodes | components/crossplane/internal/dag/upgrading_dag.go:89-97 | the node left under an identifier is the last given, with exactly the constraints of the one stored before and of all given for it |
| UpgradingDag.MapUpgradingDag.AddOrUpdateNode | components/crossplane/internal/dag/upgrading_dag.go:91-95 | one round of it: nothing carried so far is lost or invented |
| UpgradingDag.MapUpgradingDag.AddNodes | components/crossplane/internal/dag/upgrading_dag.go:66-74 | succeeds exactly when every node is new when its turn comes |
| UpgradingDag.MapUpgradingDag.AddNode | components/crossplane/internal/dag/upgrading_dag.go:77-85 | fails exactly on a known identifier, changing nothing |
| UpgradingDag.MapUpgradingDag.Sort | components/crossplane/internal/dag/upgrading_dag.go:204-218 | the contract of GraphSearch.Sort for the stored nodes (the same code) |
| UpgradingDag.MapUpgradingDag.TraceNode | components/crossplane/internal/dag/upgrading_dag.go:116-144 | the contract of GraphSearch.TraceNode for the stored nodes (the same code) |
| UpgradingDag.AbsorbedParents | components/crossplane/internal/dag/upgrading_dag.go:176-201 | over any edges a node holds a constraint exactly when it had it or some edge to it hands it over |
| UpgradingDag.AbsorbedConstraints | components/crossplane/internal/dag/upgrading_dag.go:183-188 | a supplied node keeps its version; an implied one has the constraint of the first entry naming it |
| UpgradingDag.EdgeListed | components/crossplane/internal/dag/upgrading_dag.go:51-54 | the edges added are exactly the dependency entries of the nodes |
| CircuitRuns.CollectionChangesNoDecision | components/crossplane/internal/circuit/token_bucket.go:150-160 | over every run with a clock that never goes back, the filter keeps exactly the requests it would keep over a breaker that never drops a target, given expireAfter at least the cooldown and the half-open interval, and a bucket that refills while idle or can never hold a token |
| CircuitRuns.SimulationRun | components/crossplane/internal/circuit/token_bucket.go:145-235 | collecting and not collecting stay in agreement over a run, and so do their decisions |
| CircuitRuns.SimulationStep | components/crossplane/internal/circuit/token_bucket.go:145-235 | one request or reset keeps the agreement and is decided alike |
| CircuitRuns.SimulationOn | components/crossplane/internal/circuit/token_bucket.go:145-235 | the target of a request is decided alike in both and stays in agreement, whether known, collected or new |
| CircuitRuns.StaleActsNew | components/crossplane/internal/circuit/token_bucket.go:150-165 | a target idle for longer than expireAfter lets a request pass and then agrees with a new target |
| CollectionLimits.CollectionUnnoticedIff | components/crossplane/internal/circuit/token_bucket.go:150-160 | for every configuration and starting time: over all runs with a clock that never goes back the filter keeps the same requests with and without collecting, if and only if the half-open interval is negative, or expireAfter is at least the cooldown and the half-open interval and the bucket either never holds a token or refills while idle |
| CollectionLimits.UnsettledToldApart | components/crossplane/internal/circuit/token_bucket.go:150-160 | for every configuration outside the condition, a run from an empty breaker that is decided differently |
| CollectionLimits.OpenToldApart | components/crossplane/internal/circuit/token_bucket.go:150-233 | an expireAfter shorter than the half-open interval or the cooldown is noticed once a circuit has opened |
| CollectionLimits.EmptyingToldApart | components/crossplane/internal/circuit/token_bucket.go:150-210 | an expireAfter too short to refill the bucket is noticed once the bucket is emptied: after idling, only one of the circuits opens |
| CollectionLimits.EveryRequestKept | components/crossplane/internal/circuit/mapfunc.go:62-76 | with a negative half-open interval every request passes, collecting or not |
| CircuitRuns.DefaultsCollectOnlySettled | components/crossplane/internal/circuit/token_bucket.go:121-128 | the default configuration meets the conditions |
| CircuitRuns.CollectingAdmissionsBounded | components/crossplane/internal/circuit/mapfunc.go:45-80 | after any run of the breaker as it is, in a window of length T without a reset of the target the filter keeps at most capacity + rate*T + (1 + T/cooldown) + (1 + T/halfOpen) of its requests, deletions aside |
| CircuitRuns.AdmissionsBounded | components/crossplane/internal/circuit/mapfunc.go:45-80 | the same bound without collecting, and at most capacity + rate*T tokens taken |
| CircuitRuns.CountsBounded | components/crossplane/internal/circuit/token_bucket.go:173-216 | what was taken, opened and probed in a window is paid for by the target's present state: openings a cooldown apart, probes more than a half-open interval apart |
| CircuitRuns.KeptIsCounted | components/crossplane/internal/circuit/mapfunc.go:45-80 | the requests counted are the ones the filter keeps |
| CircuitRuns.TokensConserved | components/crossplane/internal/circuit/token_bucket.go:173-210 | tokens left plus tokens taken never exceed the initial ones plus the yield of the elapsed time, whatever order timestamps are applied in |
| CircuitRuns.RecordKeepsHealthy | components/crossplane/internal/circuit/token_bucket.go:170-235 | with a clock that never goes back the bucket stays at most full and, unless the rate is negative, not below zero, and the times of an open circuit lie in the past |
| CircuitRuns.CoolingRefillsFully | components/crossplane/internal/circuit/token_bucket.go:173-193 | requests during the cooldown cost no refill: after any events in order of time that all find the circuit cooling, the bucket holds what it would had only time passed, up to its capacity |
| CircuitRuns.CoolingStaysOpen | components/crossplane/internal/circuit/token_bucket.go:182-193 | and the circuit is still open since the same time |
| CircuitRuns.RingHoldsRecentSources | components/crossplane/internal/circuit/token_bucket.go:178-202 | over every run the ring holds exactly the last 16 sources since creation or the last close, the closing event excluded |
| CircuitState.RecordKeepsRing | components/crossplane/internal/circuit/token_bucket.go:178-202 | one event keeps that |
| CircuitState.RecordExactly | components/crossplane/internal/circuit/token_bucket.go:170-216 | what one event leaves on every branch: the bucket is refilled first, an open circuit or not; a cooling circuit takes nothing and notes a probe alone; otherwise a full token is taken and the circuit is closed, or there is none and it has just opened |
| CircuitState.ScanFindsMostFrequent | components/crossplane/internal/circuit/token_bucket.go:218-232 | the scan of a ring with any source finds one of maximal count, the last to reach it |
| CircuitState.ScanBlank | components/crossplane/internal/circuit/token_bucket.go:218-232 | the scan of an empty ring keeps the earlier trigger |
| CircuitState.OpeningNamesMostFrequent | components/crossplane/internal/circuit/token_bucket.go:212-232 | when a closed circuit opens, its trigger is a non-empty source of maximal count in the ring |
| CircuitState.TriggerIsMostFrequentIff | components/crossplane/internal/circuit/token_bucket.go:182-232 | when an event opens a circuit, the trigger is a most frequent source of the ring if and only if the circuit was closed |
| CircuitState.ReopeningKeepsTrigger | components/crossplane/internal/circuit/token_bucket.go:182-232 | an event on an open circuit never changes the trigger; it closes the circuit and opens it again exactly when the cooldown is over and the refilled bucket holds less than one token |
| CircuitState.EventSource.Show | components/crossplane/internal/circuit/breaker.go:86-91 | a source is never shown as the empty string, which marks a blank slot |
| CircuitState.ShowTellsApart | components/crossplane/internal/circuit/breaker.go:86-91 | sources of kinds without a slash and names without a space, as Kubernetes has them, are shown alike only if they are equal, so the ring counts each apart |
| Breaker.TargetRecord.constructor | components/crossplane/internal/circuit/token_bucket.go:162-165 | a new target has a full bucket, a closed circuit and a blank ring |
| Breaker.TargetRecord.RecordEvent | components/crossplane/internal/circuit/token_bucket.go:173-235 | the fields after an event are those of Record, which RecordExactly and the theorems over runs characterise on every branch |
| Breaker.TargetRecord.Spend | components/crossplane/internal/circuit/token_bucket.go:205-233 | takes a token, or opens the circuit and names the trigger |
| Breaker.TargetRecord.ClearRing | components/crossplane/internal/circuit/token_bucket.go:199-201 | blanks every slot |
| Breaker.TargetRecord.FindTrigger | components/crossplane/internal/circuit/token_bucket.go:218-232 | the counting loop over the array and its map of counts finds the most frequent source of Scan |
| Breaker.TokenBucketBreaker.RecordEvent | components/crossplane/internal/circuit/token_bucket.go:145-235 | adds the target if it is unknown, collecting idle ones first, and records the event on it; no other target changes |
| Breaker.TokenBucketBreaker.EnsureTarget | components/crossplane/internal/circuit/token_bucket.go:150-166 | a known target changes nothing; an unknown one is added new, after exactly the stale ones are gone |
| Breaker.TokenBucketBreaker.CollectGarbage | components/crossplane/internal/circuit/token_bucket.go:152-160 | in any order, exactly the targets idle for longer than expireAfter are dropped |
| Breaker.TokenBucketBreaker.AddTarget | components/crossplane/internal/circuit/token_bucket.go:162-165 | adds one new target that shares no record or ring with another |
| Breaker.TokenBucketBreaker.RecordKnown | components/crossplane/internal/circuit/token_bucket.go:167-235 | changes the state of that target only |
| Breaker.TokenBucketBreaker.GetState | components/crossplane/internal/circuit/token_bucket.go:238-259 | absent and closed targets look closed; an open one tells its trigger and when the next request may pass |
| Breaker.TokenBucketBreaker.ResetTarget | components/crossplane/internal/circuit/token_bucket.go:270-275 | forgets that target only |
| Filter.FilterRequests | components/crossplane/internal/circuit/mapfunc.go:31-84 | keeps, in order, exactly the requests that the breaker's state at their turn lets pass, and leaves the breaker as the run of all of them does; for an object being deleted keeps every request and leaves every target as it was |
| Filter.KeptIff | components/crossplane/internal/circuit/mapfunc.go:45-80 | over any run a request is kept if and only if its object is being deleted, or its target is unknown then, or its circuit is closed or let the last request through more than a half-open interval before |
| Filter.DeletionsPass | components/crossplane/internal/circuit/mapfunc.go:53-60 | requests of objects being deleted all pass and leave every target as it was, whatever the circuits |
| Filter.ChosenInOrder | components/crossplane/internal/circuit/mapfunc.go:45-83 | what is kept comes in its order: as many as were let pass, each after those let pass before it |
| Filter.SourceNoted | components/crossplane/internal/circuit/mapfunc.go:62-80 | every request that is no deletion is noted in its target's ring with its own source, unless that event cleared the ring |
| Filter.OpeningIsTold | components/crossplane/internal/circuit/token_bucket.go:205-259 | once a closed circuit opens, its state tells a most frequent source of its ring, and the time of opening plus the half-open interval as the next time a request may pass |
| Filter.FilterRequest | components/crossplane/internal/circuit/mapfunc.go:45-80 | one request: a deletion passes without touching the breaker; otherwise closed passes, open passes only after the next allowed time, and the matching event is recorded |
| Filter.ResetOnDelete | components/crossplane/internal/circuit/mapfunc.go:98-110 | passes every request through; a deletion forgets exactly their targets |
| Requirements.RunFunction | components/crossplane/internal/xfn/required_resources.go:69-180 | the loop ends as the specification run does, with the same result and the same request left behind; that run is characterised by RunEndsRightly, ReturnedIsAnswered and LaterCallsDependOnLatest |
| Requirements.RunEndsRightly | components/crossplane/internal/xfn/required_resources.go:79-179 | a run ends with the first response that has a fatal result, requires what the response before it did, or comes first and requires exactly what the request already holds; or with the first call or fetch that fails; or after six calls |
| Requirements.LoopEndsRightly | components/crossplane/internal/xfn/required_resources.go:79-179 | the same from any iteration on |
| Requirements.LoopLeavesRequest | components/crossplane/internal/xfn/required_resources.go:79-179 | unless the loop gives up, the request is left as the last call got it |
| Requirements.Iterate | components/crossplane/internal/xfn/required_resources.go:79-177 | one iteration either ends the run or goes on from the requirements and request it leaves |
| Requirements.Resolve | components/crossplane/internal/xfn/required_resources.go:105-138 | succeeds exactly when every entry can be fetched: then each required name has what was fetched for it, and every other name its bootstrap value, with no names besides; otherwise names an entry that failed |
| Requirements.FetchResources | components/crossplane/internal/xfn/required_resources.go:116-131 | over the map in any order, fetches every entry or reports one that fails |
| Requirements.FetchSchemas | components/crossplane/internal/xfn/required_resources.go:132-138 | the same for schemas |
| Requirements.HasFatal | components/crossplane/internal/xfn/required_resources.go:89-94 | finds a fatal result exactly when there is one |
| Requirements.ReturnedIsAnswered | components/crossplane/internal/xfn/required_resources.go:73-179 | every returned response answered the last request made and, unless fatal, that request held, name by name, what was fetched for each resource and schema the response requires, the caller's own data under every other name, and no other names |
| Requirements.LoopAnswersFully | components/crossplane/internal/xfn/required_resources.go:79-177 | the same from any iteration on |
| Requirements.AtMostSixCalls | components/crossplane/internal/xfn/required_resources.go:79-179 | the function is called at most six times, and exactly six when the loop gives up |
| Requirements.LaterCallsDependOnLatest | components/crossplane/internal/xfn/required_resources.go:102-176 | the first call gets the caller's request; each later request has the context of the response before it, what was fetched for each name that response requires, the caller's own data under every other name, and nothing more |
| Requirements.CallsAreFew | components/crossplane/internal/xfn/required_resources.go:79-179 | from iteration i on at most 6 - i calls are made, and exactly that many when the loop gives up |
| Requirements.CallsAreBuilt | components/crossplane/internal/xfn/required_resources.go:79-177 | from any iteration on, each call is answered by the function at its own iteration, and each later request is built, name by name, from the caller's data and the response just before it |
| Requirements.EarlyReturnSoundIff | components/crossplane/internal/xfn/required_resources.go:140-169 | where the early return fires it agrees with the plain loop for every deterministic function giving that response if and only if the response leaves the context as it was |
| Requirements.SoundWhenContextKept | components/crossplane/internal/xfn/required_resources.go:140-176 | with a function that answers alike at every iteration and a first response that keeps the context, the loop with and without the early return ends alike |
| Requirements.UnsoundWhenContextChanged | components/crossplane/internal/xfn/required_resources.go:163-176 | with a changed context there is a function for which the plain loop ends otherwise |
| Requirements.EarlyStopSkipsOneCall | components/crossplane/internal/xfn/required_resources.go:163-176 | an early return skips a call with the same request but for the context |
| Requirements.WithoutEarlyStopSame | components/crossplane/internal/xfn/required_resources.go:163-177 | where it does not fire the early return changes nothing of the run |
| ListOrder.ListingDeterminedIff | components/crossplane/internal/xfn/required_resources.go:251-255 | the sorted listing is independent of the order items arrive in if and only if different items have different keys |
| ListOrder.ProperListingIsDetermined | components/crossplane/internal/xfn/required_resources.go:251-255 | items without a slash in namespace or name, each pair listed once, always come out in the same order |
| ListOrder.ArrangementUnique | components/crossplane/internal/xfn/required_resources.go:251-255 | two sorted arrangements of items with distinct keys are equal |
| ListOrder.JoinedDetermines | components/crossplane/internal/xfn/required_resources.go:254 | without a slash in the namespaces the joined key determines namespace and name |
| ListOrder.BeforeIsLexicographic | components/crossplane/internal/xfn/required_resources.go:254 | one string comes before another exactly when it is a proper prefix or has the smaller character where they first differ |
| ListOrder.SwapStaysSorted | components/crossplane/internal/xfn/required_resources.go:251-255 | items with one key can change places in a sorted listing |
| ListOrder.SlashConfuses | components/crossplane/internal/xfn/required_resources.go:254 | two resources with a slash in a name or namespace, which Kubernetes does not allow, that share a key |
| ListOrder.BeforeIsTotal | components/crossplane/internal/xfn/required_resources.go:254 | of two different strings one comes before the other and not the other way, and none before itself |
| ListOrder.BeforeIsTransitive | components/crossplane/internal/xfn/required_resources.go:254 | with that, string comparison is a strict total order, so sorting is well defined |
| EngineInvariant.AtMostOneLiveHandler | components/crossplane/internal/engine/engine.go:454-573 | in every reachable state of interleaved starts, stops and informer removals, a controller object has at most one handler per watch registered with an informer that still runs |
| EngineInvariant.LiveHandlerIsRecorded | components/crossplane/internal/engine/engine.go:599-652 | that handler is the one recorded in the controller's sources, unless the holder of its lock has just registered it and is about to record it |
| EngineLists.UniqueIffListedOnce | components/crossplane/internal/engine/engine.go:526-570 | no run ever has two live handlers for a watch if and only if no call of StartWatches lists a watch twice |
| EngineLists.ListedTwiceStartsTwice | components/crossplane/internal/engine/engine.go:526-570 | for every list with a repeat, a run that ends with two live handlers for the repeated watch |
| EngineLists.ListedOnceStartsOnce | components/crossplane/internal/engine/engine.go:526-570 | runs whose calls list no watch twice never have two live handlers for one |
| EngineTracking.RunningIsTracked | components/crossplane/internal/engine/cache.go:83-211 | in every reachable state every running informer is tracked as active, including the gap between giving up the read lock and taking the write lock |
| EngineTracking.AlwaysWellPlaced | components/crossplane/internal/engine/engine.go:454-652 | no goroutine ever finds its controller object gone or its watch out of range |
| EngineTracking.DeadForGood | components/crossplane/internal/engine/source.go:54-80 | a source whose informer has stopped or whose registration was removed never has a live handler again |
| EngineTracking.RunStaysTracked | components/crossplane/internal/engine/cache.go:66-211 | running informers stay tracked, every controller's lock is held by the goroutine that took it, and the engine's for writing by the one inside Stop, whatever the calls list |
| EngineTracking.LeavesAlone | components/crossplane/internal/engine/engine.go:523-524 | while a goroutine holds a controller's lock no other changes its sources, and while it holds the engine's no other starts or ends a controller |
| EngineTracking.StepMovesEngineLock | components/crossplane/internal/engine/engine.go:372-375 | the engine's lock is taken by whoever enters Stop and given up by whoever leaves it; no step changes the controllers while another goroutine holds it |
| EngineInvariant.StepKeeps | components/crossplane/internal/engine/engine.go:292-652 | every step of every goroutine keeps the invariant |
| EngineInvariant.RunKeeps | components/crossplane/internal/engine/engine.go:292-652 | every reachable state meets it |
| EngineInvariant.UntrackedIsDead | components/crossplane/internal/engine/engine.go:474-477 | a watch whose kind is not active has no live handler |
| EngineInvariant.NothingToReplace | components/crossplane/internal/engine/engine.go:526-555 | a watch about to be started has no live handler yet, though other goroutines ran since the snapshot |
| EngineInvariant.WatchSourceKeeps | components/crossplane/internal/engine/engine.go:560-563 | registering the handler keeps the invariant while it is not yet recorded |
| EngineInvariant.RecordSourceKeeps | components/crossplane/internal/engine/engine.go:566 | recording it settles what its goroutine owed |
| EngineInvariant.StopNextKeeps | components/crossplane/internal/engine/engine.go:634-642 | stopping a source leaves its watch without a live handler before it is forgotten |
| EngineInvariant.StopDeleteKeeps | components/crossplane/internal/engine/engine.go:644 | forgetting it then loses no live handler |
| EngineInvariant.EndNextKeeps | components/crossplane/internal/engine/engine.go:386-398 | the same while a controller is stopped, with its sources in any order |
| EngineInvariant.RemoveLockedKeeps | components/crossplane/internal/engine/cache.go:205-211 | removing an informer keeps the invariant: no handler of it counts as live any more |
| EngineInvariant.LookLockedKeeps | components/crossplane/internal/engine/cache.go:98-103 | a kind is tracked no later than its informer starts |
| EngineObject.ControllerEngine.Guarantees | components/crossplane/internal/engine/engine.go:47-79 | whatever operations goroutines have in hand, running informers are tracked, and no watch has two live handlers if no call lists one twice |
| EngineObject.HistoryIsRun | components/crossplane/internal/engine/engine.go:292-652 | the states that the objects go through are a run of the state machine |
| EngineObject.NextGrows | components/crossplane/internal/engine/engine.go:560-566 | identifiers are handed out in order, so a source numbered since the call began was registered during it |
| EngineObject.ControllerEngine.Others | components/crossplane/internal/engine/engine.go:292-652 | other goroutines take any steps of the machine; they leave a goroutine where it is, the sources of the controller it has locked as they are, and all controllers if it holds the engine's lock |
| EngineObject.ControllerEngine.Get | components/crossplane/internal/engine/cache.go:140-161 | a run of the machine after which the kind is tracked, and its informer runs unless there was none and the wrapped cache failed to start it; no other kind comes or goes; Get, List and GetInformerForKind are the same |
| EngineObject.ControllerEngine.RemoveInformer | components/crossplane/internal/engine/cache.go:188-211 | a run of the machine after which no informer runs for the kind and it is not tracked; the other kinds go on as they were |
| EngineObject.ControllerEngine.Start | components/crossplane/internal/engine/engine.go:292-369 | a run of the machine; a controller that runs already is left alone, with everything else; otherwise there is one more controller object, under that name and without sources |
| EngineObject.ControllerEngine.StartWatches | components/crossplane/internal/engine/engine.go:454-573 | with both checks and other goroutines in between, a run of the machine; on success the controller found under that name has a source for every watch listed, and each is of a kind seen active in a snapshot taken during the call or was registered during the call |
| EngineObject.ControllerEngine.FindToStart | components/crossplane/internal/engine/engine.go:455-461 | the controller is the one then running under that name, and there is an error exactly when there is none |
| EngineObject.ControllerEngine.SeeActive | components/crossplane/internal/engine/engine.go:484-489 | the snapshot is what the cache then takes to be active |
| EngineObject.ControllerEngine.SeeActiveAgain | components/crossplane/internal/engine/engine.go:528-533 | and so is the second, under the lock |
| EngineObject.ControllerEngine.CheckToStart | components/crossplane/internal/engine/engine.go:496-518 | under the read lock: there is something to start exactly unless every watch listed has a source and its kind is in the snapshot; without anything the call is over |
| EngineObject.ControllerEngine.AnyToStart | components/crossplane/internal/engine/engine.go:498-511 | something is to be started exactly when a listed watch has no source or its kind was not seen active |
| EngineObject.ControllerEngine.StartSources | components/crossplane/internal/engine/engine.go:536-570 | the loop under the lock: an error ends it without the lock; otherwise every watch listed has a source, of a kind in the second snapshot or registered during the call |
| EngineObject.ControllerEngine.StartSource | components/crossplane/internal/engine/engine.go:536-566 | one round of it: the watches looked at before keep their sources, and this one has one afterwards, kept if its kind is in the snapshot and new otherwise |
| EngineObject.ControllerEngine.StopWatches | components/crossplane/internal/engine/engine.go:599-652 | with both checks and other goroutines in between, a run of the machine; on success the controller found under that name has lost exactly the sources for the watches listed since a time during the call, after an error those for the first of them; the number answered is that of the sources that went, 0 if nothing was to stop |
| EngineObject.ControllerEngine.CheckToStop | components/crossplane/internal/engine/engine.go:608-625 | under the read lock: there is something to stop exactly when a listed watch has a source; without anything the call is over |
| EngineObject.ControllerEngine.AnyToStop | components/crossplane/internal/engine/engine.go:611-618 | something is to be stopped exactly when a listed watch has a source |
| EngineObject.ControllerEngine.StopSources | components/crossplane/internal/engine/engine.go:632-651 | the loop under the lock: afterwards the controller has exactly the sources it had but for the watches listed, or for the first of them after an error, and the number reported is that of the sources that went |
| EngineObject.ControllerEngine.StopOne | components/crossplane/internal/engine/engine.go:634-648 | one round of it: the watch has no source afterwards, every other keeps its own, and it counts exactly when it had one |
| EngineObject.ControllerEngine.StopSource | components/crossplane/internal/engine/source.go:68-80 | nothing to do without a registration or on a stopped informer; otherwise the handler goes, or the call fails and changes nothing |
| EngineObject.ControllerEngine.Stop | components/crossplane/internal/engine/engine.go:372-401 | a run of the machine; on success the controller found under that name has no sources and is gone, and the others are those that ran when it was found; after an error all of them still run |
| EngineObject.ControllerEngine.EndSources | components/crossplane/internal/engine/engine.go:387-398 | the loop in any order: an error ends it without the locks, every controller still running; otherwise no source is left and that controller alone is gone |
| Expectations.CounterEqualsPendingIff | components/kubevirt/pkg/controller/expectations.go:161-195 | over every run of all operations the counter of expected deletions equals the number of UIDs pending after every operation, if and only if each one that sets or changes counters alone minds the UIDs then pending |
| Expectations.CounterEqualsPending | components/kubevirt/pkg/controller/expectations.go:303-362 | over every run of the UID-tracking operations and observations the two always agree |
| Expectations.MindedKeepsAgreement | components/kubevirt/pkg/controller/expectations.go:303-362 | one operation keeps a controller's counter and set in agreement if it minds them |
| Expectations.UnmindedBreaksAgreement | components/kubevirt/pkg/controller/expectations.go:161-195 | one that does not mind them breaks it |
| Expectations.ExpectCreationsAgreesIff | components/kubevirt/pkg/controller/expectations.go:171-173 | after a run that keeps agreement, expecting creations keeps it if and only if no deletion is pending |
| Expectations.DeletionsFulfilledIff | components/kubevirt/pkg/controller/expectations.go:338-348 | after expecting keys and any observations, repeats and strangers included, what is pending is what was not observed, and deletions are fulfilled exactly when all were, whatever other controllers do |
| Expectations.PendingAfterObserving | components/kubevirt/pkg/controller/expectations.go:338-348 | observations take exactly what they name |
| Expectations.PendingIff | components/kubevirt/pkg/controller/expectations.go:303-362 | over any operations a UID is pending if and only if some operation expected it, or it was pending before, and no later one observed it, replaced the expected deletions or deleted the expectations |
| Expectations.CreationsCounted | components/kubevirt/pkg/controller/expectations.go:161-200 | since the operation that last set a key's counters, the creations still expected are those it set plus those raised minus those observed, counted over the operations, and the time kept is its own |
| Expectations.CreationsFulfilledIff | components/kubevirt/pkg/controller/expectations.go:171-200 | after n creations are expected and any operations that only observe for that key, n minus the observed are still expected; they are fulfilled exactly when n were observed |
| Expectations.MaySyncAfterDeletionsIff | components/kubevirt/pkg/controller/expectations.go:120-145 | after expecting deletions a controller that only watches may sync exactly when it has observed them all or five minutes have passed |
| Expectations.MaySyncAfterCreationsIff | components/kubevirt/pkg/controller/expectations.go:120-145 | after expecting n creations with no deletion pending, exactly when it has observed n or five minutes have passed |
| Expectations.MaySyncAfterDeleting | components/kubevirt/pkg/controller/expectations.go:120-156 | after its expectations were deleted a controller may sync until something sets new ones |
| Expectations.UIDTrackingControllerExpectations.ExpectDeletions | components/kubevirt/pkg/controller/expectations.go:303-319 | the pending UIDs become exactly the distinct keys given and the counters zero creations and their number |
| Expectations.UIDTrackingControllerExpectations.AddExpectedDeletion | components/kubevirt/pkg/controller/expectations.go:321-335 | one more UID is pending and the counter is their number, though a non-empty set is changed in place |
| Expectations.UIDTrackingControllerExpectations.ExpectedWith | components/kubevirt/pkg/controller/expectations.go:325-329 | the set is the stored object itself unless that is empty, and no other key's set changes |
| Expectations.UIDTrackingControllerExpectations.Expect | components/kubevirt/pkg/controller/expectations.go:315-318 | stores the UIDs and counters to match |
| Expectations.UIDTrackingControllerExpectations.DeletionObserved | components/kubevirt/pkg/controller/expectations.go:338-348 | a pending UID lowers the counter and goes; any other changes nothing |
| Expectations.UIDTrackingControllerExpectations.CreationObserved | components/kubevirt/pkg/controller/expectations.go:198-200 | lowers the expected creations of a known controller by one (CreationsCounted says what that adds up to) |
| Expectations.UIDTrackingControllerExpectations.DeleteExpectations | components/kubevirt/pkg/controller/expectations.go:352-362 | forgets counters and UIDs of that key only |
| Expectations.UIDTrackingControllerExpectations.SetExpectations | components/kubevirt/pkg/controller/expectations.go:161-169 | replaces the counters of that key by new ones |
| Expectations.UIDTrackingControllerExpectations.RaiseExpectations | components/kubevirt/pkg/controller/expectations.go:189-195 | changes the counters of a known key only |
| Expectations.UIDTrackingControllerExpectations.LowerExpectations | components/kubevirt/pkg/controller/expectations.go:180-186 | the opposite of raising |
| Expectations.UIDTrackingControllerExpectations.ExpectCreations | components/kubevirt/pkg/controller/expectations.go:171-173 | replaces the counters of that key, with no deletions expected, and leaves the UIDs |
| Expectations.UIDTrackingControllerExpectations.Remove | components/kubevirt/pkg/controller/expectations.go:346 | takes one UID out of that key's set only |
| Expectations.UIDTrackingControllerExpectations.SatisfiedExpectations | components/kubevirt/pkg/controller/expectations.go:120-145 | a controller may sync exactly when it has no expectations, no creation and no deletion is outstanding, or more than five minutes have passed |
| Expectations.UIDTrackingControllerExpectations.GetUIDs | components/kubevirt/pkg/controller/expectations.go:295-300 | nothing exactly for a key without UIDs; otherwise its set, shared with no other key, so that changes to it are seen for this key alone |
| Connections.ActiveEndpoint | components/crossplane/internal/xfn/function_runner.go:195-215 | the endpoint of the first active revision; an error exactly when none is active or the first active one has no endpoint |
| Connections.PackagedFunctionRunner.LookUp | components/crossplane/internal/xfn/function_runner.go:218-225 | returns the stored connection exactly when its target is the endpoint read, and it is open |
| Connections.PackagedFunctionRunner.LookUpOrDial | components/crossplane/internal/xfn/function_runner.go:227-267 | every connection ever made stays open and stored under its function or closed and not stored; success returns an open connection to the endpoint read, the stored one if it fits; failure leaves none stored for the function |
| Connections.PackagedFunctionRunner.Drop | components/crossplane/internal/xfn/function_runner.go:240-246 | closes a connection and forgets it, no other |
| Connections.PackagedFunctionRunner.Collect | components/crossplane/internal/xfn/function_runner.go:308-339 | in any order, closes and forgets exactly the connections of functions not installed, and counts them; nothing changes if they cannot be listed |
| Connections.PackagedFunctionRunner.AnyConnections | components/crossplane/internal/xfn/function_runner.go:299-306 | the early exit is taken exactly when nothing is stored |
| Connections.PackagedFunctionRunner.Interleave | components/crossplane/internal/xfn/function_runner.go:192-339 | over any steps of any goroutines in any order, every connection ever made stays open and stored or closed and not, and every answer is a connection of that function to the endpoint its caller read |
| Connections.PackagedFunctionRunner.Step | components/crossplane/internal/xfn/function_runner.go:217-339 | one critical section of one goroutine keeps that, and what it answers is open |

## Left out

- Dag.MapDag.AddEdges: the map of edges has one entry, for a stored package with its own neighbours, as its only caller in the repository, Init, passes it; maps with several entries are not modelled
- UpgradingDag.MapUpgradingDag.AddEdges: one entry per call, as above
- PackageNodes.Node.AddParentConstraints: lists are values, so the sharing of a slice's spare capacity between two nodes is not modelled
- UpgradingDag.MapUpgradingDag.Init: parent constraints are followed as sets, because an implied node appends its constraints to themselves; their order and repeats are not stated
- EngineObject.ControllerEngine.Start: a constructor that fails, which changes nothing, and the goroutines it starts (leader election, running the controller, collecting its watches) are not modelled
- EngineObject.ControllerEngine.StartWatches: a goroutine that finds a lock taken after the others' steps gives up waiting instead of trying again, so that nothing is said about progress
- CircuitRuns.CollectionChangesNoDecision: requests are handled one after another with a clock that never goes back; timestamps applied out of order are covered by TokensConserved alone
- Connections.PackagedFunctionRunner.Collect: listing installed functions is an input, taken while the lock is held
- Controllers, informers and sources are numbered, and the engine and its cache share one set of fields, instead of being objects that refer to each other
- ActiveInformers, IsRunning and GetWatches: single reads under a lock, of which the engine's operations use only the first
- `ctrl.Watch` is taken to start the source before it returns; queuing by a controller that has not started is not modelled
- The wrapped cache's informers run until RemoveInformer stops them; its own failures and its shutdown are not modelled
- GarbageCollectCustomResourceInformers and the event handlers of engine/source.go: the former only calls RemoveInformer, which can happen at any step
- A function that changes the request it is called with, and the difference between a nil and an empty map, in the requirements loop
- The algorithm of sort.Slice: only that it leaves a sorted rearrangement
- Fetching one resource by name or listing with selectors, protobuf and JSON conversion: API calls and libraries; their answers are inputs
- CircuitState.EventSource.Show: a source is its kind, name and namespace; sources of different groups or versions are shown alike by the code too
- Parsing of versions and constraints: the semver check is a given predicate, false where parsing fails
- int64 wrap-around of the expectation counters, float64 rounding of tokens and the nanosecond grain of durations
- Pending creation totals, GetExpectations and the logging of both expectation stores: reads without further state
- MapDag.AddOrUpdateNodes, GetNode, NodeExists, NodeNeighbors and PackagesToNodes: single map reads and writes
- IsAuthorizedFor, metrics, interceptors and credentials: calls into services and libraries
- The other components of the repository (managed fields, virt-handler, virt-launcher, cloud-init, disks and hooks, the web platform)
