# Verified model of the ResilOps agent

The agent runs resilience scenarios inside a Kubernetes cluster. This project models the
parts of it in which something can go wrong between two steps, and proves what they keep:

- **Leader election** (`Leases`, `Election`, `ElectionTheorems`, `LeaderElection`). Any number of
  agents read, decide and write one Lease on an API server with optimistic concurrency. A write may
  be applied although its response is lost, it may arrive after its sender has given up, a process
  may restart under the same identity, and every agent has a clock of its own that differs from the
  true time by at most `skew`; `skew` 0 is the single shared clock. The server starts empty or with
  leases of any shape, including missing or zero durations.
- **Snapshot publishing** (`Snapshots`, `SnapshotTheorems`). The batch loop with a leadership check
  before every batch, on top of the election object. The handler records for every check and every
  publish call which election steps it stands for, a whole call or up to three publish attempts, and
  from there the sync is followed into any run of the system.
- **Claim-set pipeline** (`Claims`, `Execution`, `Slots`, `Pipeline`, `Fleet`, `FleetTheorems`,
  `Workers`). Scheduler, runner and heartbeat of any number of agents, and the control plane's
  acknowledge endpoint. Between two suspension points a worker is one atomic step; everything else
  may happen in between. `Workers` is the code of the workers on the objects they share.
- **Token cache and retries** (`Tokens`, `Retry`). Double-checked locking under any number of
  callers, and the bounded retry loop around each control-plane call. The token exchange is the
  client credentials grant of section 4.4 of RFC 6749, `expires_in` is that of section 5.1.
- **Worker loop, pacing, configuration** (`Periodic`, `Namespaces`).

Concurrent parts are deterministic step functions: `Apply` says what one event does, `Run` what a
whole list of events does, and `Reached` that a state comes out of some run from a start state.
Main theorems hold for every such run. Classes carry as ghost state the list of protocol steps they
have taken, and their `Valid()` says that this list is a run of the protocol; `Election.RunProjects`
and `Fleet.RunProjects` are the other direction, from a run of everything to a run of one agent.
The random order of a snapshot, its id, the outcome of fetches, requests and claims are parameters,
so every statement is about all of them. `modifies`-methods whose environment can do anything use
nondeterministic choice.

Contracts of the main operations are written in fields, constructors and literal constants, not in
terms of the functions the steps are built from, so that the statement does not move with the body.

Four things one might expect are false of the code, and the project says exactly so:

- The leader flag alone does not exclude (`FlagAloneIsNotExclusive`); being inside the window of
  one's own confirmed write does (`Exclusivity`), and that window cannot be longer
  (`PublishWindowIsTight`).
- Delivery is not at least once (`LostResponseLosesSet`). A granted set is lost for good exactly when
  the call that was granted it fails or is cancelled before it returns, or when the grant went to a
  request its sender had given up on; in all other cases it has been queued or still can be
  (`StepLosesExactly`, `DeliveredUnlessLost`). Delivery is at most once in every case (`AtMostOnce`).
- The worker loop does not survive every exception. It does exactly when none comes from
  `should_execute` or the error handler (`RunContinuously`); an API error met by the snapshot worker's
  leadership check is one that does (`ApiErrorEndsSnapshots`).
- A token that has just been fetched may already be past its margin, and it is exactly when its
  lifetime is too short (`FetchedTokenUsable`); one served from the cache never is (`CacheServesFresh`).

## Model

| member | source | states |
|---|---|---|
| `Leases.ChainOrders` | src/agent/core/leader.py:192-252 | in a history where each write was allowed on the one before it, any two writes are ordered: renew times do not go back, the acquire time never changes, and different writers have disjoint windows |
| `Leases.UpdateSucceeds` | src/agent/core/leader.py:207-227 | a renew or take-over the code allows on a stored lease is a legal successor of it, also when a stored duration of 0 falls back to the challenger's |
| `Election.WriteKeepsHistory` | src/agent/core/leader.py:254-277 | a request the server accepts, live or late, keeps the history of the lease legal |
| `Election.RunKeepsInv` | src/agent/core/leader.py:46-64 | every run keeps the election invariant: an unbroken history of legal writes, every pending or late request legal on the version it names, at most one win per version |
| `Election.RunProjects` | src/agent/core/leader.py:46-64 | in every run of the system each agent by itself follows read, decide, write |
| `ElectionTheorems.InWindowIsHolder` | src/agent/core/leader.py:192-227 | an agent inside the window of its last confirmed write is the holder stored on the server, with a renew time at least its own |
| `ElectionTheorems.Exclusivity` | src/agent/core/leader.py:168-227 | in every reachable state at most one agent is inside its window |
| `ElectionTheorems.LeaseHistory` | src/agent/core/leader.py:124-143 | renew times are non-decreasing over all applied writes, a change of holder lies strictly past the old deadline, and on a server that was empty the acquire time stays the creation time and never exceeds a renew time |
| `ElectionTheorems.OneWinnerPerVersion` | src/agent/core/leader.py:145-190 | of all calls that acted on one version, or all found no lease, at most one returns True in the whole run, and what that call wrote is what is stored on that version |
| `ElectionTheorems.FlagIsLastResult` | src/agent/core/leader.py:90-97 | in every reached state the flag is what the last call that returned normally returned, whatever calls raised since |
| `ElectionTheorems.GivenUpMayArrive` | src/agent/core/leader.py:254-277 | a request its sender has given up on may still arrive, and is applied exactly when the version it names is still the last |
| `ElectionTheorems.UndisturbedCall` | src/agent/core/leader.py:46-64 | a call nobody disturbs returns True exactly when there is no lease, it is the agent's own, it has no renew time, or its renew time plus its duration (the agent's own when missing or zero) is past; it then writes its identity, the time of the call, its duration and the acquire time it found, otherwise nothing |
| `ElectionTheorems.TimelyPublisherHolds` | src/agent/handlers/snapshot.py:78-101 | at the instant of a publish attempt within the window of its check the publisher is the stored holder |
| `ElectionTheorems.RunKeepsHolders` | src/agent/handlers/snapshot.py:78-101 | over a whole run: each attempt that was timely was made while the stored lease was the publisher's, renewed no earlier than by its check |
| `ElectionTheorems.CoversProject` | src/agent/handlers/snapshot.py:78-95 | the writes that cover an agent's publish attempts in a run of the system are those its own steps say |
| `ElectionTheorems.PublicationsSeparated` | src/agent/handlers/snapshot.py:78-101 | publish attempts of two agents lie in disjoint windows, and a timely one comes strictly before any under a later window |
| `ElectionTheorems.PublishWindowIsTight` | src/agent/handlers/snapshot.py:86-95 | publishing `x` after the check is safe in all runs if and only if `x` plus twice the skew is within the lease duration, and the same bound is exact for trusting the flag alone |
| `ElectionTheorems.FlagAloneIsNotExclusive` | src/agent/core/leader.py:90-97 | a run after which two agents both have the leader flag set |
| `LeaderElection.KubernetesLeaderElection.AcquireOrRenewLease` | src/agent/core/leader.py:46-64 | takes the protocol steps of exactly one call; the flag equals a returned value and is unchanged by a raise; True means this call's own write was stored during the call, with a renew time read during it; undisturbed, True exactly when absent, own or expired |
| `LeaderElection.KubernetesLeaderElection.TryCreateLease` | src/agent/core/leader.py:145-166 | the API's reply decides: on success True, the lease was absent and is now the agent's own new one; 409 is False; every other status is raised |
| `LeaderElection.KubernetesLeaderElection.TryTakeOrRenewExistingLease` | src/agent/core/leader.py:168-190 | sends a replace exactly when the lease is the agent's own, has no renew time or is expired, keeping the acquire time it found, and succeeds only on the version that was read; otherwise returns False, clears the flag and writes nothing |
| `LeaderElection.KubernetesLeaderElection.Send` | src/agent/core/leader.py:267-277 | a success of the API sets the flag and returns True, a reply of 409 clears it and returns False, any other error is raised and leaves it |
| `Snapshots.Chunked` | src/agent/handlers/snapshot.py:35-51 | rejects a non-positive size, otherwise cuts the items in order into full batches and one last shorter one |
| `Snapshots.ChunkingUnique` | src/agent/handlers/snapshot.py:50-51 | that cut is the only one |
| `Snapshots.ChunkCount` | src/agent/handlers/snapshot.py:50-51 | it has ceil(n / size) batches |
| `Snapshots.SnapshotHandler.EnsureLeadership` | src/agent/handlers/snapshot.py:53-62 | makes one election call and returns normally exactly when it returned True; then the agent's own write was stored, and its clock read, between entry and return; a refusal raises the not-leader error, an API error goes through |
| `Snapshots.SnapshotHandler.CaptureAndPublishSnapshot` | src/agent/handlers/snapshot.py:68-103 | for every failure pattern, the exact sequence of checks and publish calls under one sync id with the election steps behind each, the error with the sync id attached when a batch failed, and on a normal return exactly the target namespaces delivered |
| `Snapshots.SyncDelivers` | src/agent/handlers/snapshot.py:78-103 | delivered batches are a prefix of the batches of the order; on a normal return they put together the whole order, in ceil(n / 5) batches of one to five names |
| `Snapshots.SyncChecks` | src/agent/handlers/snapshot.py:78-95 | every publish call carries the one sync id and comes right after a successful leadership check made for it |
| `SnapshotTheorems.CoversOfSync` | src/agent/handlers/snapshot.py:78-95 | each publish attempt of a sync is covered by the lease write of the check made for its batch, and by no other |
| `SnapshotTheorems.SyncUnderLease` | src/agent/handlers/snapshot.py:78-101 | the same for a sync in the middle of any run of the system, where every attempt within the window of its batch's check was made by the stored lease holder |
| `Claims.OrderUpTo` | src/agent/handlers/runner.py:51 | the execution order is a permutation sorted by position, equal positions in input order |
| `Claims.StableOrderIsStable` | src/agent/handlers/runner.py:51 | the same in the positions themselves, for the order the executor uses |
| `Claims.StableOrderUnique` | src/agent/handlers/runner.py:51 | there is only one such order, so any stable sort gives it |
| `Execution.ModesPromise` | src/agent/handlers/runner.py:65-70 | stop mode runs exactly the prefix through the first failure, continue mode runs every claim |
| `Execution.ScenarioRunner.ExecuteClaimSet` | src/agent/handlers/runner.py:49-72 | for every failure pattern: which claims run, for each of them EXECUTING and then SUCCESS if it succeeded and FAILED if not, in that order and nothing else; it raises exactly when in stop mode the last claim failed, with that claim attached and its FAILED as last event; one pause per claim passed |
| `Execution.OutcomesUnique` | src/agent/handlers/runner.py:49-72 | the behaviour of the claims determines the run completely |
| `Execution.ProjectRun` | src/agent/handlers/runner.py:51-64 | a claim that ran has exactly EXECUTING and then SUCCESS if it succeeded, FAILED if it did not, among the events of the run |
| `Slots.RunnerStateHandler.Enqueue` | src/agent/handlers/state.py:34-40 | raises and changes nothing unless idle |
| `Slots.RunnerStateHandler.MarkRunning` | src/agent/handlers/state.py:42-47 | raises and changes nothing unless queued |
| `Pipeline.StepsKeepInv` | src/agent/workers/runner.py:41-63 | any interleaving of scheduler, runner and heartbeat steps keeps slot, runner and scheduler in agreement, and the log is that of the jobs handled strictly one after the other |
| `Fleet.RunKeepsInv` | mockserver/server/app.py:96-111 | every run keeps that each granted set has one owner, who alone may have queued it |
| `Fleet.RunProjects` | src/agent/core/worker.py:78-87 | in every run of the fleet each agent by itself follows the steps of its workers |
| `FleetTheorems.AtMostOnce` | src/agent/workers/scheduler.py:47-64 | in the whole fleet and run no two acknowledge calls for the same set return normally, so a set is queued at most once |
| `FleetTheorems.Conserved` | src/agent/workers/runner.py:47-63 | the sets acknowledged normally are, in order, the finished ones and the one in the slot, each once; queueing and starting never raised |
| `FleetTheorems.SlotNeverDrops` | src/agent/handlers/state.py:34-52 | a set in the slot is never overwritten or dropped: it stays, or it is the one just finished |
| `FleetTheorems.SlotInvariant` | src/agent/workers/scheduler.py:43-64 | a set is present exactly when not idle, running exactly when the runner executes that set, and a suspended scheduler always finds the slot idle |
| `FleetTheorems.QueueingSucceeds` | src/agent/workers/scheduler.py:58-69 | after both suspensions queueing succeeds and QUEUED follows at once for every claim in input order |
| `FleetTheorems.OnlyHealthyBegins` | src/agent/workers/runner.py:41-45 | in every run a poll starts only on a healthy agent with an empty slot, an execution only on a healthy agent and with the queued set |
| `FleetTheorems.ServerAnswers` | mockserver/server/app.py:96-111 | the acknowledge endpoint grants and takes a set that is offered and free, answers 409 for a taken and 404 for an unknown one and then changes nothing |
| `FleetTheorems.StepLosesExactly` | src/agent/clients/base.py:90-112 | in every reached state, a step loses a set if and only if a granted call of a live agent fails or is cancelled before it returns, or a request given up on is granted late |
| `FleetTheorems.LostForever` | mockserver/server/app.py:100-111 | a set that counts as acknowledged but that nobody has or is about to learn of is never queued, however the run goes on |
| `FleetTheorems.DeliveredUnlessLost` | src/agent/workers/scheduler.py:47-64 | an acknowledged set is queued, on its way to a live agent or lost, one of the three; it is lost if and only if the run contains a losing event, and queued now or in some continuation if and only if it contains none |
| `FleetTheorems.GivenUpMayTake` | src/agent/clients/base.py:90-112 | an acknowledge request given up on may still arrive, and loses a set that was free until then |
| `FleetTheorems.LostResponseLosesSet` | src/agent/clients/base.py:90-112 | the run in which the response to a grant is lost and the retry meets 409: the set is lost while the agent lives on with an idle slot |
| `FleetTheorems.FinishedClaimStory` | src/agent/handlers/runner.py:51-70 | over the whole run a claim of a finished set shows QUEUED and, if it ran, EXECUTING and then SUCCESS if it succeeded and FAILED if not, once each |
| `FleetTheorems.SlotClaimStory` | src/agent/workers/scheduler.py:64-69 | the same for the set in the slot, where the claim under way has no verdict yet |
| `FleetTheorems.LogLanguage` | src/agent/workers/scheduler.py:64-69 | for every claim the agent's events are QUEUED, then at most EXECUTING, then at most one verdict; there are any exactly when the agent has queued such a claim |
| `FleetTheorems.OneExecutionAtATime` | src/agent/handlers/runner.py:51-70 | executions in an agent's log never overlap, and one is open at the end exactly when the runner is inside it |
| `Workers.OthersKeepRely` | src/agent/workers/scheduler.py:43-56 | what runner, heartbeat and scheduler may rely on while suspended is kept by the others |
| `Workers.AgentProcess.SchedulerIteration` | src/agent/workers/scheduler.py:43-69 | queues a set exactly when healthy and idle at the check, a pending set was fetched, and an acknowledge attempt was answered with a grant after only retried failures; takes pipeline steps only |
| `Workers.AgentProcess.Acknowledge` | src/agent/clients/control_plane.py:76-86 | returns normally exactly when one of at most three attempts was granted and answered and all before it failed without response or with a status that is retried; the slot is idle then; a failed attempt may have been granted unnoticed |
| `Workers.AgentProcess.HandleIterationSuccess` | src/agent/workers/scheduler.py:58-69 | queues the set and emits QUEUED for its claims in input order, as one step |
| `Workers.AgentProcess.RunnerIteration` | src/agent/workers/runner.py:41-63 | executes the queued set among interleaved workers; every claim that ran shows EXECUTING and then SUCCESS or FAILED as it went; the slot is idle on either path |
| `Workers.AgentProcess.HeartbeatIteration` | src/agent/workers/heartbeat.py:36-51 | the health becomes what the heartbeat request said |
| `Retry.OneFirstFinal` | src/agent/clients/base.py:87-112 | however the attempts go there is exactly one first final attempt, and it is within the limit |
| `Retry.BaseAPIClient.Request` | src/agent/clients/base.py:75-114 | makes attempts until one succeeds, fails with one of the statuses 400, 401, 403, 404, 409, 422 or with an error that is not caught, or the limit is reached; returns that attempt's outcome, pauses one time fewer than it attempts, and never falls off the loop |
| `Retry.ControlPlaneClient.Call` | src/agent/clients/control_plane.py:37-43 | at most three attempts under the same rule, and a token can be missing only in the last one, which ends the call |
| `Retry.ZeroRetriesIsOneAttempt` | src/agent/clients/token.py:41-55 | the token request itself makes exactly one attempt |
| `Tokens.OneRequestInFlight` | src/agent/clients/token.py:38-55 | at most one token request is in flight, and it is the lock holder's |
| `Tokens.RequestsAreNeeded` | src/agent/clients/token.py:38-40 | a request starts only if the token last stored was absent or expired when rechecked under the lock |
| `Tokens.CacheServesFresh` | src/agent/schemas/token.py:18-24 | a token served from the cache was before its creation plus lifetime minus five seconds at the check |
| `Tokens.TokensAreIssued` | src/agent/clients/token.py:60-63 | over every run, a caller's token has the value and lifetime of an answer in that run, of the answer to its own request if it fetched it; the cache holds those of the latest answer |
| `Tokens.ExpiryRefetches` | src/agent/clients/token.py:35-41 | once the cached token is past its margin the next caller makes a new request |
| `Tokens.FailureLeavesCache` | src/agent/clients/token.py:56-58 | a failed or cancelled request leaves the cache unchanged and the lock free; a caller cancelled while waiting leaves both alone |
| `Tokens.OneRequestServesAll` | src/agent/clients/token.py:33-63 | for any number of callers, as long as no request is lost and no token expires, one request is made |
| `Tokens.FetchedTokenUsable` | src/agent/clients/token.py:60-63 | a fetched token is usable at once exactly when its lifetime, from now or from the creation time in the response, exceeds the margin |
| `Tokens.AuthServiceClient.GetM2MToken` | src/agent/clients/token.py:33-63 | one call among any others: a usable token is returned at once and nothing touched; otherwise it ends with the lock free, either with what the cache held when rechecked or after exactly one request, whose value and lifetime are returned and stored and whose failure leaves the cache as rechecked |
| `Periodic.PeriodicWorker.ExecuteSafely` | src/agent/core/worker.py:61-68 | the error handler is called once if the iteration or the success handler raised, and only it can let an exception out |
| `Periodic.PeriodicWorker.RunRound` | src/agent/core/worker.py:86-87 | nothing is called and nothing raised when `should_execute` says no; its exception goes through with nothing called |
| `Periodic.PeriodicWorker.RunContinuously` | src/agent/core/worker.py:78-87 | the loop ends through shutdown, all rounds done, if and only if no round lets an exception escape; otherwise with the first exception that does; the handler calls of every round are those its hooks call for, none in a skipped round; if shutdown was requested before, nothing is called |
| `Periodic.OneOutcomePerStart` | src/agent/core/worker.py:78-87 | over all the rounds of a loop, complete success handlers and error handler calls together are as many as the iterations started |
| `Periodic.LoopEndUnique` | src/agent/core/worker.py:78-87 | the behaviour of the hooks determines how the loop ends |
| `Periodic.ApiErrorEndsSnapshots` | src/agent/workers/snapshot.py:76-81 | an API error other than 404 while reading the lease ends the snapshot worker's loop, whatever would come after |
| `Periodic.SnapshotWorker.ShouldExecute` | src/agent/workers/snapshot.py:76-81 | unhealthy is False without a call; otherwise one election call, whose result is returned and whose error is raised |
| `Periodic.StartedIterationEnds` | src/agent/core/worker.py:61-68 | a started iteration ends with the success handler complete or one error handler call, never both |
| `Periodic.StartupPacing` | src/agent/workers/snapshot.py:66-74 | over any history the intervals are a block of fast ones, as long as the smaller of 5 and the requests before the first success, then only the configured one |
| `Periodic.SnapshotWorker.ExecutionInterval` | src/agent/workers/snapshot.py:66-74 | hands out the interval that history calls for |
| `Periodic.SnapshotWorker.HandleIterationSuccess` | src/agent/workers/snapshot.py:88-92 | ends the fast phase for good |
| `Namespaces.ParseUndoesJoin` | src/agent/schemas/config.py:80-96 | every non-empty list of stripped, comma-free, non-empty names is parsed back from its comma join, the empty list is rejected |
| `Namespaces.ParsePadded` | src/agent/schemas/config.py:80-96 | however the names are padded and whatever blank places there are, parsing returns exactly the names, stripped and in order, and rejects a list without any, and anything but a string |
| `Namespaces.EveryTextIsPadded` | src/agent/schemas/config.py:89 | every string is such a list, so that is what parsing does on every input |
| `Namespaces.WhiteSpace` | src/agent/schemas/config.py:89 | the 29 characters that are stripped |
| `Namespaces.ParseIsStable` | src/agent/schemas/config.py:80-96 | what parsing yields is a list of such names, and joining and parsing again changes nothing |
| `Namespaces.ParseFailsOnBlank` | src/agent/schemas/config.py:89-94 | a string is rejected exactly when it holds nothing but commas and white space |

## Left out

- Election assumptions: nobody deletes or edits the Lease by hand (agents have no permission to
  delete it), live agents have distinct identities, no agent's clock goes back, and lease durations
  are not negative, as the Kubernetes API demands.
- SnapshotWorker: the telemetry events of a sync are not modelled.
- A publish instant is the moment an attempt is sent; how long it then travels is not modelled.
- AuthServiceClient: a malformed token response raises another exception than a failed request, with
  the same effect on cache and lock; only one error is modelled. Cancellation is a step of the
  protocol, not a path through the method. The lock may be handed to any waiting
  caller, which includes the order asyncio uses.
- AgentProcess: cancellation is a terminal step of the protocol (`Cancel`), not a path through the
  worker methods; a set granted but not yet queued at that moment is lost (`StepLosesExactly`).
- Conserved: a grant and the queueing that follows it without suspension are one step, so
  "about to be queued" is the state in which the grant is still on its way.
- The scheduler's error handler only logs and rewrites the status of the error; it does not tell a
  conflict from other failures, and nothing here says it does.
- `discover_namespaces` and `execute_resilience_scenario` come from a library that is not part of
  this model; they return or raise. Their own telemetry and the discovery events are not in the log.
- HTTP, TLS, the Kubernetes client, asyncio, signal handling, task creation, payload formats, logging,
  OAuth scope strings, URL joining and environment lookups.
- The documentation of the control plane's acknowledge endpoint is its mock server; sets there are
  told apart by id, and an id is offered once.
