# Verified model of the MCP gateway kit

The kit is a proxy and gateway for MCP servers, written in Go. This project models its stateful
core in Dafny and proves what that core keeps over every run:

- **Connection pool** (`PoolModel`, `PoolInvariants`, `PoolTheorems`, `PoolEvents`, `ConnectionPool`).
  One event is one critical section of the pool's mutex, so one call of `Get` is several events and any
  number of calls may interleave. `PoolModel` is the transition system, `PoolTheorems` holds the
  guarantees for all runs, and `PoolEvents` says of each event what it does to the connections and the
  calls. `ConnectionPool.Pool` is the Go object, with its maps, counters and connection records updated
  in place; each method moves the transition system by the event of the same name.
- **Request and answer correlation** (`MessageIds`, `Correlation`). The proxy's id counter and its
  receive loop, composed with the pool's transition system. Calls that time out leave their answers
  unread in the connection they put back.
- **Registry** (`Registry`). Spec merging on a heap: `GetServerSpec` copies a struct, so the copy and
  the registry share one environment map, and merging writes into it.
- **Router** (`CircuitBreaker`, `ToolIndex`, `Resolver`, `Routing`). Health records against the history
  of successes and failures, the tool index against the registry, and the layered resolver.
- **Tool names and profiles** (`ToolNames`, `Profiles`). The `server__tool` naming used by three
  packages, and the in-place stable sort with its cut-off.
- **Host table** (`HostHub`). Registrations, their gauge and the sessions behind them.
- **Tokens** (`Strings`, `Tokens`). The secret-token grammar and the placeholder substitution.

`MapFolds` has the sums and counts over maps that the invariants are stated with, and `Float64` the
rounding of Go's float64, for request ids and for the latency average.

Where the code does something other than what its comments or names say, the model follows the code,
shows an input, and says exactly when the two agree:

- `SetRegistry` says it rebuilds the tool index, but it counts every mention under a target, leaves out
  the common specs and does not remove duplicates. `ToolIndex.BuildsDiffer` shows both effects and
  `Resolver.SpuriousAnswers` what a caller sees of them; `ToolIndex.SameListIff` says when the two
  builds agree and `Resolver.AfterSetRegistryIff` what is answered when they do not.
- `GetServerSpec` reads like a query but changes the registry's environments. The law of the change is
  the invariant `Registry.Registry.Valid`. `Registry.AnswerForB` shows a key of one target in the answer
  for another; `Registry.HistoryFreeFor` and `Registry.HistoryFreeAlways` say, in terms of the loaded
  file, which targets and which servers are free of this.
- The gauge of connected hosts is not the number of connected hosts once a host has been replaced
  (`HostHub.ReplacementCosts`, `HostHub.GaugeLaw`).
- A profile of all servers is described as prioritised, but `Filter` takes its first tools as they come.
  `Profiles.WildcardUnranked` shows a tool dropped for one it outranks, and `Profiles.WildcardRankedIff`
  says when the tools kept are the top ones.
- `Route` follows a nil pointer for a server that has no health record, as after `SetRegistry` with a
  new server (`Routing.RouteNewServer`; the exact condition is in `Routing.Router.Route`).
- The receive loop returns any message with the awaited number, a request of the peer's own or, through
  the hub, an answer to somebody else included (`Correlation.StrayTaken`, `Correlation.TakenExactly`).

Assumptions on the surroundings, each stated as an enabling condition of an event or as a `requires`:
a connection is put back at most once per `Get` and by its holder; a dial returns a transport that no
dial returned before; the clock does not run backwards; decoding a registry file makes a separate map
for every environment in it; a backend of the proxy's own answers, on the transport it was asked on,
only requests it was sent, and the hub passes on answers to this proxy's requests unchanged; and request
ids stay within 2^53. Calls of `GetServerSpec` are taken one after the other. The source does not
guarantee that: the router's calls hold a read lock, which others may hold too, and the dialling of a
local server holds none, so two calls can write one environment map at the same time.

## Model

| member | source | states |
|---|---|---|
| PoolModel.Defaults | pkg/pool/pool.go:86-105 | a positive limit is kept, any other becomes 2 idle, 10 open and 5 minutes, and the wait timeout is kept as it is |
| PoolModel.UsableSpec | pkg/pool/pool.go:138-157 | the idle loop stops at the topmost healthy connection, and everything above that one is unhealthy |
| PoolTheorems.FirstTryDecides | pkg/pool/pool.go:129-184 | the first critical section of `Get`: exactly when it finds the pool closed, reuses, dials, refuses at once, reports the context, or sleeps |
| PoolTheorems.FirstTryMoves | pkg/pool/pool.go:129-184 | it raises its server's count iff it reuses or dials, hands over, registers the dial or goes to sleep until the wait timeout as its outcome says, and touches no other server's count and no other call |
| PoolTheorems.RecheckDecides | pkg/pool/pool.go:184-213 | the section after a wake-up: exactly when it finds the pool closed, reuses the top connection, dials, reports the context or the deadline, or sleeps again |
| PoolTheorems.RecheckMoves | pkg/pool/pool.go:184-213 | it does to callers what its outcome says, with the old deadline, and leaves the wait loop iff it does not sleep again |
| PoolTheorems.RecheckPops | pkg/pool/pool.go:191-205 | it pops exactly the top of the stack, and closes that one iff it does not hand it out |
| PoolTheorems.InitInv | pkg/pool/pool.go:86-112 | a new pool satisfies the invariant |
| PoolTheorems.StepInv | pkg/pool/pool.go:129-349 | every critical section keeps the invariant: conservation of transports, own stacks, order, counts, bounds, waiters, statistics |
| PoolTheorems.RunInv | pkg/pool/pool.go:86-349 | the invariant holds in every state of every run |
| PoolInvariants.TryGetKeeps | pkg/pool/pool.go:129-184 | the invariant through reuse, reservation, going to sleep and giving up |
| PoolInvariants.RecheckKeeps | pkg/pool/pool.go:184-213 | the invariant through a wake-up, although a waiter may take or drop an idle connection without looking at the limit |
| PoolInvariants.PutKeeps | pkg/pool/pool.go:237-266 | the invariant through all three branches of `Put` |
| PoolInvariants.DialFailKeeps | pkg/pool/pool.go:217-224 | a failed dial gives its slot back and wakes the sleepers in the same section |
| PoolInvariants.ReapKeeps | pkg/pool/pool.go:327-348 | the invariant through a pass of the reaper |
| PoolInvariants.CloseKeeps | pkg/pool/pool.go:282-299 | the invariant through `Close`, which closes each idle transport once and wakes everybody |
| PoolInvariants.ClearKeeps | pkg/pool/pool.go:269-279 | the invariant through `ClearServer`, also on a closed pool |
| PoolTheorems.Capacity | pkg/pool/pool.go:136-213 | held, dialling and idle connections of a server together never exceed `MaxOpen`, and idle ones never exceed `MaxIdle`, though reuse never tests `MaxOpen` |
| PoolTheorems.NoLostWakeup | pkg/pool/pool.go:169-207 | a call asleep for a server implies an open pool, a full server and no idle connection of it |
| PoolTheorems.BoundedWaiting | pkg/pool/pool.go:170-184 | a sleeper has a timer armed for no later than its deadline; once the timer has fired, the deadline has come or the context is over, a broadcast has been started and is not yet done |
| PoolTheorems.LeavesWhenDone | pkg/pool/pool.go:171-190 | that broadcast wakes a sleeper whose deadline has come or whose context is over, and the call then leaves the wait loop |
| PoolTheorems.WaitedErrorExactly | pkg/pool/pool.go:171-180 | after a wake-up the waited saturation error is returned if and only if the pool is open, the context alive, the deadline reached and the server still full |
| PoolTheorems.OwnershipPartition | pkg/pool/pool.go:129-299 | every transport a dial produced is once on its own server's stack, or held by one caller, or closed once, and on no other server's stack |
| PoolTheorems.ClosedForGood | pkg/pool/pool.go:136-299 | a closed transport is never closed again, held again or idle again |
| PoolTheorems.DrainAfterClose | pkg/pool/pool.go:237-299 | after `Close` nothing becomes idle and nobody sleeps; once dials and holders are done, every transport is closed and every count is zero |
| PoolTheorems.Accounting | pkg/pool/pool.go:136-279 | active counts are holders plus dials, the statistics are the sums they stand for, hits plus misses equal active plus puts plus failed dials, and `Close` freezes the idle counter |
| PoolTheorems.ReapIsPrefix | pkg/pool/pool.go:334-346 | a reaper pass removes exactly the expired connections, which are the bottom of each stack |
| PoolTheorems.ReuseNewest | pkg/pool/pool.go:136-157 | `Get` reuses a connection iff a healthy one is idle; it is the one used last, what lay above is closed and what lay below untouched |
| PoolEvents.FirstTryPops | pkg/pool/pool.go:129-157 | the first section of `Get` hands out the topmost healthy connection, used now, closes what lay above it, leaves what lay below and every other stack; without one the whole stack is closed |
| PoolEvents.RecheckTouches | pkg/pool/pool.go:191-205 | a wake-up marks the connection it hands out as used now, and no other stack changes |
| PoolEvents.PutKeepsOrCloses | pkg/pool/pool.go:237-266 | if the pool is open, the connection healthy and its stack shorter than `MaxIdle`, the connection is then on top of the old stack, used now, and nothing is closed; otherwise the stack is as it was and exactly this connection is closed |
| PoolEvents.PutReleases | pkg/pool/pool.go:237-266 | in every case the connection is no longer held, its server's count falls by one, nobody is asleep, and the other stacks, counts, holders and dials stay |
| PoolEvents.DialOkGives | pkg/pool/pool.go:226-233 | a successful dial makes one new healthy connection of that server, used now and held by the caller; stacks, counts and statistics stay |
| PoolEvents.DialFailReleases | pkg/pool/pool.go:217-224 | a failed dial lowers its server's count by one and wakes everybody; no connection is touched |
| PoolEvents.ClearEmpties | pkg/pool/pool.go:269-279 | one stack is emptied and exactly what was on it is closed |
| PoolEvents.CloseCloses | pkg/pool/pool.go:282-299 | the pool is closed, every stack empty, exactly the idle connections closed, once each, and nobody asleep; connections in use stay with their holders; a second `Close` does nothing |
| PoolEvents.ReapTakesOld | pkg/pool/pool.go:334-346 | a connection is off its stack after a pass iff it was not used for longer than the idle timeout; the rest keeps its order |
| PoolEvents.ReapCloses | pkg/pool/pool.go:334-346 | a pass closes exactly what it takes off the stacks, once each |
| PoolEvents.TickFires | pkg/pool/pool.go:181-182 | a waiting call's timer fires iff its time has come, and starts one broadcast |
| PoolEvents.CancelStarts | pkg/pool/pool.go:183 | a context that ends starts one broadcast, once |
| PoolEvents.BroadcastWakes | pkg/pool/pool.go:301-305 | a broadcast wakes everybody and changes nothing else |
| PoolEvents.StepCounts | pkg/pool/pool.go:129-266 | in every step a hit is counted iff a known connection gets a holder, and a miss and a new connection iff a call goes off to dial |
| PoolEvents.HitsAndMisses | pkg/pool/pool.go:129-266 | over every run hits are the reuses, misses and connections made are the dials started |
| ConnectionPool.Pool.constructor | pkg/pool/pool.go:86-112 | the object starts in the initial state of the transition system |
| ConnectionPool.Pool.TryGet | pkg/pool/pool.go:129-184 | the code from the lock to the first unlock or wait performs the event, and returns the connection it hands out |
| ConnectionPool.Pool.DropUnhealthy | pkg/pool/pool.go:138-147 | the loop closes exactly what lies above the topmost healthy connection, with its counter |
| ConnectionPool.Pool.Recheck | pkg/pool/pool.go:184-213 | the code after the wait performs the event |
| ConnectionPool.Pool.DialOk | pkg/pool/pool.go:226-233 | a successful dial makes a healthy record held by the caller |
| ConnectionPool.Pool.DialFail | pkg/pool/pool.go:217-224 | the failure path performs the event |
| ConnectionPool.Pool.Put | pkg/pool/pool.go:237-266 | `Put` performs the event in all three branches; what the event does is `PoolEvents.PutKeepsOrCloses` and `PoolEvents.PutReleases` |
| ConnectionPool.Pool.ClearServer | pkg/pool/pool.go:269-279 | the loop and the delete perform the event |
| ConnectionPool.Pool.Close | pkg/pool/pool.go:282-299 | the nested loops close every idle transport exactly once, for every order of the map |
| ConnectionPool.Pool.Reap | pkg/pool/pool.go:327-348 | the nested loops perform the pass, for every order of the map |
| ConnectionPool.Pool.BroadcastAll | pkg/pool/pool.go:301-305 | a broadcast that a timer or a context started wakes every sleeper, uses itself up and changes nothing else |
| MessageIds.ExactIff | pkg/proxy/proxy.go:482-499 | decoding a number as float64 keeps every request id up to a bound iff the bound is at most 2^53 |
| Float64.RoundInteger | pkg/proxy/proxy.go:482-499 | every integer up to 2^53 is a float64 |
| MessageIds.BeyondExact | pkg/proxy/proxy.go:482-499 | the answer to request 2^53 + 1 is taken for the answer to request 2^53 |
| MessageIds.AnswerMatches | pkg/proxy/proxy.go:482-499 | within that bound an answer matches its own request and no other, in each numeric form |
| MessageIds.MatchesIff | pkg/proxy/proxy.go:482-499 | an id in the inbound message matches iff it is the number as an integer or any float64 that is the number when cut off |
| MessageIds.DecisiveIff | pkg/proxy/proxy.go:469-499 | the loop stops exactly at a failed read or at a message that carries a matching id |
| MessageIds.Inbound.RecvResponse | pkg/proxy/proxy.go:469-507 | the receive loop skips exactly what precedes the first failed read or matching id, and returns that one as result, as RPC error with its code and text, or as read error |
| Correlation.HoldersStay | pkg/pool/pool.go:129-349 | no critical section takes a connection from its holder except the holder's own `Put` |
| Correlation.StepKeeps | pkg/proxy/proxy.go:295-507 | drawing ids, sending, receiving, giving up, pooling and traffic on private and hub transports keep the correlation invariant |
| Correlation.RunInv | pkg/proxy/proxy.go:295-507 | the invariant holds in every state of every run |
| Correlation.CallsMove | pkg/proxy/proxy.go:437-507 | in a step a call keeps its caller and transport and changes only by being sent, by failing to be sent, by taking a message or by giving up; a new call has the next number |
| Correlation.LogsGrow | pkg/proxy/proxy.go:469-499 | a transport's messages only grow, by what its backend sends |
| Correlation.ReadsGrow | pkg/proxy/proxy.go:469-499 | a receive step reads exactly the next message of its call's own transport |
| Correlation.PoolMoves | pkg/proxy/proxy.go:295-327 | the pool inside moves by its own events and by the end of a dial |
| Correlation.FinishedStays | pkg/proxy/proxy.go:437-507 | over a run a call keeps caller and transport, and once it has returned or failed it stays so |
| Correlation.NumbersDiffer | pkg/proxy/proxy.go:373-375 | no number is drawn twice, whoever draws it |
| Correlation.AnswersOwnRequest | pkg/proxy/proxy.go:437-507 | what a finished call returned answers that call, unless it was a stray message with the same number: a request of the peer's own or, on a hub transport, an answer to somebody else |
| Correlation.NotShared | pkg/proxy/proxy.go:469-507 | no message is returned by two calls |
| Correlation.TakenExactly | pkg/proxy/proxy.go:475-506 | the loop takes a message iff it is the call's answer or such a stray message |
| Correlation.SkipsOnlyEnded | pkg/proxy/proxy.go:475-499 | every answer of another call that a call comes across belongs to a call that has ended or, on a hub transport, to a call on another transport; its own answer is never behind it |
| Correlation.LoopIsReceives | pkg/proxy/proxy.go:469-507 | an execution of the receive loop that ends with a matching message is a run of single receive steps that ends by taking that message |
| Correlation.FailedLoopIsReceives | pkg/proxy/proxy.go:472-475 | one that ends with a failed read is a run of receive steps and a giving up, which leaves the unread messages to the transport's next user |
| Correlation.StrayTaken | pkg/proxy/proxy.go:475-506 | there are runs in which a call returns a request of the peer's own, and an answer to somebody else that came through the hub |
| Correlation.OneUser | pkg/proxy/proxy.go:295-327 | a transport has one user at a time, across `Get`, `Put` and the handshake inside a dial, and that user's transport is open |
| Registry.IndexOf | pkg/registry/registry.go:253-260 | the server a name means is the first of that name, past nil entries |
| Registry.Registry.GetServer | pkg/registry/registry.go:253-260 | the loop finds that server or reports there is none |
| Registry.Registry.MergeSpec | pkg/registry/registry.go:286-322 | merging in place overlays the source's environment on the shared map, also when both are one map, and takes the other fields as `Registry.EffectiveMerges` says |
| Registry.Registry.GetServerSpec | pkg/registry/registry.go:263-322 | every field the requested target sets has the target's value whatever common says, every other one the common value or the zero value, and without a target or with an unknown one the answer is the common spec; a common environment is shared with the registry and equals its loaded value overlaid by the target of every request so far; without one the environment is new and depends on the target only |
| Registry.EffectiveMerges | pkg/registry/registry.go:286-322 | the merged spec field by field, and a nil target exactly where the asked one is listed as nil |
| Registry.LayerIs | pkg/registry/registry.go:300-307 | what a request writes is what the target's environment was loaded with, and nothing for no target, an unknown or a nil one |
| Registry.IsToolAlwaysAllowed | pkg/registry/registry.go:328-351 | true iff the server's own list names the tool, or the target's list where it has one and else the common one; false for an unknown server and without a registry; it panics iff the own list does not name the tool and the target is listed as nil |
| Registry.Registry.GetStaticTools | pkg/registry/registry.go:398-417 | the tools of every server in order, under their namespaced names; it panics iff an entry or the asked target is nil |
| Registry.StaticToolAt | pkg/registry/registry.go:398-417 | tool `k` of entry `i` stands behind all tools of the entries before it, with the entry's name in front and its description kept, the tools being those of the target or, if it has none, the common ones, of the first server of that name |
| Registry.OverlayLookup | pkg/registry/registry.go:300-307 | an overlaid environment has, per key, what the last request that sets the key wrote, else what was loaded |
| Registry.SameTargetStable | pkg/registry/registry.go:263-283 | a caller that always asks for one target always gets the same environment |
| Registry.HistoryFreeIff | pkg/registry/registry.go:263-322 | earlier requests leave no trace in an answer iff every key the target does not set was last written, if at all, with its loaded value |
| Registry.HistoryFreeFor | pkg/registry/registry.go:263-322 | a target's answers are the same after all histories iff every key that some target sets and this one does not is loaded with that target's value |
| Registry.HistoryFreeAlways | pkg/registry/registry.go:263-322 | all answers of a server are iff no target sets a key to anything but what the common environment is loaded with |
| Registry.AnswerForB | pkg/registry/registry.go:263-322 | the answer for one target holds a key of another iff somebody asked for that one before |
| CircuitBreaker.Health.Success | pkg/router/router.go:384-397 | a success makes the record, its moving average of latencies included, say what the longer history says |
| CircuitBreaker.Health.Failure | pkg/router/router.go:421-431 | so does a failure: the counter is the length of the trailing run of failures, and healthy means below the threshold |
| CircuitBreaker.Health.IsHealthy | pkg/router/router.go:345-361 | the test on the fields is the test on the history: the run is below the threshold, or the last failure is at least the recovery time ago |
| CircuitBreaker.RefusedExactly | pkg/router/router.go:345-361 | a server is refused exactly while its last `threshold` marks are failures and the last is younger than the recovery time, or while a record not made by `New` has seen no success |
| CircuitBreaker.NeverRefusedForever | pkg/router/router.go:350-358 | a server known to `New` is let through again from some time on, after any history |
| CircuitBreaker.LazyRecordRefused | pkg/router/router.go:413-431 | a record first made by a failure is refused at all times iff it holds fewer than `threshold` marks, all failures |
| CircuitBreaker.RunIsSuffix | pkg/router/router.go:421-431 | the counter counts failures at the end of the history, back to the last success |
| CircuitBreaker.AfterGood | pkg/router/router.go:384-397 | a success ends the run, clears the message and moves the average by its latency, or starts it |
| CircuitBreaker.AfterBad | pkg/router/router.go:421-431 | a failure makes the run one longer, leaves its message and keeps the average |
| CircuitBreaker.BlendClose | pkg/router/router.go:393-397 | one step of the average is four fifths of the old one and a fifth of the new latency, up to a relative rounding error |
| CircuitBreaker.AverageWithin | pkg/router/router.go:393-397 | for latencies in whole milliseconds the moving average, every operation rounded, lies between the smallest and the largest latency recorded up to a relative margin of 2^-49 |
| CircuitBreaker.AverageExceeds | pkg/router/router.go:393-397 | the margin is needed: after two latencies of 3 the average is the next float64 above 3 |
| Float64.RoundError | pkg/router/router.go:393-397 | an operation's result is off by at most 2^-53 of itself, or by less than 2^-106 next to zero |
| Routing.Router.constructor | pkg/router/router.go:81-109 | every server of the registry, and no other name, gets one healthy record per table, defaults replace limits that are not positive, and the index is built |
| Routing.NewRouter | pkg/router/router.go:81-109 | `New` makes such a router, and follows a nil pointer iff an entry of the registry is nil |
| Routing.Router.RecordSuccess | pkg/router/router.go:363-398 | adds one success to the history of that server in that table and touches nothing else, a record it makes being a new one; the server is then let through at every time |
| Routing.Router.RecordFailure | pkg/router/router.go:400-432 | adds one failure likewise; a record made here is new and starts unhealthy |
| Routing.AfterReports | pkg/router/router.go:363-432 | after `New` and any sequence of reports, each server's history in each table is exactly its part of the sequence, and every server of the registry has both records |
| Routing.RouteAfterReports | pkg/router/router.go:269-432 | `Route` then never follows a nil pointer, its target and reason are functions of the registry and of the reports about that server, and a server with a category that is "local-only" or "filesystem" in lower case is never sent to the hub |
| Routing.LocalOnlyIff | pkg/registry/registry.go:377-384 | a server is local-only iff one of its categories is "local-only" or "filesystem" when put in lower case |
| Routing.Router.Route | pkg/router/router.go:269-343 | local iff the local history lets calls through, else the hub where allowed and its history does, else unavailable; an unlisted server goes to the hub iff there is one; the reason names what was found and the last messages; when a nil pointer is followed is exact, and it never is while every server has both records |
| Routing.Router.RouteLocalOnly | pkg/router/router.go:299-313 | the same for a server that runs locally only |
| Routing.Router.RouteAnywhere | pkg/router/router.go:315-342 | the same for a server that may run behind the hub |
| Routing.RouteNewServer | pkg/router/router.go:112-126 | a server that `SetRegistry` brings in makes `Route` follow a nil pointer, where the same registry given to `New` is routed |
| Routing.Router.AddToolToIndex | pkg/router/router.go:169-189 | one tool's list gains the name unless it has it; no other list changes |
| Routing.Router.BuildToolIndex | pkg/router/router.go:135-167 | for every order of the targets, each tool's list is the servers that declare it |
| Routing.Router.SetRegistry | pkg/router/router.go:112-126 | for every order of the targets, each tool's list has a server's name once per mention among its targets; it follows a nil pointer iff an entry or a target is nil, with the new registry in place and the entries before the first such one indexed |
| Routing.Router.ResolveServer | pkg/router/router.go:192-253 | the loops compute `Resolver.Resolve` of the registry as it was; they leave servers and rules as they are, so the environments written on the way show in no answer |
| ToolIndex.ProvidersExactly | pkg/router/router.go:142-167 | a built list names exactly the servers that declare the tool in common or for any target, none twice |
| ToolIndex.ProvidersInOrder | pkg/router/router.go:142-167 | and names them in registry order |
| ToolIndex.DeclaresIff | pkg/router/router.go:142-167 | a server declares a tool iff an entry of its common list or of a target's list has that name |
| ToolIndex.AppendedAt | pkg/router/router.go:112-126 | after `SetRegistry` the names stand in registry order, each once per mention among the server's targets |
| ToolIndex.MentionsCount | pkg/router/router.go:112-126 | a mention is an entry of the tool's name |
| ToolIndex.StaysDistinct | pkg/router/router.go:169-189 | after any further additions a list has no duplicate, the built part in front, and exactly the added servers besides |
| ToolIndex.SameListIff | pkg/router/router.go:112-167 | for distinct names and no nil entries `SetRegistry` lists what `BuildToolIndex` lists iff every declaring server declares the tool exactly once among its targets |
| ToolIndex.BuildsDiffer | pkg/router/router.go:112-167 | a tool declared for two targets is listed twice by `SetRegistry`, one declared in common not at all, and `BuildToolIndex` lists both once |
| Resolver.FirstCaseIsFirst | pkg/router/router.go:208-212 | the first case that matches decides |
| Resolver.FirstRuleIsFirst | pkg/router/router.go:202-218 | the first rule that yields an answer decides |
| Resolver.RuleAnswerIs | pkg/router/router.go:202-218 | one rule answers its first matching case, its default exactly where no case matches or the argument is missing or no string, and nothing if it is nil, for another tool, or has neither |
| Resolver.RuleDecides | pkg/router/router.go:192-253 | that answer of the first rule that is not silent is what the call resolves to, whatever the servers claim and the index holds |
| Resolver.ClaimAtIs | pkg/router/router.go:221-239 | a server claims a tool iff it has its prefix or the allow list names it, which is the target's if that has one and else the common one, of the first server of the name; a nil target panics first |
| Resolver.ClaimDecides | pkg/router/router.go:220-252 | where no rule speaks the first such server decides whatever the index holds, and the index decides exactly where there is none: one name, an ambiguity, or nothing |
| Resolver.FirstClaimIsFirst | pkg/router/router.go:221-239 | the first server in registry order that allows the tool or has its prefix decides |
| Resolver.AmbiguousIff | pkg/router/router.go:241-250 | on a built index a call is an error iff no rule and no claim settles it and two servers of different names declare the tool |
| Resolver.UniqueIff | pkg/router/router.go:241-252 | the index settles a call for a server iff that server and no other declares the tool |
| Resolver.AfterSetRegistryIff | pkg/router/router.go:241-250 | on an index made by `SetRegistry` a call is an error iff no rule and no claim settles it and the targets of all servers together mention the tool at least twice; it is lost if they do not mention it |
| Resolver.SpuriousAnswers | pkg/router/router.go:112-126 | so one server can be ambiguous with itself, and a tool declared in common is not found |
| Resolver.PatternMeaning | pkg/router/router.go:255-266 | a star at the end is any ending, else a star at the beginning is any beginning, else the pattern is literal, for every pattern |
| Resolver.PatternPrefix | pkg/router/router.go:259-261 | a trailing star matches exactly the values that begin with the rest |
| Resolver.PatternSuffix | pkg/router/router.go:262-264 | a leading star matches exactly the values that end with the rest |
| ToolNames.NamingRoundTrip | pkg/profiles/profiles.go:216-222 | splitting `server__tool` gives the server back iff its name has no separator and does not end in an underscore; then the base name comes back too |
| ToolNames.SplitMeaning | pkg/profiles/profiles.go:216-222 | every tool name is split at its first separator, and one without any has no server and no base name |
| ToolNames.PrefixIffServer | pkg/router/router.go:235-238 | for such names the router's prefix test and the profiles' splitting agree |
| ToolNames.OnePrefix | pkg/router/router.go:235-238 | no tool name has the prefix of two such servers |
| ToolNames.TwoPrefixes | pkg/router/router.go:235-238 | one unclean name is enough for a tool with two prefixes |
| ToolNames.SharedIff | pkg/router/router.go:235-238 | two servers can both have the prefix of one tool iff one prefix begins with the other, whatever their names |
| ToolNames.ClaimIsServerOf | pkg/router/router.go:221-239 | where no allow list interferes, the server the router picks by prefix is the one the profiles extract, for every order of the registry |
| ToolNames.StaticToolsComeHome | pkg/registry/registry.go:398-417 | a static tool is resolved and filtered as a tool of the server whose name the registry gave it |
| Profiles.SortByPriority | pkg/profiles/profiles.go:225-237 | the bubble sort leaves the array in the reference arrangement |
| Profiles.RankedArranges | pkg/profiles/profiles.go:225-237 | the reference is descending in rank and keeps the order within each rank |
| Profiles.OneArrangement | pkg/profiles/profiles.go:225-237 | there is only one such arrangement of a list |
| Profiles.LevelsPermute | pkg/profiles/profiles.go:225-237 | such an arrangement is a permutation |
| Profiles.PriorityIs | pkg/profiles/profiles.go:239-253 | a priority by the full name comes before one by the base name, which comes before 0 |
| Profiles.Filter | pkg/profiles/profiles.go:159-212 | the named profile is used iff it is there and not nil, else "full", and it panics iff that is missing too; a profile of all servers answers the tools as they come, any other the descending stable arrangement of its servers' tools, each up to a positive limit; truncated iff something is dropped, with the counts |
| Profiles.IncludedExactly | pkg/profiles/profiles.go:181-194 | the filter keeps every occurrence of a tool of a named server and no other |
| Profiles.IncludedOfSum | pkg/profiles/profiles.go:181-194 | the tools of a list are included part by part, in order |
| Profiles.IncludedOfOne | pkg/profiles/profiles.go:181-194 | one tool is included iff its server is named |
| Profiles.TopTools | pkg/profiles/profiles.go:196-211 | of each rank the earliest tools are kept, and where one is dropped nothing of lower rank is kept and the limit is used up |
| Profiles.WildcardRankedIff | pkg/profiles/profiles.go:171-179 | a profile of all servers keeps the top tools of its own ranking iff no tool it keeps is outranked by a later one |
| Profiles.WildcardUnranked | pkg/profiles/profiles.go:171-179 | such a profile can drop a tool that outranks the one it keeps |
| HostHub.StepKeeps | pkg/gateway/hub.go:178-200 | every registration and every end of a session keeps the host invariant |
| HostHub.GaugeLaw | pkg/gateway/hub.go:178-200 | in every run the gauge is the table's size plus the number of replacing registrations, so it is the size iff there was none |
| HostHub.TableIsLive | pkg/gateway/hub.go:325-330 | without a replacement the table is exactly the live host sessions and the gauge their number |
| HostHub.ListedIsOpen | pkg/gateway/hub.go:178-206 | in every run a host in the table is a live session of that name whose connection nobody closed |
| HostHub.ReachableIff | pkg/gateway/hub.go:178-206 | a session is in the table iff since its registration nobody registered its name and no session of its name ended |
| HostHub.ClosedIff | pkg/gateway/hub.go:178-190 | a session's connection is closed iff the session has ended or its name was registered again while the table listed it |
| HostHub.LiveIff | pkg/gateway/hub.go:325-330 | a session is live exactly from its registration to its end |
| HostHub.ReplacementCosts | pkg/gateway/hub.go:178-200 | a replaced session's end hides its live successor, and the gauge stays at one over an empty table |
| HostHub.Hub.RegisterHost | pkg/gateway/hub.go:178-190 | registering closes a replaced host's connection and performs the event |
| HostHub.Hub.UnregisterHost | pkg/gateway/hub.go:192-200 | unregistering removes whoever holds the name |
| HostHub.Hub.EndSession | pkg/gateway/hub.go:325-330 | the deferred cleanup performs the end of the session |
| HostHub.Hub.GetHost | pkg/gateway/hub.go:202-206 | hands out the table's host for the name, whose connection is open, or none iff the table has none |
| Tokens.ParseIffFormat | pkg/generator/manifests.go:138-174 | parsing succeeds with a token iff the token is well formed and its syntax is the value, in both directions |
| Tokens.KindsAre | pkg/generator/manifests.go:138-174 | `${kind:key}` and `${kind:key:-default}` are tokens iff the kind is env, keychain or secret |
| Tokens.NoPlaceholderLeft | pkg/generator/common.go:29-47 | cluster resolution leaves no repo or home placeholder in any string, not even one that arises by replacing, and is idempotent |
| Tokens.KeptIff | pkg/generator/common.go:29-47 | a value, a secret token among them, is kept iff it has no placeholder |
| Tokens.RepoBecomes | pkg/generator/common.go:29-35 | wherever it is in a value, the repo placeholder becomes /app and what is around it is resolved by itself |
| Tokens.HomeBecomes | pkg/generator/common.go:37-43 | likewise the home placeholder becomes /home/mcp |
| Tokens.EnvVarLaw | pkg/generator/manifests.go:176-206 | a variable refers to the shared secret's key iff its resolved value is a token of that key without a default; a token with a default becomes the resolved default, and what is no token stays the resolved value; a plain value has no placeholder |
| Strings.ReplaceIsJoin | pkg/generator/common.go:32-33 | replacing keeps every character outside the places it replaces |
| Strings.ReplaceOfSum | pkg/generator/common.go:32-40 | two parts are replaced each by itself where no occurrence can lie across |
| Strings.NothingNew | pkg/generator/common.go:32-40 | nothing that the replacement cannot be part of comes up anew |

## Left out

- pkg/pool: `WarmUp` (a `Get` and a `Put` per server), the getters and the creation time; and how often the reaper ticks, which is any number of times here.
- pkg/pool: a critical section reads the clock once here, and the last-use time that `Get` writes just after unlocking is written with the section; nobody else can see the connection in between.
- pkg/pool: waiting results are safety facts: a broadcast that has been started is always enabled, and that it is scheduled is not stated.
- pkg/process/manager.go: `Manager.Dial` may return a transport it returned before, which breaks the pool's assumption of a fresh transport; only the proxy's own two dial functions are covered.
- Correlation.RunInv: one pool; ids drawn by the other pool's calls only move the counter. The transport library's handshake on hub connections is not a request of the model: it numbers itself 1 and takes the first frame as its answer, so its own answer can stay unread, and it is one of the foreign messages here.
- Correlation.AnswersOwnRequest: excepts stray messages, because the loop looks at the number only; `Correlation.StrayTaken` shows that both exceptions occur.
- MessageIds.Inbound.RecvResponse: the 60 seconds of a call are one of the reasons a read may fail, at any point. JSON, and the turning of a result into tools or call results, are not modelled.
- CircuitBreaker.AverageWithin: latencies are finite, and the two products are rounded before they are added. Go may fuse a product and the sum on some machines, which rounds once less.
- Routing.Router.Route: the error result is left out because the source always returns nil for it.
- Routing.Router.constructor: requires a registry without nil entries; `Routing.NewRouter` has the other case.
- Registry: loading and searching for files, environment aliases, and the category and name lists. Timeouts, kinds and SSH settings are opaque values.
- Profiles: the built-in profiles and the loading of files; `Filter` takes the profile table as an argument, in which a name may stand for no profile.
- Tokens: the local context, whose replacement text is a path of the machine and is expanded as a template by the regular expression library; and the search for plaintext secrets.
- HostHub: clients of a host, relaying, pings, authentication and the reverse proxy to backends.
- Go strings are bytes and are sequences of characters here; every separator and pattern in question is ASCII.
- Websocket, HTTP, process, SSH, keychain and telemetry code, the redactor, the validator, and the templating of manifests and configurations: foreign calls or plumbing.
