# Verified model of the fleet tools

This project models six parts of the repository in Dafny and proves what they are for, over all
inputs and over whole runs.

* **The model proxy's request engine** (`Breakers`, `Router`, `RoundRobin`, `Sessions`, `Strategy`,
  `Legs`, `Sse`, `Upstream`, `Dials`, `Serving`, `Served`, `Retries`, `Probes`, `Endless`, `Proxy`).
  Circuit breakers, the four routing strategies, the retry loop that starts over with a full budget when
  it re-routes, and the relay of a streamed answer. `Strategy` holds the object that requests share and
  its methods; `Router` the functions they are proved against and the theorems about every run of them,
  `Sessions` those about the models that sessions are stuck to. The upstream, the clock, the saturation
  gate, the random draw and everything that *other* requests do between two locked sections of this one
  are an oracle, the `World` of `Upstream`. `Serving` says what one pass through the loop makes of a
  request and its strategy in such a world, `Served` what every request keeps and amounts to under any
  interference, `Retries` when it dials again, where, and what it records, `Probes` what becomes of a
  model on probation, `Endless` that a request need not end, and `Proxy` has the methods, which do
  exactly that to the shared object.
* **The comms message bus** (`Decimal`, `Names`, `Disk`, `Delivery`, `Pruning`, `Listing`, `Bus`,
  `TailLines`, `EventLog`). A store of unseen and seen copies, changed by post, ack, init, prune,
  status writes and the loss of the id counter, one critical section each; the id allocator, the
  inbox counts, the rotating audit log and the chunked tail reader. `Bus` holds the methods, `Disk`
  their specification and `Delivery` the theorems about runs.
* **The PR-claim registry** (`Claims`).
* **Printers and parsers**: topic files (`Topic`), report files (`Reports`), shell quoting
  (`ShellQuote`) and the launcher's command line (`Launch`), read back by a POSIX shell.
* **Two small algorithms**: context blocks (`ContextBlocks`) and the suffix picker (`SuffixPick`).
* **The config merge** (`ConfigMerge`).

`Text` holds the string operations they share. Loops and updates in place are methods; each is
proved equal to a function or to a stated property, and the properties of that function are lemmas.

`dafny verify dfyconfig.toml` checks everything.

## Where the code is not what its comments, or a reader, would expect

Each of these is a lemma with its exact condition or a concrete witness; the model follows the code.

* **Id freshness ends at the top of int64.** The next id is above every id in the store exactly
  while neither the counter file nor an id has reached 2^63 - 1 (`Delivery.NextIdIsFreshIff`). A
  corrupt counter file can bring that about (`Delivery.CorruptCounterLosesDirective`); then two posts
  get one id and the second replaces the first directive (`Delivery.WrapLosesDirective`). The run theorems assume room below that point.
* **Init prunes less than prune.** The second stage of init asks every live agent for a seen copy of
  the id and looks for it again after each removal. So it keeps one of two seen copies for ever, and
  keeps a targeted directive while another ship is live (`Pruning.InitKeepsOneOfTwo`,
  `Pruning.InitSparesTargeted`); prune does not (`Pruning.PruneExact`).
* **The retry loop has no end of its own.** Each re-route starts over with a full budget, and a model
  that was left may be chosen again after its cooldown. Two models that take turns in failing, each
  failure taking longer than a cooldown, are re-routed between for ever: no run of such a request ends
  (`Endless.NeverEnds`). Within a given duration the dials are bounded (`Served.DialsAreBounded`).
* **A stream that fails for good counts as a success.** It is recorded without the error flag, and so
  is an answer whose body cannot be read. When the last leg of a request began with its model HalfOpen
  and nobody else disturbed it, the breaker is Closed afterwards exactly for these answers, and only if
  no earlier answer on the leg forced it open; a probe that succeeds altogether is not checked and
  leaves it HalfOpen (`Probes.ProbeVerdict`). Two whole requests close a breaker that way: one whose
  body cannot be read (`Probes.UnreadableProbeCloses`), and one whose transport fails before its last
  attempt is answered by a stream without a line (`Probes.LateEmptyStreamCloses`). A probe answered by
  such streams only ends Open, because the first of them forces it (`Probes.EmptyStreamsEndOpen`).
* **"An early retry has written nothing"** holds exactly when no line but held errors came before it
  (`Sse.EarlyRetryWroteNothingIff`, witness `Sse.EarlyRetryMayHaveWritten`).
* **The tail reader loses lines of a file that ends in two or more newlines**
  (`TailLines.TailIsSimpleForAllChunksIff`, witness `TailLines.TailMayLoseLine`).
* **The migration mark of a topic is lost** when the file is rewritten: it is written as
  `Migrated-From` and looked for as `migrated_from` (`Topic.MigrationMarkIsLost`).
* **A report without a blank line repeats its headers in its body**, and only such a report does,
  unless it is nothing but newlines (`Reports.HeadersRepeatedInBody`, witness
  `Reports.SubjectIsBodyToo`).
* **"Merge, never clobber"** holds exactly when the nodes on the path to the rules are missing or
  objects and the instructions are missing or a list (`ConfigMerge.PreservesIff`, witness
  `ConfigMerge.NullAgentIsLost`); `null`, a string or
  a number in these places is replaced, and a config file that cannot be parsed is replaced as a
  whole (`ConfigMerge.Workspace.Fix`).
* Fallback follows the order of the list and does not look at priorities; Single does not look at
  breakers at all (`Router.FallbackTakesFirst`, `Router.RouteSelectsRoutable`).
* With a negative context, the context blocks are separators only
  (`ContextBlocks.NegativeShowsNoLine`).

## Model

| member | source | states |
|---|---|---|
| `Breakers.OpsAreLegal` | internal/modelproxy/proxy.go:345-637 | no single locked section lets a cooling Open breaker leave Open, closes an Open one directly, or enters HalfOpen without emptying the window; and only recording changes the counters otherwise |
| `Breakers.TallyMeaning` | internal/modelproxy/proxy.go:518-540 | the counters of a window are its length, its failures and the length of the failing streak at its end |
| `Breakers.CountersAreTheWindow` | internal/modelproxy/proxy.go:345-637 | in every run the counters are exactly the outcomes recorded since the breaker last turned HalfOpen |
| `Breakers.CountersStayOrdered` | internal/modelproxy/proxy.go:518-540 | consecutive failures never exceed errors, nor errors requests |
| `Breakers.QuarantineHolds` | internal/modelproxy/proxy.go:345-369 | whatever is done to an Open breaker, it stays Open for a full cooldown after it opened |
| `Breakers.RecoveryGoesThroughHalfOpen` | internal/modelproxy/proxy.go:345-369 | a run from Open to Closed leaves Open after the cooldown, into HalfOpen |
| `Breakers.ProbationVerdict` | internal/modelproxy/proxy.go:542-637 | a checked HalfOpen breaker closes iff its window ends in a success and opens iff it ends in three failures |
| `Breakers.CheckVerdict` | internal/modelproxy/proxy.go:542-637 | what a check makes of any breaker, said of its window: a Closed one opens iff its last three outcomes failed, or of more than ten more than a fifth failed, or of more than five the mean latency is above 30 s or the tokens are fewer than ten a second; otherwise nothing changes |
| `Router.RouteSelectsRoutable` | internal/modelproxy/proxy.go:371-501 | every strategy but Single routes only to a model that is not blocked; all route only to their own models, with the provider that serves them |
| `Router.RouteFailsIffNothingRoutable` | internal/modelproxy/proxy.go:371-501 | fallback, round-robin and weighted routing fail iff no model is routable |
| `Router.FallbackTakesFirst` | internal/modelproxy/proxy.go:405-416 | fallback selects a position iff it is the first routable one in list order |
| `Router.SingleIsFirst` | internal/modelproxy/proxy.go:401-404 | a single strategy names its first model iff some entry of that id is served, changes nothing, and an unknown kind names none |
| `Router.RoutableIff` | internal/modelproxy/proxy.go:345-369 | a model is routable iff it is served and its breaker is not Open, or has been for more than 300 s |
| `Router.ProviderIs` | internal/modelproxy/proxy.go:504-515 | the provider is a configured one of an entry with that id, and there is none iff no such entry names a configured one |
| `Router.WeightedShare` | internal/modelproxy/proxy.go:432-501 | a routable entry gets exactly as many draws as its weight, any other entry none |
| `Router.SelectedOpenModelIsProbed` | internal/modelproxy/proxy.go:345-369 | an Open model that is selected after its cooldown is HalfOpen with an empty window afterwards |
| `Router.DecisionProbes` | internal/modelproxy/proxy.go:371-501 | a decision turns a breaker HalfOpen, and empties its window, iff it looks at the model and the breaker has been Open for more than 300 s; every other cell is left alone |
| `Router.CellViewOfRun` | internal/modelproxy/proxy.go:345-637 | seen from one model, any run of requests and admin calls is a run of its own breaker and counters |
| `Router.OpenStaysOpen` | internal/modelproxy/proxy.go:345-637 | through any events within one cooldown of its opening, a model's breaker stays Open |
| `Router.QuarantinedModelIsNeverRouted` | internal/modelproxy/proxy.go:371-501 | and no fallback, round-robin or weighted decision in that time selects the model |
| `Router.RecoveryIsProbed` | internal/modelproxy/proxy.go:345-637 | in any run of the whole strategy, Open reaches Closed only through HalfOpen and after the cooldown |
| `Router.CountersInEveryRun` | internal/modelproxy/proxy.go:283-305 | from the initial state, each model's counters are its outcomes since its last probe, in order |
| `Router.CheckedInEveryRun` | internal/modelproxy/proxy.go:542-637 | from the initial state, after any run, a check of a model does to its breaker what its window says, and touches nothing else |
| `Router.IndexStaysInRange` | internal/modelproxy/proxy.go:417-431 | the round-robin cursor stays inside the list in every run |
| `Sessions.SessionKeepsItsModel` | internal/modelproxy/proxy.go:371-501 | a session keeps the model it drew: after anything but a decision, a switch or a force of its own, its next decision is the same model with the same provider whenever that model is routable, whatever others drew |
| `Sessions.NamedModelIsKept` | internal/modelproxy/proxy.go:940-1065 | so it does a model that a switch or a force names for it, if the endpoint takes it, and one it refuses changes nothing |
| `Sessions.EndpointsTake` | internal/modelproxy/proxy.go:940-1065 | the endpoints take exactly a named model of the strategy whose breaker is not Open, a switch for a named session and a forced one for all that are remembered; a refusal changes nothing |
| `Sessions.DrawIsByWeight` | internal/modelproxy/proxy.go:432-501 | a session without a routable model of its own is given the entry that its draw falls on, each with as many draws as its weight, and strategy and session are stuck to it from then on |
| `RoundRobin.SelectedIsNearest` | internal/modelproxy/proxy.go:417-431 | a selection is the nearest available position from the cursor, and the cursor moves just past it |
| `RoundRobin.RoundRobinIsFair` | internal/modelproxy/proxy.go:417-431 | while the same k positions stay available, k selections visit each exactly once, from any cursor |
| `RoundRobin.FairAtOneMoment` | internal/modelproxy/proxy.go:417-431 | and routing itself changes nobody's availability, so any k requests at one moment do |
| `Strategy.StrategyState.constructor` | internal/modelproxy/proxy.go:283-305 | a fresh strategy has one closed breaker and empty counters for each model |
| `Strategy.StrategyState.GetProviderForModel` | internal/modelproxy/proxy.go:504-515 | finds the provider of the first entry with that id |
| `Strategy.StrategyState.BreakerStateForRouting` | internal/modelproxy/proxy.go:345-369 | reads a breaker for routing, and turns it HalfOpen when it has cooled down |
| `Strategy.StrategyState.RouteStrategyModel` | internal/modelproxy/proxy.go:371-501 | the four strategies with their scans and the sticky lookup refine the routing function, choice and new state |
| `Strategy.StrategyState.RecordStrategyMetrics` | internal/modelproxy/proxy.go:518-540 | one outcome is added to the model's counters and to the log, nothing else changes |
| `Strategy.StrategyState.CheckCircuitBreaker` | internal/modelproxy/proxy.go:542-637 | the chain of tests refines the check of one cell |
| `Strategy.StrategyState.ForceOpen` | internal/modelproxy/proxy.go:1476-1484 | the model's breaker is Open from now on, its counters are kept |
| `Strategy.StrategyState.SwitchModel` | internal/modelproxy/proxy.go:940-1065 | the admin endpoints accept exactly a model of the strategy whose breaker is not Open, and set affinity and sticky model |
| `Strategy.StrategyState.Others` | internal/modelproxy/proxy.go:371-637 | any sequence of events of other requests is a run of the same methods |
| `Legs.LegsAreBounded` | internal/modelproxy/proxy.go:1476-1484 | stays on one model that are a cooldown apart are at most models times cooldowns that fit into the request |
| `Proxy.OnePass` | internal/modelproxy/proxy.go:1395-1701 | one pass of the loop does to the strategy object, its log and the loop's variables what the pass function says, and replies when it does |
| `Proxy.OnHttpError` | internal/modelproxy/proxy.go:1437-1564 | the branches on an error status refine its function: budget lifted once, retried, re-routed or passed on with a record and a check |
| `Proxy.OnStream` | internal/modelproxy/proxy.go:1569-1676 | so do those on a stream: early retry, failed stream checked and re-routed, or recorded without the error flag |
| `Proxy.LeaveModel` | internal/modelproxy/proxy.go:1476-1539 | the model is forced open, the strategy routed again, and another model starts over with all attempts |
| `Proxy.Settle` | internal/modelproxy/proxy.go:1665-1699 | a counted request ends in the record of its one outcome and the check of its model exactly when one is asked for |
| `Proxy.ForwardChat` | internal/modelproxy/proxy.go:1304-1709 | for a direct request, and for a strategy request of bounded duration, the loop terminates whatever upstreams and other requests do; it takes the course of the pass function to its end, and the strategy's log gains exactly this request's events woven into the others' |
| `Served.PassIsSound` | internal/modelproxy/proxy.go:1395-1701 | every pass that goes on keeps the legs a cooldown apart per model and the dials on them within the budget, and uses up a re-route, lifts the budget once, or uses up an attempt |
| `Served.EndIsOver` | internal/modelproxy/proxy.go:1304-1709 | when a request ends, its dials follow its legs in order, within the budget on each, and its events end in one record, with the error flag only for transport errors and refusals, and the check that belongs to the reply |
| `Served.RepliesAreEarned` | internal/modelproxy/proxy.go:1420-1699 | a counted reply explains the answer to the last dial; a retryable transport error, a retriable status and a failed stream are passed on only when the attempts are used up, which are two at least for a failed stream, a fault, a missing model and every strategy request |
| `Served.ExhaustedIs` | internal/modelproxy/proxy.go:1586-1709 | the loop runs out only for a direct request without retries whose one stream failed, or with a negative number of retries |
| `Served.LastAttempts` | internal/modelproxy/proxy.go:1395-1539 | the attempts counted at the end are the last dials, all to one model |
| `Retries.DialsAgainIff` | internal/modelproxy/proxy.go:1395-1676 | a request dials again exactly after a retryable transport error, a status among 404, 408, 429, 500, 502, 503 and 504, a saturation or fault text, or a failed stream, while the model has attempts left; so every dial but the last is answered in that way, and the last is not, unless the request was cancelled or could not be built after it |
| `Retries.GateIsAsked` | internal/modelproxy/proxy.go:1395-1405 | every dial has passed the saturation gate, unless the model has just said that it is saturated |
| `Retries.CancelledAtGate` | internal/modelproxy/proxy.go:1395-1419 | a request is cancelled only by the gate, and fails to be built only when it could not |
| `Retries.MovesWhereRouted` | internal/modelproxy/proxy.go:1457-1660 | the breaker of a model whose answer repels, or whose stream failed, is forced open and the strategy routed again, and nothing is done to it after any other answer; the request moves exactly if that decision names another model |
| `Retries.OutcomeIsTrue` | internal/modelproxy/proxy.go:1665-1706 | the one outcome recorded is of the last model, with the time since the request began, the tokens used, the error flag exactly for transport errors and refusals, and the check exactly for these, failed streams and bodies that could not be read |
| `Served.DialsAreBounded` | internal/modelproxy/proxy.go:1304-1709 | at most budget times models dials within a cooldown (times the cooldowns that fit, for longer requests), at most the budget for a direct request |
| `Served.OneOutcome` | internal/modelproxy/proxy.go:1665-1709 | under any interference the log gains exactly one outcome beyond the others', that of the model dialled last, or none if the request was cancelled or not built |
| `Served.ComesBackAfterCooldown` | internal/modelproxy/proxy.go:1476-1484 | of two dials to one model with a dial to another between them, the second is more than a cooldown later |
| `Served.NeverComesBack` | internal/modelproxy/proxy.go:1476-1484 | a request no longer than a cooldown never dials a model again once it has dialled another, although re-routing resets its counter |
| `Endless.ReroutesForEver` | internal/modelproxy/proxy.go:1476-1546 | for every n, a request of two models that answer with server errors, each later than a cooldown, takes n passes, each to the other model, and goes on |
| `Endless.NeverEnds` | internal/modelproxy/proxy.go:1395-1546 | so no course of it ends in any reply |
| `Proxy.HandleChat` | internal/modelproxy/proxy.go:1225-1300 | the first choice is the routing decision on the strategy as the request finds it; with one, the request is forwarded from there to its end, and without one only routing is in the log |
| `Proxy.RefusedIff` | internal/modelproxy/proxy.go:1250-1262 | routing finds nothing, and the request is refused, iff no model is routable then |
| `Proxy.HandledDials` | internal/modelproxy/proxy.go:1225-1300 | the first dial of a handled request is to its first choice and its dials are bounded |
| `Probes.ForcedModelEndsOpen` | internal/modelproxy/proxy.go:1457-1660 | a model that an answer forced open is Open at the end of the request, unless that is more than a cooldown later, whatever others do |
| `Probes.ProbeVerdict` | internal/modelproxy/proxy.go:1570-1699 | for a model that was HalfOpen when the request's last, undisturbed leg began: it is Closed afterwards iff the last answer succeeded only in its status, by its stream or its body, and no earlier answer on the leg forced it open; after a full success it is still HalfOpen |
| `Probes.UnreadableProbeCloses` | internal/modelproxy/proxy.go:1676-1687 | a whole request: a probe whose body cannot be read closes the breaker |
| `Probes.LateEmptyStreamCloses` | internal/modelproxy/proxy.go:1420-1675 | a whole request: a transport error, then a stream without a line at the last attempt, closes the breaker |
| `Probes.EmptyStreamsEndOpen` | internal/modelproxy/proxy.go:1586-1663 | when every dial of a strategy request is answered by a stream without a line, every model it dialled is Open at the end, within a cooldown |
| `Probes.EmptyStreamProbeEndsOpen` | internal/modelproxy/proxy.go:1586-1663 | a whole request: such a probe of the only model ends Open |
| `Sse.PipeSSE` | internal/modelproxy/proxy.go:1831-2021 | the select loop with its flags and early returns refines the fold over the feed |
| `Sse.FlagsDescribeFeed` | internal/modelproxy/proxy.go:1842-2021 | while the relay runs its flags say exactly what was seen and relayed, and the usage is the last one seen |
| `Sse.PayloadIff` | internal/modelproxy/proxy.go:1938-1942 | a line is a data line iff it begins with "data:", blanks apart, and its payload is what follows, trimmed |
| `Sse.KindIs` | internal/modelproxy/proxy.go:1939-1984 | a payload ends the stream iff it is [DONE], and one that begins with a brace is an error iff it has the key "error" in it and otherwise a chunk, with content iff it has the key "choices" |
| `Sse.NoSilentTruncation` | internal/modelproxy/proxy.go:1893-2021 | success means [DONE] was seen or an error relayed; a failure without retry ends with an error event and [DONE] |
| `Sse.EarlyRetryMeansNoContent` | internal/modelproxy/proxy.go:1940-1956 | an early retry was caused by an aborting error with no content before it, relayed or seen |
| `Sse.EarlyRetryIff` | internal/modelproxy/proxy.go:1944-1960 | a stream is given up for an early retry exactly at an error before any content that is retryable or a backend fault, with a retry in the budget, or for a fault with the one it is granted |
| `Sse.EarlyRetryWroteNothingIff` | internal/modelproxy/proxy.go:1797-1830 | exactly when an early retry has written nothing |
| `Sse.EarlyRetryMayHaveWritten` | internal/modelproxy/proxy.go:1797-1830 | a feed for which it has |
| `Sse.SaturationIsAbsorbed` | internal/modelproxy/proxy.go:1940-1975 | upstream saturation errors are relayed as upstream events only after content, whatever the budget |
| `Sse.HeldErrorIsSentIff` | internal/modelproxy/proxy.go:1893-2021 | before content one reaches the client only as the proxy's own event, exactly when its hold times out or is pending at the end |
| `Sse.TickVerdict` | internal/modelproxy/proxy.go:1985-2021 | a tick stops the relay iff the last held error, with no [DONE] after it, is as old as the hold timeout in milliseconds; with a younger one it writes one keepalive, and with none nothing |
| `Sse.EveryLineIsPassedOn` | internal/modelproxy/proxy.go:1938-2021 | while the relay runs the client gets every line in order, errors with their blank line, but those put on hold, and keepalive comments besides |
| `Sse.CleanStreamIsRelayedVerbatim` | internal/modelproxy/proxy.go:1842-2021 | without error payloads every line is relayed unchanged and in order, and it fails iff [DONE] is missing |
| `Decimal.ParseInvertsFormat` | internal/comms/records.go:17-23 | parsing a printed id gives its number, for all of int64, past four digits too |
| `Decimal.FormatIdInjective` | internal/comms/commands.go:31-48 | different numbers have different ids |
| `Decimal.PaddedToFour` | internal/comms/commands.go:47-47 | four places at least, filled with zeros between the sign and the digits |
| `Names.SafeIsStable` | internal/comms/comms.go:155-163 | a name that passed the path check is fixed under it and holds no separator |
| `Names.SafeIff` | internal/fsutil/fsutil.go:28-47 | a name is refused iff it is empty, a dot, or has a slash or two dots in a row in it; otherwise exactly the characters that are not kept become underscores |
| `Bus.Bus.HighestMsgID` | internal/comms/commands.go:54-77 | the scan returns the highest id in the store |
| `Bus.Bus.NextID` | internal/comms/commands.go:31-48 | one above the larger of the counter file and the highest id, wrapped as int64 |
| `Bus.Bus.BroadcastRecipients` | internal/comms/records.go:392-434 | all known ships and the sender, nobody else |
| `Bus.Bus.PostAs` | internal/comms/commands.go:105-205 | one unseen copy for each recipient under one fresh id, and nothing else changes |
| `Bus.Bus.AckMessage` | internal/comms/commands.go:609-637 | moves the caller's own copy to seen, succeeds iff the caller has one, refuses unsafe ids |
| `Bus.Bus.DoAck` | internal/comms/commands.go:640-660 | after a successful ack the directive is seen with the same record, acked before or not |
| `Bus.Bus.AllMsgRecords` | internal/comms/records.go:184-236 | every copy once, newest id first |
| `Bus.Bus.RemoveMsgCopies` | internal/comms/commands.go:1035-1048 | removes exactly the copies of one id for one recipient |
| `Bus.Bus.DoPrune` | internal/comms/commands.go:981-1030 | the loops over statuses and records refine the pruned store, and the count is that of the copies removed |
| `Bus.Bus.AckInbox` | internal/comms/commands.go:475-490 | acks every unseen directive of the ship and reports exactly these |
| `Bus.Bus.DoInit` | internal/comms/commands.go:468-564 | acks the inbox, prunes by init's rule and writes an idle status; the store stays valid |
| `Bus.Bus.InboxCount` | internal/comms/records.go:339-357 | the full scan counts the ship's unseen copies |
| `Bus.Bus.InboxCounts` | internal/comms/records.go:359-386 | the one-pass index gives every ship the same number, absent meaning none |
| `Delivery.NextIdIsFreshIff` | internal/comms/commands.go:31-48 | exactly when the next id is above everything in the store |
| `Delivery.StepIsLegal` | internal/comms/commands.go:105-205 | every command keeps the store valid and changes each recipient's copy only in the allowed ways |
| `Delivery.PostReaches` | internal/comms/records.go:392-434 | a broadcast gives exactly one new unseen copy to the sender and to every ship with a message directory or a status record, except the reserved name and hidden ones; a targeted post to its target only |
| `Delivery.NextIdIs` | internal/comms/commands.go:31-48 | one above the larger of the counter, if there is one, and the highest id, below the top of int64 |
| `Delivery.NeverLost` | internal/comms/commands.go:468-1048 | in every run a copy stays with its record, and seen once seen, until it is removed for cause: stale, and acked or its ship not live |
| `Delivery.NeverDoubledNorAckedByOthers` | internal/comms/commands.go:609-637 | at no point is a copy both unseen and seen, and only its own ship's ack or init moves it |
| `Delivery.IdsIncrease` | internal/comms/commands.go:31-48 | while the counter file survives, issued ids increase for ever, prunes or not |
| `Delivery.IssuedIdIsHighest` | internal/comms/commands.go:31-77 | whatever happened to the counter file, an issued id is above every id in the store |
| `Delivery.WrapLosesDirective` | internal/comms/commands.go:31-48 | with the highest int64 id in the store, two posts get one id and the second overwrites the first |
| `Delivery.CorruptCounterLosesDirective` | internal/comms/commands.go:31-48 | a run from an empty store with a corrupt counter file to a lost directive |
| `Pruning.PruneExact` | internal/comms/commands.go:981-1030 | prune removes a copy iff it is stale and its ship is not live or has seen it, and exactly the status records of ships that are not live |
| `Pruning.InitPruneExact` | internal/comms/commands.go:492-536 | init removes a copy iff it is stale, every live agent had seen its id, and no earlier removal blocked it |
| `Pruning.InitKeepsOneOfTwo` | internal/comms/commands.go:492-536 | a step of init, whatever the order of its listing, keeps one of two live ships' seen copies of an id |
| `Pruning.InitSparesTargeted` | internal/comms/commands.go:492-536 | a step of init keeps a directive that another live ship has no copy of |
| `Pruning.InitAcksInbox` | internal/comms/commands.go:468-536 | after init every directive the ship had is seen, with the same record, or was old enough to go |
| `Pruning.InitSweepsBoard` | internal/comms/commands.go:492-564 | after init the board holds the ship, idle from now on, and of the others exactly the live ones, unchanged |
| `Pruning.AckExact` | internal/comms/commands.go:609-637 | an ack moves the caller's unseen copy of the id to seen and changes no other copy of anyone |
| `Listing.InsertKeepsOrder` | internal/comms/records.go:184-236 | the listing stays newest first and gains exactly the new record |
| `TailLines.ReadBackwards` | internal/comms/json.go:340-384 | the backwards chunk loop stops where the specification says, with the file's end in the buffer |
| `TailLines.ReadTail` | internal/comms/json.go:340-384 | the chunked reader refines the tail function, for missing, empty and negative cases too |
| `TailLines.TailIsSimple` | internal/comms/json.go:340-384 | for a file that does not end in two newlines it is the last n lines of the trimmed file, for any chunk size |
| `TailLines.TailIsSimpleIff` | internal/comms/json.go:340-384 | exactly when the two agree, for one chunk size |
| `TailLines.TailIsSimpleForAllChunksIff` | internal/comms/json.go:340-384 | exactly when they agree for every chunk size |
| `TailLines.TailMayLoseLine` | internal/comms/json.go:340-384 | a file for which the last line is lost |
| `EventLog.EventLog.RotateIfNeeded` | internal/comms/comms.go:261-272 | a log that has reached the limit becomes generation 1 and each generation the next, the oldest is dropped; any other log stays |
| `EventLog.EventLog.LogEvent` | internal/comms/comms.go:247-255 | the line is added to the log, or to a new one when the log had reached the limit; the history grows by it and what is on disk stays its end |
| `EventLog.EnoughIsKept` | internal/comms/comms.go:240-272 | the files are a suffix of everything ever logged, all of it or at least three full generations, and never more than four times the limit and the longest line |
| `Claims.ReadsWhatWasWritten` | internal/prclaim/records.go:34-59 | readClaim returns what writeClaim stored, for ids without tabs and newlines and any note |
| `Claims.ParseLine` | internal/prclaim/records.go:34-49 | the padding loop refines the parse of a claim line |
| `Claims.Registry.DoClaim` | internal/prclaim/commands.go:32-77 | outcome and new registry of a claim: fresh, refreshed, reclaimed, stolen or refused |
| `Claims.Registry.DoRelease` | internal/prclaim/commands.go:80-102 | outcome and new registry of a release |
| `Claims.Registry.DoReleaseAll` | internal/prclaim/commands.go:105-123 | removes exactly the caller's claims and counts them |
| `Claims.Registry.DoWho` | internal/prclaim/commands.go:128-139 | 3 iff another agent holds a claim that is not stale |
| `Claims.ClaimIff` | internal/prclaim/commands.go:32-77 | a claim succeeds iff nobody holds the PR, or the caller does, or the time to live has passed, or it is a steal, and then the record is the caller's; an expired claim can so be taken over |
| `Claims.ReleaseIff` | internal/prclaim/commands.go:80-102 | a release removes the claim iff it is the caller's or the release is forced; another's exits 3 and none is no error |
| `Claims.ReleaseAllIff` | internal/prclaim/commands.go:105-123 | exactly the others' claims are left, unchanged |
| `Claims.EpochIs` | internal/prclaim/records.go:34-49 | an epoch that does not fit is clamped to int64, and one that is no number is 0 |
| `Claims.YoungClaimIsSafe` | internal/prclaim/commands.go:32-123 | a young claim changes only by its holder, a steal or a forced release; a plain claim by another exits 3 and changes nothing |
| `Claims.ClaimStands` | internal/prclaim/commands.go:32-123 | so in every run without such an event, until it expires |
| `Claims.NoTwoHolders` | internal/prclaim/commands.go:32-123 | two agents' plain claims on one PR both succeed within the time to live only if somebody entitled acted in between |
| `Topic.UnquoteInvertsQuote` | internal/dashboard/topic.go:103-118 | unquoteYAML inverts quoteYAML on every string |
| `Topic.QuoteIs` | internal/dashboard/topic.go:113-118 | a quoted string has a backslash before exactly each backslash and each quote of the text |
| `Topic.ParseTopicFile` | internal/dashboard/topic.go:122-182 | the parsing loop refines the parse function |
| `Topic.WriteTopicFile` | internal/dashboard/topic.go:184-231 | the builder produces the rendered file |
| `Topic.KeysNameFields` | internal/dashboard/topic.go:145-171 | every key that is written names the field it is for, but the migration mark's |
| `Topic.ReadIs` | internal/dashboard/topic.go:122-182 | what any text is read as: it has metadata iff a line above its first blank line has a colon, each field has the last value given for it, and the body is what follows |
| `Topic.HeaderIff` | internal/dashboard/topic.go:134-145 | key and value of a header line are what stands before and after its first colon, trimmed and unquoted |
| `Topic.BlankIs` | internal/dashboard/topic.go:125-128 | the headers end at the first place with two newlines |
| `Topic.ParseOfRender` | internal/dashboard/topic.go:122-231 | what comes back of any one-line metadata and any body |
| `Topic.RoundTripIff` | internal/dashboard/topic.go:122-231 | exactly when everything comes back |
| `Topic.RewritingIsStableIff` | internal/dashboard/topic.go:122-231 | and that is exactly when writing it again gives the same bytes |
| `Topic.MarkIsWritten` | internal/dashboard/topic.go:184-223 | after title and category only fields with a value are written, quoted; the migration mark is written as it is, exactly if there is one |
| `Topic.MigrationMarkIsLost` | internal/dashboard/topic.go:165-219 | the migration mark never comes back |
| `Reports.ToRFC2822String` | internal/reports/types.go:62-84 | the builder produces the rendered report |
| `Reports.CollectHeaders` | internal/reports/types.go:99-109 | the first loop finds the headers and where the body starts |
| `Reports.ParseRFC2822Format` | internal/reports/types.go:98-166 | the two loops refine the parse function |
| `Reports.ReadIs` | internal/reports/types.go:98-166 | what any text is read as: each field has the last value given for it above the first blank line, an id that is missing is the file's name and a time that is missing the present |
| `Reports.BracketsAreOff` | internal/reports/types.go:121-123 | angle brackets are taken off both ends of an id and nowhere else |
| `Reports.ParseOfRender` | internal/reports/types.go:62-166 | what comes back of any report with one-line header fields |
| `Reports.ListSurvivesIff` | internal/reports/types.go:71-79 | exactly when a list of tags or attachments comes back |
| `Reports.IdSurvivesIff` | internal/reports/types.go:121-155 | exactly when an id comes back |
| `Reports.RoundTripIff` | internal/reports/types.go:62-166 | exactly when the whole report comes back; blank lines and header-like lines in the body do no harm |
| `Reports.BodyComesBack` | internal/reports/types.go:109-112 | a body loses nothing but newlines at its end |
| `Reports.HeadersRepeatedInBody` | internal/reports/types.go:99-112 | the whole file is the body exactly when it has no blank line, or nothing but newlines |
| `Reports.SubjectIsBodyToo` | internal/reports/types.go:99-112 | a subject line alone is read as the subject and is the body too |
| `ShellQuote.QuoteReadsBack` | internal/session/resolve.go:63-65 | a quoted string adds exactly its text to the word the shell is reading |
| `ShellQuote.QuotedStringIsOneWord` | internal/session/resolve.go:63-65 | alone it is one word, even when empty |
| `ShellQuote.ArgsAreReadBack` | internal/session/launch.go:316-318 | a command with appended arguments reads as its words and exactly the arguments |
| `ShellQuote.AppendArgs` | internal/session/launch.go:316-318 | the loop appends the arguments |
| `Launch.ExportReadsBack` | internal/session/launch.go:301-308 | an export line sets the variable to exactly the value |
| `Launch.LaunchLine` | internal/session/launch.go:299-345 | whatever the strings hold, the shell runs exactly the intended commands, for all three kinds of client |
| `Launch.EnvironmentIs` | internal/session/launch.go:301-331 | these commands leave the ship's id in the environment, tier and supervisor if they are given, for opencode its config file and no prompt, and nothing else |
| `Launch.ProjectIsSourced` | internal/session/launch.go:308-310 | with a project its settings are sourced and PROJECT exported after that, and nothing else is sourced |
| `Launch.ExecIs` | internal/session/launch.go:311-345 | the last command is the client with its arguments at its end, claude with its permission mode before them; a terminal runs the arguments themselves, or a login shell without any |
| `ContextBlocks.FindMatches` | internal/ghpr/showbranchfile.go:121-129 | marks exactly the lines that hold the symbol |
| `ContextBlocks.PrintBlocks` | internal/ghpr/showbranchfile.go:135-161 | the loop with its running limit prints the specified rows and separators, for any context |
| `ContextBlocks.Show` | internal/ghpr/showbranchfile.go:109-162 | exit code and output for no symbol, no match and matches |
| `ContextBlocks.ShownLinesAreNear` | internal/ghpr/showbranchfile.go:117-161 | the lines shown are exactly those within the context after a match, marked ':' iff they match |
| `ContextBlocks.ShownLinesIncrease` | internal/ghpr/showbranchfile.go:117-161 | their numbers strictly increase, with separators exactly at the gaps |
| `ContextBlocks.NegativeShowsNoLine` | internal/ghpr/showbranchfile.go:135-161 | a negative context shows no line |
| `ContextBlocks.NegativeSeparates` | internal/ghpr/showbranchfile.go:135-161 | and one separator for each match before which another is at least as far from the top as the context is below zero |
| `SuffixPick.SuffixSegmentMatch` | internal/ghpr/backportcommit.go:304-315 | the count is the longest common suffix of path segments |
| `SuffixPick.PickBestSuffixMatch` | internal/ghpr/backportcommit.go:279-302 | the one line that shares strictly the most segments, if it has no space in it, else nothing |
| `SuffixPick.BestIff` | internal/ghpr/backportcommit.go:279-302 | a line is the best exactly if there is a number of segments that it alone shares with the path, said of the last segments of both |
| `ConfigMerge.PlanPermissionRules` | internal/bootstrap/checks.go:784-791 | the loop builds the rules of all commands |
| `ConfigMerge.FilterInstructions` | internal/bootstrap/checks.go:864-885 | the filter in place leaves exactly the entries that are not stale, and notices the index and any drop |
| `ConfigMerge.AddRules` | internal/bootstrap/checks.go:918-923 | in any order of the map, missing rules are added and existing ones win; changed iff it changed |
| `ConfigMerge.Config.EnsurePlanAccess` | internal/bootstrap/checks.go:855-925 | the document becomes the merged one, and the result is true iff that changed it |
| `ConfigMerge.Workspace.Verify` | internal/bootstrap/checks.go:796-805 | true iff the file holds a document with all that is required |
| `ConfigMerge.Workspace.Fix` | internal/bootstrap/checks.go:807-824 | afterwards the file verifies, whatever it held; a file that verified is left alone |
| `ConfigMerge.MergeIsFixpoint` | internal/bootstrap/checks.go:855-925 | merging twice is merging once, for every document |
| `ConfigMerge.SatisfiedIff` | internal/bootstrap/checks.go:855-925 | the merge leaves a document alone iff it has what is required, said without the merge |
| `ConfigMerge.PreservesIff` | internal/bootstrap/checks.go:851-925 | exactly when nothing of the user's is lost |
| `ConfigMerge.NullAgentIsLost` | internal/bootstrap/checks.go:893-898 | a document whose agent is null, or any other value that is no object, loses it |
| `ConfigMerge.OthersUnchanged` | internal/bootstrap/checks.go:855-925 | other keys and existing rules are unchanged in every case, and only required rules are added |
| `ConfigMerge.KeptInOrder` | internal/bootstrap/checks.go:864-889 | surviving instructions keep their order and are exactly those that are not stale |

## Left out

- HTTP servers and clients, headers, timeouts, tickers, goroutines, catalogs and the per-ship tracker: the proxy sees answers, scanned lines and ticks.
- The text tests for saturation and faults, usage decoding, the saturation gate and `transientError` of Go errors: given predicates and oracles.
- Proxy.ForwardChat: each locked section happens at one instant of the oracle's clock, a dial is dated by the last of them before it, and the duration of a strategy request is a ghost parameter.
- Probes.ProbeVerdict: legs that others disturb, or in which a cooldown passes between two adjacent locked sections; the forced models' half holds for these too (Probes.ForcedModelEndsOpen).
- Strategy.StrategyState.SwitchModel: the endpoints' several locked sections are one step, and their JSON and lookup errors are not modelled.
- Breakers and counters are values reached through their model's id instead of shared pointers, and the floating-point thresholds are compared as exact fractions; counters do not overflow.
- Delivery.NeverLost: posts happen while there is room below the top of int64; ship ids are those that are safe file names already, neither hidden nor `all`.
- Bus.Bus.PostAs: attachments, previews, temporary files and I/O errors; a post is all or nothing.
- Bus.Bus.BroadcastRecipients: the sorted order of recipients.
- The bus's legacy flat files, broadcast migration, purge by age, ask and reply, the conversation view and the JSON builders.
- EventLog.EventLog.LogEvent: writers racing a rotation, and failures to write, which the source tolerates for an audit log.
- Claims.Registry.DoClaim: listing, the note's terminal output and the lock file itself; each command is one critical section.
- Topic.RoundTripIff: fields with newlines in them, which do not survive a file of lines, and slugs and file moves.
- Reports.ParseRFC2822Format: date and epoch parsing are given functions, and the old JSON format is not modelled.
- ShellQuote.ArgsAreReadBack: characters that are special outside quotes, double quotes, expansions and comments are refused by the reader; the quoted text is never looked at in that way.
- Launch.LaunchLine: how the ship id, the paths and the generated config are found.
- ContextBlocks.Show: fetching the file, and the default and environment value of the context.
- ConfigMerge.Config.EnsurePlanAccess: nested objects are values, so a document whose parts are shared (which JSON cannot express) is not captured; JSON text and write errors are not modelled.
- Strings are sequences of characters: bytes that are no UTF-8 and lower-casing beyond ASCII are not modelled.
