# Verification of Shadow's supervisors, proxy path and routing algebra

A Dafny 4.11 project beside the TypeScript sources. It models five parts of the application and proves what their
comments, tests and names promise, over every input and every run. `dafny verify dfyconfig.toml` checks all of it.

## What is modelled

**The SSH supervisor** (`SshSupervisor*.dfy`, `LiveSshServiceBridge.dfy`). `LiveSshServiceBridge` runs one queued operation at
a time, and anything else can happen at its awaits. `SshSupervisor` is that as a transition system: a turn is one public
call, timer, session event or resumed await, and a run is any list of turns. The class updates its fields in place and every
method is proved to make the system's step. The theorems are about all runs: the supervisor never stalls, so its watchdog
never repairs anything; superseded work is inert and leaks no session; credentials are tried at most twice; attempts are
spaced and delays bounded; parked connections are answered once; and routing is stranded at one turn only. What a turn decides - to retry or to halt,
to connect, to answer a parked connection, to put routing up or take it down - is stated of every turn in both directions.

**The Xray hold** (`Xray*.dfy`). The same queue, with the Xray child and the bridge competing for the inbound ports. In every
run they never have them at once; a hold always has a deadline; a wanted session is never left with nothing at work on it;
and once the queue is quiet, the ports the bridge has are exactly those the hold is about. Whether routing still points at those is another matter when a restart came up on other
ports; at which turn it stops doing so is stated exactly.

**The proxy data path** (`HttpBody*.dfy`, `HttpSizeLine.dfy`, `HttpForwardBody*.dfy`, `FlowControl.dfy`). The body gate
forwards exactly one HTTP/1.1 request body, against a grammar of chunked bodies with none of the gate's trimming and parsing
in it. Every body of section 7.1 of RFC 9112 within the gate's limits is one; beyond the standard the grammar has size lines
padded with any white space, anything at all after a semicolon, and any trailer line. The queue counters and the read window
hold over every interleaving of connections.

**Routing and addresses** (`Text`, `Bits`, `IpAddress*`, `IpLiterals`, `MappedAddresses`, `CidrRanges`, `LocalRanges`, `PortRanges`,
`RoutingMatcher`, `RoutingRuleTexts`, `WindowsDnsCache`). Printers and parsers are inverses, range overlap is a shared address, port lists have a
normal form, the indexed matcher answers as a linear scan does, and the CNAME closure is a bounded widest path.

**Bounded histories** (`Utf8`, `BoundedHistory`, `Histories`). The longest suffix under both caps, exact cached totals, and
truncation to UTF-8 bytes.

Loops and updated objects of the sources are methods and classes here, each proved against a function; what the sources promise
is then proved of the function. Rows below name the member whose contract states the property.

## Findings

| the code | at | shown by |
|---|---|---|
| `connectInternal` rebuilds the adapter with `await this.stopSystemRouting()` and then sets `systemRoutingApplied = true` without asking again whether its session is still the current one. If the session fails during that await, routing is marked as applied with no session, no hold timer and no queued stop; only the retry's own success or failure ends it. | src/service/live-ssh-service.ts:593-606 | `StepCoversExactly`, `OvertakenRebuildStrands`, `RoutingCanBeStranded` |
| A restart that takes held routing over may get other ports than the held ones. `applySystemRouting` moves routing to them; if Xray then stops, or the apply throws, the hold goes on for the old ports, which `occupyHeldPorts` binds, while routing points at the new ones, which nobody has. | src/service/xray-service.ts:604-629, 865-926 | `StepAlignsExactly`, `MisdirectsOnlyElsewhere`, `RoutingCanBeMisdirected` |
| A restart that gives up awaits `this.stopRouting()` and then sets the status to Error without asking again whether its lifecycle is still the current one. A Connect the user made meanwhile then runs with the status at Error; `applySystemRouting` reads that as overtaken (src/service/xray-service.ts:1570, 2127-2129) and applies nothing, and the session is Connected with no routing. | src/service/xray-service.ts:642-655 | `StepShowsExactly`, `AttemptsShow`, `AttemptCanShowError` |

## Model

| member | source | states |
|---|---|---|
| `SshSupervisorTheorems.NeverStalls` | src/service/live-ssh-service.ts:1394-1429 | In every run, while a session is wanted there is a session of the current lifecycle, a reconnect timer carrying it, or a queued or running connect or clean-up of it |
| `SshSupervisorTheorems.WatchdogNeverRepairs` | src/service/live-ssh-service.ts:1401-1429 | The watchdog's repair condition is false in every reachable state, so a tick changes nothing |
| `SshSupervisorInvariant.StepKeepsCore` | src/service/live-ssh-service.ts:471-675 | Every turn - any public call, timer, session failure or resumed await - keeps the no-stall invariant, the queue count and what a live operation may rely on |
| `SshSupervisorTheorems.ConnectedMeansSession` | src/service/live-ssh-service.ts:607-627 | Connected implies a session of the current lifecycle, no timer and no attempt or clean-up in flight |
| `SshSupervisorTheorems.StaleAttemptIsInert` | src/service/live-ssh-service.ts:498-675 | An attempt whose lifecycle was superseded changes neither status, timer, halt flag nor counters, and touches no session but its own, at any await |
| `SshSupervisorTheorems.StaleCleanupIsInert` | src/service/live-ssh-service.ts:1106-1150 | The same for a failure clean-up whose lifecycle was superseded |
| `SshSupervisorTheorems.StaleOpOnlyLeaves` | src/service/live-ssh-service.ts:498-501 | A superseded connect or disconnect that has not begun only leaves the queue |
| `SshSupervisorRouting.StepCoversExactly` | src/service/live-ssh-service.ts:593-606 | After a turn, routing applied without a session has a hold timer, a queued stop or an operation that answers for it, if and only if the turn was not the resumption of an adapter rebuild whose session failed meanwhile |
| `SshSupervisorTheorems.RoutingNeverStranded` | src/service/live-ssh-service.ts:1157-1202 | Over whole runs without such a turn, routing is never stranded |
| `SshSupervisorTheorems.OvertakenRebuildStrands` | src/service/live-ssh-service.ts:593-606 | At such a turn routing is left applied with no session, timer or stop, and only a retry on its way |
| `SshSupervisorTheorems.RoutingCanBeStranded` | src/service/live-ssh-service.ts:593-606 | A concrete run that ends in such a turn |
| `SshSupervisorTheorems.ExpiredHoldNotRearmed` | src/service/live-ssh-service.ts:1157-1193 | While the stop of an expired hold is queued, no turn arms the hold timer |
| `SshSupervisorTheorems.ConnectingEndsHold` | src/service/live-ssh-service.ts:607-627 | Only a resumed attempt reaches Connected, and it ends the hold under a new hold generation |
| `SshSupervisorTheorems.QueuedStopSparesRestoredSession` | src/service/live-ssh-service.ts:1179-1190 | A hold stop queued before a session came back does nothing to that session's routing, however many turns later it starts |
| `SshSupervisorSessions.NoSessionLeaks` | src/service/live-ssh-service.ts:685-736 | Every session ever opened is the bridge's own, closed, or owned by a queued or running operation that closes it |
| `SshSupervisorSessions.ConnectedLeavesNobodyParked` | src/service/live-ssh-service.ts:1246-1255 | Connected leaves no connection parked |
| `SshSupervisorSessions.StepAnswers` | src/service/live-ssh-service.ts:1211-1265 | No turn drops a parked connection or changes an answer, and one resolved gets the session that just became Connected |
| `SshSupervisorSessions.AnswerIsFinal` | src/service/live-ssh-service.ts:1211-1244 | A settled connection keeps its one answer for the rest of the run |
| `SshSupervisorRetries.AtMostTwoRejections` | src/service/live-ssh-service.ts:829-876 | Between a user Connect and the next session at most two attempts are rejected; after the second, reconnecting halts with the operation that was told of it |
| `SshSupervisorRetries.HaltedStartsNothing` | src/service/live-ssh-service.ts:863-876 | A halted bridge starts no attempt until the next user Connect |
| `SshSupervisorRetries.ScheduledDelayIsBounded` | src/service/live-ssh-service.ts:1267-1339 | Whatever arms the reconnect timer arms it for 0 to 34,999 ms on any clock |
| `SshSupervisorRetries.AutomaticAttemptsAreSpaced` | src/service/live-ssh-service.ts:1293-1338 | Under a clock that never steps back, an automatic attempt starts at least 1000 ms after the attempt before it, whatever triggered that |
| `SshSupervisorDecisions.HaltsExactly` | src/service/live-ssh-service.ts:829-876 | Reconnecting is halted after a turn if and only if the turn ended a current attempt with a failure only the user can help, or the clean-up of a session whose error was not retryable, or it was halted before and this is no user Connect |
| `SshSupervisorDecisions.EndDecides` | src/service/live-ssh-service.ts:829-861 | Such an end leaves Error, no timer and a queued stop of routing; every other failed end of a current attempt, and the clean-up of a retryable loss, leaves Reconnecting and a timer of this lifecycle |
| `SshSupervisorDecisions.FailedAttemptDecides` | src/service/live-ssh-service.ts:632-675 | Over every run, the same for a current attempt that ends in a failure: a refused host key or request halts, a rejection halts for a user's attempt, with no session established or as the second in a row, anything else is retried |
| `SshSupervisorDecisions.FailureIsCarried` | src/service/live-ssh-service.ts:632-660 | Until it ends, a current attempt that failed carries its failure to the next await unchanged |
| `SshSupervisorDecisions.RetriesExactly` | src/service/live-ssh-service.ts:1267-1275 | Where none is armed, a reconnect timer is armed by exactly these turns |
| `SshSupervisorDecisions.RetryIsPaced` | src/service/live-ssh-service.ts:1276-1312 | The timer so armed: brought forward by a wake noted meanwhile, or one step along the backoff plus its jitter, and never before the spacing floor |
| `SshSupervisorDecisions.BackoffDoubles` | src/service/live-ssh-service.ts:128-141 | The backoff is nothing, a second, and then twice the step before up to thirty seconds |
| `SshSupervisorDecisions.WakeBringsForward` | src/service/live-ssh-service.ts:423-469 | A wake moves a timer to the spacing floor unless one did within half a minute, notes itself for an attempt under way, and leaves a session to its probe |
| `SshSupervisorDecisions.StallWouldBeRepaired` | src/service/live-ssh-service.ts:1401-1429 | A wanted session found with neither client, timer nor work in the queue would get a timer at the spacing floor from a wake or the watchdog, and the watchdog does nothing else |
| `SshSupervisorDecisions.AttemptsStart` | src/service/live-ssh-service.ts:1325-1338 | A timer that fires and a user Connect queue an attempt of a new lifecycle; a user Connect resets what halted the last |
| `SshSupervisorDecisions.TimerStaysArmed` | src/service/live-ssh-service.ts:1325-1333 | A timer is disarmed by its firing, a user Connect or the end of the session only |
| `SshSupervisorDecisions.SessionsEnd` | src/service/live-ssh-service.ts:878-968 | What disconnect, dispose, beginDisconnect and clearError end, and which of them queue a teardown |
| `SshSupervisorDecisions.LostSessionIsCleanedUp` | src/service/live-ssh-service.ts:1106-1149 | The failure of the current session, and of no other, starts a new lifecycle with a clean-up that tells whether it may be retried |
| `SshSupervisorDecisions.ConnectsExactly` | src/service/live-ssh-service.ts:584-632 | The status is Connected after a turn if and only if a current attempt's last await went well, or it was and nothing ended it |
| `SshSupervisorDecisions.DialledSessionIsUsed` | src/service/live-ssh-service.ts:560-576 | A dialled session becomes the bridge's own if its attempt is still current, and is discarded otherwise |
| `SshSupervisorDecisions.ListenerLeadsOn` | src/service/live-ssh-service.ts:526-606 | The order of a current attempt's awaits, and when it rebuilds the adapter |
| `SshSupervisorTraffic.WaiterIsAnswered` | src/service/live-ssh-service.ts:1220-1265 | A parked connection gets the session that becomes Connected, a refusal if and only if the listener is stopped, its own timeout or its own abort, and goes on waiting at every other turn |
| `SshSupervisorTraffic.ArrivalIsAnswered` | src/service/live-ssh-service.ts:1211-1244 | A new connection gets the Connected session, is refused where none is wanted, and otherwise waits unless it was aborted |
| `SshSupervisorTraffic.ConnectingServesEveryone` | src/service/live-ssh-service.ts:615-627 | Over every run: when the status becomes Connected, every parked connection gets that very session |
| `SshSupervisorTraffic.AttemptBegins` | src/service/live-ssh-service.ts:498-534 | An attempt keeps routing if it is automatic and routing and the listener are up, and of that an adapter that still runs while no rule has changed |
| `SshSupervisorTraffic.RoutingMovesExactly` | src/service/live-ssh-service.ts:498-632 | System routing is applied after a turn if and only if the turn put it up, or it was and the turn did not take it down, by the turns listed |
| `SshSupervisorTraffic.ListenerMovesExactly` | src/service/live-ssh-service.ts:582-586 | The local listener comes up with the one a session opens and is stopped by a teardown or a halt, and by nothing else |
| `SshSupervisorTraffic.TeardownBegins` | src/service/live-ssh-service.ts:919-928 | A current teardown takes the session over; a superseded one only leaves the queue |
| `SshSupervisorTraffic.TeardownGoesOn` | src/service/live-ssh-service.ts:928-941 | A teardown takes routing down, then stops the listener, then closes the session, and then shows Disconnected unless it was overtaken |
| `SshSupervisorTraffic.HoldStartsExactly` | src/service/live-ssh-service.ts:1157-1170 | The clock of a hold starts if and only if a session is lost or an attempt at it fails with routing in force, and no stop of an expired hold is queued |
| `SshSupervisorTraffic.HoldExpires` | src/service/live-ssh-service.ts:1169-1193 | The clock runs out into a queued stop, if no session came back meanwhile and one is still wanted |
| `SshSupervisorTraffic.RulesChangeIsNoticed` | src/service/live-ssh-service.ts:387-391 | The adapter is marked for a rebuild by exactly the updates and applies that find routing in force and no session to change it with, until one is Connected |
| `SshSupervisorTraffic.UpdateIsApplied` | src/service/live-ssh-service.ts:344-384 | A routing update is queued under a new number, and re-applied if it is still the latest and a session and the listener are up |
| `LiveSshService.LiveSshServiceBridge.TakeTurn` | src/service/live-ssh-service.ts:392-1669 | Whatever the turn, the bridge object updated in place is in the state the transition system steps to; one method per function of the source, each with that contract for its part |
| `LiveSshService.Drive` | src/service/live-ssh-service.ts:1394-1429 | Any turns driven through a new bridge object leave it in the run's state, with the supervisor invariant and no stall |
| `XrayHold.PortsAreExclusive` | src/service/xray-service.ts:905-932 | In no run does the bridge have the held inbound ports bound while an Xray child it spawned is alive |
| `XrayHold.HoldHasADeadline` | src/service/xray-service.ts:1006-1045 | While routing is held, undisposed, the hold's own timer is armed or its own stop is queued |
| `XrayHold.HeldPortsAreBound` | src/service/xray-service.ts:865-926 | With no operation pending and no disconnect asked for, routing held on a non-empty endpoint list implies that the ports the bridge has bound are exactly those, and no child is alive |
| `XrayHold.NoChildIsLost` | src/service/xray-service.ts:1404-1434 | Once the queue is quiet the only child alive is the one the bridge tracks |
| `XrayHeldPorts.StepKeepsPorts` | src/service/xray-service.ts:455-656 | Every turn keeps: live children are tracked or about to be ended, clean-ups wait only while nothing is tracked, bound ports exclude a live child, and a handle is on exactly the ports of the hold |
| `XrayHold.StepKeepsHold` | src/service/xray-service.ts:1006-1045 | Every turn keeps the deadline of the hold |
| `XrayHold.StepKeepsCover` | src/service/xray-service.ts:865-926 | Every turn keeps: held endpoints are answered for by the ports the bridge has, a live attempt or a clean-up |
| `XrayNoStall.NeverStalls` | src/service/xray-service.ts:1047-1083 | In every run, while a session is wanted there is a child of its lifecycle, a timer that will start an attempt, or a queued or running attempt or clean-up; or it ended in Error |
| `XrayNoStall.StepNeverStalls` | src/service/xray-service.ts:455-656 | Every turn keeps that, and that work is for a wanted session, one operation to a lifecycle, with no timer beside it |
| `XrayDecisions.FailedAttemptDecides` | src/service/xray-service.ts:626-655 | A restart that fails for an unblocked reason keeps its hold, of the same generation, and takes the held ports back or sets a timer of its lifecycle; any other failed attempt gives held routing back and ends in Error |
| `XrayDecisions.OccupyingDecides` | src/service/xray-service.ts:632-640 | Once the held ports are taken back the timer is set; where they cannot be, routing is taken down first |
| `XrayDecisions.TakenDownDecides` | src/service/xray-service.ts:1377-1402 | After a stopRouting nothing points at an inbound, is bound or is known; a lost hold goes on to its retry and a given-up restart ends in Error |
| `XrayDecisions.CleanupDecides` | src/service/xray-service.ts:888-902 | The clean-up of a stopped child ends it, takes the held ports if it has to, and sets the timer of its lifecycle |
| `XrayDecisions.FailureIsCarried` | src/service/xray-service.ts:626-632 | Whether a failure is blocked and which child it leaves is told by the await that failed, and carried to the end of its clean-up, where that child is ended |
| `XrayDecisions.OvertakenAttemptEnds` | src/service/xray-service.ts:597-612 | An overtaken attempt changes neither status, lifecycle nor timer; it is over at its next await, or once it has ended its own child |
| `XrayDecisions.TeardownBegins` | src/service/xray-service.ts:709-735 | A teardown takes the tracked child over and takes routing down; one overtaken before it began only leaves the queue |
| `XrayDecisions.TeardownGoesOn` | src/service/xray-service.ts:1377-1402 | Routing is down before the held ports are let go, and an attempt, a clean-up and a teardown go on only then: a teardown ends the child it took over and shows Disconnected unless it was overtaken |
| `XrayDecisions.UpdateIsApplied` | src/service/xray-service.ts:354-392 | A routing update is queued as the latest, and applied to the inbounds of a session that is up unless a newer one or another lifecycle came first |
| `XrayDecisions.RetriesExactly` | src/service/xray-service.ts:1047-1069 | Where none is set, a timer is set by exactly these turns |
| `XrayDecisions.AttemptsStart` | src/service/xray-service.ts:1059-1097 | The timer, a wake while it runs and a user Connect queue an attempt of a new lifecycle, a restart but for the last |
| `XrayDecisions.SessionsEnd` | src/service/xray-service.ts:658-754 | What disconnect, dispose, beginDisconnect and clearError end, and which of them queue work |
| `XrayDecisions.ConnectsExactly` | src/service/xray-service.ts:597-625 | The status is Connected after a turn if and only if a current attempt's apply went well, or it was and nothing ended it, a restart for changed rules included |
| `XrayDecisions.HoldsExactly` | src/service/xray-service.ts:1006-1045 | Routing is held after a turn if and only if the turn began a hold, or it was and the turn did not end it, by the turns listed |
| `XrayDecisions.HoldIsForItsInbounds` | src/service/xray-service.ts:850-903 | A new hold is for the inbounds there are, with a clock of its own; one in force keeps its endpoints and its clock |
| `XrayDecisions.AttemptGoesOn` | src/service/xray-service.ts:455-625 | The order of a current attempt's awaits, and what each of them leaves: ports taken, released and reserved, the child on the ports reserved for it |
| `XrayDecisions.AttemptBegins` | src/service/xray-service.ts:455-486 | A restart takes held routing over as it is; any other attempt takes routing down first |
| `XrayStatus.StepShowsExactly` | src/service/xray-service.ts:642-655 | After a turn an attempt of the current lifecycle shows as Connecting, if and only if the turn was not the end of a restart that gave up and had been overtaken by it |
| `XrayStatus.AttemptsShow` | src/service/xray-service.ts:433-453 | In every run without such a turn an attempt under way shows as Connecting |
| `XrayStatus.AttemptCanShowError` | src/service/xray-service.ts:642-655 | A concrete run in which an attempt gets as far as applying routing with the status at Error |
| `XrayRouting.StepAlignsExactly` | src/service/xray-service.ts:604-629 | After a turn, what points at an inbound points at the held ports or at Xray's own, if and only if the turn was not the end of an attempt that takes held routing over with routing on ports other than it leaves behind: the held ones if it failed or was overtaken, its own if it came up |
| `XrayRouting.MisdirectsOnlyElsewhere` | src/service/xray-service.ts:520-530 | While such an attempt applies routing, it can still end that way if and only if its ports are not among the held ones, or it is current and routing is not on its ports |
| `XrayRouting.KeptPortsNeverMisdirect` | src/service/xray-service.ts:520-530 | A run in which every restart gets the held ports back has no such turn |
| `XrayRouting.AlignedMeansAnswered` | src/service/xray-service.ts:865-926 | In a quiet hold, routing points at ports the bridge itself has if and only if it points at the hold's |
| `XrayRouting.HeldRoutingIsAnswered` | src/service/xray-service.ts:905-926 | In every run without such a turn, routing held in quiet points only at ports the bridge itself has |
| `XrayRouting.RoutingCanBeMisdirected` | src/service/xray-service.ts:865-902 | A concrete run after which the bridge has ports 1 and 2 and held routing points at port 4, which nobody has |
| `XrayService.XrayServiceBridge.TakeTurn` | src/service/xray-service.ts:415-1434 | Whatever the turn, the bridge object updated in place is in the state the transition system steps to; one method per function of the source, each with that contract for its part |
| `XrayService.Drive` | src/service/xray-service.ts:905-932 | Any turns driven through a new bridge object leave it in the run's state, with the ports exclusive |
| `WindowsDnsCache.ReadRows` | src/core/network/windows-dns-cache.ts:176-213 | The row loop keeps the best TTL of each requested address record and of each CNAME edge among the first 16,384 rows |
| `WindowsDnsCache.DirectIsBest` | src/core/network/windows-dns-cache.ts:191-202 | A kept address record is one of the rows', for a requested address, with the greatest TTL |
| `WindowsDnsCache.EdgesAreBest` | src/core/network/windows-dns-cache.ts:204-212 | A kept edge is one of the rows', not a self-loop, with the greatest TTL |
| `WindowsDnsCache.BuildReverseCnameEdges` | src/core/network/windows-dns-cache.ts:255-270 | The reverse index lists, for each name, its first 64 aliases in the order given |
| `WindowsDnsCache.AliasesWithinCap` | src/core/network/windows-dns-cache.ts:262-267 | As many aliases are kept as there are, up to 64, and only real ones |
| `WindowsDnsCache.KeptIfAmongFirst` | src/core/network/windows-dns-cache.ts:262-267 | An edge is kept if and only if fewer than 64 aliases of its name come before it in the sort |
| `WindowsDnsCache.AllAliasesKept` | src/core/network/windows-dns-cache.ts:262-267 | Where a name has at most 64 aliases, none is lost |
| `WindowsDnsCache.ResolvedEntries.RecordResolved` | src/core/network/windows-dns-cache.ts:272-295 | An entry is raised, added where both caps leave room, or refused; per-address counts stay exact and both caps hold |
| `WindowsDnsCache.Visit` | src/core/network/windows-dns-cache.ts:231-248 | One frontier entry: afterwards no alias of its name can be improved from it, unless a cap refused one |
| `WindowsDnsCache.Round` | src/core/network/windows-dns-cache.ts:229-250 | One level of the search, whatever order the frontier is walked in |
| `WindowsDnsCache.Resolve` | src/core/network/windows-dns-cache.ts:215-252 | Each entry is worth a chain of at most `limit` edges; all reachable names are present if and only if they fit under the caps, and then each entry is worth at least every such chain, cycles included |
| `WindowsDnsCache.ParseWindowsDnsCacheEntries` | src/core/network/windows-dns-cache.ts:154-253 | The same from the rows, over the first 64 aliases of every name in the order of the sort, and over all edges where no name has more; every entry is witnessed by a chain of real edges and both caps hold |
| `WindowsDnsCache.ListEntries` | src/core/network/windows-dns-cache.ts:229-250 | The same with the source's depth of eight |
| `WindowsDnsCache.EntriesAreBestChains` | src/core/network/windows-dns-cache.ts:204-253 | Where the reachable names fit under the caps, an entry's TTL is exactly the maximum over alias chains of the minimum TTL along the chain |
| `WindowsDnsCache.ReachHasChains` | src/core/network/windows-dns-cache.ts:229-250 | Every name the level sets hold ends a chain of that many edges |
| `HttpBodyFraming.FeedSplit` | src/core/network/socks5-proxy.ts:1031-1101 | Feeding two pieces is feeding their concatenation |
| `HttpBodyFraming.FeedBody` | src/core/network/socks5-proxy.ts:1031-1101 | Every well-formed chunked body is eaten whole and completes the gate at its last byte |
| `HttpBodyFraming.BodyInside` | src/core/network/socks5-proxy.ts:1031-1101 | Whatever completes the gate begins with a well-formed chunked body, found by parsing it back |
| `HttpBodyFraming.CompletesExactlyOnBodies` | src/core/network/socks5-proxy.ts:1031-1101 | A prefix of the data is a chunked body if and only if the gate completes after exactly that prefix |
| `HttpBodyFraming.BodiesArePrefixFree` | src/core/network/socks5-proxy.ts:1031-1101 | No chunked body is a proper prefix of another |
| `HttpBodyFraming.RefusedIsNoBody` | src/core/network/socks5-proxy.ts:1042-1088 | Refused data neither begins with a chunked body nor begins one |
| `HttpForwardBody.CuttingMakesNoDifference` | src/core/network/socks5-proxy.ts:1013-1101 | However a stream is cut, the same bytes are forwarded and left over, with the same completion, or the same error |
| `HttpForwardBody.ForwardsExactlyTheBody` | src/core/network/socks5-proxy.ts:1013-1101 | Forwarded and left-over bytes are the data; what is forwarded is the one complete body that begins it if the gate is complete, and none does if it is not or refused the data |
| `HttpSizeLine.SizeOfExactly` | src/core/network/socks5-proxy.ts:1080-1088 | The split, trim and parse of a size line give a size if and only if the line is padding, hex digits of that value, padding and nothing or a semicolon and anything; each error if and only if it has no such form, or a larger value |
| `HttpSizeLine.HexDigitsExactly` | src/core/network/socks5-proxy.ts:1080-1088 | The digits of a size are the hex digits of ASCII in either case, each worth its place among them |
| `HttpSizeLine.SizeReadsBack` | src/core/network/socks5-proxy.ts:1080-1088 | Every size that can be counted, printed in base sixteen, is read as it was |
| `HttpBodyStandard.StandardBodiesExactly` | src/core/network/socks5-proxy.ts:1031-1101 | A chunked body of section 7.1 of RFC 9112, extensions and trailer fields included, is a body for the gate if and only if its lines, sizes and trailers are within the gate's limits |
| `HttpBodyStandard.ForwardsStandardBodies` | src/core/network/socks5-proxy.ts:1013-1101 | However it is cut, such a body within the limits is forwarded exactly and what follows it is left over |
| `HttpBodyStandard.StandardSizeLineExactly` | src/core/network/socks5-proxy.ts:1080-1083 | A size line the gate takes is one of the standard if and only if nothing is before its digits and what follows them is a list of chunk extensions |
| `HttpBodyStandard.StandardExactlyByItsLines` | src/core/network/socks5-proxy.ts:1067-1094 | A body the gate forwards is one of the standard if and only if all its size lines and trailer lines are |
| `HttpBodyStandard.TakesMoreThanTheStandard` | src/core/network/socks5-proxy.ts:1067-1083 | Three padded size lines and a trailer with no field name that the gate takes and the standard does not |
| `HttpForwardBody.HttpForwardBodyGate.constructor` | src/core/network/socks5-proxy.ts:1007-1011 | A new gate for the framing the headers described |
| `HttpForwardBody.HttpForwardBodyGate.Consume` | src/core/network/socks5-proxy.ts:1013-1030 | Each call forwards, leaves over and changes the gate as the bytewise automaton says, or refuses with its error |
| `HttpForwardBody.HttpForwardBodyGate.ConsumeChunked` | src/core/network/socks5-proxy.ts:1031-1101 | The chunked loop, chunk data taken in bulk, agrees with the bytewise automaton |
| `HttpForwardBody.HttpForwardBodyGate.ConsumeByte` | src/core/network/socks5-proxy.ts:1042-1094 | A byte outside chunk data: line and trailer limits, size lines and line ends |
| `HttpForwardBody.Forward` | src/core/network/socks5-proxy.ts:1013-1101 | A gate run over pieces forwards exactly one body |
| `HttpForwardBodySpec.FramedExactlyWhenUnambiguous` | src/core/network/socks5-proxy.ts:913-954 | Each framing is described if and only if the headers leave that reading only: never both header fields, all lengths the same decimal text, and chunked as the last transfer coding that is not blank |
| `HttpForwardBodySpec.RefusedExactly` | src/core/network/socks5-proxy.ts:913-950 | Headers with none of those readings are refused, each for its reason exactly |
| `HttpForwardBodySpec.DescribedIsValid` | src/core/network/socks5-proxy.ts:950-954 | What is described is what the gate is made for |
| `FlowControl.ClampsNeverFire` | src/core/network/socks5-proxy.ts:299-313 | In every run the total is the sum of the connections' queues and each queue counter the sum of its writes, so no clamp at zero is ever needed |
| `FlowControl.QueuedIsUnacknowledged` | src/core/network/direct-tcp-channel.ts:86-97 | Queued bytes, less a write just acknowledged, are at most the unacknowledged ones, which stay below the window plus one chunk |
| `FlowControl.NeverLeftPaused` | src/core/network/direct-tcp-channel.ts:120-130 | A channel with at most half its window outstanding is reading; one with its window used up is paused |
| `FlowControl.CutOffIsUnreachable` | src/core/network/socks5-proxy.ts:295-298 | No socket-backed connection is ever cut off by the 16 MiB queue limit, for chunks of up to 7 MiB |
| `FlowControl.StepKeeps` | src/core/network/socks5-proxy.ts:284-319 | Every event of any connection keeps the accounting and the window invariant |
| `FlowControl.DataIsQueuedExactly` | src/core/network/socks5-proxy.ts:291-302 | Data of a live connection is queued if and only if its own limit and the total one leave room for all of it; else its socket is given up and nothing is queued |
| `FlowControl.TotalIsLimited` | src/core/network/socks5-proxy.ts:299-302 | In no run is more queued over all connections than the total limit |
| `FlowControl.WriteLeavesQueue` | src/core/network/socks5-proxy.ts:303-313 | A write that settles leaves both counters by its length; one written lowers the window's count, and reading resumes at half |
| `FlowControl.OpensAreLimited` | src/core/network/socks5-proxy.ts:491-505 | An open is admitted if and only if fewer than the limit are pending, and released once |
| `FlowControl.Socks5Proxy.ChannelData` | src/core/network/direct-tcp-channel.ts:86-97 | The data handler: window, pause, then the queue |
| `FlowControl.Socks5Proxy.EnqueueSocketWrite` | src/core/network/socks5-proxy.ts:291-302 | enqueueSocketWrite up to the write |
| `FlowControl.Socks5Proxy.AcknowledgeData` | src/core/network/direct-tcp-channel.ts:120-130 | acknowledgeData for the write just done |
| `FlowControl.Socks5Proxy.WriteSettled` | src/core/network/socks5-proxy.ts:310-313 | Both counters go down by the settled write |
| `FlowControl.Socks5Proxy.AcquirePendingChannelOpen` | src/core/network/socks5-proxy.ts:491-497 | A pending open is admitted below the limit only |
| `FlowControl.Socks5Proxy.ReleasePendingOpen` | src/core/network/socks5-proxy.ts:498-505 | Releasing is counted once |
| `FlowControl.Drive` | src/core/network/socks5-proxy.ts:284-319 | Any events driven through a new proxy object leave it in the run's state, with its total the sum of the queues |
| `IpAddress.ParseIpv4` | src/core/routing/ip-address.ts:213-232 | The octet loop computes the value of a dotted literal, or refuses it |
| `IpAddress.ParseIpv6` | src/core/routing/ip-address.ts:234-266 | The group loop computes the value of an IPv6 literal, or refuses it |
| `IpAddress.ParseIpv6Groups` | src/core/routing/ip-address.ts:268-286 | The groups of one side of a `::` |
| `IpAddress.FormatIpv6` | src/core/routing/ip-address.ts:288-315 | The scan and the printer compute the shortest form |
| `IpAddress.FindZeroRun` | src/core/routing/ip-address.ts:292-308 | The scan finds the leftmost of the longest runs of at least two zero groups |
| `IpAddress.BestRunIsLeftmostLongest` | src/core/routing/ip-address.ts:292-308 | The run left out is the leftmost longest (section 4.2.3 of RFC 5952) |
| `IpAddressText.Ipv4RoundTrip` | src/core/routing/ip-address.ts:73-75 | parseIpv4(formatIpv4(v)) = v for every 32-bit v |
| `IpAddressText.Ipv4TextIsUnique` | src/core/routing/ip-address.ts:213-232 | formatIpv4(parseIpv4(s)) = s for every accepted s |
| `IpAddressText.Ipv6RoundTrip` | src/core/routing/ip-address.ts:234-315 | parseIpv6(formatIpv6(v)) = v for every 128-bit v |
| `IpAddressText.ReadWithoutRun` | src/core/routing/ip-address.ts:234-266 | An address reads back whichever run of two or more zero groups its text leaves out |
| `IpAddressText.Ipv6TextIsShortest` | src/core/routing/ip-address.ts:288-315 | The printed text leaves out the leftmost longest run of zero groups, of length at least two, or nothing |
| `IpAddressText.IpRoundTrip` | src/core/routing/ip-address.ts:19-28 | parseIpAddress reads back every printed address of either version |
| `IpAddressText.ParsedIsValid` | src/core/routing/ip-address.ts:19-28 | Whatever is parsed fits its version's width |
| `IpLiterals.Ipv6TextsExactly` | src/core/routing/ip-address.ts:234-286 | A text is read as eight groups if and only if it spells them: eight groups of one to four hex digits, or fewer around one double colon that stands for zeros |
| `IpLiterals.Ipv6IgnoresCase` | src/core/routing/ip-address.ts:268-286 | Case makes no difference to an IPv6 literal |
| `IpLiterals.RangeIgnoresCase` | src/core/routing/ip-address.ts:179-202 | ... nor to a range, its address of either version |
| `CidrRanges.UnmappingKeepsTheAddress` | src/core/routing/ip-address.ts:78-84 | Unmapping a host never changes the address parseIpAddressUnmapped reads, and unmapping twice is unmapping once |
| `MappedAddresses.MappedInHex` | src/core/routing/ip-address.ts:51-63 | An IPv4-mapped literal spelled in hex is read as the IPv4 address it carries |
| `MappedAddresses.MappedInDots` | src/core/routing/ip-address.ts:51-71 | ... and so is one with a dotted tail |
| `MappedAddresses.BracketsMakeNoDifference` | src/core/routing/ip-address.ts:51-63 | An address is read the same in brackets, where it has none of its own |
| `MappedAddresses.CaseMakesNoDifference` | src/core/routing/ip-address.ts:51-63 | ... and in any case |
| `CidrRanges.MaskClears` | src/core/routing/ip-address.ts:317-322 | The mask clears exactly the bits after the prefix |
| `CidrRanges.ParsedRangeIsMasked` | src/core/routing/ip-address.ts:179-202 | Every parsed range has its host bits cleared |
| `CidrRanges.RangeRoundTrip` | src/core/routing/ip-address.ts:164-202 | parseCidrRange(formatCidrRange(r)) = r for every masked range |
| `CidrRanges.OverlapMeansSharedAddress` | src/core/routing/ip-address.ts:149-162 | A rule overlaps the local destinations if and only if some address matches both it and a local range |
| `LocalRanges.LocalRangesParse` | src/core/routing/ip-address.ts:99-118 | Every built-in local range parses |
| `LocalRanges.OverlapIsWithABuiltInRange` | src/core/routing/ip-address.ts:149-162 | The same, range by range of the ten built in, each of which parses |
| `CidrRanges.Ipv4ValidatorAgrees` | src/shared/validation.ts:171-185 | isValidIpv4 and parseIpv4 accept the same strings |
| `CidrRanges.Ipv6ValidatorAgrees` | src/shared/validation.ts:188-212 | isValidIpv6 and parseIpv6 accept the same strings |
| `CidrRanges.AcceptedRulesParse` | src/shared/validation.ts:91-127 | Every IP rule validateIpOrCidr accepts is parsed by parseCidrRange |
| `CidrRanges.AcceptedRulesExactly` | src/shared/validation.ts:91-127 | Of the texts read as ranges, the rules are those with at most one slash, nothing to trim before it and a plain decimal prefix after it |
| `PortRanges.MergePortRanges` | src/core/proxy/hysteria2-link.ts:311-325 | The loop computes the merged list, or refuses one of more than 64 ranges |
| `PortRanges.MergedCoversTheSame` | src/core/proxy/hysteria2-link.ts:311-325 | Merging keeps the exact set of ports, in ascending ranges with a gap between neighbours |
| `PortRanges.NormalFormIsUnique` | src/core/proxy/hysteria2-link.ts:310-325 | A set of ports has one such list |
| `PortRanges.MergingDependsOnPortsOnly` | src/core/proxy/hysteria2-link.ts:310-325 | Two lists merge alike if and only if they cover the same ports, whatever their order, overlap and repetition |
| `PortRanges.MergedIsFixed` | src/core/proxy/hysteria2-link.ts:310-325 | A merged list is left as it is |
| `PortRanges.ReadFormatted` | src/core/proxy/hysteria2-link.ts:288-308 | readPortList(formatPortList(m)) = m for every merged m within the cap |
| `PortRanges.ReadItemExactly` | src/core/proxy/hysteria2-link.ts:294-307 | An item is read as a range if and only if it is written as one: a port of one to five digits, or its two ends in either order around a hyphen, white space anywhere between |
| `PortRanges.ReadListExactly` | src/core/proxy/hysteria2-link.ts:288-308 | A list of at most 256 items is read item by item in the order written, or refused as a whole |
| `PortRanges.ReadRangesAreGood` | src/core/proxy/hysteria2-link.ts:288-308 | Whatever is read is in order |
| `PortRanges.SeveralPorts` | src/core/proxy/hysteria2-link.ts:331-334 | coversSeveralPorts holds if and only if the set has two different ports |
| `RoutingRules.RoutingMatcher.constructor` | src/core/routing/routing-matcher.ts:53-95 | The maps, the list and the counters index exactly the given rules |
| `RoutingRules.RoutingMatcher.AddRule` | src/core/routing/routing-matcher.ts:53-95 | One rule: first-wins entry, IP range, process or invalid |
| `RoutingRules.RoutingMatcher.MatchDomain` | src/core/routing/routing-matcher.ts:163-179 | The label walk finds the earliest enabled valid domain rule that covers the host |
| `RoutingRules.WalkLabels` | src/core/routing/routing-matcher.ts:163-179 | Once every dot has been passed, the entry is the earliest rule among all names looked up |
| `RoutingRules.FirstForHostAt` | src/core/routing/routing-matcher.ts:46-52 | The linear answer is the covering rule no earlier rule precedes |
| `RoutingRules.ViaAllDots` | src/core/routing/routing-matcher.ts:163-179 | The names after a host's dots are exactly those whose rules cover it: plain rules its own name too, wildcard rules not |
| `RoutingRules.RoutingMatcher.MatchIp` | src/core/routing/routing-matcher.ts:120-126 | The earliest IP rule whose range has the address |
| `RoutingRules.RoutingMatcher.MatchDestination` | src/core/routing/routing-matcher.ts:110-128 | A domain rule before an IP rule, as in the linear scan |
| `RoutingRules.RoutingMatcher.MatchProcess` | src/core/routing/routing-matcher.ts:131-135 | The earliest process rule, as in the linear scan |
| `RoutingRules.RoutingMatcher.Match` | src/core/routing/routing-matcher.ts:102-107 | Every answer of the index is the answer of the linear scan |
| `RoutingRuleTexts.FirstRuleDecides` | src/core/routing/routing-matcher.ts:97-149 | For every destination the first domain rule that covers its name decides; without one, the first IP rule that covers its address; without one, the first process rule; without one, the mode and whether any rule is in force |
| `RoutingRules.ActiveIpParses` | src/core/routing/routing-matcher.ts:80-88 | A valid IP rule always parses, so the second invalid count is never reached |
| `RoutingRuleTexts.DomainRulesExactly` | src/shared/validation.ts:68-89 | A domain rule is in force for a name, and with or without a *. before it, if and only if that is what is typed, in any case and with white space around it, and the name is two or more labels of letters, digits and inner hyphens within the lengths |
| `RoutingRuleTexts.ProcessRulesExactly` | src/shared/validation.ts:141-156 | A process rule covers exactly the program it names, in any case, if the name is one and not a path |
| `RoutingRuleTexts.IpRulesExactly` | src/core/routing/routing-matcher.ts:80-88 | An IP rule covers the addresses of the range its value is read as, white space or none |
| `RoutingRuleTexts.FirstForIpAt` | src/core/routing/routing-matcher.ts:121-127 | The linear answer of the IP rules is the covering rule no earlier rule precedes |
| `RoutingRuleTexts.FirstForProcessAt` | src/core/routing/routing-matcher.ts:131-136 | The same for process rules |
| `RoutingRuleTexts.InvalidOneByOne` | src/core/routing/routing-matcher.ts:61-64 | Exactly the enabled rules that are not valid are counted as invalid, each once |
| `BoundedHistory.KeptIsLongestSuffix` | src/shared/terminal-history.ts:53-66 | What is kept is the longest suffix under both caps |
| `BoundedHistory.AcceptedExactly` | src/shared/terminal-history.ts:37-50 | Exactly the items of at most the byte cap pass, each as often as it comes and in order |
| `BoundedHistory.BoundedLog.TrimFront` | src/shared/terminal-history.ts:58-66 | Dropping from the front computes it, and the running total stays right |
| `BoundedHistory.BoundedLog.TrimExistingHistory` | src/shared/terminal-history.ts:69-83 | Collecting from the back computes it too |
| `BoundedHistory.BoundedLog.TotalOf` | src/shared/terminal-history.ts:53-57 | A cached total is the sum recomputed |
| `BoundedHistory.BoundedLog.AppendLines` | src/shared/terminal-history.ts:25-67 | A batch of lines, oversized ones dropped; every cached total stays exact |
| `BoundedHistory.BoundedLog.AppendEntries` | src/shared/diagnostics-history.ts:60-97 | A batch of diagnostics; every cached total stays exact |
| `BoundedHistory.BatchIsOneByOne` | src/shared/terminal-history.ts:12-67 | A non-empty batch is appended as its lines would be one at a time, oversized lines included |
| `BoundedHistory.AppendedExactly` | src/shared/terminal-history.ts:25-67 | A batch leaves the newest of the history and its own small enough items under both caps; an empty one leaves the history, and caps with no room nothing |
| `Histories.AppendBoundedTerminalLines` | src/shared/terminal-history.ts:25-67 | The same for terminal lines |
| `Histories.AppendBoundedDiagnosticEntries` | src/shared/diagnostics-history.ts:60-97 | Normalised entries, the longest suffix under both caps |
| `Histories.EntriesInBatches` | src/shared/diagnostics-history.ts:60-97 | Two batches of diagnostics leave what one batch of both leaves |
| `Histories.EntriesAreNewest` | src/shared/diagnostics-history.ts:60-97 | Diagnostics leave the newest of what there was and the normalised entries small enough, on an empty batch too |
| `Histories.TotalIsText` | src/shared/diagnostics-history.ts:99-101 | The total of diagnostics is the length of their text in UTF-8 and sixteen bytes more for each |
| `Histories.NormalizedIsFixed` | src/shared/diagnostics-history.ts:22-38 | Normalising twice changes nothing more, and no normalised entry is too large for the default history |
| `Histories.NormalizedKeeps` | src/shared/diagnostics-history.ts:22-38 | Each field is kept as it is within its limit, and cut to its longest beginning otherwise; an unknown source goes |
| `Utf8.Utf8ByteLength` | src/shared/terminal-history.ts:85-106 | The loop computes the UTF-8 length of UTF-16 text |
| `Utf8.TruncateUtf8` | src/shared/diagnostics-history.ts:103-125 | The loop computes the truncated text |
| `Utf8.TruncatedFits` | src/shared/diagnostics-history.ts:103-125 | The result has at most maxBytes bytes, for any marker, and is the text itself if and only if that fits |
| `Utf8.TruncatedIsPrefix` | src/shared/diagnostics-history.ts:103-125 | Otherwise it is the longest prefix of whole characters that leaves room, with the marker where the marker fits |
| `Utf8.BoundarySplitsNoPair` | src/shared/diagnostics-history.ts:127-142 | Such a prefix never splits a surrogate pair |
| `Utf8.CharacterAt` | src/shared/diagnostics-history.ts:127-142 | The bytes and width of the character at an index |
| `Utf8.EncodedIsShortest` | src/shared/terminal-history.ts:85-106 | A character takes the fewest bytes its code point needs, and they decode to it |
| `Utf8.PairsExactly` | src/shared/diagnostics-history.ts:127-142 | A character is two units wide if and only if they are the surrogate pair of a number beyond sixteen bits; any other surrogate counts as a replacement character |
| `Utf8.LengthIsEncoded` | src/shared/terminal-history.ts:85-106 | The length counted is that of the text encoded in UTF-8 |

## Left out

- Cryptography, sockets, child processes, PowerShell, JSON decoding, the dataplane and the user interface: their outcomes are the events and outcomes of the turns.
- `ParseWindowsDnsCacheEntries`: takes decoded rows; the JSON decoding, the normalising of names and addresses and the 4 MiB output limit come before it. The order the locale sorts the edges in is a parameter.
- `Resolve`: keys are (address, name) pairs, which is what the NUL-joined strings are as long as no name holds a NUL; a valid name does not.
- `RoutingNeverStranded`: holds for runs without the turn found above; `StepCoversExactly` gives the exact condition, turn by turn.
- `AutomaticAttemptsAreSpaced`: assumes that a timer fires no earlier than it is due on the wall clock the code reads, and a clock that never steps back.
- `AtMostTwoRejections`: counts the rejections the bridge was told of since the last user Connect or session; a rejection of a superseded attempt is counted by the system but not by the bridge's own counter.
- `LiveSshServiceBridge`: aborting a dial or an adapter start is one of the outcomes an attempt may have; whether the adapter is up is an input of the turn; request contents, messages, the terminal, process-route refreshes and the stall report's once-only flag are not modelled. The fields are grouped in records.
- `applySystemRouting` and `applyTunRouting`: only their effect on what is applied, with success, failure or being overtaken at their awaits.
- `HeldRoutingIsAnswered`: holds for runs without the turn found above; `StepAlignsExactly` gives the exact condition, turn by turn.
- `StepAlignsExactly`: an endpoint is its port, the host being always the loopback address; `applySystemRouting` may move, leave or take down what points at an inbound at any of its awaits, but `stopRouting` succeeds in taking it down, as the sources assume by swallowing its errors. A refresh of the process routes points at the inbounds there are, and is left out.
- `StepKeepsPorts`: `terminateProcess` and releasing the held ports succeed, as the sources assume by swallowing their errors; a child that outlives its termination is outside the model.
- `XrayServiceBridge`: an Xray failure is reported for the child and lifecycle its listeners were registered for; whether the rules Xray reads at start changed on the proxy path is an input of the turn.
- `HttpForwardBodyGate`: the fields of a gate that refused its data are not described; the proxy destroys the connection.
- `DescribeHttpForwardBody`: takes the Content-Length values and the Transfer-Encoding value of the parsed header lines; header parsing is not modelled.
- `CutOffIsUnreachable`: channels backed by a socket, with a positive window; a chunk is not empty and arrives only while the channel is not paused. The SSH channel's own window is not part of this model.
- `parseHostPort`, `parsePort` and the SOCKS handshakes: easy beside the body gate.
- `RangeOf`: JavaScript's `Number` on text that is not a decimal numeral is a parameter; on numerals it is their value. Values beyond what a double holds exactly are out of range either way.
- `RangeIgnoresCase`: assumes that the number reader ignores case, as `Number` does on everything but Infinity, which is no prefix length.
- `StepShowsExactly`: what `applySystemRouting` then does with the status it finds is not modelled.
- `ToLower`: the capitals and the Kelvin sign, which is a k in lower case; no other character is lower-cased into what an address, a name or a rule may hold.
- `canonicalizeIpAddress` and `ipAddressKey`: not idempotent on hex-spelled mapped addresses by design, so nothing is claimed of them.
- `RoutingMatcher`: `summary` and the traffic policy around the matcher; the counters it returns are described by the class invariant.
- `ReadPortList`: a list of more than 256 items is refused before merging, as in the source; the messages are not modelled.
- `BoundedLog`: a history array is never changed after it was made, which the sources' readonly types say and nothing enforces. An empty batch returns the lines untrimmed, as the code does, although its name promises a bound.
- `TruncateUtf8`: `maxBytes` is an integer; the source returns the empty text for one that is not a safe integer.
- Diagnostic wording, rate limits, secret redaction and the classification of errors: error classes are an enumeration.
