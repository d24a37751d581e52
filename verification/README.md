# Fiber Arena, verified

A Dafny model of a two-player arena whose damage is paid for in hold invoices. The server reserves
an invoice for every bucket of damage either player may take, the match starts once all of them are
held, every hit releases the preimages it pays for, and what is left is cancelled at the end. The
project models that protocol from the first offer to the last cancellation, the matchmaker that
starts the servers, the binary files the model build writes, and two pieces of movement code the
server and the clients share, and proves what they keep over every run.

Four groups of modules:

* **Settlement.** `Settlement` is the ledger as a value and what each call does to it; `Coordinator`
  is the object the server holds, updated in place and proved against those functions. `Accounting`
  is what every history of calls keeps; `Histories`, `Runs` and `Handshake` draw the conclusions.
  `Guard` is the payee's check of every release, `Agreement` shows that it counts what the
  coordinator charges. `Sim` and `SimRuns` are the harness simulation. `Server` is the server loop as
  a function of everything that reaches it, `ArenaServer` the loop itself over the two objects it
  owns; `ServerRuns`, `Matches`, `Addresses`, `Deliveries`, `Traces`, `EndToEnd` and `Deaths` are
  about whole runs, and `Shortfall` is one run from the boot to a death.
* **Matchmaking.** `Rooms` is each request as a function of the room map and the live processes,
  `Matchmaker` the state object and the service around it, `RoomRuns` every interleaving of
  requests, joins and processes, `Orphans` and `Ports` the same with nothing supposed of them.
* **Files.** `Checksums`, `Png` and `Glb`, each writer against a reader written from the standard it
  follows (RFC 1950 section 2.2, RFC 1951 sections 3.2.3 and 3.2.4, PNG section 5.3, glTF 2.0
  section 4.4).
* **Movement.** `Devmap` (obstacles of the flat arena) and `Predictor` (client prediction).

`Protocol`, `Binary`, `Wrappers`, `Sequences` and `Arithmetic` are shared. `dafny verify
dfyconfig.toml` checks everything.

How the source's forms are kept: an object is a class with the same fields, a loop is a loop with
invariants, and each method's postcondition equates the new state with a function of the old one;
the theorems are about those functions, so they hold of the object. Ed25519, SHA-256 and the state
hash are uninterpreted, with the one law that a key's own signature verifies. Random preimages,
tickets and room codes, the clock, the network's events and packets, and what `try_wait` answers are
arbitrary inputs.

Facts about the code that a reader may not expect, each modelled as written:

* A failure report of stage Funded or Received marks a reservation failed from any status, even a
  released or settled one. Totals are therefore tied to the log of releases, not to statuses.
* A damage report that runs out of held reservations has already signed releases and changed state,
  and then returns none of them. `Agreement.GuardAgrees` says by exactly how much payer and payee
  differ afterwards.
* The payee's guard marks an id processed before it looks at the cap; `Guard.GuardTotalIsExact` shows
  the cap check never refuses anything.
* When any hit of the tick that reports a death is refused payment, whether the hit that kills or one
  before it, the simulation's ended phase is overwritten with payment-paused; the loop's own `ended`
  flag is what stays. `Deaths.DeathPhase` gives the exact condition on the books before the tick,
  `Deaths.DeathIsPausedExactly` the one on the configuration, and `Shortfall.KilledInArrears` a run
  from the boot, without any failure, that ends so.
* Splitting a damage report in two can change the books, by saturation at 16 bits or by a refusal;
  `Histories.SplitIsExact` says exactly when.
* A player may leave a room whose server is still starting. The room is failed, its endpoint handed
  to the next room, and the late server then marks the room ready again
  (`RoomRuns.LeavingSharesAnEndpoint`); `Ports.ExclusiveExactly` says exactly which runs share a port,
  and `Ports.HealthIsExact` when the health report then promises fewer endpoints than there are.
* A room code drawn again while a join for it is in flight makes the second server's process replace
  the first's (`RoomRuns.ReusedCodeForgetsAChild`, `RoomRuns.ReadyConserves`).
* An image without rows gets a zlib stream with no DEFLATE block, which no reader accepts.
* The client does not refuse a snapshot older than one already applied
  (`Predictor.LateSnapshotLosesInputs`, `Predictor.ReconcileIsExact`).
* Where the nearest two exits of an obstacle are opposite each other, both halves of the arena push
  the same way (`Devmap.PillarCentreIsTied`, `Devmap.HalfTurn`).

## Model

| member | source | states |
|---|---|---|
| `Coordinator.SettlementCoordinator.constructor` | src/settlement.rs:70-148 | a new coordinator is the fresh book: ids are positions, A's reservations before B's, every term carries the hash of its own preimage |
| `Coordinator.SettlementCoordinator.ValidateReference` | src/settlement.rs:381-395 | the first of match, id and hash that is wrong, in that order |
| `Coordinator.SettlementCoordinator.RegisterInvoiceOffer` | src/settlement.rs:168-195 | an accepted offer goes to the payee's opponent; a refused one leaves the whole book as it was |
| `Coordinator.SettlementCoordinator.Acknowledge` | src/settlement.rs:197-274 | the exact error of every refused acknowledgement, which changes nothing, and the exact new book otherwise |
| `Coordinator.SettlementCoordinator.RecordFailure` | src/settlement.rs:276-303 | only the reporter of a stage may fail it; funding and receipt failures mark the reservation, from any status |
| `Coordinator.SettlementCoordinator.CheckAllHeld` | src/settlement.rs:305-311 | true exactly when there are reservations and each is held |
| `Coordinator.SettlementCoordinator.RecordDamage` | src/settlement.rs:313-365 | the loop releases exactly the batch of the specification, keeps it even when it reports the cap, and keeps every accounting invariant |
| `Coordinator.SettlementCoordinator.ReleaseAt` | src/settlement.rs:337-362 | one signed release with the next sequence number, and the victim's account after it |
| `Coordinator.SettlementCoordinator.CancelUnused` | src/settlement.rs:367-379 | hands out exactly the terms of the offered and held reservations, in order, and marks exactly those |
| `Accounting.StepIsSound` | src/settlement.rs:168-379 | every call with any arguments keeps: ids logged once, totals equal to the log, faithful signed releases, released and cancelled disjoint |
| `Accounting.RunIsSound` | src/settlement.rs:168-379 | the same over every history of calls |
| `Accounting.ChargedWithinCap` | src/settlement.rs:355-358 | what is charged to one payer never exceeds the cap |
| `Histories.RecordDamageExact` | src/settlement.rs:322-363 | with s owed and h held: refused iff s / bucket > h; pays the first s / bucket held ids and keeps s % bucket, or pays all h and keeps s - h * bucket, at least a bucket |
| `Histories.RecordDamageFrame` | src/settlement.rs:322-363 | the other player's remainder, total and held reservations are untouched; the victim's unpaid ones stay held in order |
| `Histories.SplitDamage` | src/settlement.rs:313-365 | below saturation and the cap, two reports in a row leave the same book, releases included, as one report of their sum |
| `Histories.SplitIsExact` | src/settlement.rs:313-365 | for any two parts: the books agree iff the first owes no whole bucket, or the whole is not refused and stays within 16 bits or has no second part |
| `Histories.LeftIsRemainder` | src/settlement.rs:324-337 | the subtraction loop leaves the remainder of the division |
| `Runs.NewIsFresh` | src/settlement.rs:70-148 | the constructor's book satisfies every accounting invariant and has logged nothing |
| `Runs.EveryHistoryBalances` | src/settlement.rs:70-379 | over every history: no id released twice, sequence numbers 1, 2, 3, ..., preimages hash to their terms, totals are amount times releases and within the cap, no addition reaches its limit |
| `Runs.IssuedAtMostOnceEach` | src/settlement.rs:328-361 | no more releases than reservations, with distinct ids |
| `Runs.StatusOnlyRises` | src/settlement.rs:168-379 | any call keeps a status or raises its rank, and never changes a stored invoice |
| `Runs.AtMostFiveChanges` | src/settlement.rs:168-379 | a history changes a reservation's status at most five times |
| `Handshake.HandshakeState` | src/settlement.rs:168-274 | after any offers and acknowledgements, valid or not, a reservation shows exactly the offer it got and the acknowledgements that followed one |
| `Handshake.AllHeldExactlyWhenComplete` | src/settlement.rs:168-311 | every reservation is held if and only if each had its payee's offer followed, in either order, by the payer's and the payee's acknowledgement |
| `Handshake.HeldIsAccounted` | src/settlement.rs:197-274 | a held or paid reservation has an accepted offer and both accepted confirmations in its history, failures and damage included |
| `Guard.SettlementGuard.constructor` | src/client.rs:17-23 | a guard starts with nothing processed and nothing counted |
| `Guard.SettlementGuard.Find` | src/client.rs:50-55 | the first term with the id, or none |
| `Guard.SettlementGuard.ValidateRelease` | src/client.rs:33-76 | the first failing check of every message, in the order of the source, and the whole new state, with the id processed even where the cap then refuses |
| `Guard.GuardTotalIsExact` | src/client.rs:33-76 | for any messages at all the total is the amount times the reservations processed, within the cap, and the cap check never fires |
| `Guard.ProcessedIsAccepted` | src/client.rs:66-75 | what is processed are exactly the ids of the messages accepted |
| `Guard.TotalIsAccepted` | src/client.rs:66-75 | the total is the amount times the number of distinct reservations accepted |
| `Agreement.EachAcceptedOnce` | src/client.rs:33-76 | any order of genuine releases, with any repetitions: each is accepted the first time and refused as a duplicate after |
| `Agreement.OrderDoesNotMatter` | src/client.rs:33-76 | the guard's state depends only on the set of releases delivered |
| `Agreement.ReturnedOrDropped` | src/settlement.rs:328-336 | releases signed at a player's expense are those returned plus what each refused report found held |
| `Agreement.GuardAgrees` | src/client.rs:66-75 | with everything returned delivered, the coordinator's total is the guard's plus the dropped amounts, so they agree iff no refused report found anything held |
| `Sim.HarnessSim.UpdatePlayer` | src/sim.rs:115-128 | only the named player moves, only if alive and not on an older input |
| `Sim.HarnessSim.FireShot` | src/sim.rs:152-183 | the events and the state of one shot, for an arbitrary aim predicate |
| `Sim.HarnessSim.Step` | src/sim.rs:195-208 | one tick: both move, A fires, and B only while the match is still live |
| `Sim.TickIsSane` | src/sim.rs:152-208 | a tick keeps health = 100 - 25 x hits, orders its events with a death last, and ends the match exactly when it reports one |
| `SimRuns.EveryMatchIsSane` | src/sim.rs:115-208 | over every match: health counts hits, at most one player dead, at most one death, always the last event |
| `SimRuns.ShotsAreSpaced` | src/sim.rs:130-134 | a player's (k+1)-st shot is no earlier than tick 1 + 12k, and hits never outnumber shots |
| `SimRuns.NoEarlyDeath` | src/sim.rs:152-183 | a death takes four hits, so none comes before tick 37 |
| `SimRuns.MovesAsAsked` | src/sim.rs:115-128 | each coordinate follows its own axis of the input, at most at top speed and exactly as asked away from the walls; a dead player or a stale input moves nobody |
| `SimRuns.EveryMatchStaysInside` | src/sim.rs:124-127 | over every match both players stay in the arena |
| `ArenaServer.MatchServer.constructor` | src/bin/arena-server.rs:164-186 | a server boots with nobody seated, no terms and the initial simulation |
| `ArenaServer.MatchServer.Send` | src/bin/arena-server.rs:626-638 | a message for an empty seat is dropped, any other is sent once |
| `ArenaServer.MatchServer.OnConnection` | src/bin/arena-server.rs:456-525 | a seat is given once, never after terms, and a departure withdraws the seat's acceptance |
| `ArenaServer.MatchServer.OnConnections` | src/bin/arena-server.rs:447-527 | all of a pass's events, and the seats vacated in order |
| `ArenaServer.MatchServer.OfferTerms` | src/bin/arena-server.rs:213-243 | terms are made once, for two connected players, and shown to both |
| `ArenaServer.MatchServer.CloseMatch` | src/bin/arena-server.rs:375-404 | cancels what is left, tells the payees and everyone, and ends for good |
| `ArenaServer.MatchServer.Forfeit` | src/bin/arena-server.rs:245-286 | a departure under terms ends the match in favour of who is left |
| `ArenaServer.MatchServer.OnMessage` | src/bin/arena-server.rs:546-599 | each control message makes the one coordinator call it stands for; offers are forwarded only when accepted |
| `ArenaServer.MatchServer.OnPacket` | src/bin/arena-server.rs:537-601 | packets of unseated clients do nothing; inputs never go back in sequence |
| `ArenaServer.MatchServer.StartIfReady` | src/bin/arena-server.rs:298-310 | starts at most once, and only with two seats, two acceptances and everything held |
| `ArenaServer.MatchServer.OnEvent` | src/bin/arena-server.rs:317-405 | a hit is paid and its releases sent, or pauses the match; a death closes it |
| `ArenaServer.MatchServer.OneStep` | src/bin/arena-server.rs:312-420 | one fixed step, in which the simulation runs only between start and end |
| `ArenaServer.MatchServer.Pass` | src/bin/arena-server.rs:189-420 | one whole pass of the loop is one round of the specification |
| `ArenaServer.RunServer` | src/bin/arena-server.rs:189-420 | after any number of passes the object is in exactly the state of the run, to which all results below apply |
| `ServerRuns.BothSeatsAreBound` | src/bin/arena-server.rs:213-219 | when terms are made both seats are taken and bound, so the lookup cannot panic |
| `ServerRuns.ServeKeepsInv` | src/bin/arena-server.rs:189-420 | every reachable state: messages follow lobby, play, closing, end; the books are sound and in the matching phase; the simulation is live only while the match runs |
| `Matches.EveryRunIsOrderly` | src/bin/arena-server.rs:245-420 | over every run the messages sent hold at most one start and one end, every release after the start and before any cancellation, and nothing after the end |
| `Matches.StartHasWitness` | src/bin/arena-server.rs:298-310 | a started match had a round with both players seated and agreed and everything held |
| `Matches.ReleasesNeedAStart` | src/bin/arena-server.rs:298-360 | nothing is ever released without such a round |
| `Matches.EndIsFinal` | src/bin/arena-server.rs:245-420 | after the end no round releases or cancels anything more |
| `Matches.EveryReservationIsResolved` | src/bin/arena-server.rs:375-404 | at the end of a started match each reservation is released, cancelled or failed, and none both released and cancelled |
| `Matches.AmountsAddUp` | src/settlement.rs:313-379 | with no failure reported, released plus cancelled amounts are exactly twice the cap |
| `Addresses.CallKeepsOffer` | src/settlement.rs:168-379 | no call changes the term of a reservation or an invoice once stored |
| `Addresses.EveryMessageGoesRight` | src/bin/arena-server.rs:231-404 | over every run: releases go to their payee and were returned, cancellations to the payee of a cancelled reservation, offers to the payer as they are stored, terms to the seats, starts and endings to all |
| `Deliveries.EveryReleaseIsSent` | src/bin/arena-server.rs:337-367 | in every reachable state each release the coordinator returned was sent to its payee, because a match that is still running has both players connected |
| `Traces.EveryRunIsTraced` | src/bin/arena-server.rs:189-420 | the books of every reachable state are a history of proper coordinator calls from a fresh coordinator, with everything held before the first hit, at most one cancellation, and no hit after it |
| `Traces.EveryServerBalances` | src/settlement.rs:70-379 | so every server numbers distinct releases 1, 2, 3, ... and its totals are amount times releases within the cap |
| `Traces.EveryServerIsAccounted` | src/settlement.rs:168-303 | and every reservation it holds or has paid has its offer and confirmations on record and changed status at most five times |
| `Traces.ServerAndGuardAgree` | src/client.rs:33-76 | a payee that receives in any order, with repetitions, what the server sent it has counted what the server charged less exactly the amounts of the releases that refused reports dropped, so the two agree iff none was |
| `EndToEnd.HitSettles` | src/settlement.rs:313-365 | a hit that is not refused is paid in full: whole buckets released, the rest carried |
| `EndToEnd.TickOnTrack` | src/bin/arena-server.rs:312-405 | from books that match the simulation, a tick leaves books that match it unless a hit is refused, and with reservations for a whole life none is |
| `EndToEnd.CleanRunsAreOnTrack` | src/bin/arena-server.rs:189-420 | in every run without an accepted failure the books match the damage dealt for as long as nothing is refused |
| `EndToEnd.EveryHitIsPaid` | src/bin/arena-server.rs:312-410 | with 100 / bucket reservations and no failure: no report refused, never paused, each player has paid the amount times (health lost) / bucket, the loser 100 / bucket times |
| `EndToEnd.CoverIsExact` | src/bin/arena-server.rs:312-410 | once a player of such a run is dead, nothing was refused iff there were 100 / bucket reservations per player |
| `Deaths.PhaseAfterEvents` | src/bin/arena-server.rs:317-405 | the events of a tick leave the simulation paused if one of them is refused, and untouched otherwise; the books count a refusal exactly then |
| `Deaths.RefusalIsOnBooks` | src/settlement.rs:313-365 | a hit is refused within its tick iff the books before the tick cannot pay it, so the other hit of the tick makes no difference |
| `Deaths.DeathPhase` | src/bin/arena-server.rs:369-404 | a tick that reports a death ends the match, and leaves the phase ended for the killer iff the books before the tick can pay each of its hits, and paused otherwise |
| `Deaths.EveryRunTells` | src/bin/arena-server.rs:189-420 | over every run: paused only after a refusal, and from a refusal on unless a departure ended the match; nobody dead before the end; with nothing refused, ended for the survivor of a death |
| `Deaths.DeathTells` | src/bin/arena-server.rs:312-410 | in every run with a death the match is over, and its phase is ended for the survivor iff no report was ever refused, and paused otherwise |
| `Deaths.DeathIsPausedExactly` | src/bin/arena-server.rs:312-410 | in every started run without an accepted failure a death leaves the simulation paused iff there were fewer than 100 / bucket reservations per player, a check of the configuration alone |
| `Shortfall.KilledInArrears` | src/bin/arena-server.rs:189-420 | a concrete input, forty-seven rounds from the boot with no failure report and nobody leaving, that ends by an announced death, with one bucket of two paid, the other refused and the simulation paused |
| `Matchmaker.AppState.constructor` | src/bin/arena-matchmaker.rs:178-183 | no rooms and no processes |
| `Matchmaker.AppState.LookAt` | src/bin/arena-matchmaker.rs:851-870 | an exited or unreadable child is given up, and only a ready room fails by it |
| `Matchmaker.AppState.ReapLocked` | src/bin/arena-matchmaker.rs:849-880 | keeps exactly the unexpired rooms as inspected, and the live processes are exactly those not exited and not of expired rooms |
| `Matchmaker.AppState.StopChild` | src/bin/arena-matchmaker.rs:894-899 | the room loses its child and the child is no longer live |
| `Matchmaker.AppState.ClearConnectTokens` | src/bin/arena-matchmaker.rs:901-905 | no seat keeps a token and nothing else changes |
| `Matchmaker.AppState.UniqueRoomCode` | src/bin/arena-matchmaker.rs:795-808 | the first drawn code that no room has |
| `Matchmaker.AppState.CreateRoom` | src/bin/arena-matchmaker.rs:191-239 | refused at the waiting limit, else a new room under a code nobody has |
| `Matchmaker.AppState.FindEndpoint` | src/bin/arena-matchmaker.rs:283-300 | the first endpoint whose port no active room uses |
| `Matchmaker.AppState.IssueTokens` | src/bin/arena-matchmaker.rs:316-334 | both tokens, or an early stop that leaves the later seat without one |
| `Matchmaker.AppState.Join` | src/bin/arena-matchmaker.rs:241-349 | every refusal in the source's order, and the reserved room, which stays reserved when a token cannot be issued |
| `Matchmaker.AppState.MarkRoomReady` | src/bin/arena-matchmaker.rs:351-364 | the child goes to the room, whatever its state, or is killed when the room is gone |
| `Matchmaker.AppState.MarkRoomFailed` | src/bin/arena-matchmaker.rs:366-377 | the room fails without tokens or child, and a missing room changes nothing |
| `Matchmaker.AppState.Ticket` | src/bin/arena-matchmaker.rs:379-392 | the ticket holder's view; an address and a token only in a ready room, whose endpoint is never missing |
| `Matchmaker.AppState.LeaveRoom` | src/bin/arena-matchmaker.rs:394-415 | only a ticket holder leaves; a waiting room goes, any other fails |
| `Matchmaker.AppState.GetHealth` | src/bin/arena-matchmaker.rs:417-435 | the counts of the reaped rooms |
| `Matchmaker.AppState.ShutDown` | src/bin/arena-matchmaker.rs:506-515 | no room left and every room's child stopped |
| `Matchmaker.Service.constructor` | src/bin/arena-matchmaker.rs:178-183 | the empty world |
| `Matchmaker.Service.Reserve` | src/bin/arena-matchmaker.rs:584-589 | a reserved join is in flight |
| `Matchmaker.Service.SpawnGame` | src/bin/arena-matchmaker.rs:596-597 | a spawned process belongs to its join; a failed spawn ends the join and fails the room |
| `Matchmaker.Service.FinishStart` | src/bin/arena-matchmaker.rs:598-622 | the join ends, with its server in the room, killed, or the room failed |
| `Matchmaker.Service.JoinRoom` | src/bin/arena-matchmaker.rs:584-625 | an uninterrupted join: refused reservations pass their error on, a server that does not start fails the room, a started one is handed over and its ticket shown after a last look; however it ends, no join is left in flight |
| `Matchmaker.Service.Handle` | src/bin/arena-matchmaker.rs:571-646 | each request is one step of the world |
| `Matchmaker.RunService` | src/bin/arena-matchmaker.rs:518-563 | after any events at all the service is in exactly the state of the run |
| `RoomRuns.FirstFreeIsExact` | src/bin/arena-matchmaker.rs:283-300 | the search finds an unused endpoint of the pool, and fails only if every port is used |
| `RoomRuns.ReapConserves` | src/bin/arena-matchmaker.rs:849-880 | reaping neither loses a running child nor keeps an ended one |
| `RoomRuns.ReadyConserves` | src/bin/arena-matchmaker.rs:351-364 | marking ready keeps every child accounted for iff the room is gone or has no child yet |
| `RoomRuns.ReadyIsExclusive` | src/bin/arena-matchmaker.rs:351-364 | on any room map with ports apart, marking a room ready keeps them apart iff no other active room holds its port |
| `RoomRuns.EveryRunKeepsInv` | src/bin/arena-matchmaker.rs:191-880 | over every interleaving: live processes are exactly those with one owner, a room or a join in flight; waiting rooms within the limit; a child exactly in ready rooms, connect tokens only in starting and ready ones; and, if nobody leaves a starting room, distinct ports |
| `Orphans.TrackedOrOrphaned` | src/bin/arena-matchmaker.rs:191-880 | over any events at all, either every child is accounted for or one is alive that nobody will ever wait for |
| `Orphans.ConservedExactly` | src/bin/arena-matchmaker.rs:351-364 | with nothing supposed of the events: live processes are exactly those with one owner iff no started server was put into a room that had one |
| `Orphans.OrphanStays` | src/bin/arena-matchmaker.rs:849-905 | no request ever ends or adopts a process that has lost its owner |
| `RoomRuns.PoolIsExact` | src/bin/arena-matchmaker.rs:283-300 | the endpoint search fails iff as many rooms are active as there are endpoints, and health reports exactly the endpoints the search could still find |
| `RoomRuns.EveryRunIsExact` | src/bin/arena-matchmaker.rs:417-435 | the same over every run in which nobody leaves a starting room and no new room gets the code of a join in flight: available plus active is the pool |
| `Ports.StepKeepsPorts` | src/bin/arena-matchmaker.rs:191-880 | any event keeps ports apart iff it does not put a started server into a room whose port another active room holds |
| `Ports.ExclusiveExactly` | src/bin/arena-matchmaker.rs:351-364 | with nothing supposed of the events: no two active rooms ever hold one port iff no started server was put into a room whose port another active room held |
| `Ports.HealthIsExact` | src/bin/arena-matchmaker.rs:417-435 | after any events: health never promises more endpoints than the search can still find, and counts them exactly iff every active room holds an endpoint of its own or none is left |
| `Ports.WaitingWithinLimit` | src/bin/arena-matchmaker.rs:191-239 | after any events: no more rooms wait than are allowed to |
| `RoomRuns.ShutdownLeavesNothing` | src/bin/arena-matchmaker.rs:506-515 | with no join in flight, shutting down leaves no process |
| `RoomRuns.LeavingSharesAnEndpoint` | src/bin/arena-matchmaker.rs:394-415 | a concrete run in which leaving a starting room puts two active rooms on one port |
| `RoomRuns.ReusedCodeForgetsAChild` | src/bin/arena-matchmaker.rs:584-602 | a concrete run in which a reused code leaves a live process without an owner |
| `Checksums.Adler32` | src/bin/build-duelist.rs:965-973 | the two sums of RFC 1950 section 2.2 in closed form modulo 65521, with no intermediate above 32 bits |
| `Checksums.SumsGrow` | src/bin/build-duelist.rs:968-971 | adding a byte raises the plain sum by it and the weighted sum by the new plain sum |
| `Checksums.ByteStep` | src/bin/build-duelist.rs:953-960 | eight bit steps are one step of the table-driven CRC |
| `Checksums.Crc32` | src/bin/build-duelist.rs:950-963 | the bit loop computes the table-driven CRC of the PNG specification |
| `Png.PushChunk` | src/bin/build-duelist.rs:940-948 | appends one chunk: length, type, data, CRC of type and data |
| `Png.PushScanlines` | src/bin/build-duelist.rs:913-917 | every row behind filter type zero |
| `Png.PushBlocks` | src/bin/build-duelist.rs:919-926 | stored blocks of 65535 bytes with the final flag on the last piece |
| `Png.EncodePng` | src/bin/build-duelist.rs:911-938 | the file, from which a reader with the length cap of the standard gets the image back iff there is a row and the stream is within the cap |
| `Png.StoredBlocksAreRead` | src/bin/build-duelist.rs:919-926 | a DEFLATE reader that checks LEN, NLEN and BFINAL finds exactly the 65535-byte pieces |
| `Png.BlocksLength` | src/bin/build-duelist.rs:919-927 | the stream's length, so its 32-bit limit can be checked beforehand |
| `Png.ZlibRoundTrip` | src/bin/build-duelist.rs:919-927 | an inflater that checks the header and the Adler-32 recovers the data iff there is any |
| `Png.ScanlinesAreUnfiltered` | src/bin/build-duelist.rs:913-917 | unfiltering returns the pixels |
| `Png.ChunkIsRead` | src/bin/build-duelist.rs:940-948 | a chunk reader with any length cap accepts the chunk iff it is within the cap |
| `Png.RoundTrip` | src/bin/build-duelist.rs:911-948 | for every image with a positive width, a reader recovers width, height and pixels iff the height is positive and the stream is within the reader's cap |
| `Glb.Pad` | src/bin/build-duelist.rs:886-892 | the shortest continuation to a multiple of four |
| `Glb.Builder.constructor` | src/bin/build-duelist.rs:656-662 | an empty buffer |
| `Glb.Builder.PushView` | src/bin/build-duelist.rs:664-676 | the new view is the last, earlier views and bytes stay, and every view reads back its content |
| `Glb.OneMoreView` | src/bin/build-duelist.rs:664-676 | a padded append keeps every view aligned, tight and readable |
| `Glb.ViewsAreOrdered` | src/bin/build-duelist.rs:664-676 | views are disjoint and increasing |
| `Glb.ContainerRoundTrip` | src/bin/build-duelist.rs:893-904 | a glTF reader recovers both payloads iff both were padded, and the header's length is the file's |
| `Glb.Assemble` | src/bin/build-duelist.rs:884-904 | for every container that fits 32 bits: it gives back the document up to spaces, the buffer up to zeros, and through it every byte string pushed |
| `Devmap.PushIsShortest` | src/devmap.rs:168-191 | the push leaves the obstacle along one axis, and no spot outside is nearer |
| `Devmap.OnePushAtMost` | src/devmap.rs:168-191 | a clear spot stays, and otherwise exactly one obstacle pushes and the result is clear of all |
| `Devmap.ObstaclesAreApart` | src/devmap.rs:75-126 | the widened obstacles do not even touch |
| `Devmap.ObstaclesArePaired` | src/devmap.rs:73-126 | every obstacle has its half-turn partner |
| `Devmap.RestingPlaceIsClear` | src/devmap.rs:149-192 | from anywhere a player ends clear and in bounds, and resolving again moves nothing |
| `Devmap.HalfTurn` | src/devmap.rs:168-191 | pushing out commutes with the half turn iff no two opposite exits tie |
| `Devmap.ShortStepsAreSymmetric` | src/devmap.rs:149-192 | from a clear spot, a step shorter than 46 along each axis is treated alike in both halves, with no exception |
| `Devmap.PillarCentreIsTied` | src/devmap.rs:168-191 | a concrete spot where the two halves are not treated alike |
| `Devmap.Mover.PushOne` | src/devmap.rs:170-190 | one obstacle's push, ties broken low x, high x, low z, high z |
| `Devmap.Mover.ResolveCollisions` | src/devmap.rs:168-192 | after the loop the player is clear of every obstacle, at the same height |
| `Devmap.Mover.FlatStep` | src/devmap.rs:149-163 | the step ends at the resting place of where the velocity leads, on the ground, clear and in bounds |
| `Predictor.Predictor.constructor` | src/bin/arena-desktop.rs:207-219 | nothing pending; on the flat arena the player starts grounded and without gravity |
| `Predictor.Predictor.Step` | src/bin/arena-desktop.rs:249-278 | a dead player does not move; otherwise the previous position is where the step began |
| `Predictor.Predictor.Push` | src/bin/arena-desktop.rs:221-224 | the input is applied and kept |
| `Predictor.Predictor.Retain` | src/bin/arena-desktop.rs:240-241 | exactly the inputs newer than the acknowledgement stay, in order |
| `Predictor.Predictor.Reconcile` | src/bin/arena-desktop.rs:226-246 | the snapshot followed by a replay of the inputs newer than it |
| `Predictor.NewerIsSuffix` | src/bin/arena-desktop.rs:240-241 | of rising inputs, what stays is the unacknowledged suffix |
| `Predictor.ReplayIsPath` | src/bin/arena-desktop.rs:242-244 | a replay moves a living player along the path of the inputs and leaves a dead one, and health, alone |
| `Predictor.ReconcileIsExact` | src/bin/arena-desktop.rs:226-246 | for any snapshot, on time or late and with any health: alive, the player is where the acknowledged and the newer pending inputs lead; dead, where the snapshot left it |
| `Predictor.PredictionIsReplay` | src/bin/arena-desktop.rs:221-247 | after any interleaving of inputs and timely snapshots: health is the last snapshot's, a living player is where all inputs sent lead, a dead one where the server left it, and pending inputs are the unacknowledged ones, rising |
| `Predictor.FlatMovementKeepsGrounded` | src/devmap.rs:149-163 | the flat step leaves every player grounded |
| `Predictor.StepInPlace` | src/devmap.rs:149-163 | the flat step done in place is the movement that prediction replays |
| `Predictor.FlatPredictionIsReplay` | src/bin/arena-desktop.rs:249-260 | the prediction result for the flat step itself, with nothing supposed of the movement |
| `Predictor.SnapshotsChangeNothing` | src/bin/arena-desktop.rs:226-247 | a timely snapshot of a living player changes its health and nothing else |
| `Predictor.LateSnapshotLosesInputs` | src/bin/arena-desktop.rs:226-246 | a concrete late snapshot that takes the player back |

## Left out

- ArenaServer.MatchServer.OnPackets: packets come in any order, so the source's order (clients in turn, inputs before control messages) is one of the orders covered.
- ArenaServer.MatchServer.Forfeit: which of two connected players wins a forfeit is an arbitrary input, because the source takes the first entry of a hash map.
- RoomRuns.EveryRunKeepsInv: a new room's code is assumed not to be one a join is still busy with, since otherwise it is false (`RoomRuns.ReusedCodeForgetsAChild`); `Orphans.ConservedExactly`, `Ports.ExclusiveExactly`, `Ports.HealthIsExact` and `Ports.WaitingWithinLimit` need no such assumption. A join, once it has spawned a server, is taken to run to its end.
- Predictor.Predictor.Step: the movement is a parameter, with the flat step as one instance; collision against a map belongs to a vendored crate that is not part of this model, and so does the direction a wish is normalised to.
- Checksums.Adler32: the final shift and bitwise or of two 16-bit sums is written as a multiplication and an addition.
- Protocol.InputFrame.Sanitized: coordinates are reals, so replacing non-finite inputs by zero has no counterpart, and no result covers floating-point rounding.
- Match terms: invoice expiry, payment timeout and player bindings are carried by the source's terms and used nowhere in the modelled code.
- Snapshots, logging, exit timers and the frame clock of the server: they read the state and change none of it.
- Transport, decoding and authentication of packets, HTTP routing and request validation, room-code normalisation and the spawning of processes: input and output.
- The Fiber node RPC and the wallets: remote services whose behaviour is not in the repository.
- Ed25519, SHA-256, BLAKE3, postcard encoding and random generation: uninterpreted.
- `OpenStrikeDuelSim`, weapon configuration and map collision: they rest on vendored crates.
- Whether a shot hits (range and angle) and `trace_distance`: an arbitrary predicate of the two players; `Shortfall` supposes of it that a player facing its opponent from the starting places hits.
- Meshes, clips, palettes, JSON serialisation, rendering and the HUD: presentation data.
