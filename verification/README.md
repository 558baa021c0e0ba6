# Verification of the TSP provisioning, transport and subscription cores

This Dafny project models the stateful cores of the TSP service and proves what their callers and operators rely on:
the V2C key-provisioning coordinator with its store, budget ledger and attempt fingerprint, the vehicle message
gateway, the subscription registrar with its snapshot builder, and the downlink event publisher.
`dafny verify dfyconfig.toml` checks everything.

## How the coordinator is modelled

`KeyprovCoordinator.Coordinator` has the fields of the C++ class, one method for each `*_locked` operation, and three
entry points that are one atomic step each: a tick, a downlink message, a readiness event. `KeyprovWorld.World` is
what outlives the process: the stored record, the SEC journal, MQTT, the clocks, the supply of ids. SEC answers,
publish results, cloud messages, clock readings, jitter and encoder outcomes are arbitrary. The process may die before
any effect on the world, also between a message and the record that counts it; the next process loads what was stored.

Every effect is entered into a ghost history (`KeyprovHistory.History`), together with the reads it rests on. It begins
with an `Origin`: what the initial record and the SEC journal say. A restart says whether the process before it died
between a message and the record that counts it, which is in order only directly after that message. `Legal` says for
each kind of event what must hold of the history before it, and `Safe` that every event obeyed its rule.
`KeyprovRuns.Run` proves that every run from a record that `StartsWell` is safe, whatever happens and wherever it
crashes: from an empty store, or from an id with a fingerprint that is not superseded already and not its own
successor. Each of these conditions is needed: `LegacyIsReplaced`, `ReleasedBeforeIsUnsafe` and `OwnSuccessorIsUnsafe`
lead the coordinator to an unsafe history without them.
The protocol guarantees are lemmas about all safe histories: release safety, unique successors, silence of replaced
ids, send bounds, the meaning of a completed stabilisation, immutable attempts, and justified acknowledgements.

Among the processes of a run there may be any whose store is not ready. What such a process saves is lost with it: it
has a world and a history of its own (`World.Stray`, `StrayLife`), every guarantee holds of that history, and the
bounds count once more for each such process (`LivesAreBounded`, `TwoLivesExceed`).

The proof in between is `KeyprovInvariant`: what the stored record and the memory say about the history
(`InStep`, `Remembers`), with one lemma for each kind of step that it keeps this so.

## The other cores

- `KeyprovLifecycle`: the decision table, lease and clock arithmetic, and the budget ledger as values and as a class.
- `KeyprovAttempt`, `KeyprovBytes`: the canonical fingerprint bytes, with a decoder that shows that they determine
  exactly the normalised content.
- `KeyprovStore`: hexadecimal digests, the JSON object of optional members, load with all its migrations, save, clear.
- `VehicleGateway`: exchange threads, downlink threads, sweepers and stop as critical sections that interleave in any
  order over one correlation table and its tombstones.
- `SubscriptionSnapshots`, `SubscriptionRegistrar`: canonical text, digest and generation of a catalogue, and the
  registrar over a persistent generation.
- `EventPublisher`: the bounded queue with its counts per service, producers and the worker.

SHA-256 is taken to be injective (a digest remembers its preimage), random ids to be new, and SEC to report COMMITTED
only for an id whose items were handed to it.

## What the proofs found

Each entry names the members that state it.

- A stabilisation run need not be unbroken: a COMMITTED answer with items missing does not reset it
  (src/v2c_key_provisioning_coordinator.cpp:1039-1049). `BrokenRunIsProved` leads the coordinator there, and says when
  the broken run proves the attempt: exactly when that answer brought no items at all. `ProofRestsOnReads` says so of
  every proof.
- The recording of an import does not reset a stabilisation (coordinator, 2235-2242). A record that is UNRESOLVED
  without a recorded import, or whose id SEC was handed without one, can be proven by a count from before the import:
  `OldCountCompletes` leads the coordinator there. For all others, and so for every run from an empty store,
  `ProofRestsOnReads` holds.
- Release safety fails for a legacy record without a fingerprint version. A rejected StatusRequest takes any
  reconciliation state to RETRY_WAIT, WAIT_CLOUD or BLOCKED (coordinator, 2671-2743; `PublishStatusRequest`), also
  HARD_BLOCKED and LEGACY_SNAPSHOT_UNKNOWN, and the next check replaces the id (2038-2042). `LegacyIsReplaced` is the
  input and `DoCheck` the exact condition: an id is replaced by a check exactly if it has no fingerprint, keys are
  missing, no SEC outcome is unknown and the new attempt can be built. With a fingerprint it never is.
- A record stored while there is no request id is read back as LEGACY_SNAPSHOT_UNKNOWN (store, 370-379;
  `StoredWithoutId`), a reconciliation without a request id does nothing (coordinator, 998), and no restart recovers
  from that (`Linger`). A first check without an answer of SEC is enough (`FirstCheckStrands`), and a process is stuck
  exactly if it loads such a record (`Boot`).
- Budgets are charged after the message, not before it as the comments say (coordinator, 2145-2147 and 2516-2523): a
  crash in between sends a message nobody counts. `LossExceedsLimit` leads the coordinator there. The bounds are the
  limit plus the number of restarts directly after such a message (`RequestsBounded`, `AcksBounded`,
  `TotalRequestsBounded`, `LossesAreCrashes`); without one they are the limit (`LimitHoldsWithoutCrash`).
- One read-only window does not bound the read-only grants: the first grant of the second kind restarts the shared
  start time (`OneWindowIsExceeded`); exactly then a later grant may lie outside the first window
  (`OneWindowExactly`). Two windows always bound them (`ReadonlyGrantsBounded`).
- Without a lease the first acknowledgement sets the deadline of the ledger to its own time, so that the same process
  sends no second one (src/keyprov_lifecycle.cpp:258-267 and 314-320; `SecondAckExactly`).
- HARD_CONFLICT does not last: an import makes the attempt UNRESOLVED again exactly with its first recording
  (coordinator, 2238-2242; `DoImport`).
- A stored successor may stay unused: its slot of the chain is charged already, so that a full chain refuses to reuse
  it (coordinator, 1430-1452; `ChargedSlotExactly`, `SupersedeRemoteOnce`).
- A record from before schema 5 is spent only up to a request limit of 8, or if it has neither fingerprint nor lease,
  and only if it is not its own successor (`OldRecordIsSpent`, `OldRecordMaySend`). A record in several keys is not
  migrated at all (store, 403-443), so that its budget is whole; it sends nothing because it has nothing to send
  (`KeysAreNotSpent`, `RunFromKeys`).
- The certificate reference digest of a snapshot is not part of its fingerprint (src/keyprov_attempt.cpp:151-225;
  `FingerprintIdentifiesContent`).
- `import_purpose_duplicate` and `import_incomplete` are never reported: the loop leaves at the first item of each
  purpose, and the sizes are compared before (coordinator, 2300-2376; `ImportResultBindable`, `AcknowledgeImport`).
- A field with a bar in it lets two different catalogues share one digest (`BarsCollide`, `TargetsCollide`,
  `CollidingSetsShareDigest`); the validation of a catalogue does not refuse such fields. Newlines do no harm
  (`LineEnds`).
- `stop` of the gateway clears the tombstones while exchange calls may still run; the claims about reuse of message
  ids end there, and wherever a call returns only after its own tombstone expired (`BirthsOk` in
  `VehicleGateway.Run`).
- Events published after the publisher's worker ended stay in the queue until the next start (`EventPublisher.Run`).

## Model

| member | source | states |
|---|---|---|
| KeyprovRuns.Run | src/v2c_key_provisioning_coordinator.cpp:1847-2000 | Any number of processes over one store, stepped in any order by ticks, downlink messages and readiness events with arbitrary contents, each dying before any of its effects, and among them any number of processes whose store is not ready. The processes over the store have one history, which begins with what the record and the SEC journal say, and it is `Safe` for every initial record that `StartsWell`: no id yet, or an id with a fingerprint that is neither superseded already nor its own successor. Each process without a store has a history of its own, and each is `Safe`. From any record whatsoever, an id whose request budget is spent, or that has neither fingerprint nor lease, sends no Request any more |
| KeyprovRuns.StrayLife | src/v2c_key_provisioning_store.cpp:449-456 | A process whose store is not ready, from its start to its end, between two processes of a run: its history is `Safe`, knows of no record and loses no message |
| KeyprovRuns.RunFromOldRecord | src/v2c_key_provisioning_coordinator.cpp:2091-2100 | A record older than schema 5 without a request count never publishes a Request under its old id in any later run, in any process, if its successor is another id, and the request limit is at most 8 or the record has neither fingerprint nor lease |
| KeyprovRuns.OldRecordIsSpent | src/v2c_key_provisioning_store.cpp:344-368 | Such a record is loaded so that it cannot be sent again exactly if the request limit is at most 8, the count the migration enters, or it has neither fingerprint nor lease, and the stored successor is not the old id itself; before schema 4 there is no successor |
| KeyprovRuns.OldRecordMaySend | src/v2c_key_provisioning_store.cpp:344-368 | In the other cases the budget allows a Request: at once if the limit is above 8, and when it is adopted as its own successor, with a new budget and a fingerprint |
| KeyprovRuns.RunFromKeys | src/v2c_key_provisioning_store.cpp:403-443 | A record in several keys, older still, never publishes a Request under its id in any later run, whatever the request limit |
| KeyprovRuns.KeysAreNotSpent | src/v2c_key_provisioning_store.cpp:403-443 | Load does not migrate it: its budget is whole, and it stays silent because it has no content to send and no lease to refresh |
| KeyprovRuns.LegacyIsReplaced | src/v2c_key_provisioning_coordinator.cpp:2038-2042 | A legacy record with an id and without a fingerprint: after a refused StatusRequest the next check replaces the id exactly if SEC answers that keys are missing and a new attempt can be built; nothing was released, and the history is not `Safe` |
| KeyprovRuns.ReleasedBeforeIsUnsafe | src/v2c_key_provisioning_coordinator.cpp:1954-1957 | A record that names a release the history does not have is replaced exactly if a new attempt can be built, and then the history is not `Safe` |
| KeyprovRuns.OwnSuccessorIsUnsafe | src/v2c_key_provisioning_coordinator.cpp:1425-1458 | A record that is its own successor: after the release the same id is adopted again if a new attempt can be built, and then the history is not `Safe` |
| KeyprovRuns.SelfAdoptionIsUnsafe | src/v2c_key_provisioning_coordinator.cpp:857-962 | No history is `Safe` in which an id is adopted after itself |
| KeyprovRuns.UnreleasedIsUnsafe | src/v2c_key_provisioning_coordinator.cpp:1425-1458 | No history is `Safe` in which a successor takes over an id that was not released, or was used after its release |
| KeyprovRuns.OldCountCompletes | src/v2c_key_provisioning_coordinator.cpp:2235-2242 | A path of the coordinator with N = 2 on which the recording of an import does not reset a stabilisation: strong NOT_FOUND, refused StatusRequest, check, Request, Response, import that SEC does not find, strong NOT_FOUND. The attempt is then proven exactly if the window since the first answer is over |
| KeyprovRuns.BrokenRunIsProved | src/v2c_key_provisioning_coordinator.cpp:1039-1049 | A path of the coordinator with N = 3: strong NOT_FOUND, COMMITTED with items missing, strong NOT_FOUND, strong NOT_FOUND. The attempt is then proven exactly if the window since the first answer is over and the COMMITTED answer brought no items at all |
| KeyprovRuns.LossExceedsLimit | src/v2c_key_provisioning_coordinator.cpp:2145-2161 | A path of the coordinator from an empty store with a request limit of one: MQTT takes the first Request, and the process dies before that is stored. The next process finds a budget that allows a Request at any time, and when it goes out two Requests were sent |
| KeyprovRuns.FirstCheckStrands | src/v2c_key_provisioning_coordinator.cpp:2058-2076 | From an empty store: a first check that gets no key status from SEC stores a record without an id, and from then on no process ever has an attempt, however often one is started and whatever it is told |
| KeyprovRuns.Linger | src/v2c_key_provisioning_coordinator.cpp:996-1000 | Processes over a legacy record without an id, in any number and any steps, never adopt an id, and never change the record |
| KeyprovRuns.StoredWithoutId | src/v2c_key_provisioning_store.cpp:370-379 | What is stored strands the process that loads it exactly if it has no id and no fingerprint of today |
| KeyprovRuns.LivesAreBounded | src/v2c_key_provisioning_store.cpp:449-456 | The Requests of the processes whose store is not ready are at most `request_limit * (1 + chain_ids)` times the number of these processes |
| KeyprovRuns.OneLifeIsBounded | src/v2c_key_provisioning_coordinator.cpp:2078-2162 | One such process sends at most `request_limit * (1 + chain_ids)` Requests |
| KeyprovRuns.TwoLivesExceed | src/v2c_key_provisioning_store.cpp:449-456 | That their number counts is no accident: a path of the coordinator on which two such processes send two Requests where one is allowed in all |
| KeyprovRuns.FirstCheck | src/v2c_key_provisioning_coordinator.cpp:2002-2076 | The first check of such a process: if it sends a Request, that is the one Request of its history |
| KeyprovRuns.Step | src/v2c_key_provisioning_coordinator.cpp:505-509 | Every step of the environment, whatever it brings, keeps the invariant of coordinator, store and history; a process that is stuck changes neither record nor history |
| KeyprovRuns.Boot | src/v2c_key_provisioning_coordinator.cpp:183-332 | A new process over any stored record starts inside the invariant with the attempt of that record; it is stuck exactly if the record is a legacy record without an id |
| KeyprovHistory.ReplacementIsJustified | src/v2c_key_provisioning_coordinator.cpp:1425-1458 | Release safety: whenever a successor takes over an id, there is a stored release of that very pair at which the last journal read was a strong NOT_FOUND for the id, the resolution was NO_SIDE_EFFECT_PROVEN and the cloud had reported FAILED or the exact UNSPECIFIED tuple for the same id; nothing was sent or imported under the id since; and if an import was ever recorded, a stabilisation was completed after the recording, in this history, or before it as the initial record says |
| KeyprovHistory.ProofRestsOnReads | src/v2c_key_provisioning_coordinator.cpp:1021-1112 | An attempt goes from UNRESOLVED to proven only when the journal reads of this process end in a tail that begins with a strong NOT_FOUND for its id and spans the stabilisation window up to the proof, with at least N strong NOT_FOUND answers under one capability epoch, and nothing else but COMMITTED answers, the last of which brought no items; the tail is unbroken if SEC never answered COMMITTED for the id |
| KeyprovHistory.SuccessorIsUnique | src/v2c_key_provisioning_coordinator.cpp:1425-1458 | All releases of one id, in whatever process, name one successor, and no other successor is ever adopted for it |
| KeyprovHistory.ReplacedIdIsSilent | src/v2c_key_provisioning_coordinator.cpp:857-962 | Once a successor is adopted, the old id is never current again and no Request, acknowledgement, status request or import happens under it |
| KeyprovHistory.ReplacedOnce | src/v2c_key_provisioning_coordinator.cpp:857-962 | An id is replaced at most once |
| KeyprovHistory.NeverCurrentAgain | src/v2c_key_provisioning_coordinator.cpp:857-962 | An id that was current and is not any more stays silent for the rest of the history |
| KeyprovHistory.RequestsBounded | src/keyprov_lifecycle.cpp:225-234 | Accepted Requests of one id over all processes are at most the request limit, plus one for each process that died between a Request of the id and the record that counts it; what the initial record counted goes off the limit |
| KeyprovHistory.RequestsInsideWindow | src/keyprov_lifecycle.cpp:284-292 | The budget check of a Request reads the clock less than the request window after the first charge of its id, by a Request or a refresh, if no process died between a Request of the id and the record that counts it; the message is stamped and sent at a later reading, which the source does not check again |
| KeyprovHistory.FreshenedOnce | src/v2c_key_provisioning_coordinator.cpp:2180-2202 | An id is refreshed at most once |
| KeyprovHistory.AttemptsUseSlots | src/v2c_key_provisioning_coordinator.cpp:1425-1458 | The number of ids that ever became current is one plus the successors generated, and one that the initial record had generated, less one that may still wait to be adopted; each generated successor costs exactly one slot of the chain |
| KeyprovHistory.AttemptsBounded | src/v2c_key_provisioning_coordinator.cpp:1425-1458 | At most `1 + chain_ids` ids ever become current; one more only if the initial record has a successor without a slot, or more slots than the chain allows |
| KeyprovHistory.TotalRequestsBounded | src/v2c_key_provisioning_coordinator.cpp:2078-2162 | All Requests of all ids over all processes are at most `request_limit` times that number of ids, plus one for each restart directly after a Request |
| KeyprovHistory.TotalLossesAreCrashes | src/v2c_key_provisioning_coordinator.cpp:2145-2161 | All Requests lost to the accounts are no more than the restarts directly after a Request |
| KeyprovHistory.AttemptIsImmutable | src/v2c_key_provisioning_coordinator.cpp:2078-2144 | Any two Requests of one id within one process carry the same business payload, although identity and SEC versions are read again before each |
| KeyprovHistory.AckIsJustified | src/v2c_key_provisioning_coordinator.cpp:2448-2527 | An acknowledgement is sent only for an id that was handed to SEC and answered COMMITTED, in this history after its import was recorded; every item has the exact attestation; the budget check reads the clock before the deadline D in force, and the message leaves later |
| KeyprovHistory.DeadlineBelongsToLease | src/v2c_key_provisioning_coordinator.cpp:699-706 | D is E + grace - skew of the last lease, or what the initial record says as long as no lease was taken |
| KeyprovHistory.AcksBounded | src/keyprov_lifecycle.cpp:258-267 | The same for acknowledgements and the ACK limit |
| KeyprovHistory.LossesAreCrashes | src/v2c_key_provisioning_coordinator.cpp:2145-2161 | A message is lost to the accounts only by a restart directly after that message; such restarts are no more than the restarts |
| KeyprovHistory.LimitHoldsWithoutCrash | src/keyprov_lifecycle.cpp:225-267 | For each id the limits of Requests and acknowledgements hold exactly as they stand if no process was restarted directly after such a message of the id, and otherwise with one more for each such restart |
| KeyprovHistory.CommittedWasImported | src/v2c_key_provisioning_coordinator.cpp:2235-2298 | COMMITTED is only ever answered for an id whose items were handed to SEC, and items are handed over only after the import was recorded, unless that was before the history |
| KeyprovHistory.UnknownIdsAreSilent | src/v2c_key_provisioning_coordinator.cpp:857-962 | Under an id that was never adopted nothing was sent, imported, leased or released, and no deadline is in force |
| KeyprovHistory.CurrentIsAdopted | src/v2c_key_provisioning_coordinator.cpp:857-962 | The current id is one that was adopted |
| KeyprovHistory.EveryEventLegal | src/v2c_key_provisioning_coordinator.cpp:1847-2000 | Every event anywhere in a safe history obeyed its rule with respect to the stage before it |
| KeyprovCoordinator.DecisionTableAgrees | src/v2c_key_provisioning_coordinator.cpp:1328-1458 | For the same facts the decision table answers SUPERSEDE_CAS or RESTORE_SUCCESSOR exactly when the coordinator's matrix and chain check create a successor, and RESTORE_SUCCESSOR exactly when a stored one is reused |
| KeyprovCoordinator.Coordinator.constructor | src/v2c_key_provisioning_coordinator.cpp:183-332 | A process that takes over any loaded record starts inside the invariant, with the attempt of the record, in exactly the state the stored one leads to, and never in ACTIVE, ACK_PENDING, CHECKING or RETRY_WAIT |
| KeyprovCoordinator.Coordinator.Begin | src/v2c_key_provisioning_coordinator.cpp:205-332 | The same, once the fields of the attempt are set |
| KeyprovCoordinator.Coordinator.TakeOver | src/v2c_key_provisioning_coordinator.cpp:214-258 | Of the lineage and of what blocks, exactly the members of the record survive a restart, and their defaults if it is not valid |
| KeyprovCoordinator.Coordinator.TakeOverContract | src/v2c_key_provisioning_coordinator.cpp:205-265 | Of SEC exactly the versions, the pending callback and the last evidence of the record survive |
| KeyprovCoordinator.Coordinator.ForgetSession | src/v2c_key_provisioning_coordinator.cpp:183-332 | Nothing of a session survives: no identity, no pending items, no awaited answer, no unknown outcome, no retry time |
| KeyprovCoordinator.Coordinator.Restore | src/v2c_key_provisioning_coordinator.cpp:266-317 | SEC and the cloud are asked again before anything is believed: for every stored state, block reason and resolution the state that is entered, and when an acknowledgement is recovered |
| KeyprovCoordinator.RestoredCore | src/v2c_key_provisioning_coordinator.cpp:214-258 | What is restored from a record says the same about safety as the record |
| KeyprovCoordinator.Coordinator.BuildRecord | src/v2c_key_provisioning_coordinator.cpp:2554-2613 | What is stored says the same about safety as the memory, under the name of the present state |
| KeyprovCoordinator.Coordinator.PersistAs | src/v2c_key_provisioning_coordinator.cpp:2554-2613 | Storing keeps the invariant, at the instant the history takes its next event; the record stored is that of the attempt; a process that dies here has stored nothing, and its history is as it was |
| KeyprovCoordinator.Coordinator.Persist | src/v2c_key_provisioning_coordinator.cpp:2554-2613 | Storing memory whose core is the stored one leaves core and history as they were; the record stored is that of the attempt; a process that dies here has stored nothing |
| KeyprovCoordinator.Coordinator.Jittered | src/v2c_key_provisioning_coordinator.cpp:2529-2544 | With jitter the interval lies between the backoff and a quarter more and one, without it is the backoff; it is positive for sane intervals |
| KeyprovCoordinator.Coordinator.ScheduleRetry | src/v2c_key_provisioning_coordinator.cpp:2529-2544 | The next retry lies after the present reading of the clock; the interval grows by the factor from the first one on, up to its maximum |
| KeyprovCoordinator.Coordinator.ScheduleStatusRetry | src/v2c_key_provisioning_coordinator.cpp:1680-1698 | The same for status requests, where the jittered interval is what grows |
| KeyprovCoordinator.Coordinator.InvalidateIdentity | src/v2c_key_provisioning_coordinator.cpp:421-438 | A void identity is empty, and takes pending items, response binding and deadline with it, and nothing else |
| KeyprovCoordinator.Coordinator.ApplyCloudReadiness | src/v2c_key_provisioning_coordinator.cpp:440-483 | A late event is dropped whole; of the others exactly those with another daemon, connection or certificate session, a gap in the sequence, or a cloud that is not ready make the identity void; the sequence number of the daemon is kept |
| KeyprovCoordinator.Coordinator.ApplyCapabilityReadiness | src/v2c_key_provisioning_coordinator.cpp:485-494 | An event of another capability changes nothing; one of this capability makes the identity void exactly when it is not ready |
| KeyprovCoordinator.Coordinator.ReadinessChanged | src/v2c_key_provisioning_coordinator.cpp:440-500 | A readiness event changes the identity and what is known of the session at most, never the attempt; which events make the identity void and which do not |
| KeyprovCoordinator.Coordinator.RefreshSecReadiness | src/v2c_key_provisioning_coordinator.cpp:1715-1780 | The capability epoch changes exactly when SEC was unreachable, changed its contract version or its NOT_FOUND flag, unless the contract snapshot names the epoch; the versions are those of the snapshot |
| KeyprovCoordinator.Coordinator.PublishKeyprov | src/v2c_key_provisioning_coordinator.cpp:2671-2743 | Taken means that the history has the message and nothing else changed; refused means that nothing was sent and where the state goes |
| KeyprovCoordinator.Coordinator.Rejection | src/v2c_key_provisioning_coordinator.cpp:2692-2743 | The state each reason of a rejection leads to |
| KeyprovCoordinator.Coordinator.BuildCandidate | src/v2c_key_provisioning_coordinator.cpp:816-842 | A candidate carries the normalised digests of the session identity, and its fingerprint determines them |
| KeyprovCoordinator.Coordinator.RetryAfter | src/v2c_key_provisioning_coordinator.cpp:2072-2075 | RETRY_WAIT with its reason and a later time is stored without a trace in the history |
| KeyprovCoordinator.Coordinator.BlockWith | src/v2c_key_provisioning_coordinator.cpp:2058-2063 | BLOCKED with its reason is stored without a trace in the history |
| KeyprovCoordinator.Coordinator.DoRequest | src/v2c_key_provisioning_coordinator.cpp:2078-2162 | The coordinator waits for a Response exactly when one more Request was counted, and then the history has exactly that Request more; what is not sent leaves attempt and history as they were; if the process died with a Request uncounted, it was this one, and the record is as it was |
| KeyprovCoordinator.Coordinator.RequestMayGo | src/v2c_key_provisioning_coordinator.cpp:2091-2162 | A Request that passed all checks obeys the rule of the history, and the accounting after it agrees with the history again |
| KeyprovCoordinator.Coordinator.SendRequest | src/v2c_key_provisioning_coordinator.cpp:2145-2161 | The same for a Request that passed all checks |
| KeyprovCoordinator.Coordinator.StoreRequest | src/v2c_key_provisioning_coordinator.cpp:2145-2161 | Accounting and storing of a Request that MQTT took keep the invariant, or the process dies and the record is as it was |
| KeyprovCoordinator.Coordinator.CountRequest | src/v2c_key_provisioning_coordinator.cpp:2145-2161 | The accounting of one Request: one more counted, first-send time and deadlines set as the ledger says |
| KeyprovCoordinator.Coordinator.EnterReconcileOldAttempt | src/v2c_key_provisioning_coordinator.cpp:964-974 | The old attempt is kept, and its reconciliation stored |
| KeyprovCoordinator.Coordinator.TransitionTo | src/v2c_key_provisioning_coordinator.cpp:1460-1474 | The new state is entered, with its recovery phase |
| KeyprovCoordinator.Coordinator.CreateNewAttempt | src/v2c_key_provisioning_coordinator.cpp:857-962 | Called only without an id, after a release, or in a world whose first record cannot be relied on: a new attempt is adopted exactly if it can be built and no SEC outcome is unknown, and its adoption is the next thing in the history, followed by its Request if that was sent; its id is a new one unless the old attempt was its own successor; a stored successor is the only id that may follow |
| KeyprovCoordinator.Coordinator.StartAttempt | src/v2c_key_provisioning_coordinator.cpp:879-960 | The adoption is stored before anything is sent, as that of an attempt that has sent nothing, reuses the stored successor, and freezes the candidate |
| KeyprovCoordinator.Coordinator.SilenceIsKept | src/v2c_key_provisioning_coordinator.cpp:2091-2100 | A barred attempt that has a fingerprint or a lease has spent its budget, so that entering a state in which Requests are sent keeps it silent |
| KeyprovCoordinator.Coordinator.Adopt | src/v2c_key_provisioning_coordinator.cpp:895-959 | Everything known of the old attempt is dropped; chain and migration token survive |
| KeyprovCoordinator.Coordinator.Terminalize | src/v2c_key_provisioning_coordinator.cpp:879-893 | The old id heads the bounded list of ended attempts; the superseded id is set only once |
| KeyprovCoordinator.Coordinator.ForgetProgress | src/v2c_key_provisioning_coordinator.cpp:919-957 | Nothing is pending, awaited, attempted, blocked or unknown any more, and the next generation of the store has begun |
| KeyprovCoordinator.Coordinator.PublishStatusRequest | src/v2c_key_provisioning_coordinator.cpp:1178-1208 | A status request for the current id is entered in the history exactly when MQTT took it; during a reconciliation the state is left exactly when it did not |
| KeyprovCoordinator.Coordinator.SendStatusRequest | src/v2c_key_provisioning_coordinator.cpp:1178-1208 | The attempt is untouched, and waiting for a status means that one was asked for |
| KeyprovCoordinator.Coordinator.AwaitStatus | src/v2c_key_provisioning_coordinator.cpp:1193-1202 | What is awaited is bound to the present generation and fingerprint |
| KeyprovCoordinator.Coordinator.ResetStabilization | src/v2c_key_provisioning_coordinator.cpp:1566-1577 | A reset forgets count and window, and only those |
| KeyprovCoordinator.Coordinator.ObserveNotFound | src/v2c_key_provisioning_coordinator.cpp:1579-1620 | The count goes on exactly for the same id, generation and non-zero epoch, and starts at one otherwise |
| KeyprovCoordinator.Coordinator.ObserveRead | src/v2c_key_provisioning_coordinator.cpp:1589-1620 | The counted reads are the run the history ends in |
| KeyprovCoordinator.Coordinator.QueryOwnImport | src/v2c_key_provisioning_coordinator.cpp:996-1010 | A COMMITTED answer is remembered with the history |
| KeyprovCoordinator.Coordinator.BreakRun | src/v2c_key_provisioning_coordinator.cpp:1566-1577 | A read other than a strong NOT_FOUND or COMMITTED ends the run, and is entered in the history |
| KeyprovCoordinator.Coordinator.PassOver | src/v2c_key_provisioning_coordinator.cpp:1039-1049 | A COMMITTED read with items missing is entered in the history, and neither counts nor ends the run |
| KeyprovCoordinator.Coordinator.ReconcileSecJournal | src/v2c_key_provisioning_coordinator.cpp:996-1176 | SEC is asked first; a look at the cloud is allowed only with a known outcome or a scheduled retry, and a known outcome rests on a strong NOT_FOUND just read for this id; an unresolved attempt is counted for or proven as each answer says; without an id nothing at all happens |
| KeyprovCoordinator.Coordinator.JudgeAnswer | src/v2c_key_provisioning_coordinator.cpp:1021-1176 | What each answer leads to: a strong NOT_FOUND about an unresolved attempt is counted, and proves it exactly if that is enough; COMMITTED with items missing changes the items only |
| KeyprovCoordinator.Coordinator.OnCommitted | src/v2c_key_provisioning_coordinator.cpp:1021-1052 | With all items the attempt is UNRESOLVED, its run is over and its acknowledgement due; with items missing the attempt, its run and its resolution stay, the outcome is unknown, and a retry is stored |
| KeyprovCoordinator.Coordinator.ResumeAck | src/v2c_key_provisioning_coordinator.cpp:1021-1052 | Complete COMMITTED items override a proof that there was no side effect |
| KeyprovCoordinator.Coordinator.RestoreAck | src/v2c_key_provisioning_coordinator.cpp:1028-1038 | The acknowledgement is due again, and every flag of an earlier one is cleared |
| KeyprovCoordinator.Coordinator.OnWeakNotFound | src/v2c_key_provisioning_coordinator.cpp:1054-1069 | NOT_FOUND of an old contract proves nothing and ends the run |
| KeyprovCoordinator.Coordinator.OnStrongNotFound | src/v2c_key_provisioning_coordinator.cpp:1070-1112 | A strong NOT_FOUND about an unresolved attempt is counted, and proves it exactly if that is enough; it changes nothing once it is proven, and allows no look at the cloud after a conflict |
| KeyprovCoordinator.Coordinator.CountNotFound | src/v2c_key_provisioning_coordinator.cpp:1092-1112 | The attempt is proven exactly when count and window suffice and no items are pending; the count goes on from the run before exactly for the same id, generation and epoch |
| KeyprovCoordinator.Coordinator.Stabilizing | src/v2c_key_provisioning_coordinator.cpp:1092-1097 | Counting goes on in STABILIZING_NOT_FOUND, or in the legacy state |
| KeyprovCoordinator.Coordinator.ProveNoSideEffects | src/v2c_key_provisioning_coordinator.cpp:1622-1646 | The proof is stored together with the run it rests on |
| KeyprovCoordinator.Coordinator.OnContraryEvidence | src/v2c_key_provisioning_coordinator.cpp:1113-1171 | Contrary evidence after the proof is a hard conflict; before it, the outcome is unknown and the run is over |
| KeyprovCoordinator.Coordinator.StayClosed | src/v2c_key_provisioning_coordinator.cpp:1133-1170 | The outcome is unknown and a retry is scheduled |
| KeyprovCoordinator.Coordinator.Suppressed | src/v2c_key_provisioning_coordinator.cpp:1508-1524 | Only the same observation as last time counts as repeated |
| KeyprovCoordinator.Coordinator.EnterHardBlocked | src/v2c_key_provisioning_coordinator.cpp:1648-1668 | The conflict is recorded as the resolution of the attempt, and nothing else of it changes |
| KeyprovCoordinator.Coordinator.MarkHardBlocked | src/v2c_key_provisioning_coordinator.cpp:1648-1668 | HARD_BLOCKED, with its reason |
| KeyprovCoordinator.Coordinator.DoAck | src/v2c_key_provisioning_coordinator.cpp:2448-2527 | What a round of acknowledgement sends: nothing; one acknowledgement of the items, before D, within the budget and not while another is awaited; or one status request instead, after D, without budget or while the acknowledgement stays unanswered |
| KeyprovCoordinator.Coordinator.AckOrAsk | src/v2c_key_provisioning_coordinator.cpp:2465-2527 | The same, once the items are known |
| KeyprovCoordinator.Coordinator.AskUnlessAsked | src/v2c_key_provisioning_coordinator.cpp:2472-2485 | Only a status request is sent, and none after one that went out in place of an acknowledgement |
| KeyprovCoordinator.Coordinator.AskInsteadOfAck | src/v2c_key_provisioning_coordinator.cpp:2486-2503 | A status request is in the history exactly when it counts as sent; its deadline starts; the attempt is untouched |
| KeyprovCoordinator.Coordinator.SendAck | src/v2c_key_provisioning_coordinator.cpp:2505-2527 | Exactly one acknowledgement of the items is in the history and counted, or nothing was sent |
| KeyprovCoordinator.Coordinator.AckMayGo | src/v2c_key_provisioning_coordinator.cpp:2465-2527 | An acknowledgement that passed all checks obeys the rule of the history, and the accounting after it agrees with the history again |
| KeyprovCoordinator.Coordinator.PublishAck | src/v2c_key_provisioning_coordinator.cpp:2516-2526 | Either one acknowledgement more is counted and in the history, or attempt and history are as they were |
| KeyprovCoordinator.Coordinator.StoreAck | src/v2c_key_provisioning_coordinator.cpp:2516-2526 | Accounting and storing of an acknowledgement that MQTT took keep the invariant |
| KeyprovCoordinator.Coordinator.CountAck | src/v2c_key_provisioning_coordinator.cpp:2517-2522 | The accounting of one acknowledgement |
| KeyprovCoordinator.Coordinator.EnterReconcileEvidence | src/v2c_key_provisioning_coordinator.cpp:1670-1677 | The evidence is looked into again, later |
| KeyprovCoordinator.Coordinator.WaitIn | src/v2c_key_provisioning_coordinator.cpp:1348-1404 | Waiting in a reconciliation state always schedules the next look |
| KeyprovCoordinator.Coordinator.ApplyCloudMatrix | src/v2c_key_provisioning_coordinator.cpp:1328-1406 | A successor is created exactly when the attempt is proven, the cloud releases and the chain has room; every other path waits for a later time |
| KeyprovCoordinator.Coordinator.SupersedeRemoteOnce | src/v2c_key_provisioning_coordinator.cpp:1425-1458 | Released exactly when the chain has room; reused exactly when a successor was stored |
| KeyprovCoordinator.Coordinator.StoreRelease | src/v2c_key_provisioning_coordinator.cpp:1444-1456 | Release and successor are stored together; a new successor costs exactly one slot, a stored one none |
| KeyprovCoordinator.Coordinator.ChooseSuccessor | src/v2c_key_provisioning_coordinator.cpp:1444-1454 | The stored successor, or an id never used before |
| KeyprovCoordinator.Coordinator.DoReconcile | src/v2c_key_provisioning_coordinator.cpp:1210-1247 | Only a cloud status that releases may replace the attempt; without an id nothing at all happens |
| KeyprovCoordinator.Coordinator.StatusDeadline | src/v2c_key_provisioning_coordinator.cpp:1239-1245 | After the deadline of a status request the next one is due at a later time; before it nothing changes |
| KeyprovCoordinator.Coordinator.HandleReconcileStatus | src/v2c_key_provisioning_coordinator.cpp:1249-1324 | No status spin: afterwards the adoption of another attempt is the last thing in the history, or nothing is being reconciled, or the next query lies strictly in the future; the adopted id is a new one unless the attempt was its own successor |
| KeyprovCoordinator.Coordinator.JudgeStatus | src/v2c_key_provisioning_coordinator.cpp:1286-1324 | The attempt is replaced only when proven, known and released by the status just cached |
| KeyprovCoordinator.Coordinator.CacheStatus | src/v2c_key_provisioning_coordinator.cpp:1281-1284 | The cached status is one the cloud reported for this id |
| KeyprovCoordinator.Coordinator.DoCheck | src/v2c_key_provisioning_coordinator.cpp:2002-2076 | ACTIVE exactly when every purpose has an active key and no acknowledgement is due; no answer of SEC means BLOCKED or RETRY_WAIT; an attempt with a fingerprint is never replaced; and a new attempt is adopted exactly when keys are missing, there is no id or no fingerprint, no SEC outcome is unknown, and the new attempt can be built |
| KeyprovCoordinator.Coordinator.KeysAreActive | src/v2c_key_provisioning_coordinator.cpp:2008-2026 | ACTIVE exactly when no acknowledgement is due |
| KeyprovCoordinator.Coordinator.RequestAgain | src/v2c_key_provisioning_coordinator.cpp:2052-2056 | An unchanged content is sent again under the same id: one Request more in history and count, or none in both |
| KeyprovCoordinator.Coordinator.MaybeFreshen | src/v2c_key_provisioning_coordinator.cpp:2180-2202 | A refresh needs a proven attempt, a known outcome, the cloud in ACK_PENDING, an expired lease, an unused allowance and room in the request budget; without one of them nothing changes |
| KeyprovCoordinator.Coordinator.ChargeFreshen | src/v2c_key_provisioning_coordinator.cpp:2180-2202 | The one allowance is spent and stored before anything is sent |
| KeyprovCoordinator.Coordinator.OnResponseTimeout | src/v2c_key_provisioning_coordinator.cpp:2204-2226 | Another try exactly while the request budget lasts |
| KeyprovCoordinator.Coordinator.ReconcileSlowly | src/v2c_key_provisioning_coordinator.cpp:2164-2175 | The old attempt is reconciled at the interval of status requests |
| KeyprovCoordinator.Coordinator.DoImport | src/v2c_key_provisioning_coordinator.cpp:2228-2298 | Items are handed to SEC only after the import was recorded; the attempt becomes UNRESOLVED, also after a conflict, exactly with its first recording, and keeps its resolution and its stabilisation otherwise; where an answer other than COMMITTED leads |
| KeyprovCoordinator.Coordinator.RecordImport | src/v2c_key_provisioning_coordinator.cpp:2235-2242 | The record is stored before SEC is called |
| KeyprovCoordinator.Coordinator.ImportOwn | src/v2c_key_provisioning_coordinator.cpp:2256-2296 | What SEC answers about the items just handed over is remembered with the history |
| KeyprovCoordinator.Coordinator.HandleImportResult | src/v2c_key_provisioning_coordinator.cpp:2351-2446 | Where each answer of SEC leads, and that only COMMITTED changes the attempt |
| KeyprovCoordinator.Coordinator.AcknowledgeImport | src/v2c_key_provisioning_coordinator.cpp:2351-2384 | A result that is complete, attested and bound to the Response becomes the items to acknowledge; any other blocks |
| KeyprovCoordinator.ResponseValid | src/v2c_key_provisioning_coordinator.cpp:2633-2667 | A Response is usable exactly when it has as many items as purposes and the first item of each purpose is well-formed |
| KeyprovCoordinator.ImportResultBindable | src/v2c_key_provisioning_coordinator.cpp:2300-2349 | A result may be acknowledged exactly when it has as many items as purposes and the first item of each purpose is attested and bound to the first Response item of that purpose |
| KeyprovCoordinator.PurposesComplete | src/v2c_key_provisioning_coordinator.cpp:2615-2631 | Complete exactly when the numbers match and each purpose has an active key with a version |
| KeyprovCoordinator.Coordinator.Tick | src/v2c_key_provisioning_coordinator.cpp:1847-1891 | While the gate is closed or the clock is wrong, nothing is sent and the attempt stays; a stuck process stays as it is |
| KeyprovCoordinator.Coordinator.GateClosed | src/v2c_key_provisioning_coordinator.cpp:1857-1877 | Which states fall back to WAIT_CLOUD, and that the identity is void |
| KeyprovCoordinator.Coordinator.ClockNotSynced | src/v2c_key_provisioning_coordinator.cpp:1879-1887 | Only REQUESTING falls back |
| KeyprovCoordinator.Coordinator.Advance | src/v2c_key_provisioning_coordinator.cpp:1889-2000 | In a waiting state nothing happens before its time, in ACTIVE nothing at all; outside the states that resolve an old attempt an id with a fingerprint stays; a stuck process stays as it is |
| KeyprovCoordinator.Coordinator.Proceed | src/v2c_key_provisioning_coordinator.cpp:1893-1927 | While an attempt is under way its id stays, if it has a fingerprint |
| KeyprovCoordinator.Coordinator.Resolve | src/v2c_key_provisioning_coordinator.cpp:1929-2000 | While an old attempt is resolved nothing happens before the next retry, and a blocked one waits for an event |
| KeyprovCoordinator.Coordinator.Supersede | src/v2c_key_provisioning_coordinator.cpp:1954-1957 | An id with a stored successor is followed by that successor or by nothing |
| KeyprovCoordinator.Coordinator.CheckNow | src/v2c_key_provisioning_coordinator.cpp:1896-1900 | The same as a check, from any state but a stored release |
| KeyprovCoordinator.Coordinator.ObserveTermination | src/v2c_key_provisioning_coordinator.cpp:1958-1991 | Asking the cloud again never replaces the attempt |
| KeyprovCoordinator.Coordinator.HandleRoutedDownlink | src/v2c_key_provisioning_coordinator.cpp:590-811 | Messages for another id, of another generation or of another kind change nothing, neither attempt nor record nor history; a status handled during reconciliation does not spin |
| KeyprovCoordinator.Coordinator.HandleResponse | src/v2c_key_provisioning_coordinator.cpp:633-727 | The import starts only from a successful Response with as many items as purposes, and with its lease stored; nothing else of the attempt changes |
| KeyprovCoordinator.Coordinator.RefusedResponse | src/v2c_key_provisioning_coordinator.cpp:639-665 | Where each kind of failure leads: a retryable one to another try exactly while the request budget lasts |
| KeyprovCoordinator.Coordinator.RetryWithinBudget | src/v2c_key_provisioning_coordinator.cpp:686-698 | Another try exactly while the request budget lasts, and otherwise the reconciliation |
| KeyprovCoordinator.Coordinator.TakeResponse | src/v2c_key_provisioning_coordinator.cpp:699-727 | Lease and ACK deadline are those of the Response |
| KeyprovCoordinator.Coordinator.HandleAckResult | src/v2c_key_provisioning_coordinator.cpp:728-758 | The state each verdict leads to |
| KeyprovCoordinator.Coordinator.HandleStatus | src/v2c_key_provisioning_coordinator.cpp:759-806 | The state each status leads to while the attempt is under way |
| KeyprovInvariant.RecordIsInStep | src/v2c_key_provisioning_coordinator.cpp:214-258 | Every record that can be relied on agrees with the history that begins with it |
| KeyprovInvariant.LossIsCounted | src/v2c_key_provisioning_coordinator.cpp:2145-2161 | A restart after a crash between a message and its accounting accounts for it: that message is the last thing in the history, and afterwards record and history agree with nothing uncounted |
| KeyprovInvariant.RequestIsLegal | src/v2c_key_provisioning_coordinator.cpp:2091-2144 | A Request the budget allows, made of the frozen content, is within limit, window and payload of its id |
| KeyprovInvariant.RequestIsCounted | src/keyprov_lifecycle.cpp:284-292 | The preconsumed budget counts the Request |
| KeyprovInvariant.AckIsLegal | src/v2c_key_provisioning_coordinator.cpp:2465-2515 | An acknowledgement of committed items before the deadline and within the budget is in order |
| KeyprovInvariant.AckIsCounted | src/keyprov_lifecycle.cpp:314-320 | The preconsumed budget counts the acknowledgement |
| KeyprovInvariant.CommittedKeepsStep | src/v2c_key_provisioning_coordinator.cpp:1021-1052 | SEC's COMMITTED overrides a proof without contradicting the history |
| KeyprovInvariant.CommittedIsRecorded | src/v2c_key_provisioning_coordinator.cpp:1021-1038 | COMMITTED is stored together with the read that says so |
| KeyprovInvariant.ConflictIsRecorded | src/v2c_key_provisioning_coordinator.cpp:1648-1668 | A contradiction is stored together with the read that shows it |
| KeyprovInvariant.RunGrows | src/v2c_key_provisioning_coordinator.cpp:1589-1620 | The memory of a stabilisation is the run of reads the history ends in |
| KeyprovInvariant.ReadIsRemembered | src/v2c_key_provisioning_coordinator.cpp:1566-1577 | A read that ends the stabilisation leaves no claim about a run |
| KeyprovInvariant.CommittedReadIsRemembered | src/v2c_key_provisioning_coordinator.cpp:1021-1049 | After a COMMITTED read the items to acknowledge are those it brought, and either the stabilisation starts anew or the run is passed on as it was |
| KeyprovInvariant.ProofKeepsStep | src/v2c_key_provisioning_coordinator.cpp:1622-1646 | Enough reads over the whole window justify the stored proof |
| KeyprovInvariant.ReleaseKeepsStep | src/v2c_key_provisioning_coordinator.cpp:1425-1458 | A release of a proven attempt stores the successor already chosen, or a new id for which the chain has room |
| KeyprovInvariant.AdoptionKeepsStep | src/v2c_key_provisioning_coordinator.cpp:857-962 | Adopting the released successor, or a new first id, is in order, and nothing was ever sent under it |
| KeyprovInvariant.HandedIsKnown | src/v2c_key_provisioning_coordinator.cpp:2235-2298 | What SEC was handed in a history is an id of that history, or was handed before |
| KeyprovInvariant.ImportIsRecorded | src/v2c_key_provisioning_coordinator.cpp:2235-2242 | Recording an import makes the attempt unresolved, and record and memory agree with the history again |
| KeyprovInvariant.LeaseKeepsStep | src/v2c_key_provisioning_coordinator.cpp:699-706 | The stored deadline belongs to the lease in force |
| KeyprovInvariant.FresheningKeepsStep | src/v2c_key_provisioning_coordinator.cpp:2180-2202 | A refresh is charged once |
| KeyprovInvariant.FingerprintBindsIdentity | src/v2c_key_provisioning_coordinator.cpp:2101-2109 | Two identities with one fingerprint are the same |
| KeyprovInvariant.BarredIsSpent | src/keyprov_lifecycle.cpp:225-234 | Whoever is barred and has a fingerprint or a lease has spent its budget |
| KeyprovInvariant.SpentSuccessor | src/v2c_key_provisioning_coordinator.cpp:857-962 | A barred id does not come back as a successor |
| KeyprovWorld.World.Save | src/v2c_key_provisioning_store.cpp:449-459 | A process that lives on has stored the record, which loads back with the same core, in the instant the history takes its next event; one that dies has stored nothing, and the history is as it was |
| KeyprovWorld.World.Publish | src/v2c_key_provisioning_coordinator.cpp:2671-2743 | A message that was taken is in the history and not yet counted; a dead process sends nothing |
| KeyprovWorld.World.QueryImportResult | src/v2c_key_provisioning_coordinator.cpp:996-1020 | SEC reports COMMITTED only for an id that was handed to it, in this history or before it |
| KeyprovWorld.World.ImportKeys | src/v2c_key_provisioning_coordinator.cpp:2256-2296 | What is handed to SEC is in the history before its answer |
| KeyprovWorld.World.Restart | src/v2c_key_provisioning_coordinator.cpp:205-265 | The next process finds what was stored last; if the one before died between a message and its accounting, this restart is the one that lost it |
| KeyprovWorld.World.Stray | src/v2c_key_provisioning_store.cpp:449-456 | The world of a process whose store is not ready: an empty record, the SEC journal and the ids in use of the others |
| KeyprovWorld.World.Absorb | src/v2c_key_provisioning_store.cpp:449-456 | When that process has ended, nothing of it is left but what SEC was handed and the ids in use, and the rested history is untouched |
| KeyprovWorld.ReadState | src/v2c_key_provisioning_coordinator.cpp:95-147 | The state a record names, and WAIT_CLOUD for a record that is not valid |
| KeyprovWorld.World.constructor | src/v2c_key_provisioning_coordinator.cpp:205-265 | The world of any valid or empty initial record: where its history begins, and whether the record can be relied on |
| KeyprovWorld.World.GenerateId | src/v2c_key_provisioning_coordinator.cpp:2769-2778 | The id was never used before |
| KeyprovTypes.StateNameRoundTrip | src/v2c_key_provisioning_coordinator.cpp:95-147 | The stored name of each of the 20 states is read back as that state |
| KeyprovTypes.CheckAckItems | src/keyprov_protocol.cpp:368-400 | The encoder accepts only items with the exact attestation lengths and algorithm, and otherwise reports the error of the first bad item |
| KeyprovLifecycle.ImportTimesDownwardClosed | src/keyprov_lifecycle.cpp:69-220 | With the other facts fixed, the times at which the table answers IMPORT are downward closed |
| KeyprovLifecycle.ImportIsAdmitted | src/keyprov_lifecycle.cpp:69-220 | IMPORT is answered only for a fresh, bound, unimported payload with the full lease margin under a trusted clock, and never for an attempt that is to be replaced |
| KeyprovLifecycle.SharedReadonlyWindow | src/keyprov_lifecycle.cpp:236-256 | Any interleaving of guarded status and SEC-query grants on a fresh ledger keeps counts and window start in step with the grants |
| KeyprovLifecycle.ReadonlyGrantsBounded | src/keyprov_lifecycle.cpp:294-312 | Each kind is granted at most `readonly_limit` times, and every grant lies less than two windows after the first |
| KeyprovLifecycle.OneWindowIsExceeded | src/keyprov_lifecycle.cpp:294-312 | One window is not a bound: with the default parameters a grant lies almost two windows after the first |
| KeyprovLifecycle.OneWindowExactly | src/keyprov_lifecycle.cpp:236-256 | A grant a window or more after the first is possible exactly when the shared start was moved and one of the budgets has a grant left |
| KeyprovLifecycle.GrantKeepsHistory | src/keyprov_lifecycle.cpp:236-256 | One guarded grant of either kind keeps that agreement |
| KeyprovLifecycle.BudgetLedger.GrantStatus | src/keyprov_lifecycle.cpp:294-302 | Granted exactly when the status budget is open, with the whole new ledger |
| KeyprovLifecycle.BudgetLedger.GrantSecQuery | src/keyprov_lifecycle.cpp:304-312 | Granted exactly when the SEC-query budget is open, with the whole new ledger |
| KeyprovLifecycle.SecondAckExactly | src/keyprov_lifecycle.cpp:314-320 | A second acknowledgement passes the budget exactly if one is left and D was set before the first and is not over; without D the first makes its own time the deadline, and none follows |
| KeyprovLifecycle.ChargedSlotExactly | src/keyprov_lifecycle.cpp:273-282 | A successor whose slot is charged may be taken later exactly if it was not the last slot and the time of the chain is not over |
| KeyprovAttempt.FingerprintIdentifiesContent | src/keyprov_attempt.cpp:151-225 | Two accepted snapshots have one fingerprint exactly when domain, sets of purposes, suites and formats, purpose-to-greatest-version maps and the three digests agree |
| KeyprovAttempt.DecodeInvertsEncode | src/keyprov_attempt.cpp:151-225 | Decoding the hashed bytes gives the normal form of the snapshot |
| KeyprovAttempt.ComputeAttemptFingerprintV1 | src/keyprov_attempt.cpp:151-225 | The appending implementation computes the specified bytes and digest, and refuses what the specification refuses |
| KeyprovAttempt.SortDedupInt | src/keyprov_attempt.cpp:46-50 | Sorting and removing adjacent duplicates gives the sorted list of distinct elements |
| KeyprovAttempt.SortDedupVersions | src/keyprov_attempt.cpp:52-67 | Sorting and merging gives each purpose once, in order, with its greatest version |
| KeyprovAttempt.StrictlyIncreasingUnique | src/keyprov_attempt.cpp:46-50 | A strictly increasing list is determined by its elements, so the normal form does not depend on order or duplicates |
| KeyprovAttempt.NormalVersionsMeaning | src/keyprov_attempt.cpp:52-67 | Two version lists have one normal form exactly when their purpose-to-greatest-version maps agree |
| KeyprovAttempt.AppendCountedInts | src/keyprov_attempt.cpp:18-30 | The append loop writes count and elements, most significant byte first |
| KeyprovAttempt.AppendCountedVersions | src/keyprov_attempt.cpp:18-30 | The same for versions |
| KeyprovAttempt.BuildSnapshot | src/keyprov_attempt.cpp:240-331 | A built snapshot can be fingerprinted, is unchanged against itself, asks for the set of the configured purposes and holds for each the greatest version SEC reports, under the one suite and format, and carries the normalised digests of the identity |
| KeyprovAttempt.DifferentFingerprintIsAChange | src/keyprov_attempt.cpp:351-377 | Different fingerprints always show as a change of some dimension |
| KeyprovAttempt.BuiltSnapshotFits | src/keyprov_attempt.cpp:240-331 | The lists of a built snapshot fit the 32-bit counts |
| KeyprovBytes.BigEndianRoundTrip | src/keyprov_attempt.cpp:18-30 | A fixed-width big-endian number is read back |
| KeyprovStore.LoadInvertsSave | src/v2c_key_provisioning_store.cpp:210-391 | A well-formed record is loaded as it was saved |
| KeyprovStore.SavedIsDerived | src/v2c_key_provisioning_store.cpp:210-391 | Of any record of the current schema, load returns what was saved, with the derived members filled in |
| KeyprovStore.MigrationIsStable | src/v2c_key_provisioning_store.cpp:210-391 | Whatever version an object had, saving what was loaded and loading again gives the same record |
| KeyprovStore.LoadedIsWellFormed | src/v2c_key_provisioning_store.cpp:210-391 | Every loaded record is well-formed, so the round trip applies to it |
| KeyprovStore.OldRecordIsFailClosed | src/v2c_key_provisioning_store.cpp:253-298 | A record older than version 5 without a request count is loaded with a spent budget, without evidence its import counts as unresolved, and before version 4 it has no successor and no stabilisation |
| KeyprovStore.SnapshotRoundTrip | src/v2c_key_provisioning_store.cpp:89-132 | A snapshot is read back from its JSON object |
| KeyprovStore.VersionsRoundTrip | src/v2c_key_provisioning_store.cpp:89-132 | Version pairs are read back |
| KeyprovStore.HexRoundTrip | src/v2c_key_provisioning_store.cpp:31-61 | Hexadecimal text is read back as the bytes it was made of |
| KeyprovStore.HexEncode | src/v2c_key_provisioning_store.cpp:31-40 | The loop computes the specified text |
| KeyprovStore.HexDecode | src/v2c_key_provisioning_store.cpp:42-61 | The loop computes the specified bytes, and nothing for odd or foreign text |
| KeyprovStore.Store.Load | src/v2c_key_provisioning_store.cpp:205-447 | The aggregate object hides the legacy keys even when it cannot be read |
| KeyprovStore.Store.Save | src/v2c_key_provisioning_store.cpp:449-459 | The stored object is that of the record |
| KeyprovStore.Store.Clear | src/v2c_key_provisioning_store.cpp:461-477 | Both forms are removed |
| VehicleGateway.Run | src/vehicle_message_gateway.cpp:315-756 | Critical sections of any threads in any order: every entry ever terminal stays as it was, completions and timeouts together never exceed requests, the table never exceeds `max_in_flight`, table and tombstone keys are disjoint, every accepted entry holds a valid response to itself, and while the gateway is orderly an id is used again only after the earlier call returned and, if that was published, not before its window was over |
| VehicleGateway.Step | src/vehicle_message_gateway.cpp:315-756 | One critical section of any thread keeps the invariant, and terminal entries stay as they are |
| VehicleGateway.AllOfShared | src/vehicle_message_gateway.cpp:681-695 | What the invariant says to a reader: counters, table size, disjoint keys, what every accepted entry holds, and when an id is used again |
| VehicleGateway.EvolvesTransitive | src/vehicle_message_gateway.cpp:163-198 | Terminal once, unchanged ever after, over any number of steps |
| VehicleGateway.CountersAddUp | src/vehicle_message_gateway.cpp:681-695 | Completed exchanges and timeouts together never exceed the requests |
| VehicleGateway.TalliesAddUp | src/vehicle_message_gateway.cpp:681-695 | Entries counted as timed out and entries counted as completed together are no more than the entries |
| VehicleGateway.RegisteringIsLate | src/vehicle_message_gateway.cpp:357-384 | An id may be registered only when no call lives under it and, if it was published, not before the window after it became terminal |
| VehicleGateway.OwnEntry | src/vehicle_message_gateway.cpp:452-493 | What a live call finds in the table under its id is its own entry |
| VehicleGateway.RegisteringKeeps | src/vehicle_message_gateway.cpp:357-384 | Entering a new entry keeps all invariants |
| VehicleGateway.TerminatingKeeps | src/vehicle_message_gateway.cpp:432-450 | Ending an entry keeps all invariants; accepted only with a valid response |
| VehicleGateway.MarkingKeeps | src/vehicle_message_gateway.cpp:416-419 | Marking an entry as published keeps all invariants |
| VehicleGateway.WakingKeeps | src/vehicle_message_gateway.cpp:432-450 | Waking up keeps all invariants |
| VehicleGateway.GivingUpKeeps | src/vehicle_message_gateway.cpp:394-415 | A refused publication keeps all invariants |
| VehicleGateway.FinishingKeeps | src/vehicle_message_gateway.cpp:452-493 | Returning from an exchange keeps all invariants |
| VehicleGateway.ReturningKeepsReuse | src/vehicle_message_gateway.cpp:452-460 | A returning call leaves its id protected, and takes nobody else's protection away |
| VehicleGateway.RetiringKeeps | src/vehicle_message_gateway.cpp:728-736 | Moving an ended entry into protection keeps all invariants |
| VehicleGateway.PurgingKeeps | src/vehicle_message_gateway.cpp:738-746 | Dropping expired protections keeps all invariants, as long as every call returned before its own expired |
| VehicleGateway.FindingKeeps | src/vehicle_message_gateway.cpp:553-577 | A found entry and a valid response belong together |
| VehicleGateway.ClearingKeeps | src/vehicle_message_gateway.cpp:184-195 | Emptying both maps keeps what is still claimed then |
| VehicleGateway.ValidatedResponse | src/vehicle_message_gateway.cpp:204-310 | What validation accepts as a response is one |
| VehicleGateway.Config.WindowMs | src/vehicle_message_gateway.cpp:456-458 | Protection lasts at least 5000 ms, and at least twice the default timeout while that fits 32 bits |
| VehicleGateway.Gateway.constructor | src/vehicle_message_gateway.cpp:98-119 | An empty gateway |
| VehicleGateway.Gateway.Begin | src/vehicle_message_gateway.cpp:319-325 | Refused exactly while stopping |
| VehicleGateway.Gateway.Register | src/vehicle_message_gateway.cpp:327-384 | Entered exactly when valid, with room, and with an id that is neither in the table nor protected; the deadline is that of a look at the clock some time before the table was taken; an id is not used again while another call lives under it, nor before its protection is over |
| VehicleGateway.Gateway.PublishFailed | src/vehicle_message_gateway.cpp:394-415 | The caller's own entry leaves the table, and nobody else's |
| VehicleGateway.Gateway.MarkAccepted | src/vehicle_message_gateway.cpp:416-419 | Publication completes nothing |
| VehicleGateway.Gateway.Wake | src/vehicle_message_gateway.cpp:432-450 | The thread goes on exactly when its entry is terminal or its deadline is over, and only the one that ends it counts the timeout |
| VehicleGateway.Gateway.TimeOut | src/vehicle_message_gateway.cpp:721-727 | The outcome of an overdue entry tells whether MQTT had taken the message |
| VehicleGateway.Gateway.Finish | src/vehicle_message_gateway.cpp:452-493 | An accepted result carries the response delivered to its own entry; the own id leaves the table and is protected for the window |
| VehicleGateway.Gateway.Leave | src/vehicle_message_gateway.cpp:452-493 | The result is what the thread copied when it woke up |
| VehicleGateway.Gateway.Lookup | src/vehicle_message_gateway.cpp:516-577 | A delivery goes to the entry its correlation id names, and only a valid response does |
| VehicleGateway.Gateway.Complete | src/vehicle_message_gateway.cpp:579-637 | The first fitting response completes an entry, one too large fails it, one of another service or after the end changes nothing |
| VehicleGateway.Gateway.OthersAct | src/vehicle_message_gateway.cpp:315-637 | Other threads may end entries meanwhile, and do no more than that |
| VehicleGateway.Gateway.Visit | src/vehicle_message_gateway.cpp:712-736 | Overdue entries end; entries ended for longer than the grace leave the table into protection |
| VehicleGateway.Gateway.Pass | src/vehicle_message_gateway.cpp:705-736 | The sweeper looks at the entries of its own shard |
| VehicleGateway.Gateway.Purge | src/vehicle_message_gateway.cpp:738-746 | Exactly the expired protections are dropped |
| VehicleGateway.Gateway.Sweep | src/vehicle_message_gateway.cpp:697-753 | The sweeper looks at the clock some time before it takes the table: after its pass every entry of the shard that was overdue at that look is terminal, ids only leave the table into protection, and that lasts a window from the look |
| VehicleGateway.Gateway.StopCalls | src/vehicle_message_gateway.cpp:163-182 | Every entry in the table ends |
| VehicleGateway.Gateway.StopEntry | src/vehicle_message_gateway.cpp:163-182 | An entry that was still open ends as stopping |
| VehicleGateway.Gateway.Clear | src/vehicle_message_gateway.cpp:184-198 | Both maps are emptied, and with them every protection |
| SubscriptionSnapshots.DigestIdentifiesSet | src/snapshot_builder.cpp:13-51 | Two catalogues with unique routes and fields without a bar have one digest exactly when they hold the same items, in whatever order; newlines do no harm |
| SubscriptionSnapshots.GenerationFollowsContent | src/snapshot_builder.cpp:53-74 | A positive generation is used again exactly when the set of items is unchanged; the snapshot holds the same items in strictly increasing order of route ids |
| SubscriptionSnapshots.SortingOrders | src/snapshot_builder.cpp:13-19 | Sorting a list with unique routes gives a permutation of it with strictly increasing route ids |
| SubscriptionSnapshots.SortedStays | src/snapshot_builder.cpp:13-19 | Sorting changes nothing in a list in strictly increasing order |
| SubscriptionSnapshots.IncreasingIsUnique | src/snapshot_builder.cpp:13-19 | A list in strictly increasing order is determined by its items |
| SubscriptionSnapshots.ComputeDigest | src/snapshot_builder.cpp:42-51 | The loop over the sorted items computes the digest of the specified text |
| SubscriptionSnapshots.SerializeIsInjective | src/snapshot_builder.cpp:23-40 | An item with fields free of bars is determined by its line |
| SubscriptionSnapshots.LinesAreInjective | src/snapshot_builder.cpp:42-51 | A list of such items is determined by its text |
| SubscriptionSnapshots.LineEnds | src/snapshot_builder.cpp:23-51 | A line ends where its last field ends, whatever newlines its other fields have |
| SubscriptionSnapshots.DecimalIsInjective | src/snapshot_builder.cpp:23-40 | A number is determined by its decimal text |
| SubscriptionSnapshots.BarsCollide | src/snapshot_builder.cpp:23-40 | A bar inside route id or topic gives two different items one line, whatever the rest is |
| SubscriptionSnapshots.TargetsCollide | src/snapshot_builder.cpp:23-40 | A bar inside target or scope does the same |
| SubscriptionSnapshots.CollidingSetsShareDigest | src/snapshot_builder.cpp:53-74 | Wherever one of two such items stands in a catalogue the other may stand: the catalogues share their digest, so a change between them keeps the generation |
| SubscriptionRegistrar.Run | src/subscription_registrar.cpp:43-303 | Any processes, starts, stops, changes, reconnects and retries over one ready store: every generation answered ACCEPTED or UNKNOWN keeps exactly one digest, every adopted change of content has a greater generation, REGISTERED means that the accepted pair is the current one, and the conflict branch is never taken |
| SubscriptionRegistrar.ValidateCatalog | src/subscription_catalog.cpp:94-107 | Accepted exactly when every item is valid and no route id occurs twice |
| SubscriptionRegistrar.Registrar.Submit | src/subscription_registrar.cpp:166-238 | What each answer does to the accepted pair and the state; a conflicting digest is refused on the spot |
| SubscriptionRegistrar.Registrar.Start | src/subscription_registrar.cpp:43-91 | A new registrar, or one that was started before: the stored generation is used again exactly for the stored digest, else the next one; the accepted pair of an earlier start stays true |
| SubscriptionRegistrar.Registrar.TakeUp | src/subscription_registrar.cpp:46-58 | The snapshot is that of the catalogue, and its generation is stored before it is submitted |
| SubscriptionRegistrar.Backend.Save | src/subscription_registrar.cpp:56-58 | A stored pair is the one before, or a greater generation for another digest |
| SubscriptionRegistrar.Registrar.Stop | src/subscription_registrar.cpp:93-101 | Nothing is registered any more |
| SubscriptionRegistrar.Registrar.ApplyCatalogChange | src/subscription_registrar.cpp:240-303 | A change is adopted under the next generation, or refused with catalogue, snapshot and stored generation as they were |
| SubscriptionRegistrar.Registrar.ObserveConnection | src/subscription_registrar.cpp:117-133 | A reconnect is the change from disconnected to connected |
| SubscriptionRegistrar.Registrar.Resubmit | src/subscription_registrar.cpp:135-150 | After a reconnect the current snapshot is submitted again under its generation |
| SubscriptionRegistrar.Registrar.RetryIfDue | src/subscription_registrar.cpp:152-163 | Nothing is submitted before the retry is due or when registered; what is still not registered is tried later |
| SubscriptionRegistrar.Registrar.ScheduleRetry | src/subscription_registrar.cpp:305-309 | The next retry lies in the future, at most 5000 ms away |
| SubscriptionRegistrar.CurrentBackoff | src/subscription_registrar.cpp:311-318 | The loop computes the specified interval, with at most half of it as jitter and 5000 ms as the maximum |
| SubscriptionRegistrar.BackoffBase | src/subscription_registrar.cpp:311-318 | Between 200 and 5000 ms |
| SubscriptionRegistrar.BackoffGrows | src/subscription_registrar.cpp:311-318 | More retries never wait less |
| SubscriptionRegistrar.BackoffSaturates | src/subscription_registrar.cpp:311-318 | From the sixth retry on the interval is the greatest |
| EventPublisher.Run | src/tsp_event_publisher.cpp:63-157 | Producers, worker, start and stop in any order: what came out followed by what is queued is what went in, in order; a worker that ended had taken out everything that was in the queue then |
| EventPublisher.Publisher.constructor | src/tsp_event_publisher.cpp:45-49 | A capacity of 0 means 256 |
| EventPublisher.Publisher.Publish | src/tsp_event_publisher.cpp:81-124 | Queued exactly when the service has room; only the policy Reject tells the caller otherwise |
| EventPublisher.Publisher.TakeOrExit | src/tsp_event_publisher.cpp:139-157 | The oldest event, or the end exactly when stopped with an empty queue |
| EventPublisher.Publisher.Start | src/tsp_event_publisher.cpp:63-69 | A worker runs |
| EventPublisher.Publisher.Stop | src/tsp_event_publisher.cpp:71-79 | The worker is told to end once the queue is empty |
| EventPublisher.QueuedAppend | src/tsp_event_publisher.cpp:100-124 | One more event of its own service, and of no other |

## Left out

- Logging, metrics maps and alert counters, among them the alert for persistent unknown SEC outcomes.
- Worker threads and condition variables of the coordinator, the registrar and the publisher: their steps are atomic under the lock.
- The conditions of the capability gate: whether it is open is an arbitrary input of each tick.
- The coordinator with provisioning disabled by configuration.
- Protobuf, JSON text, base64 and YAML: messages are datatypes, JSON objects are records of optional members, and any message may fail to encode.
- Key material, wrapping, proofs and certificates beyond their lengths and digests.
- Message ids of the coordinator's messages, and correlation of an acknowledgement with its Response.
- The guards against journal evidence of another attempt or generation (coordinator, 1013-1019 and 1591-1593): under one lock the evidence is built from the very fields it is compared with.
- The fingerprint after a restart: its stored text is a digest by an unseen library, so the restored fingerprint is arbitrary, and attempts are immutable within one process only.
- Progress: after a restart the count of a stabilisation is restored without its window, and only safety is claimed.
- "Proven means that no import happened since": the coordinator returns to UNRESOLVED only on the first recorded import. What is proved is that a stabilisation was completed after the first recording.
- "Every acknowledgement covers both purposes": the recovery path does not check completeness.
- `supersedes_request_id` as the immediate predecessor: the source sets it only once.
- Limits on the coordinator's StatusRequests and SEC queries: it never charges them; they are proved of the ledger.
- Counters of the ledger, of the gateway and of a stabilisation are unbounded numbers; only what is stored is reduced to 32 bits.
- The retry multiplier is used as the whole factor the source casts it to; an overflow of the 64-bit product is not modelled.
- C++ members that belong to one attempt are one field `attempt` of a datatype, updated member by member; entries of the gateway are values in a sequence, and a `shared_ptr` to one is its index.
- KeyprovRuns.Run: a store is ready for a whole process or not at all. A store that stops being ready within a process, and whose older record a later process reads, is outside every claim. Safety of the whole history is not claimed from a record that does not `StartsWell`; that it fails there is LegacyIsReplaced, ReleasedBeforeIsUnsafe and OwnSuccessorIsUnsafe.
- KeyprovRuns.RunFromOldRecord: requires the condition that OldRecordIsSpent states as exact; what happens otherwise is OldRecordMaySend.
- KeyprovRuns.LegacyIsReplaced: requires a record that is not its own successor, because then the id does not change, and no unknown SEC outcome, because then nothing is created.
- KeyprovRuns.OldCountCompletes: stated for N = 2, BrokenRunIsProved for N = 3, LossExceedsLimit and TwoLivesExceed for a request limit of one: they are examples. That SEC, MQTT or a crash behave as such a path needs is their choice, which the result reports.
- KeyprovCoordinator.Coordinator.HandleReconcileStatus: intervals are positive and at most 2^31 ms; above that the interval plus its jitter may wrap around at 32 bits.
- KeyprovHistory.RequestsInsideWindow: bounds the reading of the clock at the budget check, because the source checks nothing at the later reading that it stamps; and it says nothing after a crash between a Request of the id and the record that counts it, nor about a first charge at time 0 or unknown, because the ledger then has no start time.
- KeyprovHistory.ProofRestsOnReads: for an initial record without a recorded import it needs one that is not UNRESOLVED and an id that SEC was not handed before (`Vouched`); OldCountCompletes is the input at which it fails without that. What the last COMMITTED answer brought is claimed for configurations with at least one purpose.
- KeyprovHistory.AckIsJustified: bounds the reading of the clock at the check of D, as the source does. Without a positive D the source has no time limit for acknowledgements, and none is claimed.
- KeyprovHistory.ReplacementIsJustified: that a stabilisation before the history was sound is what the initial record says, and is not proved again.
- SubscriptionRegistrar.Run: a store that is not ready and a crash between submission and save are not modelled, and fewer steps are taken than a 64-bit generation can count.
- Route dispatch, IPC, the client facade, MQTT and SEC client libraries, application wiring and the configuration checker: plumbing around the cores.
