/** Whole runs: any number of processes one after another over one store, each stepped in any order by ticks, downlink
    messages and readiness events with arbitrary contents, and each liable to die before any of its effects. */
module KeyprovRuns {
  import opened KeyprovBytes
  import opened KeyprovAttempt
  import opened KeyprovLifecycle
  import opened KeyprovTypes
  import opened KeyprovHistory
  import opened KeyprovStore
  import opened KeyprovInvariant
  import opened KeyprovWorld
  import opened KeyprovCoordinator

  /** The coordinator between two steps of a run. */
  ghost predicate Running(world: World, coordinator: Coordinator)
    reads world, coordinator
  {
    coordinator.world == world && coordinator.Inv()
  }

  /** A new process over what is stored. It is stuck exactly if it finds a legacy record without an id. */
  method Boot(world: World, protocolLock: Bytes) returns (coordinator: Coordinator)
    requires world.Ok() && world.Calm() && (world.stray ==> world.log.Start?) && |protocolLock| == 32
    modifies world`alive, world`log, world`out, world`earliest
    ensures Running(world, coordinator) && fresh(coordinator)
    ensures coordinator.Stuck() <==> IsStranded(world.stored)
    ensures coordinator.attempt == RestoredAttempt(world.stored, coordinator.attempt.frozenFingerprint)
    ensures coordinator.attempt.requestId == world.stored.requestId && !coordinator.secOutcomeUnknown && world.alive
    ensures world.stored.requestId == "" && !world.stored.legacySnapshotUnknown ==> coordinator.state.WaitCloud?
    ensures world.stored.legacySnapshotUnknown ==> coordinator.state.LegacySnapshotUnknown?
    ensures world.stored.requestId != "" && !world.stored.legacySnapshotUnknown ==>
      coordinator.state == coordinator.StartsIn(world.stored, world.phase)
    ensures world.log == Then(old(world.log), Restarted(old(world.out)))
  {
    hide RestoredAttempt;
    var r, restored := world.Restart();
    coordinator := new Coordinator(world, protocolLock, r, restored);
    RestoredCore(r, coordinator.attempt.frozenFingerprint);
  }

  /** One step of the environment's choice. A stuck process stays as it is. */
  method Step(world: World, coordinator: Coordinator)
    requires Running(world, coordinator)
    modifies world, coordinator
    ensures Running(world, coordinator)
    ensures old(coordinator.Stuck()) ==>
      coordinator.Stuck() && world.log == old(world.log) && world.stored == old(world.stored)
  {
    hide world.Ok, coordinator.Consistent;
    var choice: int := *;
    if choice == 0 {
      var refreshed: bool, cap: Option<Capability>, snapshot: Option<ContractSnapshot> := *, *, *;
      var gate: bool, session: Identity, clockSynced: bool := *, *, *;
      coordinator.Tick(refreshed, cap, snapshot, gate, session, clockSynced);
    } else if choice == 1 {
      var rid: string, message: Downlink := *, *;
      var handled := coordinator.HandleRoutedDownlink(rid, message);
    } else {
      var event: Readiness := *;
      coordinator.ReadinessChanged(event);
    }
  }

  /** A process whose store does not work, from its start to its end, while the processes over the store rest. Its
      history is safe, and it sends no more than the limits say. */
  method StrayLife(world: World, protocolLock: Bytes, steps: nat) returns (ghost life: History)
    requires world.Ok() && world.Calm() && !world.stray && |protocolLock| == 32
    modifies world`journal, world`used, world`foreign
    ensures world.Ok() && world.Calm() && IsStray(world.cfg, world.barred, life)
  {
    hide Names, SafeSoFar, CoreOk, Spent, InStep, world.Ok;
    var other := new World.Stray(world);
    OriginOfStart(EMPTY_CORE, world.journal);
    var coordinator := Boot(other, protocolLock);
    for i := 0 to steps
      modifies other, coordinator
      invariant fresh(other) && fresh(coordinator) && Running(other, coordinator)
    {
      Step(other, coordinator);
    }
    life := other.log;
    StrayIsSafe(other);
    world.Absorb(other);
  }

  /** What is claimed of a process without a store. */
  ghost predicate IsStray(cfg: Config, barred: string, h: History)
  {
    Safe(cfg, h) && OriginOf(h).rid == "" && TotalCrashes(h) == 0 && (barred != "" ==> Requests(h, barred) == 0)
  }

  lemma StrayIsSafe(world: World)
    requires world.Ok() && world.stray && world.origin.rid == ""
    ensures IsStray(world.cfg, world.barred, world.log)
  {
    InStepIsSafe(world.cfg, world.core, world.phase, world.log, world.out);
  }

  /** A run of any length, of processes with a store that works and of processes without.
      The processes with a store that works have one history. It begins with what the record and the SEC journal say,
      and it is safe if the record is one that can be relied on. Each process without such a store has a history of its
      own, which is safe. And whatever the run starts from, an id that has spent its budget at the start, or has neither
      a fingerprint nor a lease, sends no Request any more. */
  method Run(cfg: Config, initial: Record, state: State, journal: set<string>, used: set<string>,
             ghost barred: string, protocolLock: Bytes, steps: nat) returns (world: World, ghost strays: seq<History>)
    requires initial.valid <==> initial.requestId != ""
    requires initial.requestId != "" ==> Names(initial.state, state)
    requires Spent(cfg, CoreOf(initial), barred, false) && BarredIsLegacy(cfg, initial, barred)
    requires barred != "" ==> barred in used
    requires |protocolLock| == 32
    ensures OriginOf(world.log) == OriginFor(CoreOf(initial), journal)
    ensures StartsWell(CoreOf(initial), ReadAs(initial, state)) ==> Safe(cfg, world.log)
    ensures barred != "" ==> Requests(world.log, barred) == 0
    ensures forall h :: h in strays ==> IsStray(cfg, barred, h)
  {
    hide Names, SafeSoFar, CoreOk, Spent, Safe, InStep, StartsWell, Requests, OriginOf, OriginFor, CoreOf;
    hide BarredIsLegacy, IsStray;
    world := new World(cfg, initial, state, journal, used, barred);
    OriginOfStart(world.core, journal);
    var coordinator := Boot(world, protocolLock);
    strays := [];
    for i := 0 to steps
      invariant fresh(world) && fresh(coordinator)
      invariant Running(world, coordinator) && forall h :: h in strays ==> IsStray(cfg, barred, h)
    {
      var choice: int := *;
      if choice == 0 {
        coordinator := Boot(world, protocolLock);
      } else if choice == 1 {
        // the next process has no store; the one after it finds what was stored before
        var length: int := *;
        ghost var life := StrayLife(world, protocolLock, if length > 0 then length else 0);
        strays := strays + [life];
        coordinator := Boot(world, protocolLock);
      } else {
        Step(world, coordinator);
      }
    }
    if world.tracked { InStepIsSafe(cfg, world.core, world.phase, world.log, world.out); }
  }

  lemma OriginOfStart(c: Core, journal: set<string>)
    ensures OriginOf(Start(OriginFor(c, journal))) == OriginFor(c, journal)
  {
  }

  lemma InStepIsSafe(cfg: Config, c: Core, s: State, h: History, out: Uncounted)
    requires InStep(cfg, c, s, h, out)
    ensures Safe(cfg, h)
  {
    SafeSoFarIsSafe(cfg, h);
  }

  // ---- Without a store that works ----

  function RequestsOf(lives: seq<History>): nat
  {
    if lives == [] then 0 else RequestsOf(lives[..|lives| - 1]) + TotalRequests(lives[|lives| - 1])
  }

  /** What one history allows. */
  function OneLife(cfg: Config): nat
  {
    cfg.params.requestLimit * (1 + cfg.params.chainIds)
  }

  /** The history of one process over an empty store: it starts once, and sends no more than the limits say. */
  lemma OneLifeIsBounded(cfg: Config, barred: string, h: History)
    requires IsStray(cfg, barred, h)
    ensures TotalRequests(h) <= OneLife(cfg)
  {
    TotalRequestsBounded(cfg, h);
    assert Pending(OriginOf(h)) == 0;
  }

  /** Then the bound holds for each process, and the total grows with their number. */
  lemma {:induction false} LivesAreBounded(cfg: Config, barred: string, lives: seq<History>)
    requires forall h :: h in lives ==> IsStray(cfg, barred, h)
    ensures RequestsOf(lives) <= OneLife(cfg) * |lives|
  {
    hide OneLife;
    if lives != [] {
      LivesAreBounded(cfg, barred, lives[..|lives| - 1]);
      OneLifeIsBounded(cfg, barred, lives[|lives| - 1]);
      TimesOneMore(OneLife(cfg), |lives| - 1);
    }
  }

  /** It does exceed the bound of one history: two processes without a store that works each send one Request, where one
      is allowed in all. */
  method TwoLivesExceed(cfg: Config, protocolLock: Bytes, session: Identity)
    returns (ghost lives: seq<History>, firstSends: bool, secondSends: bool)
    requires cfg.params.requestLimit == 1 && cfg.params.chainIds == 0 && |protocolLock| == 32
    ensures (forall h :: h in lives ==> IsStray(cfg, "", h)) && |lives| == 2
    ensures firstSends && secondSends ==> RequestsOf(lives) == 2 > OneLife(cfg)
  {
    hide Spent, IsStray;
    EmptyIsSpent(cfg, "");
    SpentAnyway(cfg, EMPTY_CORE, "");
    var world := new World(cfg, EMPTY_RECORD, WaitCloud, {}, {}, "");
    ghost var first, second;
    firstSends, first := FirstCheck(world, protocolLock, session);
    secondSends, second := FirstCheck(world, protocolLock, session);
    lives := [first, second];
    TwoLives(first, second);
  }

  /** A process without a store that works: it starts, and its first check may send a Request. */
  method FirstCheck(world: World, protocolLock: Bytes, session: Identity) returns (sends: bool, ghost life: History)
    requires world.Ok() && world.Calm() && !world.stray && |protocolLock| == 32
    modifies world`journal, world`used, world`foreign
    ensures world.Ok() && world.Calm() && IsStray(world.cfg, world.barred, life)
    ensures sends ==> TotalRequests(life) == 1
  {
    hide world.Ok, RestoredAttempt, StageOf, Safe, SafeSoFar, InStep, CoreOk, Spent, Remembers;
    var other := new World.Stray(world);
    OriginOfStart(EMPTY_CORE, world.journal);
    var coordinator := Boot(other, protocolLock);
    ghost var begun := other.log;
    NothingSentYet(begun, world.journal);
    coordinator.identity, coordinator.identityValid := session, true;
    var answer, built := coordinator.CheckNow();
    sends, life := built && other.alive && coordinator.state.WaitResponse?, other.log;
    if sends { FirstIsOne(begun, life); }
    StrayIsSafe(other);
    world.Absorb(other);
  }

  lemma NothingSentYet(h: History, journal: set<string>)
    requires h == Then(Start(OriginFor(EMPTY_CORE, journal)), Restarted(Settled))
    ensures TotalRequests(h) == 0
  {
    assert TotalRequests(h.before) == 0;
  }

  lemma FirstIsOne(h: History, next: History)
    requires TotalRequests(h) == 0 && next.Then? && next.event.RequestSent?
    requires next.before.Then? && next.before.event.Adopted? && next.before.before == h
    ensures TotalRequests(next) == 1
  {
    assert TotalRequests(next.before) == 0;
  }

  lemma TwoLives(a: History, b: History)
    ensures RequestsOf([a, b]) == TotalRequests(a) + TotalRequests(b)
  {
    assert [a, b][..1] == [a] && [a][..0] == [];
    assert RequestsOf([]) == 0 && RequestsOf([a]) == TotalRequests(a);
  }

  // ---- A crash between a message and its accounting ----

  /** The limit itself is no bound. From an empty store and with a limit of one: a process adopts its first id, MQTT
      takes the Request, and the process dies before that is stored. The next process finds the attempt as one that has
      sent nothing, its budget allows a Request at any time, and if that goes out there are two. */
  method LossExceedsLimit(cfg: Config, protocolLock: Bytes, session: Identity)
    returns (world: World, ghost lost: bool, ghost allowed: bool, sends: bool, ghost id: string)
    requires cfg.params.requestLimit == 1 && |protocolLock| == 32
    ensures lost ==> allowed
    ensures lost && sends ==>
      Safe(cfg, world.log) && Requests(world.log, id) == 2 && LostRequests(world.log, id) == 1
  {
    hide world.Ok, RestoredAttempt, Spent, Safe, SafeSoFar, Requests, LostRequests;
    EmptyIsSpent(cfg, "");
    SpentAnyway(cfg, EMPTY_CORE, "");
    world := new World(cfg, EMPTY_RECORD, WaitCloud, {}, {}, "");
    ghost var start := world.log;
    var coordinator := Boot(world, protocolLock);
    coordinator.identity, coordinator.identityValid := session, true;
    var answer, built := coordinator.CheckNow();
    lost, id, sends := built && world.out.RequestOut?, coordinator.attempt.requestId, false;
    ghost var sent, record := world.log, world.stored;
    coordinator := Boot(world, protocolLock);
    allowed := forall now :: coordinator.attempt.budget.RequestOk(cfg.params, now);
    if coordinator.state.Requesting? {
      coordinator.identity, coordinator.identityValid := session, true;
      coordinator.DoRequest();
      sends := world.alive && coordinator.state.WaitResponse?;
    }
    if lost && sends { SentTwice(cfg, start, sent, world.log, id); }
    if sends { LogIsSafe(world); }
  }

  lemma LogIsSafe(world: World)
    requires world.Ok() && world.tracked
    ensures Safe(world.cfg, world.log)
  {
    InStepIsSafe(world.cfg, world.core, world.phase, world.log, world.out);
  }

  lemma SentTwice(cfg: Config, start: History, sent: History, h: History, id: string)
    requires start.Start? && id != "" && sent.Then? && sent.event.RequestSent? && sent.event.rid == id
    requires sent.before.Then? && sent.before.event.Adopted? && sent.before.event.next == id
    requires sent.before.before.Then? && sent.before.before.event.Restarted? && sent.before.before.before == start
    requires sent.before.before.event.lost.Settled?
    requires h.Then? && h.event.RequestSent? && h.event.rid == id && h.before == Then(sent, Restarted(RequestOut))
    ensures Requests(h, id) == 2 && LostRequests(h, id) == 1
  {
    var begun := sent.before.before;
    assert Requests(start, id) == 0 && LostRequests(start, id) == 0;
    assert Requests(begun, id) == 0 && LostRequests(begun, id) == 0;
    assert Requests(sent, id) == 1 && LostRequests(sent, id) == 0 && Current(sent) == id;
    assert Requests(h.before, id) == 1 && LostRequests(h.before, id) == 1;
  }

  // ---- A stabilisation with a COMMITTED answer in it ----

  /** A COMMITTED answer with items missing does not end a stabilisation. SEC answers a strong NOT_FOUND, then COMMITTED
      with too few items, then two strong NOT_FOUND answers: with N = 3 the attempt is then proven exactly if the window
      since the first answer is over and the COMMITTED answer came with no items at all. Items that are not none stay
      pending, and nothing is proven. */
  method BrokenRunIsProved(world: World, coordinator: Coordinator)
    returns (answers: seq<SecAnswer>, now: int, ghost first: int)
    requires Running(world, coordinator) && !coordinator.state.SupersededRemote?
    requires coordinator.attempt.requestId != "" && coordinator.attempt.resolution.Unresolved?
    requires world.cfg.notFoundCount == 3 && coordinator.capabilityEpoch != 0
    requires !coordinator.Continues(coordinator.attempt.stab)
    requires coordinator.pendingItems == [] && coordinator.attempt.ackItems == []
    modifies world, coordinator
    ensures |answers| == 4 ==>
      && StrongNotFound(answers[0], coordinator.contractVersion)
      && Classify(answers[1]) == Committed && |answers[1].items| != |world.cfg.purposes|
      && StrongNotFound(answers[2], coordinator.contractVersion)
      && StrongNotFound(answers[3], coordinator.contractVersion)
      && (coordinator.attempt.resolution.NoSideEffectProven? <==>
            answers[1].items == [] && first >= 0 && now - first >= world.cfg.StabilizationWindowMs())
  {
    hide world.Ok, coordinator.Consistent;
    answers, first := [], 0;
    var contract := coordinator.contractVersion;
    var action, a;
    action, a, now := coordinator.ReconcileSecJournal();
    if !StrongNotFound(a, contract) { return; }
    first := coordinator.attempt.stab.first;
    var b, c, d;
    action, b, now := coordinator.ReconcileSecJournal();
    if Classify(b) != Committed || |b.items| == |world.cfg.purposes| { return; }
    action, c, now := coordinator.ReconcileSecJournal();
    if !StrongNotFound(c, contract) { return; }
    action, d, now := coordinator.ReconcileSecJournal();
    if !StrongNotFound(d, contract) { return; }
    answers := [a, b, c, d];
  }

  // ---- Records from before version 5 ----

  /** A record older than version 5 without a request count is loaded so that its id cannot be sent again: exactly if
      the limit is not above the count the migration enters or the record has neither a fingerprint nor a lease, and
      the record does not name its own id as its successor. */
  lemma OldRecordIsSpent(cfg: Config, j: Json)
    requires Value(j.schemaVersion, 0) < 5 && Value(j.ledger.requestSendCount, 0) == 0 && Value(j.requestId, "") != ""
    ensures Spent(cfg, CoreOf(FromJson(j)), Value(j.requestId, ""), false) <==>
      (cfg.params.requestLimit <= MIGRATED_REQUEST_COUNT || HasNothing(CoreOf(FromJson(j))))
      && FromJson(j).successorRequestId != Value(j.requestId, "")
    ensures Value(j.schemaVersion, 0) < 4 ==> FromJson(j).successorRequestId == ""
  {
    OldRecordIsFailClosed(j);
    var c, id := CoreOf(FromJson(j)), Value(j.requestId, "");
    assert c.rid == id;
    if Spent(cfg, c, id, false) { assert SpentFacts(cfg, c, id); }
    if (cfg.params.requestLimit <= MIGRATED_REQUEST_COUNT || HasNothing(c)) && c.successor != id {
      forall x | x == id && x != "" ensures SpentFacts(cfg, c, x) {
      }
    }
  }

  /** In the other cases its budget allows a Request: at once, or when it is adopted as its own successor. */
  lemma OldRecordMaySend(cfg: Config, j: Json, now: int)
    requires Value(j.schemaVersion, 0) < 5 && Value(j.ledger.requestSendCount, 0) == 0 && Value(j.requestId, "") != ""
    ensures var c := CoreOf(FromJson(j));
      && (c.budget.RequestOk(cfg.params, now) <==> cfg.params.requestLimit > MIGRATED_REQUEST_COUNT)
      && (c.successor == c.rid ==>
            var k := NewCore(c, c.successor);
            k.rid == Value(j.requestId, "") && !HasNothing(k)
            && (k.budget.RequestOk(cfg.params, now) <==> cfg.params.requestLimit > 0))
  {
    OldRecordIsFailClosed(j);
  }

  /** A spent old record never publishes a Request under its id in any later run, through any number of restarts. */
  method RunFromOldRecord(cfg: Config, j: Json, state: State, journal: set<string>, used: set<string>,
                          protocolLock: Bytes, steps: nat) returns (world: World, ghost strays: seq<History>)
    requires Value(j.schemaVersion, 0) < 5 && Value(j.ledger.requestSendCount, 0) == 0
    requires cfg.params.requestLimit <= MIGRATED_REQUEST_COUNT || HasNothing(CoreOf(FromJson(j)))
    requires Value(j.requestId, "") != "" && FromJson(j).successorRequestId != Value(j.requestId, "")
    requires Value(j.requestId, "") in used && Names(Value(j.state, ""), state) && |protocolLock| == 32
    ensures forall h :: h in strays + [world.log] ==> Requests(h, Value(j.requestId, "")) == 0
  {
    OldRecordIsSpent(cfg, j);
    OldRecordIsFailClosed(j);
    LoadedIsWellFormed(j);
    hide Names, Requests, Spent;
    world, strays := Run(cfg, FromJson(j), state, journal, used, Value(j.requestId, ""), protocolLock, steps);
  }

  /** A record in several keys is older still, and load does not migrate it: its budget is whole. */
  lemma KeysAreNotSpent(cfg: Config, k: LegacyKeys, now: int)
    requires k.present && k.requestId != ""
    ensures CoreOf(FromLegacy(k)).budget.RequestOk(cfg.params, now) <==> cfg.params.requestLimit > 0
    ensures HasNothing(CoreOf(FromLegacy(k))) && FromLegacy(k).legacySnapshotUnknown
    ensures Spent(cfg, CoreOf(FromLegacy(k)), k.requestId, false)
  {
    var c := CoreOf(FromLegacy(k));
    forall x | x == k.requestId && x != "" ensures SpentFacts(cfg, c, x) {
    }
  }

  /** It never publishes a Request under its id all the same, because it has no content to send. */
  method RunFromKeys(cfg: Config, k: LegacyKeys, state: State, journal: set<string>, used: set<string>,
                     protocolLock: Bytes, steps: nat) returns (world: World, ghost strays: seq<History>)
    requires k.present && k.requestId != "" && k.requestId in used && Names(k.state, state) && |protocolLock| == 32
    ensures forall h :: h in strays + [world.log] ==> Requests(h, k.requestId) == 0
  {
    KeysAreNotSpent(cfg, k, 0);
    hide Names, Requests, Spent;
    world, strays := Run(cfg, FromLegacy(k), state, journal, used, k.requestId, protocolLock, steps);
  }

  // ---- A record without an id ----

  /** What persist writes strands the next process exactly if it has no id and no fingerprint of today. */
  lemma StoredWithoutId(r: Record, s: State)
    requires Storable(r, s)
    ensures IsStranded(FromJson(ToJson(r))) <==> r.requestId == "" && r.fingerprintVersion != 1
  {
    SavedIsDerived(r);
  }

  /** Processes over such a record never get an attempt, however often they are started and whatever they are told. */
  method Linger(world: World, protocolLock: Bytes, steps: nat)
    requires world.Ok() && world.Calm() && !world.stray && IsStranded(world.stored) && |protocolLock| == 32
    modifies world
    ensures Attempts(world.log) == old(Attempts(world.log)) && world.stored == old(world.stored)
  {
    hide world.Ok, RestoredAttempt;
    var coordinator := Boot(world, protocolLock);
    for i := 0 to steps
      invariant fresh(coordinator) && Running(world, coordinator) && coordinator.Stuck()
      invariant world.stored == old(world.stored) && Attempts(world.log) == old(Attempts(world.log))
    {
      var restarts: bool := *;
      if restarts {
        coordinator := Boot(world, protocolLock);
      } else {
        Step(world, coordinator);
      }
    }
  }

  /** It happens from an empty store: the first check finds no answer of SEC, and the process is started again. */
  method FirstCheckStrands(cfg: Config, protocolLock: Bytes, steps: nat)
    returns (world: World, answer: KeyStatusAnswer, ghost died: bool)
    requires |protocolLock| == 32
    ensures !died && !answer.KeysKnown? ==> Attempts(world.log) == 0 && IsStranded(world.stored)
  {
    hide world.Ok, RestoredAttempt, Spent;
    EmptyIsSpent(cfg, "");
    SpentAnyway(cfg, EMPTY_CORE, "");
    world := new World(cfg, EMPTY_RECORD, WaitCloud, {}, {}, "");
    var coordinator := Boot(world, protocolLock);
    var built;
    answer, built := coordinator.CheckNow();
    died := !world.alive;
    if !answer.KeysKnown? && world.alive {
      NoIdNoAttempt(cfg, world, coordinator);
      Linger(world, protocolLock, steps);
    }
  }

  lemma SpentAnyway(cfg: Config, c: Core, barred: string)
    requires Spent(cfg, c, barred, true)
    ensures Spent(cfg, c, barred, false)
  {
  }

  lemma NoIdNoAttempt(cfg: Config, world: World, coordinator: Coordinator)
    requires Running(world, coordinator) && world.alive && world.tracked && world.stored.requestId == ""
    requires world.cfg == cfg
    ensures Attempts(world.log) == 0
  {
    SafeSoFarIsSafe(cfg, world.log);
    assert CoreFacts(cfg, world.core, world.log, Settled, world.core.rid);
    CurrentIsAdopted(cfg, world.log);
  }

  // ---- A record without a fingerprint ----

  /** Release safety needs the fingerprint version. A legacy record without one leaves its state when a StatusRequest is
      refused, and the next check replaces its id: exactly if SEC answers that keys are missing and the new attempt can
      be built. Nothing was released, and the history is not safe. */
  method LegacyIsReplaced(world: World, coordinator: Coordinator)
    returns (refused: bool, answer: KeyStatusAnswer, built: bool)
    requires Running(world, coordinator) && coordinator.state.LegacySnapshotUnknown?
    requires coordinator.attempt.requestId != "" && coordinator.attempt.fingerprintVersion == 0
    requires !coordinator.secOutcomeUnknown && !QuietSinceRelease(world.log, coordinator.attempt.requestId)
    requires world.apart
    modifies world, coordinator
    ensures world.alive && refused ==>
      (coordinator.attempt.requestId != old(coordinator.attempt.requestId)
       <==> answer.KeysKnown? && !KeysComplete(world.cfg.purposes, answer.items) && built)
    ensures world.alive && coordinator.attempt.requestId != old(coordinator.attempt.requestId) ==>
      !Safe(world.cfg, world.log)
  {
    hide world.Ok, coordinator.Consistent, KeysComplete, QuietSinceRelease, Safe, StageOf;
    answer, built := KeysUnavailable, false;
    ghost var h, id := world.log, coordinator.attempt.requestId;
    var taken := coordinator.PublishStatusRequest();
    refused := !taken;
    if refused {
      ghost var g := world.log;
      answer, built := coordinator.CheckNow();
      if world.alive && coordinator.attempt.requestId != id {
        UnreleasedIsUnsafe(world.cfg, g, world.log, id, coordinator.attempt.requestId);
      }
    }
  }

  /** The meaning of a stabilisation needs a record that vouches for it. An attempt that is unresolved without a
      recorded import is counted for; the recording of its import does not reset that count, and one strong NOT_FOUND
      after it completes the stabilisation, exactly if the window of the old count is over. With N = 2: a strong
      NOT_FOUND, a refused StatusRequest, a check that sends the Request again, its Response, an import that SEC does
      not find, and another strong NOT_FOUND. */
  method OldCountCompletes(world: World, coordinator: Coordinator, expireAt: int, items: seq<ResponseItem>)
    returns (reached: bool, now: int, ghost first: int)
    requires Running(world, coordinator) && IsReconciliation(coordinator.state) && world.cfg.notFoundCount == 2
    requires coordinator.attempt.requestId != "" && coordinator.attempt.fingerprintVersion != 0
    requires coordinator.attempt.resolution.Unresolved? && !coordinator.attempt.importRecorded
    requires coordinator.capabilityEpoch != 0 && !coordinator.Continues(coordinator.attempt.stab)
    requires coordinator.attempt.ackItems == []
    modifies world, coordinator
    ensures reached ==> coordinator.attempt.importRecorded
    ensures reached ==>
      (coordinator.attempt.resolution.NoSideEffectProven? <==>
        first >= 0 && now - first >= world.cfg.StabilizationWindowMs())
  {
    hide world.Ok, coordinator.Consistent, KeysComplete, Safe, StageOf, coordinator.FirstRequest, coordinator.Creates,
      FreshNotFound, coordinator.RetryIsAhead;
    reached, first := false, 0;
    var contract := coordinator.contractVersion;
    var action, a;
    action, a, now := coordinator.ReconcileSecJournal();
    if !StrongNotFound(a, contract) { return; }
    first := coordinator.attempt.stab.first;
    var taken := coordinator.PublishStatusRequest();
    if taken { return; }
    var answer, built := coordinator.CheckNow();
    if !coordinator.state.WaitResponse? { return; }
    coordinator.HandleResponse(true, WireError("", false, ""), expireAt, items);
    if !coordinator.state.Importing? { return; }
    var handed, b := coordinator.DoImport();
    if !handed || Classify(b) == Committed || !coordinator.state.ReconcileEvidence? { return; }
    contract := coordinator.contractVersion;
    var c;
    action, c, now := coordinator.ReconcileSecJournal();
    reached := StrongNotFound(c, contract);
  }

  /** Nor can a record be relied on that names a release the history does not have: its id is replaced as soon as a new
      attempt can be built, and then the history is not safe. */
  method ReleasedBeforeIsUnsafe(world: World, coordinator: Coordinator) returns (built: bool)
    requires Running(world, coordinator) && coordinator.attempt.requestId != ""
    requires coordinator.state.SupersededLocal? || coordinator.state.SupersededRemote?
    requires !coordinator.secOutcomeUnknown && !QuietSinceRelease(world.log, coordinator.attempt.requestId)
    requires world.apart
    modifies world, coordinator
    ensures world.alive ==> (coordinator.attempt.requestId != old(coordinator.attempt.requestId) <==> built)
    ensures world.alive && built ==> !Safe(world.cfg, world.log)
  {
    hide world.Ok, QuietSinceRelease, Safe, StageOf;
    ghost var h, id := world.log, coordinator.attempt.requestId;
    built := coordinator.CreateNewAttempt();
    if world.alive && built { UnreleasedIsUnsafe(world.cfg, h, world.log, id, coordinator.attempt.requestId); }
  }

  /** And a record that is its own successor: once it is released, the same id is adopted again, with a new budget. */
  method OwnSuccessorIsUnsafe(world: World, coordinator: Coordinator) returns (built: bool)
    requires Running(world, coordinator) && !coordinator.state.SupersededRemote?
    requires coordinator.attempt.requestId != ""
    requires coordinator.attempt.successorRequestId == coordinator.attempt.requestId
    requires coordinator.attempt.resolution.NoSideEffectProven? && !coordinator.secOutcomeUnknown
    requires CloudReleases(coordinator.attempt.cachedStatus, coordinator.attempt.cachedError)
    requires coordinator.attempt.budget.chainRequestIdCount < world.cfg.params.chainIds
    requires coordinator.Live() ==> FreshNotFound(world.log, coordinator.attempt.requestId)
    modifies world, coordinator
    ensures coordinator.attempt.requestId == old(coordinator.attempt.requestId)
    ensures world.alive && built ==> !Safe(world.cfg, world.log)
  {
    hide world.Ok, coordinator.Consistent, Safe, StageOf, FreshNotFound;
    ghost var id := coordinator.attempt.requestId;
    coordinator.StoreRelease();
    ghost var h := world.log;
    built := coordinator.CreateNewAttempt();
    if world.alive && built { SelfAdoptionIsUnsafe(world.cfg, h, world.log, id); }
  }

  lemma SelfAdoptionIsUnsafe(cfg: Config, h: History, later: History, id: string)
    requires id != "" && StageOf(Then(h, Adopted(id, id)), later)
    ensures !Safe(cfg, later)
  {
    if Safe(cfg, later) {
      StageIsSafe(cfg, Then(h, Adopted(id, id)), later);
      CurrentIsAdopted(cfg, h);
      assert false;
    }
  }

  lemma UnreleasedIsUnsafe(cfg: Config, h: History, later: History, prev: string, next: string)
    requires !QuietSinceRelease(h, prev) && prev != "" && StageOf(Then(h, Adopted(prev, next)), later)
    ensures !Safe(cfg, later)
  {
    if Safe(cfg, later) {
      EveryEventLegal(cfg, Then(h, Adopted(prev, next)), later);
      assert false;
    }
  }
}
