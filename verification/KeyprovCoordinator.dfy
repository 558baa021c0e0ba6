/** The provisioning coordinator, one lock-protected object: its fields, and one method for each of its steps
    (src/v2c_key_provisioning_coordinator.cpp). */
module KeyprovCoordinator {
  import opened KeyprovBytes
  import opened KeyprovAttempt
  import opened KeyprovLifecycle
  import opened KeyprovTypes
  import opened KeyprovHistory
  import opened KeyprovStore
  import opened KeyprovInvariant
  import opened KeyprovWorld

  const EVIDENCE_CONFLICT := "EVIDENCE_CONFLICT"
  const LEGACY_UNKNOWN := "LEGACY_SNAPSHOT_UNKNOWN"
  const SEC_UNKNOWN := "SEC_OUTCOME_UNKNOWN"
  const SEC_NOT_FOUND := "SEC_IMPORT_NOT_FOUND"
  const SEC_IN_PROGRESS := "SEC_IMPORT_IN_PROGRESS"
  const VMD_UNKNOWN := "VMD_OUTCOME_UNKNOWN"
  const AWAIT_TERMINATION := "AWAIT_CLOUD_TERMINATION"
  const STABILIZING := "STABILIZING_SEC_NOT_FOUND"
  const REMOTE_REPAIR := "AWAIT_REMOTE_REPAIR"
  const HARD_EVIDENCE := "HARD_EVIDENCE_CONFLICT"

  const SUBMISSION_NONE := "NONE"
  const SUBMITTED := "SUBMITTED"
  const CONFIRMED := "CONFIRMED"

  /** The phase shown for diagnosis; empty outside the recovery states. */
  function RecoveryPhase(s: State): string
  {
    match s
    case ReconcileEvidence => "RECONCILE_EVIDENCE"
    case StabilizingNotFound => STABILIZING
    case ReconcileRemote => "RECONCILE_REMOTE"
    case BlockedAwaitCloudTermination => AWAIT_TERMINATION
    case AwaitRemoteRepair => REMOTE_REPAIR
    case HardBlocked => HARD_EVIDENCE
    case _ => ""
  }

  /** The key under which a repeated observation is not stored again. */
  datatype Observation = Observation(status: int, kind: EvidenceKind, code: int, action: int, generation: u64)

  datatype ReconcileAction = TerminalHandled | WaitSec | AllowReadonlyRemote

  /** What the SEC status query returns. */
  datatype KeyStatusAnswer = KeysKnown(items: seq<KeyStatus>) | KeysNotReady | KeysUnsupported | KeysUnavailable

  /** One item of a Response: kept in memory for the import, and for binding its result. */
  datatype ResponseItem = ResponseItem(
    purpose: string, keyId: string, businessKeyVersion: u64, envelopeFormat: i32,
    envelopeDigest: Bytes, keyCheckValue: Option<Bytes>, wrappedKeyBytes: nat, parameterBytes: nat)

  /** The decoded downlink messages. */
  datatype Downlink =
    | Response(succeeded: bool, error: WireError, expireAtMs: int, items: seq<ResponseItem>)
    | AckResult(succeeded: bool, error: WireError)
    | StatusResponse(status: int, error: WireError)
    | OtherKind

  /** What the cloud reports about its session. */
  datatype CloudReadiness = CloudReadiness(
    ready: bool, daemonEpoch: string, connection: u64, certificate: u64, sequence: u64)

  datatype Readiness = CloudEvent(cloud: CloudReadiness) | CapabilityEvent(capability: string, ready: bool)

  const CAPABILITY_KEYPROV := "security.keyprov"

  datatype Capability = Capability(contractVersion: u32, notFoundFlag: bool)

  datatype ContractSnapshot = ContractSnapshot(
    leaseAdmission: bool, resultContractVersion: u32, querySemanticsVersion: u32, kl1ProfileVersion: u32, epoch: u64)

  const MAX_WRAPPED_KEY_BYTES := 4096
  const MAX_PARAMETER_BYTES := 2048
  const MAX_SHORT_STRING_BYTES := 64
  const TERMINALIZED_LIMIT := 16

  // ---- Checks over lists of items ----

  predicate WellFormedItem(it: ResponseItem)
  {
    && it.businessKeyVersion != 0 && it.keyId != ""
    && 0 < it.wrappedKeyBytes <= MAX_WRAPPED_KEY_BYTES && it.parameterBytes <= MAX_PARAMETER_BYTES
    && it.envelopeFormat == FORMAT_ECDH_ES_P256_V1 && |it.envelopeDigest| == 32 && it.keyCheckValue.Some?
  }

  /** A Response is usable: as many items as purposes, and the first item of each purpose is well-formed. */
  method ResponseValid(purposes: seq<string>, items: seq<ResponseItem>) returns (error: string)
    ensures error == "" <==>
      && |items| == |purposes|
      && forall p :: p in purposes ==>
           exists i :: 0 <= i < |items| && items[i].purpose == p && WellFormedItem(items[i])
                       && forall j :: 0 <= j < i ==> items[j].purpose != p
  {
    if |items| != |purposes| { return "response_purpose_count_mismatch"; }
    for k := 0 to |purposes|
      invariant forall p :: p in purposes[..k] ==>
        exists i :: 0 <= i < |items| && items[i].purpose == p && WellFormedItem(items[i])
                    && forall j :: 0 <= j < i ==> items[j].purpose != p
    {
      var p := purposes[k];
      assert p in purposes && purposes[..k + 1] == purposes[..k] + [p];
      var i := 0;
      while i < |items| && items[i].purpose != p
        invariant 0 <= i <= |items| && forall j :: 0 <= j < i ==> items[j].purpose != p
      {
        i := i + 1;
      }
      if i == |items| { return "response_purpose_missing"; }
      if !WellFormedItem(items[i]) {
        assert forall n :: 0 <= n < |items| && items[n].purpose == p && n != i ==>
          exists j :: 0 <= j < n && items[j].purpose == p;
        return "response_item_invalid";
      }
    }
    assert purposes[..|purposes|] == purposes;
    return "";
  }

  predicate Attested(it: ImportItem)
  {
    && it.active && it.businessKeyVersion != 0 && it.keyId != ""
    && it.envelopeFormat == FORMAT_ECDH_ES_P256_V1 && |it.envelopeDigest| == 32 && it.keyCheckValue.Some?
    && |it.importProof| == 64 && |it.recipientCertificateDigest| == 32 && it.proofIsP1363
  }

  predicate BoundTo(it: ImportItem, b: ResponseItem)
  {
    b.keyId == it.keyId && b.businessKeyVersion == it.businessKeyVersion && b.envelopeFormat == it.envelopeFormat
    && b.envelopeDigest == it.envelopeDigest && b.keyCheckValue == it.keyCheckValue
  }

  predicate FirstFor(binding: seq<ResponseItem>, k: nat, purpose: string)
    requires k < |binding|
  {
    binding[k].purpose == purpose && forall j :: 0 <= j < k ==> binding[j].purpose != purpose
  }

  /** The result for one purpose may be acknowledged: attested, and bound to the first Response item of the purpose. */
  predicate Bindable(it: ImportItem, binding: seq<ResponseItem>)
  {
    && Attested(it)
    && (forall k :: 0 <= k < |binding| && FirstFor(binding, k, it.purpose) ==> BoundTo(it, binding[k]))
  }

  /** As many items as purposes, and the first item of each purpose may be acknowledged. */
  ghost predicate ResultBindable(purposes: seq<string>, items: seq<ImportItem>, binding: seq<ResponseItem>)
  {
    && |items| == |purposes|
    && forall p :: p in purposes ==>
         exists i :: 0 <= i < |items| && items[i].purpose == p && Bindable(items[i], binding)
                     && forall j :: 0 <= j < i ==> items[j].purpose != p
  }

  /** The SEC result covers the purposes. Only the first item of each purpose is looked at, so that a second item for
      the same purpose is not reported: the source leaves its loop before it could see one. */
  method ImportResultBindable(purposes: seq<string>, items: seq<ImportItem>, binding: seq<ResponseItem>)
    returns (error: string)
    ensures error == "" <==> ResultBindable(purposes, items, binding)
  {
    if |items| != |purposes| { return "import_purpose_count_mismatch"; }
    for n := 0 to |purposes|
      invariant forall p :: p in purposes[..n] ==>
        exists i :: 0 <= i < |items| && items[i].purpose == p && Bindable(items[i], binding)
                    && forall j :: 0 <= j < i ==> items[j].purpose != p
    {
      var p := purposes[n];
      assert p in purposes && purposes[..n + 1] == purposes[..n] + [p];
      var i := 0;
      while i < |items| && items[i].purpose != p
        invariant 0 <= i <= |items| && forall j :: 0 <= j < i ==> items[j].purpose != p
      {
        i := i + 1;
      }
      if i == |items| { return "import_purpose_missing"; }
      assert forall m :: 0 <= m < |items| && items[m].purpose == p && m != i ==>
        exists j :: 0 <= j < m && items[j].purpose == p;
      if !Attested(items[i]) { return "import_attestation_invalid"; }
      var k := 0;
      while k < |binding| && binding[k].purpose != p
        invariant 0 <= k <= |binding| && forall j :: 0 <= j < k ==> binding[j].purpose != p
      {
        k := k + 1;
      }
      if k < |binding| && !BoundTo(items[i], binding[k]) { return "import_response_binding_conflict"; }
    }
    assert purposes[..|purposes|] == purposes;
    return "";
  }

  /** All purposes have an active key with a version. */
  ghost predicate KeysComplete(purposes: seq<string>, items: seq<KeyStatus>)
  {
    && |items| == |purposes|
    && forall p :: p in purposes ==>
         exists it :: it in items && it.purpose == p && it.active && it.businessKeyVersion > 0
  }

  method PurposesComplete(purposes: seq<string>, items: seq<KeyStatus>) returns (complete: bool)
    ensures complete <==> KeysComplete(purposes, items)
  {
    if |items| != |purposes| { return false; }
    for n := 0 to |purposes|
      invariant forall p :: p in purposes[..n] ==>
        exists it :: it in items && it.purpose == p && it.active && it.businessKeyVersion > 0
    {
      var p := purposes[n];
      assert p in purposes && purposes[..n + 1] == purposes[..n] + [p];
      var found := false;
      for i := 0 to |items|
        invariant found <==>
          exists k :: 0 <= k < i && items[k].purpose == p && items[k].active && items[k].businessKeyVersion > 0
      {
        found := found || (items[i].purpose == p && items[i].active && items[i].businessKeyVersion > 0);
      }
      if !found { return false; }
    }
    assert purposes[..|purposes|] == purposes;
    return true;
  }

  /** The checks of build_keyprov_request_envelope on the business fields. */
  predicate RequestEncodes(rid: string, key: string, domain: string, frozen: Snapshot)
  {
    && |rid| <= MAX_STRING_BYTES && |key| <= MAX_STRING_BYTES && |domain| <= MAX_SHORT_STRING_BYTES
    && rid != "" && key != "" && domain == BUSINESS_DOMAIN_V2C
    && |frozen.purposes| <= MAX_ITEMS && |frozen.wrappingSuites| <= MAX_ITEMS
    && 0 < |frozen.envelopeFormats| <= MAX_ITEMS && |frozen.currentVersions| <= MAX_ITEMS
    && (forall i :: 0 <= i < |frozen.envelopeFormats| ==> frozen.envelopeFormats[i] == FORMAT_ECDH_ES_P256_V1)
    && (forall i :: 0 <= i < |frozen.purposes| ==> frozen.purposes[i] != 0)
  }

  // ---- The release decision, as the coordinator takes it ----

  /** apply_cloud_matrix_locked and supersede_remote_once_locked go on to create a successor. */
  predicate MatrixReleases(proven: bool, status: int, error: CloudError, chainOk: bool)
  {
    proven && CloudReleases(status, error) && chainOk
  }

  /** The decision table takes the same decision. For a live, bound attempt, a healthy clock, a ready contract, a SEC
      answer that is known and not COMMITTED and no payload at hand, it answers SUPERSEDE_CAS or RESTORE_SUCCESSOR
      exactly when the coordinator creates a successor, and RESTORE_SUCCESSOR exactly when it reuses a stored one. */
  lemma DecisionTableAgrees(f: Facts, p: Params)
    requires f.attemptValid && f.bindingMatch && !f.terminalized && !f.idempotencyConflict
    requires f.clock.Healthy() && f.clock.trusted && f.contractReady
    requires !f.secContractUnknown && !f.secUnknownOrError && !f.secCommitted && !f.payloadPresent
    ensures Decide(f, p) in {SupersedeCas, RestoreSuccessor}
            <==> MatrixReleases(f.noSideEffectProven, f.cloudStatus, f.cloudError, f.chainOk)
    ensures Decide(f, p) == RestoreSuccessor
            <==> MatrixReleases(f.noSideEffectProven, f.cloudStatus, f.cloudError, f.chainOk) && f.successorPreexisting
  {
    assert DecideLease(f, p, f.clock.UtcUpper()) !in {SupersedeCas, RestoreSuccessor};
  }

  /** What belongs to one attempt: the members of record_ that matter, the frozen content, the budget ledger, and the
      evidence gathered about the attempt. */
  datatype Attempt = Attempt(
    requestId: string, idempotencyDigest: string,
    frozenSnapshot: Snapshot, frozenFingerprint: Digest, fingerprintVersion: u32,
    budget: Ledger, leaseExpiresAt: int, ackSafeDeadline: int, successorRequestId: string,
    resolution: Resolution, importRecorded: bool, stab: Stabilization,
    cachedStatus: int, cachedError: CloudError, ackItems: seq<AckItem>)
  {
    ghost function Core(): Core
    {
      KeyprovInvariant.Core(requestId, successorRequestId, resolution, importRecorded,
                            budget.(ackSafeDeadlineAt := ackSafeDeadline), leaseExpiresAt, fingerprintVersion)
    }

    ghost function Memory(run: Run): Memory
    {
      KeyprovInvariant.Memory(requestId, cachedStatus, cachedError, ackItems != [],
                              IdempotencyKey(), frozenSnapshot, frozenFingerprint,
                              stab, run, importRecorded, resolution)
    }

    function IdempotencyKey(): string
    {
      if idempotencyDigest == "" then requestId else idempotencyDigest
    }

    /** Nothing is known of an attempt that has no request id. */
    predicate BlankWithoutId()
    {
      requestId == "" ==>
        successorRequestId == "" && resolution.Unresolved? && !importRecorded && fingerprintVersion == 0
    }
  }

  /** What a record restores of its attempt; without a request id only the budget and the lease. */
  function RestoredAttempt(r: Record, fingerprint: Digest): Attempt
  {
    if r.valid then
      // the count is kept for diagnosis; the monotonic window starts anew
      Attempt(r.requestId, r.idempotencyDigest, r.snapshot, fingerprint, r.fingerprintVersion,
              r.budget, r.leaseExpiresAtMs, r.budget.ackSafeDeadlineAt, r.successorRequestId,
              ResolutionOf(r.importInvocationResolution), r.importInvocation,
              Stabilization(r.secNotFoundCount, r.secCapabilityEpoch, r.secContractVersion, r.requestId,
                  r.storeGeneration, -1, -1),
              -1, NO_CLOUD_ERROR, [])
    else
      Attempt(r.requestId, r.idempotencyDigest, EMPTY_SNAPSHOT, fingerprint, 0,
              r.budget, r.leaseExpiresAtMs, r.budget.ackSafeDeadlineAt, "",
              Unresolved, false, NO_STABILIZATION, -1, NO_CLOUD_ERROR, [])
  }

  lemma RestoredCore(r: Record, fingerprint: Digest)
    requires r.valid <==> r.requestId != ""
    ensures var a := RestoredAttempt(r, fingerprint);
      a.Core() == CoreOf(r) && a.cachedStatus < 0 && a.ackItems == [] && a.stab.first < 0 && a.requestId == r.requestId
  {
  }

  /** Where a process goes on that finds this state stored. */
  function StartingState(restored: State, conflicted: bool, resolution: Resolution): State
  {
    match restored
    case Active => WaitCloud
    case AckPending => WaitCloud
    case Checking => WaitCloud
    case RetryWait => WaitCloud
    case Blocked =>
      if conflicted then ReconcileEvidence
      else if resolution.HardConflict? then HardBlocked
      else if resolution.NoSideEffectProven? then ReconcileRemote else restored
    case ReconcileOldAttempt => if resolution.NoSideEffectProven? then ReconcileRemote else restored
    case _ => restored
  }

  /** The state read from a record that stands for this phase. */
  predicate ReadFrom(phase: State, r: Record, restored: State)
  {
    (r.requestId == "" ==> restored == WaitCloud)
    && (r.requestId != "" && !r.legacySnapshotUnknown ==> restored == phase)
  }

  /** The last thing in the history is the adoption of an attempt, and perhaps its first Request. */
  predicate JustAdopted(prev: string, next: string, h: History)
  {
    h.Then? && (h.event == Adopted(prev, next) ||
                (h.event.RequestSent? && h.before.Then? && h.before.event == Adopted(prev, next)))
  }

  /** A record that strands the process that loads it. */
  predicate IsStranded(r: Record)
  {
    r.requestId == "" && r.legacySnapshotUnknown
  }

  class Coordinator {
    const world: World
    const protocolLock: Bytes

    var state: State
    var attempt: Attempt
    /** The strong NOT_FOUND reads that attempt.stab counts. */
    ghost var run: Run
    // the other members of the stored record
    var attemptCount: u32
    var lastError: string
    var terminalized: seq<string>
    var submission: string
    var supersedesRequestId: string
    var supersededByRequestId: string
    var blockedReason: string
    var storeGeneration: u64
    var recoveryPhase: string
    var firstWall: int
    var lastWall: int
    // SEC evidence and capability
    var secOutcomeUnknown: bool
    var pendingCallback: bool
    var lastEvidence: EvidenceKind
    var lastObservation: Option<Observation>
    var contractVersion: u32
    var leaseAdmissionSupported: bool
    var snapshotAvailable: bool
    var resultContractVersion: u32
    var querySemanticsVersion: u32
    var kl1ProfileVersion: u32
    var capabilityEpoch: u64
    var capabilityUnavailable: bool
    var lastCapabilityContract: u32
    var lastNotFoundFlag: bool
    // the session and what is in flight
    var identity: Identity
    var identityValid: bool
    var capabilityEventSeen: bool
    var cloud: CloudReadiness
    /** The sequence number of the last event of this daemon; 0 when there was none. */
    var lastSequence: u64
    var reconcileStatusSent: bool
    var awaitingActive: bool
    var awaitingGeneration: u64
    var awaitingFingerprint: Digest
    var pendingItems: seq<ResponseItem>
    var responseBinding: seq<ResponseItem>
    var importAttempted: bool
    var ackSent: bool
    var statusSent: bool
    var recoveringAck: bool
    var deadlineMs: int
    var nextRetryMs: int
    var backoffMs: u32
    var statusBackoffMs: u32

    /** A legacy record was found that has no id: nobody can be asked about it, and nothing follows it. */
    predicate Stuck()
      reads this`attempt, this`state
    {
      state.LegacySnapshotUnknown? && attempt.requestId == ""
    }

    // ---- What every step keeps ----

    ghost predicate BackoffsBounded()
      reads this`backoffMs, this`statusBackoffMs
    {
      backoffMs <= world.cfg.retryMaxMs && statusBackoffMs <= world.cfg.statusMaxMs
    }

    /** The process is alive, and its history began with a record that can be relied on. */
    ghost predicate Live()
      reads world`alive
    {
      world.alive && world.tracked
    }

    /** In the states in which a Request is sent or awaited, a barred id has spent its budget. */
    ghost predicate KeepsSilent()
      reads this`attempt, this`state
    {
      world.barred != "" && attempt.requestId == world.barred && (state.Requesting? || state.WaitResponse?) ==>
        attempt.budget.requestSendCount >= world.cfg.params.requestLimit
    }

    /** Memory and record agree, whatever state the record names. */
    ghost predicate Consistent()
      reads this`attempt, this`run, this`state, this`backoffMs, this`statusBackoffMs, world
    {
      && world.Ok() && world.Calm()
      && BackoffsBounded()
      && (world.alive ==>
            attempt.Core() == world.core && (state.Importing? ==> attempt.requestId != "") && KeepsSilent())
      && (Live() ==> StateOk(attempt.Core(), state, world.log) && Remembers(world.cfg, attempt.Memory(run), world.log))
    }

    /** The invariant between any two steps, and between the parts of a step that store nothing halfway. */
    ghost predicate Inv()
      reads this`attempt, this`run, this`state, this`backoffMs, this`statusBackoffMs, world
    {
      Consistent() && (Live() ==> world.phase.SupersededRemote? ==> state.SupersededRemote?)
    }

    /** What consistency means to the lemmas about single steps. */
    lemma Standing()
      requires Consistent()
      ensures world.Ok() && world.Calm() && BackoffsBounded()
      ensures world.alive ==> Spent(world.cfg, attempt.Core(), world.barred, world.apart)
      ensures world.barred != "" ==> world.barred in world.used
      ensures world.alive ==>
        attempt.BlankWithoutId() && (state.Importing? ==> attempt.requestId != "") && KeepsSilent()
      ensures Live() ==> Remembers(world.cfg, attempt.Memory(run), world.log)
      ensures Live() ==>
        InStep(world.cfg, attempt.Core(), state, world.log, Settled) && KnownIds(world.log) <= world.used
        && world.IdsApart(world.log)
    {
      hide SafeSoFar, CoreOk, Remembers, Spent, QuietSinceRelease;
    }

    /** An attempt that has a fingerprint or a lease may be asked for, unless it is barred and has spent its budget. */
    lemma SilenceIsKept()
      requires Consistent() && (attempt.fingerprintVersion != 0 || attempt.leaseExpiresAt > 0)
      ensures world.alive && world.barred != "" && attempt.requestId == world.barred ==>
        attempt.budget.requestSendCount >= world.cfg.params.requestLimit
    {
      hide SafeSoFar, CoreOk, Remembers, Spent, QuietSinceRelease, InStep;
      Standing();
      if world.alive { BarredIsSpent(world.cfg, attempt.Core(), world.barred, world.apart); }
    }

    /** The next retry lies after the earliest reading of the clock in this step. */
    ghost predicate RetryIsAhead()
      reads this`nextRetryMs, world`earliest
    {
      world.earliest.Some? && nextRetryMs > world.earliest.value
    }

    // ---- initialize ----

    /** A new process takes over the record that load returned, and the state it names; an enabled configuration is
        assumed. A record without a request id restores only the budget and the lease. */
    constructor (world: World, protocolLock: Bytes, r: Record, restored: State)
      requires world.Ok() && world.out.Settled? && |protocolLock| == 32
      requires world.log.Then? && world.log.event.Restarted?
      requires r == world.stored && ReadFrom(world.phase, r, restored)
      ensures this.world == world && this.protocolLock == protocolLock
      ensures Started(r, restored)
    {
      hide SafeSoFar, CoreOk, Remembers, Spent, RestoredAttempt, CoreOf, InStep, world.Ok;
      this.world, this.protocolLock := world, protocolLock;
      // the digest of a stored fingerprint cannot be had back from its text
      var fingerprint: Digest := *;
      attempt, run, state := RestoredAttempt(r, fingerprint), NoRun, WaitCloud;
      backoffMs, statusBackoffMs := 0, 0;
      new;
      FingerprintStays(r, fingerprint);
      Begin(r, restored);
    }

    lemma FingerprintStays(r: Record, fingerprint: Digest)
      ensures RestoredAttempt(r, fingerprint).frozenFingerprint == fingerprint
      ensures RestoredAttempt(r, fingerprint).resolution ==
        if r.valid then ResolutionOf(r.importInvocationResolution) else Unresolved
    {
    }

    /** The invariant holds, in the state the stored one leads to, with the attempt of the record. */
    ghost predicate Started(r: Record, restored: State)
      reads this, world
    {
      && Inv() && attempt == RestoredAttempt(r, attempt.frozenFingerprint) && !secOutcomeUnknown
      && !state.Active? && !state.AckPending? && !state.Checking? && !state.RetryWait?
      && (Stuck() <==> IsStranded(r))
      && state == StartsIn(r, restored)
    }

    function StartsIn(r: Record, restored: State): State
    {
      if r.legacySnapshotUnknown then LegacySnapshotUnknown
      else StartingState(restored, r.valid && r.blockedReason == EVIDENCE_CONFLICT,
                         if r.valid then ResolutionOf(r.importInvocationResolution) else Unresolved)
    }

    method Begin(r: Record, restored: State)
      requires attempt == RestoredAttempt(r, attempt.frozenFingerprint) && run == NoRun
      requires backoffMs == statusBackoffMs == 0
      requires world.Ok() && world.out.Settled?
      requires world.log.Then? && world.log.event.Restarted?
      requires r == world.stored && ReadFrom(world.phase, r, restored)
      modifies this
      ensures Started(r, restored)
    {
      hide Started, Inv, Consistent, world.Ok, RestoredAttempt, StartingState, CoreOf, ResolutionOf, RecoveryPhase;
      FingerprintStays(r, attempt.frozenFingerprint);
      assert "" != EVIDENCE_CONFLICT;
      Recall(r);
      Restore(r.legacySnapshotUnknown, restored);
      FreshStart(r, restored);
    }

    lemma FreshStart(r: Record, restored: State)
      requires attempt == RestoredAttempt(r, attempt.frozenFingerprint) && run == NoRun
      requires backoffMs == statusBackoffMs == 0
      requires world.Ok() && world.out.Settled?
      requires world.log.Then? && world.log.event.Restarted?
      requires r == world.stored && ReadFrom(world.phase, r, restored)
      requires state == StartsIn(r, restored) && !secOutcomeUnknown
      ensures Started(r, restored)
    {
      hide SafeSoFar, CoreOk, Remembers, Spent, QuietSinceRelease, Names, KnownIds, HandedIds, Requests, OriginOf,
        StateName;
      RestoredCore(r, attempt.frozenFingerprint);
      hide RestoredAttempt, CoreOf;
      if Live() { RestartKeepsMemory(world.cfg, attempt.Memory(run), world.log.before, world.log.event.lost); }
    }

    /** The members of the record that do not belong to the attempt: what went before it, and what blocks it. */
    method TakeOver(r: Record)
      modifies this`attemptCount, this`lastError, this`terminalized, this`submission, this`supersedesRequestId,
        this`supersededByRequestId, this`blockedReason, this`storeGeneration, this`recoveryPhase
      ensures terminalized == r.terminalizedRequestIds && attemptCount == r.attemptCount && lastError == r.lastError
      ensures submission == if r.valid && r.submission != "" then r.submission else SUBMISSION_NONE
      ensures supersedesRequestId == if r.valid then r.supersedesRequestId else ""
      ensures supersededByRequestId == if r.valid then r.supersededByRequestId else ""
      ensures blockedReason == if r.valid then r.blockedReason else ""
      ensures storeGeneration == if r.valid then r.storeGeneration else 0
      ensures recoveryPhase == if r.valid then r.recoveryPhase else ""
    {
      attemptCount, lastError, terminalized := r.attemptCount, r.lastError, r.terminalizedRequestIds;
      submission, supersedesRequestId, supersededByRequestId := SUBMISSION_NONE, "", "";
      blockedReason, storeGeneration, recoveryPhase := "", 0, "";
      if r.valid {
        if r.submission != "" { submission := r.submission; }
        supersedesRequestId, supersededByRequestId := r.supersedesRequestId, r.supersededByRequestId;
        blockedReason, storeGeneration, recoveryPhase := r.blockedReason, r.storeGeneration, r.recoveryPhase;
      }
    }

    /** And what SEC said last, and in which versions. */
    method TakeOverContract(r: Record)
      modifies this`resultContractVersion, this`querySemanticsVersion, this`leaseAdmissionSupported,
        this`kl1ProfileVersion, this`contractVersion, this`pendingCallback, this`lastEvidence
      ensures resultContractVersion == r.secResultContractVersion && querySemanticsVersion == r.secQuerySemanticsVersion
      ensures leaseAdmissionSupported == r.secSupportsLeaseAdmission && kl1ProfileVersion == r.secKl1ProfileVersion
      ensures contractVersion == if r.valid then r.secImportResultContractVersion else 0
      ensures pendingCallback == (r.valid && r.importInvocation)
      ensures lastEvidence == if r.valid then EvidenceOf(r.secImportEvidenceKind) else ContractUnknownEvidence
    {
      resultContractVersion, querySemanticsVersion := r.secResultContractVersion, r.secQuerySemanticsVersion;
      leaseAdmissionSupported, kl1ProfileVersion := r.secSupportsLeaseAdmission, r.secKl1ProfileVersion;
      contractVersion, pendingCallback, lastEvidence := 0, false, ContractUnknownEvidence;
      if r.valid {
        contractVersion, pendingCallback := r.secImportResultContractVersion, r.importInvocation;
        lastEvidence := EvidenceOf(r.secImportEvidenceKind);
      }
    }

    /** What the record says beside the attempt; all else is unknown. */
    method Recall(r: Record)
      modifies this
      ensures attempt == old(attempt) && run == old(run) && backoffMs == old(backoffMs)
      ensures statusBackoffMs == old(statusBackoffMs)
      ensures blockedReason == (if r.valid then r.blockedReason else "") && !secOutcomeUnknown
    {
      TakeOver(r);
      TakeOverContract(r);
      ForgetSession();
    }

    /** Nothing is known of SEC, of the session or of what is in flight. */
    method ForgetSession()
      modifies this`secOutcomeUnknown, this`firstWall, this`lastWall, this`lastObservation, this`snapshotAvailable,
        this`capabilityEpoch, this`capabilityUnavailable, this`lastCapabilityContract, this`lastNotFoundFlag,
        this`identity, this`identityValid, this`capabilityEventSeen, this`cloud, this`lastSequence,
        this`reconcileStatusSent, this`awaitingActive,
        this`awaitingGeneration, this`pendingItems, this`responseBinding, this`importAttempted, this`ackSent,
        this`statusSent, this`recoveringAck, this`deadlineMs, this`nextRetryMs
      ensures !secOutcomeUnknown && !identityValid && !awaitingActive && !importAttempted && !recoveringAck
      ensures pendingItems == [] && responseBinding == [] && nextRetryMs == 0
    {
      ForgetCapability();
      ForgetTraffic();
    }

    method ForgetCapability()
      modifies this`secOutcomeUnknown, this`firstWall, this`lastWall, this`lastObservation, this`snapshotAvailable,
        this`capabilityEpoch, this`capabilityUnavailable, this`lastCapabilityContract, this`lastNotFoundFlag,
        this`capabilityEventSeen, this`cloud, this`lastSequence
      ensures !secOutcomeUnknown && capabilityEpoch == 0 && lastObservation == None
    {
      secOutcomeUnknown, firstWall, lastWall, lastObservation := false, -1, -1, None;
      snapshotAvailable, capabilityEpoch, capabilityUnavailable := false, 0, false;
      lastCapabilityContract, lastNotFoundFlag, capabilityEventSeen := 0, false, false;
      cloud, lastSequence := CloudReadiness(false, "", 0, 0, 0), 0;
    }

    method ForgetTraffic()
      modifies this`identity, this`identityValid, this`reconcileStatusSent, this`awaitingActive,
        this`awaitingGeneration, this`pendingItems, this`responseBinding, this`importAttempted, this`ackSent,
        this`statusSent, this`recoveringAck, this`deadlineMs, this`nextRetryMs
      ensures !identityValid && !awaitingActive && !importAttempted && !recoveringAck
      ensures pendingItems == [] && responseBinding == [] && nextRetryMs == 0
    {
      identity, identityValid := Identity("", "", ""), false;
      reconcileStatusSent, awaitingActive, awaitingGeneration := false, false, 0;
      pendingItems, responseBinding, importAttempted := [], [], false;
      ackSent, statusSent, recoveringAck, deadlineMs, nextRetryMs := false, false, false, 0, 0;
    }

    /** The state a process starts in: SEC and the cloud are asked again before anything is believed. */
    method Restore(legacy: bool, restored: State)
      modifies this`state, this`recoveryPhase, this`blockedReason, this`recoveringAck
      ensures legacy ==> state.LegacySnapshotUnknown?
      ensures !legacy ==> state == StartingState(restored, old(blockedReason) == EVIDENCE_CONFLICT, attempt.resolution)
      ensures recoveringAck == (old(recoveringAck) || (!legacy && restored.AckPending?))
    {
      if legacy {
        blockedReason, state := LEGACY_UNKNOWN, LegacySnapshotUnknown;
      } else if restored.Active? {
        state := WaitCloud;
      } else if restored.AckPending? {
        state, recoveringAck := WaitCloud, true;
      } else if restored.Blocked? && blockedReason == EVIDENCE_CONFLICT {
        state, recoveryPhase := ReconcileEvidence, RecoveryPhase(ReconcileEvidence);
      } else if restored.Blocked? && attempt.resolution.HardConflict? {
        state, recoveryPhase := HardBlocked, RecoveryPhase(HardBlocked);
      } else if (restored.Blocked? || restored.ReconcileOldAttempt?) && attempt.resolution.NoSideEffectProven? {
        state, recoveryPhase := ReconcileRemote, RecoveryPhase(ReconcileRemote);
      } else if restored.WaitCloud? || restored.Checking? || restored.RetryWait? {
        state := WaitCloud;
      } else {
        state := restored;
        if recoveryPhase == "" { recoveryPhase := RecoveryPhase(state); }
      }
    }

    // ---- persist_locked ----

    /** The record last written is that of this attempt; without a fingerprint of today it is read back as a legacy
        record. */
    ghost predicate IsStored()
      reads this`attempt, world`stored, world`core
    {
      && world.stored.requestId == attempt.requestId && world.core == attempt.Core()
      && (world.stored.legacySnapshotUnknown <==> attempt.fingerprintVersion != 1)
    }

    method BuildRecord(updatedAt: int, observedAt: int) returns (r: Record)
      ensures Storable(r, state) && r.requestId == attempt.requestId
      ensures r.fingerprintVersion == attempt.fingerprintVersion
      ensures attempt.BlankWithoutId() ==> CoreOf(r) == attempt.Core()
    {
      var generation: u64 := *;
      var digestText: string := *;
      // the text of a fingerprint is a digest nobody inverts; here it is just not empty
      var fingerprintText: string := "";
      if attempt.fingerprintVersion > 0 {
        assert "f" != "";
        fingerprintText :| fingerprintText != "";
      }
      r := Record(
        SCHEMA_VERSION, attempt.fingerprintVersion, fingerprintText, attempt.requestId, attempt.idempotencyDigest,
        StateName(state), submission, attemptCount, deadlineMs, lastError, updatedAt, generation,
        supersedesRequestId, supersededByRequestId, blockedReason, storeGeneration, terminalized, contractVersion,
        storeGeneration, observedAt, attempt.stab.count % 0x1_0000_0000, firstWall, lastWall,
        attempt.stab.epoch, attempt.stab.contract, recoveryPhase, attempt.successorRequestId, digestText,
        LIFECYCLE_PROFILE, attempt.leaseExpiresAt, resultContractVersion, querySemanticsVersion,
        leaseAdmissionSupported, kl1ProfileVersion,
        attempt.frozenSnapshot, EvidenceCode(lastEvidence), attempt.importRecorded, ResolutionCode(attempt.resolution),
        attempt.budget.(ackSafeDeadlineAt := attempt.ackSafeDeadline), true, false, [], []);
    }

    /** A process that dies here has stored nothing, and the history is as it was. */
    twostate predicate Kept()
      reads world
    {
      !world.alive ==> unchanged(world`log, world`out, world`stored, world`core, world`phase)
    }

    /** No message goes uncounted. */
    twostate predicate StaysSettled()
      reads world`out
    {
      old(world.out).Settled? ==> world.out.Settled?
    }

    /** Store memory whose core changed, in the same instant in which the history becomes next. */
    method PersistAs(ghost next: History)
      requires world.Ok() && BackoffsBounded()
      requires world.alive ==>
        attempt.BlankWithoutId() && (state.Importing? ==> attempt.requestId != "") && KeepsSilent()
      requires world.alive ==> world.MayStore(attempt.Core(), state, next)
      requires Live() ==> Remembers(world.cfg, attempt.Memory(run), next)
      modifies world`alive, world`log, world`out, world`stored, world`core, world`phase, world`earliest
      ensures Inv() && world.Calm()
      ensures world.alive ==>
        old(world.alive) && world.log == next && world.phase == ReadAs(world.stored, state) && IsStored()
      ensures Kept() && StaysSettled()
      ensures old(RetryIsAhead()) ==> RetryIsAhead()
    {
      hide SafeSoFar, CoreOk, Remembers, Spent, QuietSinceRelease, world.Ok;
      var updatedAt := world.NowMs();
      var observedAt := world.NowMs();
      var r := BuildRecord(updatedAt, observedAt);
      world.Save(r, state, next);
    }

    /** Store memory whose core is the stored one already. */
    method Persist()
      requires Consistent()
      modifies world`alive, world`log, world`out, world`stored, world`core, world`phase, world`earliest
      ensures Inv()
      ensures world.alive ==>
        old(world.alive) && world.log == old(world.log) && world.phase == ReadAs(world.stored, state) && IsStored()
      ensures Kept() && StaysSettled()
      ensures old(RetryIsAhead()) ==> RetryIsAhead()
    {
      hide SafeSoFar, CoreOk, Remembers, Spent, QuietSinceRelease;
      PersistAs(world.log);
    }

    method ReadClock() returns (now: int)
      requires Inv()
      modifies world`earliest
      ensures Inv() && world.earliest.Some? && world.earliest.value <= now
    {
      hide SafeSoFar, CoreOk, Remembers, Spent, QuietSinceRelease, world.Ok;
      now := world.NowMs();
    }

    // ---- Retry times ----

    /** The next interval. */
    function Grown(interval: u32, limit: u32): u32
    {
      if interval * world.cfg.Factor() > limit then limit else interval * world.cfg.Factor()
    }

    predicate IsJittered(backoff: u32, r: u32)
    {
      if world.cfg.retryJitter then r <= backoff + backoff / 4 + 1 else r == backoff
    }

    /** A backoff with up to a quarter of jitter and one more, in 32-bit arithmetic. */
    method Jittered(backoff: u32) returns (r: u32)
      ensures IsJittered(backoff, r)
      ensures backoff <= 0x8000_0000 ==> r >= backoff
      ensures 0 < backoff <= 0x8000_0000 ==> r > 0
    {
      r := backoff;
      if world.cfg.retryJitter && backoff > 0 {
        var extra: nat := *;
        r := (backoff + extra % (backoff / 4 + 2)) % 0x1_0000_0000;
      }
    }

    method ScheduleRetry()
      requires BackoffsBounded()
      modifies this`nextRetryMs, this`backoffMs, world`earliest
      ensures BackoffsBounded()
      ensures old(world.Ok()) ==> world.Ok()
      ensures world.cfg.SaneIntervals() ==> RetryIsAhead()
      ensures backoffMs == Grown(if old(backoffMs) == 0 then world.cfg.retryInitialMs else old(backoffMs),
                                 world.cfg.retryMaxMs)
    {
      hide world.Ok;
      var base := if backoffMs == 0 then world.cfg.retryInitialMs else backoffMs;
      var backoff := Jittered(base);
      var now := world.NowMs();
      nextRetryMs := now + backoff;
      backoffMs := Grown(base, world.cfg.retryMaxMs);
    }

    /** Here the jittered interval is what grows. */
    method ScheduleStatusRetry()
      requires BackoffsBounded()
      modifies this`nextRetryMs, this`statusBackoffMs, world`earliest
      ensures BackoffsBounded()
      ensures old(world.Ok()) ==> world.Ok()
      ensures world.cfg.SaneIntervals() ==> RetryIsAhead()
      ensures exists jittered: u32 ::
        && statusBackoffMs == Grown(jittered, world.cfg.statusMaxMs)
        && IsJittered(if old(statusBackoffMs) == 0 then world.cfg.statusInitialMs else old(statusBackoffMs), jittered)
    {
      hide world.Ok;
      var backoff := Jittered(if statusBackoffMs == 0 then world.cfg.statusInitialMs else statusBackoffMs);
      var now := world.NowMs();
      nextRetryMs := now + backoff;
      statusBackoffMs := Grown(backoff, world.cfg.statusMaxMs);
    }

    // ---- Readiness ----

    /** The session identity is void, and so is everything not sent yet; the request id is kept. */
    method InvalidateIdentity()
      modifies this`identityValid, this`identity, this`pendingItems, this`responseBinding, this`deadlineMs
      ensures !identityValid && pendingItems == [] && deadlineMs == 0 && responseBinding == []
      ensures identity == Identity("", "", "")
    {
      identityValid, identity := false, Identity("", "", "");
      pendingItems, responseBinding, deadlineMs := [], [], 0;
    }

    /** An event of the same daemon that is older than the last one, or the last one again. */
    predicate IsLate(r: CloudReadiness)
      reads this`cloud, this`lastSequence
    {
      r.daemonEpoch == cloud.daemonEpoch && r.sequence != 0 && lastSequence != 0 && r.sequence <= lastSequence
    }

    /** Another daemon, connection or certificate session, a gap in the events, or a cloud that is not ready. */
    predicate VoidsIdentity(r: CloudReadiness)
      reads this`cloud, this`lastSequence
    {
      || r.daemonEpoch != cloud.daemonEpoch || r.connection != cloud.connection || r.certificate != cloud.certificate
      || (lastSequence != 0 && r.sequence > (lastSequence + 1) % 0x1_0000_0000_0000_0000) || !r.ready
    }

    twostate predicate SameIdentity()
      reads this`identityValid, this`identity, this`pendingItems, this`responseBinding, this`deadlineMs
    {
      unchanged(`identityValid, `identity, `pendingItems, `responseBinding, `deadlineMs)
    }

    /** apply_cloud_readiness_locked: a late event is dropped; of the others, exactly those make the identity void that
        show that the session may be another one. */
    method ApplyCloudReadiness(r: CloudReadiness)
      modifies this`identityValid, this`identity, this`pendingItems, this`responseBinding, this`deadlineMs,
        this`capabilityEventSeen, this`cloud, this`lastSequence
      ensures old(IsLate(r)) ==> unchanged(this)
      ensures !old(IsLate(r)) ==>
        && cloud == r && capabilityEventSeen
        && lastSequence == (if r.sequence != 0 then r.sequence
                            else if r.daemonEpoch != old(cloud).daemonEpoch then 0 else old(lastSequence))
        && if old(VoidsIdentity(r)) then !identityValid && pendingItems == [] && deadlineMs == 0 else SameIdentity()
    {
      if IsLate(r) { return; }
      var void := VoidsIdentity(r);
      if r.daemonEpoch != cloud.daemonEpoch { lastSequence := 0; }
      if r.sequence != 0 { lastSequence := r.sequence; }
      cloud, capabilityEventSeen := r, true;
      if void { InvalidateIdentity(); }
    }

    /** apply_capability_readiness_locked. */
    method ApplyCapabilityReadiness(capability: string, ready: bool)
      modifies this`identityValid, this`identity, this`pendingItems, this`responseBinding, this`deadlineMs,
        this`capabilityEventSeen
      ensures capability != CAPABILITY_KEYPROV ==> unchanged(this)
      ensures capability == CAPABILITY_KEYPROV ==>
        capabilityEventSeen && if ready then SameIdentity() else !identityValid && pendingItems == [] && deadlineMs == 0
    {
      if capability != CAPABILITY_KEYPROV { return; }
      capabilityEventSeen := true;
      if !ready { InvalidateIdentity(); }
    }

    /** A readiness event of the cloud, or of a capability. */
    method ReadinessChanged(event: Readiness)
      requires Inv()
      modifies this`identityValid, this`identity, this`pendingItems, this`responseBinding, this`deadlineMs,
        this`capabilityEventSeen, this`cloud, this`lastSequence
      ensures Inv()
      ensures event.CloudEvent? && !old(IsLate(event.cloud)) && !old(VoidsIdentity(event.cloud)) ==> SameIdentity()
      ensures event.CloudEvent? && !old(IsLate(event.cloud)) && old(VoidsIdentity(event.cloud)) ==> !identityValid
      ensures event.CapabilityEvent? && event.capability == CAPABILITY_KEYPROV && !event.ready ==> !identityValid
    {
      hide Consistent;
      match event
      case CloudEvent(r) => ApplyCloudReadiness(r);
      case CapabilityEvent(capability, ready) => ApplyCapabilityReadiness(capability, ready);
    }

    /** The SEC capability and the contract snapshot. A SEC that was unreachable, changed its contract version or its
        NOT_FOUND flag counts as a new epoch, unless the snapshot names the epoch itself. */
    method RefreshSecReadiness(cap: Option<Capability>, snapshot: Option<ContractSnapshot>)
      modifies this`capabilityEpoch, this`capabilityUnavailable, this`lastCapabilityContract, this`lastNotFoundFlag,
        this`contractVersion, this`snapshotAvailable, this`leaseAdmissionSupported, this`resultContractVersion,
        this`querySemanticsVersion, this`kl1ProfileVersion
      ensures contractVersion == if cap.Some? then cap.value.contractVersion else 0
      ensures snapshot.Some? && snapshot.value.epoch != 0 ==> capabilityEpoch == snapshot.value.epoch
      ensures !(snapshot.Some? && snapshot.value.epoch != 0) && cap.None? ==> capabilityEpoch == old(capabilityEpoch)
      ensures !(snapshot.Some? && snapshot.value.epoch != 0) && cap.Some? ==> capabilityEpoch != 0
      ensures !(snapshot.Some? && snapshot.value.epoch != 0) && cap.Some? && old(capabilityEpoch) != 0 ==>
        (capabilityEpoch == old(capabilityEpoch) <==>
          !old(capabilityUnavailable) && old(lastCapabilityContract) == cap.value.contractVersion
          && old(lastNotFoundFlag) == cap.value.notFoundFlag)
      ensures capabilityUnavailable <==> cap.None?
      ensures snapshotAvailable == snapshot.Some?
      ensures leaseAdmissionSupported == (snapshot.Some? && snapshot.value.leaseAdmission)
      ensures snapshot.Some? ==>
        && resultContractVersion == snapshot.value.resultContractVersion
        && querySemanticsVersion == snapshot.value.querySemanticsVersion
        && kl1ProfileVersion == snapshot.value.kl1ProfileVersion
    {
      if cap.None? {
        capabilityUnavailable := true;
        contractVersion := 0;
      } else {
        if capabilityUnavailable || cap.value.contractVersion != lastCapabilityContract
           || cap.value.notFoundFlag != lastNotFoundFlag {
          capabilityEpoch := (capabilityEpoch + 1) % 0x1_0000_0000_0000_0000;
        }
        if capabilityEpoch == 0 { capabilityEpoch := 1; }
        capabilityUnavailable := false;
        lastCapabilityContract, lastNotFoundFlag := cap.value.contractVersion, cap.value.notFoundFlag;
        contractVersion := cap.value.contractVersion;
      }
      if snapshot.Some? {
        snapshotAvailable, leaseAdmissionSupported := true, snapshot.value.leaseAdmission;
        resultContractVersion, querySemanticsVersion := snapshot.value.resultContractVersion,
            snapshot.value.querySemanticsVersion;
        kl1ProfileVersion := snapshot.value.kl1ProfileVersion;
        if snapshot.value.epoch != 0 { capabilityEpoch := snapshot.value.epoch; }
      } else {
        snapshotAvailable, leaseAdmissionSupported := false, false;
      }
    }

    // ---- publish_keyprov_locked ----

    /** True means that MQTT took the message or that its fate is unknown. A rejection changes the state. */
    method PublishKeyprov(m: Message) returns (taken: bool)
      requires Inv() && !state.SupersededRemote? && m.rid == attempt.requestId
      requires Live() ==> SafeSoFar(world.cfg, Then(world.log, EventOf(m)))
      requires world.alive && m.RequestMessage? && world.barred != "" ==> m.rid != world.barred
      modifies this`state, this`lastError, this`identityValid, this`identity, this`pendingItems, this`responseBinding,
        this`deadlineMs, this`nextRetryMs, this`backoffMs, this`capabilityEventSeen, this`cloud, this`lastSequence,
        world`alive, world`log, world`out, world`earliest
      ensures !taken ==> Inv() && (state.WaitCloud? || state.Blocked? || state.RetryWait?)
      ensures taken ==>
        && world.Ok() && state == old(state) && deadlineMs == old(deadlineMs)
        && nextRetryMs == old(nextRetryMs) && backoffMs == old(backoffMs) && world.earliest == old(world.earliest)
        && (world.alive ==>
              old(world.alive) && world.out == UncountedBy(m) && world.log == Then(old(world.log), EventOf(m)))
      ensures !world.alive || !taken ==> world.log == old(world.log) && world.out == old(world.out)
      ensures world.alive ==> old(world.alive)
    {
      hide SafeSoFar, CoreOk, Remembers, Spent, QuietSinceRelease, world.Ok;
      if !identityValid {
        state, lastError := WaitCloud, "identity_unavailable";
        return false;
      }
      var outcome := world.Publish(m);
      taken := outcome.Taken?;
      if !taken { Rejection(outcome.reason, outcome.retryable); }
    }

    method Rejection(reason: RejectReason, retryable: bool)
      requires BackoffsBounded()
      modifies this`state, this`lastError, this`identityValid, this`identity, this`pendingItems, this`responseBinding,
        this`deadlineMs, this`nextRetryMs, this`backoffMs, this`capabilityEventSeen, this`cloud, this`lastSequence,
        world`earliest
      ensures BackoffsBounded() && (old(world.Ok()) ==> world.Ok())
      ensures state == match reason
        case ContextStale => WaitCloud
        case ContextUnsupported => WaitCloud
        case ContextRequired => State.Blocked
        case IdentityRejected => State.Blocked
        case OtherReason => RetryWait
    {
      hide world.Ok;
      match reason
      case ContextStale =>
        InvalidateIdentity();
        state, lastError, capabilityEventSeen := WaitCloud, "publish_session_stale", true;
        // the readiness is read again
        var readiness: CloudReadiness, ready: bool := *, *;
        ApplyCloudReadiness(readiness);
        ApplyCapabilityReadiness(CAPABILITY_KEYPROV, ready);
      case ContextRequired =>
        state, lastError := State.Blocked, "publish_session_required";
      case ContextUnsupported =>
        state, lastError := WaitCloud, "publish_session_unsupported";
      case IdentityRejected =>
        InvalidateIdentity();
        state, lastError := State.Blocked, "session_identity_invalid";
      case OtherReason =>
        state := RetryWait;
        lastError := if retryable then "route_publish_rejected" else "route_publish_rejected_fatal";
        ScheduleRetry();
    }

    // ---- The current input ----

    /** build_candidate_locked: SEC versions, identity and protocol lock of this moment, and their fingerprint. */
    method BuildCandidate() returns (candidate: Result<Snapshot>, fingerprint: Digest)
      ensures candidate.Ok? ==>
        && identityValid
        && NormalizeDigest(identity.deviceIdentityDigest) == Some(candidate.value.deviceIdentityDigest)
        && NormalizeDigest(identity.certificateRef) == Some(candidate.value.recipientCertificateDigest)
        && MadeFrom(fingerprint, candidate.value.deviceIdentityDigest, candidate.value.recipientCertificateDigest)
    {
      fingerprint := *;
      var answer: KeyStatusAnswer := *;
      if !answer.KeysKnown? || |answer.items| >= 0x1_0000_0000 { return Err("sec_status_unavailable"), fingerprint; }
      var identityFits: bool := *;
      if !identityValid || !identityFits { return Err("identity_unavailable"), fingerprint; }
      var referenceDigest: Bytes := *;
      if |protocolLock| != 32 { return Err("snapshot_protocol_lock_digest_invalid"), fingerprint; }
      candidate := BuildSnapshot(world.cfg.businessDomain, world.cfg.purposes, identity, answer.items,
          referenceDigest, protocolLock);
      if candidate.Ok? {
        var computed := ComputeAttemptFingerprintV1(candidate.value);
        BuiltSnapshotFits(world.cfg.businessDomain, world.cfg.purposes, identity, answer.items, referenceDigest,
            protocolLock);
        fingerprint := computed.value;
      }
    }

    method BlockWith(reason: string)
      requires Inv() && !state.SupersededRemote?
      modifies this`state, this`lastError, world`alive, world`log, world`out, world`stored, world`core, world`phase,
        world`earliest
      ensures Inv() && state.Blocked? && lastError == reason
      ensures world.alive ==> old(world.alive) && world.log == old(world.log) && IsStored()
    {
      hide SafeSoFar, CoreOk, Remembers, Spent, QuietSinceRelease, world.Ok;
      state, lastError := State.Blocked, reason;
      Persist();
    }

    // ---- do_request_locked ----

    method RetryAfter(reason: string)
      requires Inv()
      modifies this`state, this`lastError, this`nextRetryMs, this`backoffMs,
        world`alive, world`log, world`out, world`stored, world`core, world`phase, world`earliest
      ensures Inv() && state.RetryWait? && lastError == reason && StaysSettled()
      ensures world.alive ==> old(world.alive) && world.log == old(world.log) && IsStored()
      ensures world.cfg.SaneIntervals() ==> RetryIsAhead()
    {
      hide SafeSoFar, CoreOk, Remembers, Spent, QuietSinceRelease, world.Ok;
      state, lastError := RetryWait, reason;
      ScheduleRetry();
      Persist();
    }

    /** Sent means counted; and what is not sent leaves the attempt as it was. */
    method DoRequest()
      requires Inv() && state.Requesting?
      modifies this, world
      ensures Inv() && attempt.requestId == old(attempt.requestId)
      ensures world.alive ==> old(world.alive)
      ensures Sent(old(attempt), old(world.log)) && DiedSending() && SameRun() && !state.Active?
    {
      hide Consistent, MadeFrom, world.Ok, IsStored,
        HasSentNone, KeepsSilent;
      var candidate, candidateFingerprint := BuildCandidate();
      if candidate.Err? {
        RetryAfter(candidate.error);
        return;
      }
      var checkedAt := ReadClock();
      if !attempt.budget.RequestOk(world.cfg.params, checkedAt) {
        ReconcileSlowly("request_budget_exhausted");
        return;
      }
      if attempt.fingerprintVersion > 0 && attempt.frozenFingerprint != candidateFingerprint {
        EnterReconcileOldAttempt("fingerprint_changed_before_send");
        return;
      }
      var now := ReadClock();
      var serializes: bool := *;
      var frozen := attempt.frozenSnapshot;
      var domain := if frozen.businessDomain == "" then world.cfg.businessDomain else frozen.businessDomain;
      if !serializes || !RequestEncodes(attempt.requestId, attempt.IdempotencyKey(), domain, frozen) {
        RetryAfter("request_encode_failed");
        return;
      }
      // the identity of the moment, the content of the frozen snapshot
      var device, certificate := NormalizeDigest(identity.deviceIdentityDigest),
          NormalizeDigest(identity.certificateRef);
      var payload := MakePayload(attempt.IdempotencyKey(), frozen, world.cfg, device.value, certificate.value);
      if Live() { LiveAttemptIsFrozen(); }
      SendRequest(payload, checkedAt, now);
    }

    /** Waiting for a Response exactly when one more Request was counted. */
    ghost predicate Sent(before: Attempt, h: History)
      reads this`attempt, this`state, world`alive, world`log
    {
      && attempt == before.(budget := attempt.budget)
      && attempt.budget.requestSendCount == before.budget.requestSendCount + (if state.WaitResponse? then 1 else 0)
      && (!state.WaitResponse? ==> attempt == before)
      && (world.alive ==> if state.WaitResponse? then IsRequest(world.log, h) else world.log == h)
    }

    /** If the process died with a Request uncounted, it was this one, and the record is as it was. */
    twostate predicate DiedSending()
      reads this`attempt, world
    {
      old(world.out).Settled? && world.out.RequestOut? ==>
        old(world.alive) && IsRequest(world.log, old(world.log)) && unchanged(world`stored, world`core, world`phase)
    }

    /** One Request for the current id was sent. */
    ghost predicate IsRequest(next: History, h: History)
      reads this`attempt
    {
      next.Then? && next.before == h && next.event.RequestSent? && next.event.rid == attempt.requestId
    }

    /** Then an attempt with an id always has a fingerprint. */
    lemma LiveAttemptIsFrozen()
      requires Inv() && Live()
      ensures attempt.requestId != "" ==> attempt.fingerprintVersion != 0
    {
      FingerprintVersionOf(world.cfg, world.core, world.log);
    }

    /** A Request that passed all checks is in order, and so is the accounting after it. */
    lemma RequestMayGo(payload: Payload, checkedAt: int, now: int)
      requires Inv() && state.Requesting? && attempt.requestId != ""
      requires attempt.budget.RequestOk(world.cfg.params, checkedAt)
      requires Live() ==> SentFrozen(world.cfg, attempt.Memory(run), payload)
      ensures BackoffsBounded()
      ensures (world.alive && world.barred != "" ==> attempt.requestId != world.barred)
      ensures world.alive ==> attempt.BlankWithoutId() && Spent(world.cfg, attempt.Core(), world.barred, world.apart)
      ensures Live() ==>
        var c, next := attempt.Core(), Then(world.log, RequestSent(attempt.requestId, payload, checkedAt, now));
        && SafeSoFar(world.cfg, next) && Remembers(world.cfg, attempt.Memory(run), next)
        && KnownIds(next) <= world.used && KnownIds(next) !! world.Others()
        && InStep(world.cfg, c.(budget := c.budget.PreconsumeRequest(world.cfg.params, now)), WaitResponse,
                  next, Settled)
    {
      hide Consistent, SafeSoFar, CoreOk, Remembers, Spent, InStep, StateOk, SentFrozen, world.Ok;
      var h, c, m := world.log, attempt.Core(), attempt.Memory(run);
      Standing();
      if Live() {
        RequestIsLegal(world.cfg, c, state, m, h, payload, checkedAt, now);
        RequestIsCounted(world.cfg, c, Requesting, m, h, payload, checkedAt, now);
      }
    }

    /** The publication of a Request that passed all checks. */
    method SendRequest(payload: Payload, checkedAt: int, now: int)
      requires Inv() && state.Requesting? && attempt.requestId != ""
      requires attempt.budget.RequestOk(world.cfg.params, checkedAt)
      requires Live() ==> SentFrozen(world.cfg, attempt.Memory(run), payload)
      modifies this, world
      ensures Inv() && attempt.requestId == old(attempt.requestId)
      ensures world.alive ==> old(world.alive)
      ensures Sent(old(attempt), old(world.log)) && DiedSending() && SameRun() && !state.Active?
    {
      hide Consistent, SafeSoFar, CoreOk, Remembers, Spent, InStep, StateOk, SentFrozen, world.Ok, KnownIds;
      RequestMayGo(payload, checkedAt, now);
      var taken := PublishKeyprov(RequestMessage(attempt.requestId, payload, checkedAt, now));
      if taken {
        StoreRequest(now);
      } else {
        Persist();
      }
    }

    /** MQTT took the Request: count it and store that. */
    method StoreRequest(now: int)
      requires world.Ok() && BackoffsBounded() && state.Requesting?
      requires world.alive ==>
        attempt.BlankWithoutId() && Spent(world.cfg, attempt.Core(), world.barred, world.apart)
        && (world.barred != "" ==> attempt.requestId != world.barred)
      requires Live() ==>
        var c := attempt.Core();
        && Remembers(world.cfg, attempt.Memory(run), world.log)
        && KnownIds(world.log) <= world.used && KnownIds(world.log) !! world.Others()
        && InStep(world.cfg, c.(budget := c.budget.PreconsumeRequest(world.cfg.params, now)), WaitResponse,
                  world.log, Settled)
      modifies this`attempt, this`state, this`deadlineMs, this`attemptCount, this`submission, this`awaitingActive,
        this`awaitingGeneration, this`awaitingFingerprint,
        world`alive, world`log, world`out, world`stored, world`core, world`phase, world`earliest
      ensures Inv() && state.WaitResponse? && world.Calm() && Kept() && StaysSettled()
      ensures world.alive ==> old(world.alive) && world.log == old(world.log)
      ensures attempt == old(attempt).(budget := attempt.budget)
      ensures attempt.budget.requestSendCount == old(attempt.budget.requestSendCount) + 1
    {
      hide Consistent, SafeSoFar, CoreOk, Remembers, Spent, InStep, StateOk, world.Ok, KnownIds;
      ghost var c := attempt.Core();
      CountRequest(now);
      if world.alive { SpentStaysSpent(world.cfg, c, attempt.Core(), world.barred, world.apart); }
      PersistAs(world.log);
    }

    /** The accounting of a Request that MQTT took. */
    method CountRequest(now: int)
      modifies this`attempt, this`state, this`deadlineMs, this`attemptCount, this`submission,
        this`awaitingActive, this`awaitingGeneration, this`awaitingFingerprint
      ensures attempt == old(attempt).(budget := attempt.budget)
      ensures attempt.budget.requestSendCount == old(attempt.budget.requestSendCount) + 1
      ensures attempt.Core() ==
        old(attempt.Core()).(budget := old(attempt.Core()).budget.PreconsumeRequest(world.cfg.params, now))
      ensures state.WaitResponse? && deadlineMs == now + world.cfg.requestTimeoutMs
      ensures awaitingActive && awaitingGeneration == storeGeneration
      ensures awaitingFingerprint == attempt.frozenFingerprint
    {
      attempt := attempt.(budget := attempt.budget.PreconsumeRequest(world.cfg.params, now));
      state, deadlineMs := WaitResponse, now + world.cfg.requestTimeoutMs;
      attemptCount, submission := (attemptCount + 1) % 0x1_0000_0000, SUBMITTED;
      awaitingActive, awaitingGeneration, awaitingFingerprint := true, storeGeneration, attempt.frozenFingerprint;
    }

    // ---- Old attempts ----

    method TransitionTo(next: State)
      modifies this`state, this`recoveryPhase
      ensures state == next && recoveryPhase == if old(state) == next then old(recoveryPhase) else RecoveryPhase(next)
    {
      if state != next {
        state, recoveryPhase := next, RecoveryPhase(next);
      }
    }

    /** Stop sending the old Request; keep its id and ask SEC and the cloud what became of it. */
    method EnterReconcileOldAttempt(reason: string)
      requires Inv()
      modifies this`deadlineMs, this`reconcileStatusSent, this`awaitingActive, this`lastError, this`state,
        this`recoveryPhase, world`alive, world`log, world`out, world`stored, world`core, world`phase, world`earliest
      ensures Inv() && state.ReconcileOldAttempt? && lastError == reason && StaysSettled()
      ensures world.alive ==> old(world.alive) && world.log == old(world.log)
      ensures old(RetryIsAhead()) ==> RetryIsAhead()
    {
      hide SafeSoFar, CoreOk, Remembers, Spent, QuietSinceRelease, world.Ok;
      deadlineMs, reconcileStatusSent, awaitingActive, lastError := 0, false, false, reason;
      TransitionTo(ReconcileOldAttempt);
      Persist();
    }

    // ---- create_new_attempt_locked ----

    /** Start the next attempt: the first one, or the successor of an attempt that was released. */
    method CreateNewAttempt() returns (built: bool)
      requires Inv()
      requires Live() ==> attempt.requestId == "" || state.SupersededRemote?
      modifies this, world
      ensures Inv() && (world.alive ==> old(world.alive)) && !state.Active?
      ensures NoSpin(old(attempt.requestId))
      ensures old(secOutcomeUnknown) ==> attempt == old(attempt) && state.ReconcileOldAttempt?
      ensures old(attempt.successorRequestId) != "" ==>
        attempt.requestId == old(attempt.requestId) || attempt.requestId == old(attempt.successorRequestId)
      ensures Creates(built && !old(secOutcomeUnknown), old(attempt.requestId), old(world.log))
      ensures world.alive && !(built && !old(secOutcomeUnknown)) ==> world.log == old(world.log)
      ensures FirstRequest(old(attempt.requestId), old(world.log))
    {
      hide SafeSoFar, CoreOk, Remembers, Spent, QuietSinceRelease, world.Ok, MadeFrom, Safe;
      built := true;
      if secOutcomeUnknown {
        blockedReason, state := SEC_UNKNOWN, ReconcileOldAttempt;
        ScheduleRetry();
        Persist();
        return;
      }
      var candidate, fingerprint := BuildCandidate();
      built := candidate.Ok?;
      if candidate.Err? {
        RetryAfter(candidate.error);
        return;
      }
      StartAttempt(candidate.value, fingerprint);
      ghost var adopted := world.log;
      DoRequest();
      if world.alive { LastIsStage(adopted, world.log); }
    }

    /** An attempt was created: then its adoption is in the history. Its id is a new one, unless the old attempt was its
        own successor. */
    ghost predicate Creates(created: bool, before: string, h: History)
      reads this`attempt, world`alive, world`log
    {
      world.alive ==>
        && (attempt.requestId != before ==> created)
        && (created && world.apart ==> attempt.requestId != before)
        && (created ==> StageOf(Then(h, Adopted(before, attempt.requestId)), world.log))
    }

    /** The first Request of a new attempt follows its adoption. If the process died before it was counted, the record
        is that of an attempt that has sent none. */
    twostate predicate FirstRequest(before: string, h: History)
      reads this`attempt, this`state, world
    {
      var adopted := Then(h, Adopted(before, attempt.requestId));
      && (world.alive && state.WaitResponse? ==> IsRequest(world.log, adopted))
      && (old(world.out).Settled? && world.out.RequestOut? ==> IsRequest(world.log, adopted) && HasSentNone())
    }

    ghost predicate HasSentNone()
      reads this`attempt, world`stored, world`core, world`phase
    {
      && world.stored.requestId == attempt.requestId && !world.stored.legacySnapshotUnknown
      && world.phase.Requesting?
      && world.core.budget.requestSendCount == 0 && world.core.budget.firstRequestAt == 0
    }

    lemma LastIsStage(p: History, h: History)
      requires h == p || (h.Then? && h.before == p)
      ensures StageOf(p, h)
    {
    }

    /** Adopt an id, and store the new attempt before anything is sent for it. */
    method StartAttempt(candidate: Snapshot, fingerprint: Digest)
      requires Inv()
      requires Live() ==> attempt.requestId == "" || state.SupersededRemote?
      modifies this, world
      ensures Inv() && state.Requesting? && (world.alive ==> old(world.alive)) && StaysSettled()
      ensures world.alive ==> HasSentNone()
      ensures world.alive && world.apart ==> attempt.requestId != old(attempt.requestId) && attempt.requestId != ""
      ensures world.alive ==> world.log == Then(old(world.log), Adopted(old(attempt.requestId), attempt.requestId))
      ensures attempt.frozenSnapshot == candidate && attempt.frozenFingerprint == fingerprint
      ensures old(attempt.successorRequestId) != "" ==> attempt.requestId == old(attempt.successorRequestId)
    {
      hide Consistent, SafeSoFar, CoreOk, Remembers, Spent, InStep, StateOk, world.Ok;
      ghost var h, c, s, used, others := world.log, attempt.Core(), state, world.used, world.Others();
      Standing();
      var next := attempt.successorRequestId;
      if next == "" { next := world.GenerateId(attempt.requestId); }
      if world.alive && world.apart { SuccessorIsAnother(world.cfg, c, world.barred, world.apart); }
      if Live() { AdoptionKeepsStep(world.cfg, c, s, h, used, others, next); }
      if world.alive { SpentSuccessor(world.cfg, c, world.barred, world.apart, next); }
      Adopt(next, candidate, fingerprint);
      if world.alive { BarredIsSpent(world.cfg, attempt.Core(), world.barred, world.apart); }
      if Live() { NewMemory(world.cfg, attempt.Memory(run), Then(h, Adopted(c.rid, next))); }
      PersistAs(Then(h, Adopted(c.rid, next)));
    }

    /** After a cloud status was handled: another attempt was adopted, or nothing is being reconciled any more, or the
        next query lies in the future. */
    ghost predicate NoSpin(before: string)
      reads this`attempt, this`state, this`nextRetryMs, world`alive, world`earliest, world`log
    {
      world.alive && world.cfg.SaneIntervals() ==>
        || (JustAdopted(before, attempt.requestId, world.log) && (world.apart ==> attempt.requestId != before))
        || !IsReconciliation(state) || RetryIsAhead()
    }

    /** Take the new id and freeze the candidate; everything known of the old attempt is dropped. */
    method Adopt(next: string, candidate: Snapshot, fingerprint: Digest)
      modifies this`attempt, this`supersedesRequestId, this`terminalized, this`importAttempted, this`ackSent,
        this`statusSent, this`recoveringAck, this`pendingItems, this`responseBinding, this`attemptCount,
        this`lastError, this`blockedReason, this`submission, this`secOutcomeUnknown, this`pendingCallback,
        this`recoveryPhase, this`firstWall, this`lastWall, this`lastEvidence, this`lastObservation,
        this`storeGeneration, this`awaitingActive, this`state
      ensures attempt.Core() == NewCore(old(attempt.Core()), next)
      ensures attempt == Attempt(next, attempt.idempotencyDigest, candidate, fingerprint, 1,
          old(attempt.budget).ResetForNewAttempt(),
                                 0, 0, "", NoSideEffectProven, false, NO_STABILIZATION, -1, NO_CLOUD_ERROR, [])
      ensures state.Requesting?
    {
      if attempt.requestId != "" { Terminalize(); }
      var key: string := *;
      attempt := Attempt(
        next, key, candidate, fingerprint, 1,
        attempt.budget.ResetForNewAttempt(), 0, 0, "",
        NoSideEffectProven, false, NO_STABILIZATION, -1, NO_CLOUD_ERROR, []);
      ForgetProgress();
      state := Requesting;
    }

    /** The old id goes on the bounded list of ended attempts. */
    method Terminalize()
      modifies this`supersedesRequestId, this`terminalized
      ensures terminalized != [] && terminalized[|terminalized| - 1] == attempt.requestId
      ensures |old(terminalized)| <= TERMINALIZED_LIMIT ==> |terminalized| <= TERMINALIZED_LIMIT
      ensures supersedesRequestId == if old(supersedesRequestId) == "" then attempt.requestId
          else old(supersedesRequestId)
    {
      if supersedesRequestId == "" { supersedesRequestId := attempt.requestId; }
      if terminalized == [] || terminalized[|terminalized| - 1] != attempt.requestId {
        terminalized := terminalized + [attempt.requestId];
      }
      if |terminalized| > TERMINALIZED_LIMIT { terminalized := terminalized[|terminalized| - TERMINALIZED_LIMIT..]; }
    }

    method ForgetProgress()
      modifies this`importAttempted, this`ackSent, this`statusSent,
        this`recoveringAck, this`pendingItems, this`responseBinding, this`attemptCount, this`lastError,
        this`blockedReason, this`submission, this`secOutcomeUnknown, this`pendingCallback, this`recoveryPhase,
        this`firstWall, this`lastWall, this`lastEvidence, this`lastObservation, this`storeGeneration,
        this`awaitingActive
      ensures !importAttempted && !ackSent && !statusSent && !recoveringAck && pendingItems == []
      ensures responseBinding == []
      ensures attemptCount == 0 && lastError == "" && blockedReason == "" && submission == SUBMISSION_NONE
      ensures !secOutcomeUnknown && !pendingCallback && recoveryPhase == "" && firstWall == -1 && lastWall == -1
      ensures lastEvidence == ContractUnknownEvidence && lastObservation == None && !awaitingActive
      ensures storeGeneration == (old(storeGeneration) + 1) % 0x1_0000_0000_0000_0000
    {
      ForgetTransfer();
      ForgetEvidence();
      storeGeneration := (storeGeneration + 1) % 0x1_0000_0000_0000_0000;
      awaitingActive := false;
    }

    method ForgetTransfer()
      modifies this`importAttempted, this`ackSent, this`statusSent, this`recoveringAck, this`pendingItems,
        this`responseBinding, this`attemptCount, this`lastError, this`blockedReason, this`submission
      ensures !importAttempted && !ackSent && !statusSent && !recoveringAck && pendingItems == []
      ensures responseBinding == []
      ensures attemptCount == 0 && lastError == "" && blockedReason == "" && submission == SUBMISSION_NONE
    {
      importAttempted, ackSent, statusSent, recoveringAck, pendingItems, responseBinding := false, false, false,
          false, [], [];
      attemptCount, lastError, blockedReason, submission := 0, "", "", SUBMISSION_NONE;
    }

    method ForgetEvidence()
      modifies this`secOutcomeUnknown, this`pendingCallback, this`recoveryPhase, this`firstWall, this`lastWall,
        this`lastEvidence, this`lastObservation
      ensures !secOutcomeUnknown && !pendingCallback && recoveryPhase == "" && firstWall == -1 && lastWall == -1
      ensures lastEvidence == ContractUnknownEvidence && lastObservation == None
    {
      secOutcomeUnknown, pendingCallback, recoveryPhase := false, false, "";
      firstWall, lastWall, lastEvidence, lastObservation := -1, -1, ContractUnknownEvidence, None;
    }

    // ---- send_status_request_locked ----

    /** A StatusRequest may be sent for any current id; nothing counts it. */
    method PublishStatusRequest() returns (taken: bool)
      requires Inv() && !state.SupersededRemote? && attempt.requestId != ""
      modifies this`state, this`lastError, this`identityValid, this`identity, this`pendingItems, this`responseBinding,
        this`deadlineMs, this`nextRetryMs, this`backoffMs, this`capabilityEventSeen, this`cloud, this`lastSequence,
        world`alive, world`log, world`out, world`earliest
      ensures Inv() && (world.alive ==> old(world.alive))
      ensures state == old(state) || (!taken && (state.WaitCloud? || state.Blocked? || state.RetryWait?))
      ensures old(IsReconciliation(state)) ==> (taken <==> state == old(state))
      ensures world.alive ==>
        world.log == if taken then Then(old(world.log), StatusAsked(attempt.requestId)) else old(world.log)
    {
      hide SafeSoFar, CoreOk, Remembers, Spent, QuietSinceRelease, world.Ok, InStep, StateOk;
      ghost var h := world.log;
      Standing();
      if Live() { StatusIsLegal(world.cfg, attempt.Core(), state, h); }
      taken := PublishKeyprov(StatusMessage(attempt.requestId));
      if taken && Live() {
        MemoryKeeps(world.cfg, attempt.Memory(run), h, StatusAsked(attempt.requestId));
        StatusKeepsState(attempt.Core(), state, h, attempt.requestId);
      }
    }

    lemma StatusKeepsState(c: Core, s: State, h: History, rid: string)
      requires StateOk(c, s, h) && !s.SupersededRemote?
      ensures StateOk(c, s, Then(h, StatusAsked(rid)))
    {
    }

    method SendStatusRequest()
      requires Inv() && !state.SupersededRemote?
      modifies this`state, this`lastError, this`identityValid, this`identity, this`pendingItems, this`responseBinding,
        this`deadlineMs, this`nextRetryMs, this`backoffMs, this`capabilityEventSeen, this`cloud, this`lastSequence,
        this`reconcileStatusSent,
        this`awaitingActive, this`awaitingGeneration, this`awaitingFingerprint, world
      ensures Inv() && (world.alive ==> old(world.alive))
      ensures state == old(state) || state.WaitCloud? || state.Blocked? || state.RetryWait?
      ensures world.alive ==>
        world.log == old(world.log) || world.log == Then(old(world.log), StatusAsked(attempt.requestId))
      ensures world.alive && reconcileStatusSent && !old(reconcileStatusSent) ==>
        world.log == Then(old(world.log), StatusAsked(attempt.requestId))
    {
      hide SafeSoFar, CoreOk, Remembers, Spent, QuietSinceRelease, world.Ok;
      var encodes: bool := *;
      if !identityValid || !encodes || attempt.requestId == "" {
        ScheduleRetry();
        Persist();
        return;
      }
      var taken := PublishStatusRequest();
      if taken { AwaitStatus(); }
      Persist();
    }

    method AwaitStatus()
      modifies this`reconcileStatusSent, this`deadlineMs, this`awaitingActive, this`awaitingGeneration,
        this`awaitingFingerprint, world`earliest
      ensures reconcileStatusSent && awaitingActive
      ensures awaitingGeneration == storeGeneration && awaitingFingerprint == attempt.frozenFingerprint
      ensures old(world.Ok()) ==> world.Ok()
    {
      hide world.Ok;
      var now := world.NowMs();
      reconcileStatusSent, deadlineMs := true, now + world.cfg.ackTimeoutMs;
      awaitingActive, awaitingGeneration, awaitingFingerprint := true, storeGeneration, attempt.frozenFingerprint;
    }

    // ---- Stabilisation ----

    method ResetStabilization()
      modifies this`attempt, this`firstWall, this`lastWall
      ensures attempt == old(attempt).(stab := attempt.stab) && attempt.stab.count == 0
      ensures old(attempt.stab.count) == 0 ==> attempt == old(attempt)
      ensures attempt.stab == old(attempt.stab).(count := 0, first := attempt.stab.first, last := attempt.stab.last)
      ensures old(attempt.stab.count) > 0 ==> attempt.stab.first == -1
    {
      if attempt.stab.count > 0 {
        attempt := attempt.(stab := attempt.stab.(count := 0, first := -1, last := -1));
        firstWall, lastWall := -1, -1;
      }
    }

    /** One more strong NOT_FOUND. A run belongs to one attempt and one capability epoch. */
    method ObserveNotFound(now: int)
      modifies this`attempt, this`firstWall, this`lastWall, world`earliest
      ensures old(world.Ok()) ==> world.Ok()
      ensures attempt == old(attempt).(stab := attempt.stab)
      ensures IsOwn(attempt.stab) && attempt.stab.last == now
      ensures attempt.stab.count == if Continues(old(attempt.stab)) then old(attempt.stab.count) + 1 else 1
      ensures attempt.stab.first == if Continues(old(attempt.stab)) then old(attempt.stab.first) else now
    {
      hide world.Ok;
      if attempt.stab.epoch == 0 || attempt.stab.epoch != capabilityEpoch {
        ResetStabilization();
        attempt := attempt.(stab := attempt.stab.(epoch := capabilityEpoch, contract := contractVersion,
                                                  rid := attempt.requestId, generation := storeGeneration));
      }
      if attempt.stab.rid != attempt.requestId || attempt.stab.generation != storeGeneration {
        ResetStabilization();
      }
      var first := if attempt.stab.count == 0 then now else attempt.stab.first;
      attempt := attempt.(stab := Stabilization(attempt.stab.count + 1, attempt.stab.epoch, contractVersion,
                                                attempt.requestId, storeGeneration, first, now));
      var wall := world.NowMs();
      if firstWall < 0 { firstWall := wall; }
      lastWall := wall;
    }

    /** The stabilisation is that of the present attempt, generation and capability epoch. */
    predicate IsOwn(s: Stabilization)
      reads this`attempt, this`capabilityEpoch, this`storeGeneration
    {
      s.epoch == capabilityEpoch && s.rid == attempt.requestId && s.generation == storeGeneration
    }

    function NextCount(): nat
      reads this`attempt, this`capabilityEpoch, this`storeGeneration
    {
      if Continues(attempt.stab) then attempt.stab.count + 1 else 1
    }

    /** The next strong NOT_FOUND continues the run. */
    predicate Continues(s: Stabilization)
      reads this`attempt, this`capabilityEpoch, this`storeGeneration
    {
      s.count > 0 && s.epoch != 0 && IsOwn(s)
    }

    // ---- reconcile_sec_journal_locked ----

    /** Ask SEC for the outcome of the import of this attempt. */
    method QueryOwnImport() returns (a: SecAnswer)
      requires Inv()
      modifies world`alive, world`log, world`out
      ensures Inv() && (world.alive ==> old(world.alive))
      ensures Live() && Classify(a) == Committed ==>
        Remembers(world.cfg, attempt.Memory(run).(hasAckItems := true), world.log)
      ensures world.alive ==>
        world.log ==
          if Classify(a) == Committed then Then(old(world.log), CommittedAnswer(attempt.requestId)) else old(world.log)
    {
      hide SafeSoFar, CoreOk, Remembers, Spent, world.Ok, QuietSinceRelease;
      ghost var h, m := world.log, attempt.Memory(run);
      a := world.QueryImportResult(attempt.requestId);
      if Live() && Classify(a) == Committed {
        CommittedIsRemembered(world.cfg, m, h);
        MemoryKeeps(world.cfg, m, h, CommittedAnswer(attempt.requestId));
        SameQuiet(h, CommittedAnswer(attempt.requestId), attempt.requestId);
      }
    }

    lemma SameQuiet(h: History, e: Event, rid: string)
      requires Harmless(e)
      ensures QuietSinceRelease(Then(h, e), rid) == QuietSinceRelease(h, rid)
    {
    }

    /** Enter the read just made into the history. */
    ghost method NoteRead(read: Read)
      requires Inv() && attempt.requestId != "" && read.rid == attempt.requestId
      requires Live() && read.kind == Committed ==> CommittedIn(world.log, attempt.requestId)
      modifies world`log
      ensures world.Ok() && (world.alive ==> world.log == Then(old(world.log), JournalRead(read)))
    {
      hide SafeSoFar, CoreOk, Remembers, Spent, world.Ok, QuietSinceRelease;
      Standing();
      if Live() { ReadIsLegal(world.cfg, attempt.Core(), state, world.log, read); }
      world.Note(JournalRead(read));
    }

    ghost function ReadNow(kind: EvidenceKind, strong: bool, now: int): Read
      reads this`attempt, this`capabilityEpoch
    {
      Read(attempt.requestId, kind, strong, capabilityEpoch, now, 0)
    }

    /** COMMITTED with so many items. */
    ghost function CommittedNow(items: nat): Read
      reads this`attempt, this`capabilityEpoch
    {
      Read(attempt.requestId, Committed, false, capabilityEpoch, 0, items)
    }

    /** A read that breaks the run of strong answers. */
    method BreakRun(kind: EvidenceKind)
      requires Inv() && attempt.requestId != "" && kind != Committed
      modifies this`attempt, this`firstWall, this`lastWall, world`log
      ensures Inv() && attempt == old(attempt).(stab := attempt.stab)
      ensures attempt.stab.count == 0
      ensures world.alive ==> world.log == Then(old(world.log), JournalRead(old(ReadNow(kind, false, 0))))
    {
      hide SafeSoFar, CoreOk, Remembers, Spent, world.Ok;
      ghost var h, m, read := world.log, attempt.Memory(run), ReadNow(kind, false, 0);
      NoteRead(read);
      ResetStabilization();
      if Live() {
        ReadIsRemembered(world.cfg, m, attempt.Memory(run), h, read);
        SameQuiet(h, JournalRead(read), attempt.requestId);
      }
    }

    /** A read about an attempt that is not unresolved. */
    ghost method NoteSettledRead(kind: EvidenceKind, strong: bool)
      requires Inv() && attempt.requestId != "" && !attempt.resolution.Unresolved? && kind != Committed
      modifies world`log
      ensures Inv()
      ensures Live() && kind == NotFound && strong ==> FreshNotFound(world.log, attempt.requestId)
    {
      hide SafeSoFar, CoreOk, Remembers, Spent, world.Ok;
      ghost var h, m, read := world.log, attempt.Memory(run), ReadNow(kind, strong, 0);
      NoteRead(read);
      if Live() {
        ReadIsRemembered(world.cfg, m, m, h, read);
        SameQuiet(h, JournalRead(read), attempt.requestId);
      }
    }

    /** Before anything else is done about an old attempt, SEC is asked. The answer decides whether the cloud may be
        asked as well; and only after a strong NOT_FOUND does secOutcomeUnknown stay false. */
    method ReconcileSecJournal() returns (action: ReconcileAction, a: SecAnswer, now: int)
      requires Inv() && !state.SupersededRemote?
      modifies this, world
      ensures Reconciled(old(attempt), action) && (world.alive ==> old(world.alive))
      ensures old(attempt.requestId) == "" ==>
        action.TerminalHandled? && Untouched(old(attempt), old(state), old(world.log), old(world.stored))
      ensures old(attempt.requestId) != "" ==> Judged(a, action, now)
    {
      hide SafeSoFar, CoreOk, Remembers, Spent, world.Ok, StateOk, Reconciled;
      a, now := *, 0;
      if attempt.requestId == "" {
        NothingReconciled();
        return TerminalHandled, a, now;
      }
      a := QueryOwnImport();
      action, now := JudgeAnswer(a);
    }

    /** Without an id there is nothing to reconcile. */
    lemma NothingReconciled()
      requires Inv() && attempt.requestId == ""
      ensures Reconciled(attempt, TerminalHandled)
    {
    }

    /** What each answer of SEC leads to. A strong NOT_FOUND is counted while the attempt is unresolved, and a COMMITTED
        with items missing leaves everything but the items as it was. */
    method JudgeAnswer(a: SecAnswer) returns (action: ReconcileAction, now: int)
      requires Inv() && !state.SupersededRemote? && attempt.requestId != ""
      requires Live() && Classify(a) == Committed ==>
        Remembers(world.cfg, attempt.Memory(run).(hasAckItems := true), world.log)
      modifies this, world
      ensures Reconciled(old(attempt), action) && (world.alive ==> old(world.alive))
      ensures Judged(a, action, now)
    {
      hide Consistent, Remembers, FreshNotFound;
      lastEvidence, now := Classify(a), 0;
      match lastEvidence
      case Committed => action := OnCommitted(a.items);
      case NotFound =>
        if StrongNotFound(a, contractVersion) {
          action, now := OnStrongNotFound();
        } else {
          action := OnWeakNotFound();
        }
      case _ => action := OnContraryEvidence(a);
    }

    twostate predicate Judged(a: SecAnswer, action: ReconcileAction, now: int)
      reads this
    {
      && (StrongNotFound(a, old(contractVersion)) && old(attempt.resolution).Unresolved? ==>
            action.AllowReadonlyRemote? && Counted(now))
      && (Classify(a) == Committed && |a.items| != |world.cfg.purposes| ==>
            attempt == old(attempt).(ackItems := BuildAckItems(a.items)) && SameSession() && state.ReconcileOldAttempt?)
    }

    /** A run that was under way goes on. */
    twostate predicate SameRun()
      reads this`capabilityEpoch, this`storeGeneration
    {
      unchanged(`capabilityEpoch, `storeGeneration)
    }

    /** Nothing that a stabilisation depends on has changed beside the attempt. */
    twostate predicate SameSession()
      reads this`capabilityEpoch, this`storeGeneration, this`contractVersion, this`pendingItems
    {
      unchanged(`capabilityEpoch, `storeGeneration, `contractVersion, `pendingItems)
    }

    /** One more strong NOT_FOUND was counted, and the attempt is proven exactly if that is enough. */
    twostate predicate Counted(now: int)
      reads this
    {
      && SameSession() && attempt == old(attempt).(stab := attempt.stab, resolution := attempt.resolution)
      && attempt.stab.count == old(NextCount()) && IsOwn(attempt.stab)
      && (old(Continues(attempt.stab)) ==> attempt.stab.first == old(attempt.stab.first))
      && attempt.resolution == (if Suffices(now) then NoSideEffectProven else Unresolved)
    }

    /** Enough answers, over the whole window, and nothing pending. */
    predicate Suffices(now: int)
      reads this`attempt, this`pendingItems
    {
      attempt.stab.count >= world.cfg.notFoundCount && attempt.stab.first >= 0
          && now - attempt.stab.first >= world.cfg.StabilizationWindowMs() && pendingItems == []
          && attempt.ackItems == []
    }

    ghost predicate Untouched(before: Attempt, s: State, h: History, r: Record)
      reads this`attempt, this`state, world`log, world`stored
    {
      attempt == before && state == s && world.log == h && world.stored == r
    }

    /** How the journal leaves the coordinator: the attempt is still the same; a read-only look at the cloud is allowed
        only for a known id; and when nothing was proven, a retry is scheduled. */
    ghost predicate Reconciled(before: Attempt, action: ReconcileAction)
      reads this`attempt, this`run, this`state, this`backoffMs, this`statusBackoffMs, this`nextRetryMs,
        this`secOutcomeUnknown, world
    {
      && Inv()
      && attempt == before.(stab := attempt.stab, resolution := attempt.resolution,
                            ackItems := attempt.ackItems, budget := attempt.budget)
      && (!action.TerminalHandled? ==> !state.SupersededRemote?)
      && (action.AllowReadonlyRemote? ==>
            && attempt.requestId != ""
            && (Live() && !secOutcomeUnknown ==> FreshNotFound(world.log, attempt.requestId))
            && (world.cfg.SaneIntervals() && (secOutcomeUnknown || !attempt.resolution.NoSideEffectProven?) ==>
                  RetryIsAhead()))
    }

    /** COMMITTED is the authoritative fact: back to the original acknowledgement. With items missing nothing is
        acknowledged, and the stabilisation is left as it is. */
    method OnCommitted(items: seq<ImportItem>) returns (action: ReconcileAction)
      requires Inv() && !state.SupersededRemote? && attempt.requestId != ""
      requires Live() ==> Remembers(world.cfg, attempt.Memory(run).(hasAckItems := true), world.log)
      modifies this, world
      ensures Reconciled(old(attempt), action) && action.TerminalHandled? && (world.alive ==> old(world.alive))
      ensures |items| == |world.cfg.purposes| ==>
        !secOutcomeUnknown && attempt.resolution.Unresolved? && attempt.stab.count == 0
        && (items != [] ==> attempt.ackItems == BuildAckItems(items))
      ensures |items| != |world.cfg.purposes| ==>
        && attempt == old(attempt).(ackItems := BuildAckItems(items)) && run == old(run) && SameSession()
        && secOutcomeUnknown && state.ReconcileOldAttempt? && (world.cfg.SaneIntervals() ==> RetryIsAhead())
        && (world.alive ==> world.log == Then(old(world.log), JournalRead(old(CommittedNow(|items|)))))
    {
      hide SafeSoFar, CoreOk, Remembers, Spent, world.Ok, QuietSinceRelease, InStep, RetryIsAhead;
      if |items| == |world.cfg.purposes| {
        ResumeAck(items);
        var now, h := DoAck();
      } else {
        PassOver(items);
        secOutcomeUnknown, blockedReason, state := true, SEC_UNKNOWN, ReconcileOldAttempt;
        ScheduleRetry();
        Persist();
      }
      return TerminalHandled;
    }

    /** COMMITTED with items missing: a read that neither counts nor ends the run. */
    method PassOver(items: seq<ImportItem>)
      requires Inv() && !state.SupersededRemote? && attempt.requestId != ""
      requires Live() ==> Remembers(world.cfg, attempt.Memory(run).(hasAckItems := true), world.log)
      modifies this`attempt, world`log
      ensures Inv() && attempt == old(attempt).(ackItems := BuildAckItems(items))
      ensures world.alive ==> world.log == Then(old(world.log), JournalRead(old(CommittedNow(|items|))))
    {
      hide SafeSoFar, CoreOk, Remembers, Spent, world.Ok, QuietSinceRelease;
      ghost var h, m, read := world.log, attempt.Memory(run), CommittedNow(|items|);
      if Live() { CommittedIsThere(world.cfg, m, h); }
      NoteRead(read);
      if Live() {
        CommittedReadIsRemembered(world.cfg, m, m.(hasAckItems := items != []), h, read);
        SameQuiet(h, JournalRead(read), attempt.requestId);
      }
      attempt := attempt.(ackItems := BuildAckItems(items));
    }

    /** Complete COMMITTED items: the attempt is unresolved again, and its acknowledgement is due. */
    method ResumeAck(items: seq<ImportItem>)
      requires Inv() && !state.SupersededRemote? && attempt.requestId != ""
      requires Live() ==> Remembers(world.cfg, attempt.Memory(run).(hasAckItems := true), world.log)
      modifies this, world
      ensures Inv() && state.AckPending? && (world.alive ==> old(world.alive))
      ensures attempt == old(attempt).(stab := attempt.stab, resolution := Unresolved, ackItems := BuildAckItems(items))
      ensures attempt.stab.count == 0 && !secOutcomeUnknown
    {
      hide Consistent, SafeSoFar, CoreOk, Remembers, Spent, world.Ok, InStep, StateOk, KnownIds;
      ghost var h, c, s, m, read := world.log, attempt.Core(), state, attempt.Memory(run), CommittedNow(|items|);
      Standing();
      attempt := attempt.(ackItems := BuildAckItems(items), resolution := Unresolved);
      ResetStabilization();
      if Live() { CommittedIsRecorded(world.cfg, c, s, m, attempt.Memory(run), h, read); }
      if world.alive { SpentStaysSpent(world.cfg, c, attempt.Core(), world.barred, world.apart); }
      RestoreAck();
      PersistAs(Then(h, JournalRead(read)));
    }

    method RestoreAck()
      modifies this`secOutcomeUnknown, this`pendingCallback, this`blockedReason, this`ackSent, this`statusSent,
        this`recoveringAck, this`state
      ensures state.AckPending? && !secOutcomeUnknown && !ackSent && !statusSent && !recoveringAck && !pendingCallback
      ensures blockedReason == ""
    {
      secOutcomeUnknown, pendingCallback, blockedReason := false, false, "";
      ackSent, statusSent, recoveringAck, state := false, false, false, AckPending;
    }

    /** NOT_FOUND of an old contract proves nothing. */
    method OnWeakNotFound() returns (action: ReconcileAction)
      requires Inv() && !state.SupersededRemote? && attempt.requestId != ""
      modifies this, world
      ensures Reconciled(old(attempt), action) && action.WaitSec? && (world.alive ==> old(world.alive))
      ensures secOutcomeUnknown && attempt.stab.count == 0 && attempt.resolution == old(attempt.resolution)
      ensures state == if old(state).HardBlocked? then HardBlocked else ReconcileEvidence
    {
      hide SafeSoFar, CoreOk, Remembers, Spent, world.Ok, QuietSinceRelease;
      BreakRun(NotFound);
      secOutcomeUnknown, blockedReason := true, SEC_NOT_FOUND;
      if !state.HardBlocked? { TransitionTo(ReconcileEvidence); }
      ScheduleRetry();
      Persist();
      return WaitSec;
    }

    /** A strong NOT_FOUND is counted while the attempt is unresolved, believed once it is proven, and of no use after a
        conflict. */
    method OnStrongNotFound() returns (action: ReconcileAction, now: int)
      requires Inv() && !state.SupersededRemote? && attempt.requestId != ""
      modifies this, world
      ensures Reconciled(old(attempt), action) && (world.alive ==> old(world.alive)) && !secOutcomeUnknown
      ensures action == if old(attempt.resolution).HardConflict? then WaitSec else AllowReadonlyRemote
      ensures if old(attempt.resolution).Unresolved? then Counted(now) else attempt == old(attempt)
    {
      hide SafeSoFar, CoreOk, Remembers, Spent, world.Ok, QuietSinceRelease;
      pendingCallback, secOutcomeUnknown, now := false, false, 0;
      if attempt.resolution.Unresolved? {
        now := CountNotFound();
        return AllowReadonlyRemote, now;
      }
      NoteSettledRead(NotFound, true);
      if attempt.resolution.NoSideEffectProven? {
        if !state.ReconcileOldAttempt? && !state.LegacySnapshotUnknown? && !state.BlockedAwaitCloudTermination?
            && !state.AwaitRemoteRepair? {
          TransitionTo(ReconcileRemote);
        }
        Persist();
        return AllowReadonlyRemote, now;
      }
      ScheduleRetry();
      Persist();
      return WaitSec, now;
    }

    /** Unresolved: count the answer, and when there are enough of them over the whole window, take it as proof. */
    method CountNotFound() returns (now: int)
      requires Inv() && !state.SupersededRemote? && attempt.requestId != "" && attempt.resolution.Unresolved?
      requires !secOutcomeUnknown
      modifies this, world
      ensures Reconciled(old(attempt), AllowReadonlyRemote) && (world.alive ==> old(world.alive))
      ensures !secOutcomeUnknown && Counted(now)
    {
      hide Consistent;
      ObserveRead();
      Stabilizing();
      now := world.MonotonicMs();
      if Suffices(now) {
        ProveNoSideEffects(now);
      } else {
        blockedReason := STABILIZING;
        AskLater();
      }
    }

    method Stabilizing()
      requires Inv() && !state.SupersededRemote?
      modifies this`state, this`recoveryPhase
      ensures Inv() && (state.StabilizingNotFound? || state.LegacySnapshotUnknown?)
    {
      hide SafeSoFar, CoreOk, Remembers, Spent, world.Ok, QuietSinceRelease;
      if !state.StabilizingNotFound? && !state.LegacySnapshotUnknown? { TransitionTo(StabilizingNotFound); }
    }

    method AskLater()
      requires Inv()
      modifies this`nextRetryMs, this`statusBackoffMs,
        world`alive, world`log, world`out, world`stored, world`core, world`phase, world`earliest
      ensures Inv() && (world.alive ==> old(world.alive) && world.log == old(world.log))
      ensures world.cfg.SaneIntervals() ==> RetryIsAhead()
    {
      hide SafeSoFar, CoreOk, Remembers, Spent, world.Ok, QuietSinceRelease;
      ScheduleStatusRetry();
      Persist();
    }

    /** Count the strong NOT_FOUND just read. */
    method ObserveRead()
      requires Inv() && attempt.requestId != "" && attempt.resolution.Unresolved?
      modifies this`attempt, this`run, this`firstWall, this`lastWall, world`log, world`earliest
      ensures Inv() && attempt == old(attempt).(stab := attempt.stab) && attempt.stab.count == old(NextCount())
      ensures IsOwn(attempt.stab)
      ensures old(Continues(attempt.stab)) ==> attempt.stab.first == old(attempt.stab.first)
      ensures Live() ==> FreshNotFound(world.log, attempt.requestId)
    {
      hide SafeSoFar, CoreOk, Remembers, Spent, world.Ok;
      ghost var h, m := world.log, attempt.Memory(run);
      Standing();
      var readAt := world.MonotonicMs();
      ghost var read := ReadNow(NotFound, true, readAt);
      NoteRead(read);
      ghost var continues := Continues(attempt.stab);
      ObserveNotFound(readAt);
      run := if continues then More(run, read) else More(NoRun, read);
      if Live() {
        if Vouched(h, attempt.requestId) { UnresolvedIsImported(world.cfg, attempt.Core(), state, h); }
        RunGrows(world.cfg, m, h, attempt.stab, run, read, continues);
        SameQuiet(h, JournalRead(read), attempt.requestId);
      }
    }

    method ProveNoSideEffects(now: int)
      requires Inv() && attempt.requestId != "" && attempt.resolution.Unresolved? && !state.SupersededRemote?
      requires !secOutcomeUnknown && attempt.ackItems == []
      requires attempt.stab.count >= world.cfg.notFoundCount && attempt.stab.first >= 0
      requires now - attempt.stab.first >= world.cfg.StabilizationWindowMs()
      requires Live() ==> FreshNotFound(world.log, attempt.requestId)
      modifies this`attempt, this`blockedReason, this`state, this`recoveryPhase,
        world`alive, world`log, world`out, world`stored, world`core, world`phase, world`earliest
      ensures attempt == old(attempt).(resolution := NoSideEffectProven) && state.ReconcileRemote?
      ensures Reconciled(old(attempt), AllowReadonlyRemote) && (world.alive ==> old(world.alive))
    {
      hide SafeSoFar, CoreOk, Remembers, Spent, world.Ok, QuietSinceRelease, InStep, HandedIds, OriginOf,
        RecoveryPhase, Vouched, EndsIn, AllStrong, StateOk, Requests, LastItems, TotalCrashes, CoreOf, Length, RunStart;
      ghost var h, c, m := world.log, attempt.Core(), attempt.Memory(run);
      Standing();
      if Live() { ProofKeepsStep(world.cfg, c, state, ReconcileRemote, m, h, now); }
      attempt, blockedReason := attempt.(resolution := NoSideEffectProven), "";
      TransitionTo(ReconcileRemote);
      if world.alive { SpentStaysSpent(world.cfg, c, attempt.Core(), world.barred, world.apart); }
      PersistAs(if Live() then Then(h, Proved(attempt.requestId, run, now)) else h);
    }

    /** FAILED, UNKNOWN, an error, or an answer nobody knows: fail closed. */
    method OnContraryEvidence(a: SecAnswer) returns (action: ReconcileAction)
      requires Inv() && !state.SupersededRemote? && attempt.requestId != ""
      requires Classify(a) == lastEvidence != Committed
      modifies this, world
      ensures Reconciled(old(attempt), action) && (world.alive ==> old(world.alive))
      ensures old(state).ReconcileRemote? ==> state.HardBlocked? && attempt.resolution.HardConflict?
      ensures !old(state).ReconcileRemote? && !old(attempt.resolution).HardConflict? ==>
        secOutcomeUnknown && attempt.stab.count == 0 && attempt.resolution == old(attempt.resolution)
    {
      hide SafeSoFar, CoreOk, Remembers, Spent, world.Ok, QuietSinceRelease;
      if state.ReconcileRemote? {
        EnterHardBlocked();
        return TerminalHandled;
      }
      if attempt.resolution.HardConflict? {
        NoteSettledRead(Classify(a), false);
        ScheduleRetry();
        Persist();
        return WaitSec;
      }
      BreakRun(Classify(a));
      StayClosed(if a.state.Requested? || a.state.Staged? then SEC_IN_PROGRESS else SEC_UNKNOWN);
      return AllowReadonlyRemote;
    }

    /** Nothing may be released; the cloud may still be asked. */
    method StayClosed(reason: string)
      requires Inv() && !state.SupersededRemote?
      modifies this`secOutcomeUnknown, this`blockedReason, this`state, this`nextRetryMs, this`backoffMs,
        this`lastObservation, world`alive, world`log, world`out, world`stored, world`core, world`phase, world`earliest
      ensures Inv() && secOutcomeUnknown && !state.SupersededRemote? && (world.alive ==> old(world.alive))
      ensures world.cfg.SaneIntervals() ==> RetryIsAhead()
    {
      hide SafeSoFar, CoreOk, Remembers, Spent, world.Ok, QuietSinceRelease;
      var suppressed := Suppressed(Observation(-1, lastEvidence, 0, -1, storeGeneration));
      secOutcomeUnknown, blockedReason := true, reason;
      if !state.LegacySnapshotUnknown? { state := ReconcileOldAttempt; }
      ScheduleRetry();
      if !suppressed { Persist(); }
    }

    /** The same observation as last time is not stored again. */
    method Suppressed(o: Observation) returns (same: bool)
      modifies this`lastObservation
      ensures same == (old(lastObservation) == Some(o)) && lastObservation == Some(o)
    {
      same := lastObservation == Some(o);
      lastObservation := Some(o);
    }

    /** A contradiction after the proof: nothing is released any more until somebody looks at it. */
    method EnterHardBlocked()
      requires Inv() && state.ReconcileRemote? && attempt.requestId != "" && lastEvidence != Committed
      modifies this, world
      ensures Inv() && state.HardBlocked? && attempt == old(attempt).(resolution := HardConflict)
      ensures (world.alive ==> old(world.alive))
    {
      hide Consistent, SafeSoFar, CoreOk, Remembers, Spent, world.Ok, InStep, StateOk, KnownIds, RetryIsAhead,
          HandedIds, Requests, RecoveryPhase;
      ghost var h, c, m, read := world.log, attempt.Core(), attempt.Memory(run), ReadNow(lastEvidence, false, 0);
      Standing();
      if Live() {
        ConflictIsRecorded(world.cfg, c, state, m, h, read);
        ReadIsLegal(world.cfg, c, state, h, read);
      }
      attempt := attempt.(resolution := HardConflict);
      if world.alive { SpentStaysSpent(world.cfg, c, attempt.Core(), world.barred, world.apart); }
      MarkHardBlocked();
      PersistAs(Then(h, JournalRead(read)));
    }

    method MarkHardBlocked()
      requires world.Ok() && BackoffsBounded()
      modifies this`blockedReason, this`lastError, this`state, this`recoveryPhase, this`nextRetryMs, this`backoffMs,
        world`earliest
      ensures world.Ok() && BackoffsBounded() && state.HardBlocked? && blockedReason == HARD_EVIDENCE
    {
      hide world.Ok;
      blockedReason, lastError := HARD_EVIDENCE, "hard_evidence_conflict";
      TransitionTo(HardBlocked);
      ScheduleRetry();
    }

    // ---- do_ack_locked ----

    /** What a round of acknowledgement at `now` did to the history: nothing; or one acknowledgement of the items,
        before D, within the budget, and not while another one is awaited; or a status request instead, after D,
        without budget, or because the acknowledgement stays unanswered. */
    ghost predicate AckRound(before: Attempt, h: History, now: int, awaited: bool, overdue: bool)
      reads this`attempt, world`alive, world`log
    {
      world.alive ==>
        || world.log == h
        || (world.log == Then(h, AckSent(before.requestId, before.ackItems, now))
            && before.budget.AckOk(world.cfg.params, now) && !(0 < before.ackSafeDeadline <= now) && !awaited
            && attempt.budget.ackSendCount == before.budget.ackSendCount + 1)
        || (world.log == Then(h, StatusAsked(before.requestId)) && attempt == before
            && (0 < before.ackSafeDeadline <= now || !before.budget.AckOk(world.cfg.params, now) || overdue))
    }

    /** A round of acknowledgement never ends in these states. */
    predicate IsAfterAck()
      reads this`state
    {
      !state.Active? && !state.WaitResponse?
    }

    method DoAck() returns (now: int, ghost h: History)
      requires Inv() && state.AckPending?
      modifies this, world
      ensures Inv() && (world.alive ==> old(world.alive)) && IsAfterAck()
      ensures attempt == old(attempt).(ackItems := attempt.ackItems, budget := attempt.budget)
      ensures old(attempt.ackItems) != [] ==> attempt.ackItems == old(attempt.ackItems)
      ensures world.alive ==> h == old(world.log) || h == Then(old(world.log), CommittedAnswer(old(attempt.requestId)))
      ensures AckRound(old(attempt).(ackItems := attempt.ackItems), h, now, old(Awaited(now)),
          old(ackSent && now >= deadlineMs))
      ensures secOutcomeUnknown == old(secOutcomeUnknown)
    {
      hide SafeSoFar, CoreOk, Remembers, Spent, world.Ok, QuietSinceRelease, StateOk, RetryIsAhead;
      now, h := 0, world.log;
      if attempt.ackItems == [] {
        var a := QueryOwnImport();
        h := world.log;
        if Classify(a) != Committed {
          RetryAfter("ack_proof_unavailable");
          return;
        }
        if Live() { AckItemsMayChange(world.cfg, attempt.Memory(run), world.log, a.items != []); }
        ghost var m := attempt.Memory(run);
        attempt := attempt.(ackItems := BuildAckItems(a.items));
        assert attempt.Memory(run).(hasAckItems := true) == m.(hasAckItems := true);
      } else {
        assert attempt.Memory(run).(hasAckItems := true) == attempt.Memory(run);
      }
      now := AckOrAsk();
    }

    /** An acknowledgement is out, and its time is not over. */
    predicate Awaited(now: int)
      reads this`ackSent, this`deadlineMs
    {
      ackSent && deadlineMs > 0 && now < deadlineMs
    }

    /** Acknowledge while that is safe and budgeted, otherwise only ask for the status. */
    method AckOrAsk() returns (now: int)
      requires Inv() && state.AckPending?
      requires Live() ==> Remembers(world.cfg, attempt.Memory(run).(hasAckItems := true), world.log)
      modifies this, world
      ensures Inv() && (world.alive ==> old(world.alive)) && IsAfterAck()
      ensures attempt == old(attempt).(budget := attempt.budget) && secOutcomeUnknown == old(secOutcomeUnknown)
      ensures AckRound(old(attempt), old(world.log), now, old(Awaited(now)), old(ackSent && now >= deadlineMs))
    {
      hide Consistent, SafeSoFar, Remembers;
      now := ReadClock();
      if Awaited(now) { return; }
      if attempt.ackSafeDeadline > 0 && now >= attempt.ackSafeDeadline {
        AskUnlessAsked(None);
        return;
      }
      if !attempt.budget.AckOk(world.cfg.params, now) {
        AskUnlessAsked(Some("ack_budget_exhausted"));
        return;
      }
      if ackSent && now >= deadlineMs && attemptCount >= world.cfg.maxAttemptsBeforeAlert && !statusSent {
        AskInsteadOfAck(now);
        return;
      }
      SendAck(now);
    }

    /** No more acknowledgements: only the status is asked for. */
    method AskUnlessAsked(reason: Option<string>)
      requires Inv() && state.AckPending?
      modifies this, world
      ensures Inv() && (world.alive ==> old(world.alive)) && IsAfterAck()
      ensures attempt == old(attempt) && secOutcomeUnknown == old(secOutcomeUnknown)
      ensures world.alive ==> world.log == old(world.log)
                              || (!old(statusSent) && world.log == Then(old(world.log), StatusAsked(attempt.requestId)))
    {
      hide SafeSoFar, CoreOk, Remembers, Spent, world.Ok, QuietSinceRelease;
      if !statusSent { SendStatusRequest(); }
      if reason.Some? { lastError := reason.value; }
      Persist();
    }

    /** The acknowledgement stays unanswered: ask for the status instead. */
    method AskInsteadOfAck(now: int)
      requires Inv() && state.AckPending? && !statusSent
      modifies this, world
      ensures Inv() && (world.alive ==> old(world.alive)) && attempt == old(attempt) && IsAfterAck()
      ensures secOutcomeUnknown == old(secOutcomeUnknown)
      ensures world.alive ==>
        world.log == if statusSent then Then(old(world.log), StatusAsked(attempt.requestId)) else old(world.log)
      ensures statusSent ==> deadlineMs == now + world.cfg.ackTimeoutMs
    {
      hide SafeSoFar, CoreOk, Remembers, Spent, world.Ok, QuietSinceRelease;
      var encodes: bool := *;
      if !encodes || attempt.requestId == "" { return; }
      var taken := PublishStatusRequest();
      if taken { statusSent, deadlineMs := true, now + world.cfg.ackTimeoutMs; }
      Persist();
    }

    /** One acknowledgement of the items was sent and counted, or nothing was. */
    ghost predicate AckOutcome(before: Attempt, h: History, now: int)
      reads this`attempt, world`alive, world`log
    {
      && attempt == before.(budget := attempt.budget)
      && (attempt == before || attempt.budget.ackSendCount == before.budget.ackSendCount + 1)
      && (world.alive ==>
            world.log == if attempt == before then h else Then(h, AckSent(before.requestId, before.ackItems, now)))
    }

    method SendAck(now: int)
      requires Inv() && state.AckPending?
      requires Live() ==> Remembers(world.cfg, attempt.Memory(run).(hasAckItems := true), world.log)
      requires attempt.budget.AckOk(world.cfg.params, now)
      requires attempt.ackSafeDeadline > 0 ==> now < attempt.ackSafeDeadline
      modifies this, world
      ensures Inv() && (world.alive ==> old(world.alive)) && IsAfterAck()
      ensures AckOutcome(old(attempt), old(world.log), now) && secOutcomeUnknown == old(secOutcomeUnknown)
    {
      hide Consistent, SafeSoFar, CoreOk, Remembers, Spent, world.Ok, InStep, StateOk;
      var encodes: bool := *;
      var error := CheckAckItems(attempt.requestId, attempt.ackItems);
      if !encodes || error != "" {
        RetryAfter("ack_encode_failed");
        return;
      }
      PublishAck(now);
    }

    /** An acknowledgement that passed all checks is in order, and so is the accounting after it. */
    lemma AckMayGo(now: int)
      requires Inv() && state.AckPending? && attempt.requestId != ""
      requires Live() ==> Remembers(world.cfg, attempt.Memory(run).(hasAckItems := true), world.log)
      requires attempt.budget.AckOk(world.cfg.params, now)
      requires attempt.ackSafeDeadline > 0 ==> now < attempt.ackSafeDeadline
      requires forall i :: 0 <= i < |attempt.ackItems| ==> ExactAttestation(attempt.ackItems[i])
      ensures BackoffsBounded()
      ensures (world.alive ==> attempt.BlankWithoutId() && Spent(world.cfg, attempt.Core(), world.barred, world.apart))
      ensures Live() ==>
        var c, next := attempt.Core(), Then(world.log, AckSent(attempt.requestId, attempt.ackItems, now));
        && SafeSoFar(world.cfg, next) && Remembers(world.cfg, attempt.Memory(run), next)
        && KnownIds(next) <= world.used && KnownIds(next) !! world.Others()
        && InStep(world.cfg, c.(budget := c.budget.(ackSendCount := c.budget.ackSendCount + 1)), AckPending,
                  next, Settled)
    {
      hide Consistent, SafeSoFar, CoreOk, Remembers, Spent, world.Ok, InStep, StateOk, ExactAttestation;
      var h, c, m, items := world.log, attempt.Core(), attempt.Memory(run), attempt.ackItems;
      Standing();
      if Live() {
        AckIsLegal(world.cfg, c, state, m, h, items, now);
        MemoryKeeps(world.cfg, m, h, AckSent(c.rid, items, now));
        AckIsCounted(world.cfg, c, c.(budget := c.budget.(ackSendCount := c.budget.ackSendCount + 1)), state, h,
            items, now);
      }
    }

    method PublishAck(now: int)
      requires Inv() && state.AckPending? && attempt.requestId != ""
      requires Live() ==> Remembers(world.cfg, attempt.Memory(run).(hasAckItems := true), world.log)
      requires attempt.budget.AckOk(world.cfg.params, now)
      requires attempt.ackSafeDeadline > 0 ==> now < attempt.ackSafeDeadline
      requires forall i :: 0 <= i < |attempt.ackItems| ==> ExactAttestation(attempt.ackItems[i])
      modifies this, world
      ensures Inv() && (world.alive ==> old(world.alive)) && IsAfterAck()
      ensures AckOutcome(old(attempt), old(world.log), now) && secOutcomeUnknown == old(secOutcomeUnknown)
      ensures attempt != old(attempt) ==> ackSent && state.AckPending?
    {
      hide Consistent, SafeSoFar, CoreOk, Remembers, Spent, world.Ok, InStep, StateOk, ExactAttestation, KnownIds;
      AckMayGo(now);
      var taken := PublishKeyprov(AckMessage(attempt.requestId, attempt.ackItems, now));
      if taken {
        StoreAck(now);
      } else {
        Persist();
      }
    }

    /** MQTT took the acknowledgement: count it and store that. */
    method StoreAck(now: int)
      requires world.Ok() && BackoffsBounded() && state.AckPending?
      requires world.alive ==>
        attempt.BlankWithoutId() && Spent(world.cfg, attempt.Core(), world.barred, world.apart)
      requires Live() ==>
        var c := attempt.Core();
        && Remembers(world.cfg, attempt.Memory(run), world.log)
        && KnownIds(world.log) <= world.used && KnownIds(world.log) !! world.Others()
        && InStep(world.cfg, c.(budget := c.budget.(ackSendCount := c.budget.ackSendCount + 1)), AckPending,
                  world.log, Settled)
      modifies this`attempt, this`ackSent, this`attemptCount, this`deadlineMs,
        world`alive, world`log, world`out, world`stored, world`core, world`phase, world`earliest
      ensures Inv() && ackSent && (world.alive ==> old(world.alive) && world.log == old(world.log))
      ensures attempt == old(attempt).(budget := attempt.budget)
      ensures attempt.budget.ackSendCount == old(attempt.budget.ackSendCount) + 1
    {
      hide Consistent, SafeSoFar, CoreOk, Remembers, Spent, InStep, StateOk, world.Ok, KnownIds;
      ghost var c := attempt.Core();
      CountAck(now);
      if world.alive { SpentStaysSpent(world.cfg, c, attempt.Core(), world.barred, world.apart); }
      PersistAs(world.log);
    }

    /** The accounting of an acknowledgement that MQTT took. */
    method CountAck(now: int)
      modifies this`attempt, this`ackSent, this`attemptCount, this`deadlineMs
      ensures attempt == old(attempt).(budget := old(attempt.budget).PreconsumeAck(now))
      ensures var before := old(attempt.Core());
        attempt.Core() == before.(budget := before.budget.(ackSendCount := before.budget.ackSendCount + 1))
      ensures ackSent && deadlineMs == now + world.cfg.ackTimeoutMs
    {
      attempt := attempt.(budget := attempt.budget.PreconsumeAck(now));
      ackSent, attemptCount, deadlineMs := true, (attemptCount + 1) % 0x1_0000_0000, now + world.cfg.ackTimeoutMs;
    }

    // ---- The cloud's answer ----

    method EnterReconcileEvidence(reason: string)
      requires Inv() && !state.SupersededRemote?
      modifies this`state, this`recoveryPhase, this`lastError, this`blockedReason, this`nextRetryMs,
        this`statusBackoffMs, world`alive, world`log, world`out, world`stored, world`core, world`phase, world`earliest
      ensures Inv() && state.ReconcileEvidence? && (world.alive ==> old(world.alive))
      ensures world.cfg.SaneIntervals() ==> RetryIsAhead()
    {
      hide SafeSoFar, CoreOk, Remembers, Spent, world.Ok, QuietSinceRelease;
      lastError, blockedReason := reason, STABILIZING;
      TransitionTo(ReconcileEvidence);
      ScheduleStatusRetry();
      Persist();
    }

    /** Wait in a reconciliation state for another answer of the cloud; a repeated observation need not be stored. */
    method WaitIn(next: State, reason: string, mayBeSuppressed: bool)
      requires Inv() && !state.SupersededRemote?
      requires next.BlockedAwaitCloudTermination? || next.AwaitRemoteRepair? || next.ReconcileRemote?
      modifies this`state, this`recoveryPhase, this`blockedReason, this`nextRetryMs, this`statusBackoffMs,
        this`lastObservation, world`alive, world`log, world`out, world`stored, world`core, world`phase, world`earliest
      ensures Inv() && state == next && blockedReason == reason && (world.alive ==> old(world.alive))
      ensures world.cfg.SaneIntervals() ==> RetryIsAhead()
    {
      hide SafeSoFar, CoreOk, Remembers, Spent, world.Ok, QuietSinceRelease, Grown, IsJittered, RecoveryPhase;
      blockedReason := reason;
      TransitionTo(next);
      ScheduleStatusRetry();
      var suppressed := false;
      if mayBeSuppressed {
        suppressed := Suppressed(Observation(attempt.cachedStatus, lastEvidence, attempt.cachedError.code,
                                             ActionCode(attempt.cachedError.action), storeGeneration));
      }
      if !suppressed { Persist(); }
    }

    function ActionCode(a: ErrorAction): int
    {
      if a.DoNotRetry? then 1 else 0
    }

    /** The full decision over the cached status and error, once the attempt is proven to have had no side effect. */
    method ApplyCloudMatrix() returns (released: bool, reused: bool, at: int)
      requires Inv() && !state.SupersededRemote? && attempt.requestId != ""
      requires Live() && !secOutcomeUnknown ==> FreshNotFound(world.log, attempt.requestId)
      modifies this, world
      ensures Inv() && (world.alive ==> old(world.alive))
      ensures released == MatrixReleases(old(attempt.resolution.NoSideEffectProven? && !secOutcomeUnknown),
                                         old(attempt.cachedStatus), old(attempt.cachedError),
                                         old(attempt.budget).ChainOk(world.cfg.params, at))
      ensures released ==> reused == (old(attempt.successorRequestId) != "")
      ensures !released ==> attempt == old(attempt)
      ensures old(attempt.resolution.NoSideEffectProven? && !secOutcomeUnknown) ==> NoSpin(old(attempt.requestId))
    {
      hide SafeSoFar, CoreOk, Remembers, Spent, world.Ok, QuietSinceRelease, FreshNotFound;
      released, reused, at := false, false, 0;
      if !attempt.resolution.NoSideEffectProven? || secOutcomeUnknown { return; }
      var status := attempt.cachedStatus;
      if status == STATUS_FAILED || ReleasableUnspecified(status, attempt.cachedError) {
        released, reused, at := SupersedeRemoteOnce();
      } else if status == STATUS_ACTIVE {
        lastError := "vmd_active_sec_not_found";
        WaitIn(AwaitRemoteRepair, REMOTE_REPAIR, false);
      } else if status in {STATUS_UNSPECIFIED, STATUS_REQUESTED, STATUS_ISSUED, STATUS_ACK_PENDING} {
        WaitIn(BlockedAwaitCloudTermination, SEC_NOT_FOUND, true);
      } else {
        WaitIn(ReconcileRemote, VMD_UNKNOWN, true);
      }
    }

    /** Store the release together with its one successor, then create the successor. */
    method SupersedeRemoteOnce() returns (released: bool, reused: bool, at: int)
      requires Inv() && !state.SupersededRemote? && attempt.requestId != ""
      requires attempt.resolution.NoSideEffectProven? && CloudReleases(attempt.cachedStatus, attempt.cachedError)
      requires Live() ==> FreshNotFound(world.log, attempt.requestId)
      modifies this, world
      ensures Inv() && (world.alive ==> old(world.alive))
      ensures released == old(attempt.budget).ChainOk(world.cfg.params, at)
      ensures reused == (old(attempt.successorRequestId) != "")
      ensures !released ==> attempt == old(attempt)
      ensures NoSpin(old(attempt.requestId))
    {
      hide SafeSoFar, CoreOk, Remembers, Spent, world.Ok, QuietSinceRelease, FreshNotFound;
      lastError, reused := "vmd_batch_terminated", attempt.successorRequestId != "";
      at := world.NowMs();
      released := attempt.budget.ChainOk(world.cfg.params, at);
      if !released {
        lastError := "chain_budget_exhausted";
        WaitIn(BlockedAwaitCloudTermination, AWAIT_TERMINATION, false);
        return;
      }
      StoreRelease();
      var built := CreateNewAttempt();
    }

    method StoreRelease()
      requires Inv() && !state.SupersededRemote? && attempt.requestId != ""
      requires attempt.resolution.NoSideEffectProven? && CloudReleases(attempt.cachedStatus, attempt.cachedError)
      requires attempt.budget.chainRequestIdCount < world.cfg.params.chainIds
      requires Live() ==> FreshNotFound(world.log, attempt.requestId)
      modifies this`attempt, this`state, world
      ensures Inv() && state.SupersededRemote? && attempt.requestId == old(attempt.requestId)
      ensures (world.alive ==> old(world.alive))
      ensures attempt.successorRequestId != "" && attempt.cachedStatus == -1
      ensures old(attempt.successorRequestId) != "" ==> attempt.successorRequestId == old(attempt.successorRequestId)
      ensures attempt.budget.chainRequestIdCount ==
        old(attempt.budget.chainRequestIdCount) + if old(attempt.successorRequestId) == "" then 1 else 0
    {
      hide Consistent, SafeSoFar, CoreOk, Remembers, Spent, world.Ok, InStep, StateOk, FreshNotFound, KnownIds,
        HandedIds, Requests, OriginOf, QuietSinceRelease;
      ghost var h, c, s, m, used, others := world.log, attempt.Core(), state, attempt.Memory(run), world.used,
        world.Others();
      Standing();
      ChooseSuccessor();
      ghost var k := attempt.Core();
      if Live() {
        ReleaseKeepsStep(world.cfg, c, k, s, m, h, used, others);
        ReleaseIsRemembered(world.cfg, m, attempt.Memory(run), h, k);
      }
      if world.alive { SpentWithSuccessor(world.cfg, c, k, world.barred, world.apart); }
      state := SupersededRemote;
      PersistAs(Then(h, ReleaseOf(k, m)));
    }

    /** Reuse the stored successor, or generate one and take a slot of the chain for it. */
    method ChooseSuccessor()
      requires world.Ok()
      modifies this`attempt, world`used, world`earliest
      ensures world.Ok() && attempt.successorRequestId != ""
      ensures attempt == old(attempt).(successorRequestId := attempt.successorRequestId, budget := attempt.budget,
                                       cachedStatus := -1, cachedError := NO_CLOUD_ERROR)
      ensures old(attempt.successorRequestId) != "" ==>
        attempt.Core() == old(attempt.Core()) && world.used == old(world.used)
      ensures old(attempt.successorRequestId) == "" ==>
        && attempt.successorRequestId !in old(world.used)
        && world.used == old(world.used) + {attempt.successorRequestId}
        && attempt.successorRequestId != attempt.requestId
        && TakesSlot(old(attempt.Core()), attempt.Core())
      ensures attempt.budget.chainRequestIdCount ==
        old(attempt.budget.chainRequestIdCount) + if old(attempt.successorRequestId) == "" then 1 else 0
    {
      hide world.Ok;
      if attempt.successorRequestId == "" {
        var id := world.GenerateId(attempt.requestId);
        var at := world.NowMs();
        attempt := attempt.(successorRequestId := id,
                            budget := attempt.budget.PreconsumeChainId(world.cfg.params, at).(chainId := id));
      }
      attempt := attempt.(cachedStatus := -1, cachedError := NO_CLOUD_ERROR);
    }

    // ---- do_reconcile_locked ----

    method DoReconcile()
      requires Inv() && !state.SupersededRemote?
      modifies this, world
      ensures Inv() && (world.alive ==> old(world.alive))
      ensures attempt.requestId != old(attempt.requestId) ==>
        CloudReleases(old(attempt.cachedStatus), old(attempt.cachedError))
      ensures old(attempt.requestId) == "" ==> Untouched(old(attempt), old(state), old(world.log), old(world.stored))
    {
      hide SafeSoFar, CoreOk, Remembers, Spent, world.Ok, QuietSinceRelease, FreshNotFound;
      var action, answer, at := ReconcileSecJournal();
      if action.TerminalHandled? { return; }
      if action.WaitSec? {
        ScheduleRetry();
        Persist();
        return;
      }
      if attempt.resolution.NoSideEffectProven? && attempt.cachedStatus >= 0 {
        var freshened, clock := MaybeFreshen();
        if freshened { return; }
        var released, reused, at := ApplyCloudMatrix();
        return;
      }
      if !reconcileStatusSent {
        SendStatusRequest();
        return;
      }
      var asked := StatusDeadline();
    }

    /** The answer to a status request was lost: ask again later. */
    method StatusDeadline() returns (now: int)
      requires Inv() && !state.SupersededRemote?
      modifies this`reconcileStatusSent, this`nextRetryMs, this`statusBackoffMs,
        world`alive, world`log, world`out, world`stored, world`core, world`phase, world`earliest
      ensures Inv() && (world.alive ==> old(world.alive) && world.log == old(world.log))
      ensures deadlineMs > 0 && now >= deadlineMs ==>
        !reconcileStatusSent && (world.cfg.SaneIntervals() ==> RetryIsAhead())
      ensures !(deadlineMs > 0 && now >= deadlineMs) ==>
        reconcileStatusSent == old(reconcileStatusSent) && nextRetryMs == old(nextRetryMs)
    {
      hide SafeSoFar, CoreOk, Remembers, Spent, world.Ok, QuietSinceRelease;
      now := world.NowMs();
      if deadlineMs > 0 && now >= deadlineMs {
        reconcileStatusSent := false;
        ScheduleStatusRetry();
        Persist();
      }
    }

    /** The one refresh of an expired lease: same id, proven without side effect, the cloud waiting for an ACK. */
    method MaybeFreshen() returns (sent: bool, c: Clock)
      requires Inv() && !state.SupersededRemote?
      modifies this, world
      ensures Inv() && (world.alive ==> old(world.alive))
      ensures !sent ==> attempt == old(attempt) && state == old(state) && secOutcomeUnknown == old(secOutcomeUnknown)
                        && world.log == old(world.log) && world.alive == old(world.alive)
      ensures sent ==> old(attempt.resolution.NoSideEffectProven? && !secOutcomeUnknown
                           && attempt.cachedStatus == STATUS_ACK_PENDING && attempt.leaseExpiresAt > 0
                           && LeaseExpired(c.UtcUpper(), attempt.leaseExpiresAt)
                           && attempt.budget.FreshenOk() && attempt.budget.RequestOk(world.cfg.params, c.UtcUpper()))
      ensures sent ==> attempt.requestId == old(attempt.requestId)
    {
      hide SafeSoFar, CoreOk, Remembers, Spent, world.Ok, QuietSinceRelease;
      sent, c := false, *;
      if !attempt.resolution.NoSideEffectProven? || secOutcomeUnknown { return; }
      if attempt.cachedStatus != STATUS_ACK_PENDING || attempt.leaseExpiresAt <= 0 { return; }
      c := world.ClockSource();
      if !LeaseExpired(c.UtcUpper(), attempt.leaseExpiresAt) { return; }
      if !attempt.budget.FreshenOk() || !attempt.budget.RequestOk(world.cfg.params, c.UtcUpper()) { return; }
      ChargeFreshen(c.UtcUpper());
      SilenceIsKept();
      state := Requesting;
      DoRequest();
      sent := true;
    }

    method ChargeFreshen(at: int)
      requires Inv() && !state.SupersededRemote? && attempt.leaseExpiresAt > 0 && attempt.budget.FreshenOk()
      modifies this`attempt, this`lastError, world
      ensures Inv() && !state.SupersededRemote? && attempt == old(attempt).(budget := attempt.budget)
      ensures (world.alive ==> old(world.alive))
      ensures !attempt.budget.FreshenOk()
    {
      hide Consistent, SafeSoFar, CoreOk, Remembers, Spent, world.Ok, InStep, StateOk;
      ghost var h, c, s, m := world.log, attempt.Core(), state, attempt.Memory(run);
      Standing();
      if Live() {
        FresheningKeepsStep(world.cfg, c, s, h, at);
        MemoryKeeps(world.cfg, m, h, Freshened(c.rid, at));
      }
      attempt := attempt.(budget := attempt.budget.PreconsumeFreshen().PreconsumeRequest(world.cfg.params, at));
      if world.alive { SpentStaysSpent(world.cfg, c, attempt.Core(), world.barred, world.apart); }
      lastError := "lease_freshen";
      PersistAs(if Live() then Then(h, Freshened(attempt.requestId, at)) else h);
    }

    // ---- handle_reconcile_status_locked ----

    method HandleReconcileStatus(status: int, error: WireError)
      requires Inv() && IsReconciliation(state) && attempt.requestId != ""
      modifies this, world
      ensures Inv() && (world.alive ==> old(world.alive))
      ensures NoSpin(old(attempt.requestId))
    {
      hide SafeSoFar, CoreOk, Remembers, Spent, world.Ok, QuietSinceRelease, FreshNotFound;
      if IsIdempotencyConflict(error) {
        blockedReason, state := AWAIT_TERMINATION, BlockedAwaitCloudTermination;
        ScheduleStatusRetry();
        Persist();
        return;
      }
      var action, answer, at := ReconcileSecJournal();
      if !action.AllowReadonlyRemote? {
        var now := world.NowMs();
        if nextRetryMs <= now {
          ScheduleStatusRetry();
          Persist();
        }
        return;
      }
      CacheStatus(status, NormalizeError(error));
      JudgeStatus();
    }

    /** SEC may be believed, or nothing follows yet: what the status just cached leads to. */
    method JudgeStatus()
      requires Inv() && !state.SupersededRemote? && attempt.requestId != ""
      requires Live() && !secOutcomeUnknown ==> FreshNotFound(world.log, attempt.requestId)
      requires world.cfg.SaneIntervals() && (secOutcomeUnknown || !attempt.resolution.NoSideEffectProven?) ==>
        RetryIsAhead()
      modifies this, world
      ensures Inv() && (world.alive ==> old(world.alive))
      ensures NoSpin(old(attempt.requestId))
      ensures attempt.requestId != old(attempt.requestId) ==>
        old(attempt.resolution.NoSideEffectProven? && !secOutcomeUnknown && CloudReleases(attempt.cachedStatus,
            attempt.cachedError))
    {
      hide SafeSoFar, CoreOk, Remembers, Spent, world.Ok, QuietSinceRelease, FreshNotFound;
      var status := attempt.cachedStatus;
      if status == STATUS_ACTIVE {
        lastError := "vmd_active_sec_not_found";
        WaitIn(AwaitRemoteRepair, REMOTE_REPAIR, false);
      } else if !attempt.resolution.NoSideEffectProven? || secOutcomeUnknown {
        if state.AwaitRemoteRepair? && status == STATUS_FAILED {
          EnterReconcileEvidence("vmd_terminated_resume_stabilization");
        } else {
          var suppressed := Suppressed(Observation(status, lastEvidence, attempt.cachedError.code,
                                                   ActionCode(attempt.cachedError.action), storeGeneration));
          if !suppressed { Persist(); }
        }
      } else {
        var released, reused, at := ApplyCloudMatrix();
      }
    }

    /** Remember the last status the cloud reported for this attempt. */
    method CacheStatus(status: int, error: CloudError)
      requires Inv() && attempt.requestId != "" && !state.SupersededRemote?
      modifies this`attempt, world`log
      ensures Inv() && attempt == old(attempt).(cachedStatus := status, cachedError := error)
      ensures Live() && old(FreshNotFound(world.log, attempt.requestId)) ==> FreshNotFound(world.log, attempt.requestId)
    {
      hide SafeSoFar, CoreOk, Remembers, Spent, world.Ok;
      ghost var h, m, e := world.log, attempt.Memory(run), StatusSeen(attempt.requestId, status, error);
      Standing();
      if Live() {
        StatusIsRemembered(world.cfg, attempt.Core(), state, m, h, status, error);
        SameQuiet(h, e, attempt.requestId);
      }
      world.Note(e);
      attempt := attempt.(cachedStatus := status, cachedError := error);
    }

    // ---- do_check_locked ----

    /** Look at what SEC has: done, or an acknowledgement is due, or a Request for a new or for the frozen attempt. */
    method DoCheck() returns (answer: KeyStatusAnswer, built: bool)
      requires Inv() && state.Checking?
      modifies this, world
      ensures Checked(answer, old(attempt), old(recoveringAck || importAttempted)) && (world.alive ==> old(world.alive))
      ensures Creates(built && Replaces(answer, old(attempt)) && !old(secOutcomeUnknown),
                      old(attempt.requestId), old(world.log))
      ensures built ==> FirstRequest(old(attempt.requestId), old(world.log))
      ensures old(attempt.requestId) != "" && old(attempt.fingerprintVersion) != 0 && state.WaitResponse? ==> SameRun()
    {
      hide Consistent, MadeFrom, KeysComplete, StageOf, RetryIsAhead, StateOk, NoSpin, world.Ok,
        HasSentNone, IsRequest, JustAdopted, KeepsSilent;
      answer, built := *, false;
      if world.alive { Standing(); }
      match answer
      case KeysKnown(items) =>
        var complete := PurposesComplete(world.cfg.purposes, items);
        if complete {
          KeysAreActive();
          return;
        }
        var candidate, fingerprint := BuildCandidate();
        if candidate.Err? {
          RetryAfter(candidate.error);
          return;
        }
        if Live() { LiveAttemptIsFrozen(); }
        if attempt.fingerprintVersion == 0 || attempt.requestId == "" {
          built := CreateNewAttempt();
          return;
        }
        if attempt.frozenFingerprint != fingerprint {
          EnterReconcileOldAttempt("fingerprint_changed");
          return;
        }
        RequestAgain();
      case KeysNotReady => BlockWith("sec_not_ready");
      case KeysUnsupported => BlockWith("sec_unsupported");
      case KeysUnavailable =>
        RetryAfter("sec_unavailable");
    }

    /** Nothing has changed since the content was frozen: send its Request. */
    method RequestAgain()
      requires Inv() && state.Checking? && attempt.fingerprintVersion != 0
      modifies this, world
      ensures Inv() && (world.alive ==> old(world.alive)) && !state.Active?
      ensures Sent(old(attempt), old(world.log))
      ensures SameRun()
    {
      hide SafeSoFar, CoreOk, Remembers, Spent, world.Ok, QuietSinceRelease;
      SilenceIsKept();
      state := Requesting;
      Persist();
      DoRequest();
    }

    /** A check ends in ACTIVE exactly when every purpose has an active key and no acknowledgement is due; without an
        answer of SEC it ends in BLOCKED or RETRY_WAIT, and if there is no attempt yet, stores a record without an id;
        and it never replaces an attempt that has a fingerprint. */
    ghost predicate Checked(answer: KeyStatusAnswer, before: Attempt, ackIsDue: bool)
      reads this, world
    {
      && Inv()
      && (state.Active? <==> answer.KeysKnown? && KeysComplete(world.cfg.purposes, answer.items) && !ackIsDue)
      && (answer.KeysNotReady? || answer.KeysUnsupported? ==> state.Blocked?)
      && (answer.KeysUnavailable? ==> state.RetryWait?)
      && (before.requestId != "" && before.fingerprintVersion != 0 ==> attempt.requestId == before.requestId)
      && (before.requestId != "" && before.fingerprintVersion != 0 && state.WaitResponse? ==>
            attempt == before.(budget := attempt.budget))
      && (world.alive && before.requestId == "" && !answer.KeysKnown? ==> IsStranded(world.stored))
    }

    /** What a check replaces: an id without a fingerprint, or none at all. */
    ghost predicate Replaces(answer: KeyStatusAnswer, before: Attempt)
    {
      && answer.KeysKnown? && !KeysComplete(world.cfg.purposes, answer.items)
      && (before.fingerprintVersion == 0 || before.requestId == "")
    }

    /** Both purposes have an active key: nothing is left to do but, perhaps, to acknowledge. */
    method KeysAreActive()
      requires Inv() && state.Checking?
      modifies this, world
      ensures Inv() && (world.alive ==> old(world.alive)) && attempt.requestId == old(attempt.requestId)
      ensures state.Active? <==> !old(recoveringAck || importAttempted)
      ensures !state.WaitResponse?
      ensures state.Active? ==> attempt == old(attempt) && submission == CONFIRMED
    {
      hide SafeSoFar, CoreOk, Remembers, Spent, world.Ok, QuietSinceRelease;
      if recoveringAck || importAttempted {
        recoveringAck, ackSent, state := false, false, AckPending;
        Persist();
        var now, h := DoAck();
      } else {
        state, lastError, submission := State.Active, "", CONFIRMED;
        Persist();
      }
    }

    /** Without a Response: another try while the budget lasts, and only questions after that. */
    method OnResponseTimeout() returns (now: int)
      requires Inv() && state.WaitResponse?
      modifies this, world
      ensures Inv() && (world.alive ==> old(world.alive)) && attempt == old(attempt)
      ensures state == if old(attempt.budget).RequestOk(world.cfg.params, now) then RetryWait else ReconcileOldAttempt
    {
      hide SafeSoFar, CoreOk, Remembers, Spent, world.Ok, QuietSinceRelease;
      now := world.NowMs();
      if attempt.budget.RequestOk(world.cfg.params, now) {
        RetryAfter("response_timeout");
      } else {
        ReconcileSlowly("request_budget_exhausted");
      }
    }

    /** Enter the reconciliation of the old attempt with the interval of status requests. */
    method ReconcileSlowly(reason: string)
      requires Inv()
      modifies this`deadlineMs, this`reconcileStatusSent, this`awaitingActive, this`lastError, this`state,
        this`recoveryPhase, this`nextRetryMs, this`statusBackoffMs,
        world`alive, world`log, world`out, world`stored, world`core, world`phase, world`earliest
      ensures Inv() && state.ReconcileOldAttempt? && (world.alive ==> old(world.alive) && world.log == old(world.log))
      ensures StaysSettled() && (world.cfg.SaneIntervals() ==> RetryIsAhead())
    {
      hide SafeSoFar, CoreOk, Remembers, Spent, world.Ok, QuietSinceRelease;
      EnterReconcileOldAttempt(reason);
      ScheduleStatusRetry();
      Persist();
    }

    // ---- do_import_locked ----

    method DoImport() returns (handed: bool, a: SecAnswer)
      requires Inv() && state.Importing?
      modifies this, world
      ensures Inv() && (world.alive ==> old(world.alive))
      ensures attempt == old(attempt).(importRecorded := attempt.importRecorded, resolution := attempt.resolution,
                                       ackItems := attempt.ackItems, budget := attempt.budget)
      ensures !old(importAttempted) ==> attempt.importRecorded
      ensures attempt.resolution == if attempt.importRecorded && !old(attempt.importRecorded) then Unresolved
                                    else old(attempt.resolution)
      ensures attempt.importRecorded <==> old(attempt.importRecorded) || !old(importAttempted)
      ensures handed ==> !old(importAttempted)
      ensures handed && Classify(a) != Committed ==>
        && attempt == old(attempt).(importRecorded := true, resolution := attempt.resolution)
        && state == AfterImport(a) && pendingItems == [] && SameRun()
    {
      hide Consistent, Remembers, ResultBindable;
      handed, a := false, *;
      if importAttempted {
        a := QueryOwnImport();
        HandleImportResult(a);
        return;
      }
      // the intent is stored before SEC is called
      if !attempt.importRecorded { RecordImport(); }
      if attempt.leaseExpiresAt > 0 {
        var c := world.ClockSource();
        if !LeaseAcceptable(c.UtcUpper(), attempt.leaseExpiresAt, world.cfg.params) {
          ReconcileSlowly("lease_too_short");
          return;
        }
      }
      if !leaseAdmissionSupported && snapshotAvailable {
        pendingCallback := false;
        BlockWith("sec_lease_admission_unsupported");
        return;
      }
      a := ImportOwn();
      handed, importAttempted := true, true;
      HandleImportResult(a);
    }

    method RecordImport()
      requires Inv() && state.Importing? && !attempt.importRecorded
      modifies this`attempt, world
      ensures Inv() && attempt == old(attempt).(importRecorded := true, resolution := Unresolved)
      ensures (world.alive ==> old(world.alive))
    {
      hide Consistent, SafeSoFar, CoreOk, Remembers, Spent, world.Ok, InStep, StateOk;
      ghost var h, c, m := world.log, attempt.Core(), attempt.Memory(run);
      Standing();
      if Live() { ImportIsRecorded(world.cfg, c, m, h); }
      attempt := attempt.(importRecorded := true, resolution := Unresolved);
      if world.alive { SpentStaysSpent(world.cfg, c, attempt.Core(), world.barred, world.apart); }
      PersistAs(if Live() then Then(h, ImportRecorded(attempt.requestId)) else h);
    }

    /** Hand the pending items to SEC, with or without the admission context: its answer is arbitrary either way. */
    method ImportOwn() returns (a: SecAnswer)
      requires Inv() && state.Importing? && attempt.importRecorded
      modifies world`alive, world`log, world`out, world`journal
      ensures Inv() && (world.alive ==> old(world.alive))
      ensures Live() && Classify(a) == Committed ==>
        Remembers(world.cfg, attempt.Memory(run).(hasAckItems := true), world.log)
    {
      hide SafeSoFar, CoreOk, Remembers, Spent, world.Ok, QuietSinceRelease;
      ghost var h, m := world.log, attempt.Memory(run);
      Standing();
      if Live() { HandingIsLegal(world.cfg, attempt.Core(), state, h); }
      a := world.ImportKeys(attempt.requestId);
      if Live() {
        MemoryKeeps(world.cfg, m, h, HandedToSec(attempt.requestId));
        if Classify(a) == Committed {
          CommittedIsRemembered(world.cfg, m, Then(h, HandedToSec(attempt.requestId)));
          MemoryKeeps(world.cfg, m, Then(h, HandedToSec(attempt.requestId)), CommittedAnswer(attempt.requestId));
        }
      }
    }

    /** What the answer to an import, or to the question after it, leads to. */
    method HandleImportResult(a: SecAnswer)
      requires Inv() && state.Importing?
      requires Live() && Classify(a) == Committed ==>
        Remembers(world.cfg, attempt.Memory(run).(hasAckItems := true), world.log)
      modifies this, world
      ensures Inv() && (world.alive ==> old(world.alive))
      ensures Classify(a) == Committed ==> Acknowledged(old(attempt), a.items, old(responseBinding))
      ensures Classify(a) != Committed ==>
        attempt == old(attempt) && state == AfterImport(a) && pendingItems == [] && SameRun()
    {
      hide Consistent, Remembers, ResultBindable;
      pendingItems := [];
      if a.code.Success? && a.state.CommittedState? {
        AcknowledgeImport(a.items);
      } else if a.code.Success? && a.state.NotFoundState? {
        pendingCallback := false;
        EnterReconcileEvidence("import_result_not_found");
      } else if a.code.ImportUnknown? || a.state.UnknownState? {
        pendingCallback := true;
        RetryAfter("import_unknown");
      } else if a.code.Success? && (a.state.Requested? || a.state.Staged?) {
        pendingCallback := true;
        RetryAfter("import_pending");
      } else if a.code.NotReady? || a.code.Unsupported? {
        pendingCallback := false;
        BlockWith("sec_not_ready");
      } else if a.state.FailedState? || a.code.WrappedKeyInvalid? || a.code.KeyConflict? || a.code.PartialRollback? {
        importAttempted, pendingCallback := false, false;
        RetryAfter("import_failed");
      } else {
        pendingCallback := false;
        RetryAfter("import_error");
      }
    }

    /** Where an answer other than COMMITTED leads: NOT_FOUND is looked into, a SEC that cannot import blocks, and
        everything else is asked again. */
    function AfterImport(a: SecAnswer): State
      requires Classify(a) != Committed
    {
      if a.code.Success? && a.state.NotFoundState? then ReconcileEvidence
      else if (a.code.NotReady? || a.code.Unsupported?) && !a.state.UnknownState? then State.Blocked
      else RetryWait
    }

    /** A COMMITTED result: the items to acknowledge are those of the result, or the result is refused. */
    ghost predicate Acknowledged(before: Attempt, items: seq<ImportItem>, binding: seq<ResponseItem>)
      reads this`attempt, this`state
    {
      if ResultBindable(world.cfg.purposes, items, binding) then
        attempt == before.(ackItems := attempt.ackItems, budget := attempt.budget)
        && (items != [] ==> attempt.ackItems == BuildAckItems(items))
      else
        attempt == before && state.Blocked?
    }

    /** COMMITTED: acknowledge if the result is complete, attested and bound to the Response. */
    method AcknowledgeImport(items: seq<ImportItem>)
      requires Inv() && state.Importing?
      requires Live() ==> Remembers(world.cfg, attempt.Memory(run).(hasAckItems := true), world.log)
      modifies this, world
      ensures Inv() && (world.alive ==> old(world.alive))
      ensures Acknowledged(old(attempt), items, old(responseBinding))
    {
      hide SafeSoFar, CoreOk, Remembers, Spent, world.Ok, QuietSinceRelease;
      pendingCallback := false;
      var error := ImportResultBindable(world.cfg.purposes, items, responseBinding);
      if error != "" {
        BlockWith(error);
        return;
      }
      if Live() { AckItemsMayChange(world.cfg, attempt.Memory(run), world.log, items != []); }
      attempt := attempt.(ackItems := BuildAckItems(items));
      // the source compares the sizes once more here; the check before has settled it
      assert |attempt.ackItems| == |world.cfg.purposes|;
      state, ackSent, statusSent := AckPending, false, false;
      Persist();
      var now, h := DoAck();
    }

    // ---- tick_locked ----

    /** One tick. The gate stands for the readiness of MQTT, cloud and protocol; the SEC part of it is refreshed
        first. */
    method Tick(refreshed: bool, cap: Option<Capability>, snapshot: Option<ContractSnapshot>,
                gate: bool, session: Identity, clockSynced: bool)
      requires Inv()
      modifies this, world
      ensures Inv() && (world.alive ==> old(world.alive))
      ensures old(Stuck()) ==> Untouched(old(attempt), old(state), old(world.log), old(world.stored))
      ensures !gate || !refreshed || !clockSynced ==>
        attempt == old(attempt) && (state == old(state) || state.WaitCloud?) && (world.alive ==>
            world.log == old(world.log))
    {
      hide SafeSoFar, CoreOk, Remembers, Spent, world.Ok, QuietSinceRelease, StateOk;
      if refreshed { RefreshSecReadiness(cap, snapshot); }
      if !gate || !refreshed {
        GateClosed();
        return;
      }
      identity, identityValid := session, true;
      if !clockSynced {
        ClockNotSynced();
        return;
      }
      var now := Advance();
    }

    /** Network operations pause; the state of the flow and the request id are kept. */
    method GateClosed()
      requires Inv()
      modifies this`identityValid, this`identity, this`pendingItems, this`responseBinding, this`deadlineMs, this`state,
        world`alive, world`log, world`out, world`stored, world`core, world`phase, world`earliest
      ensures Inv() && (world.alive ==> old(world.alive) && world.log == old(world.log))
      ensures !identityValid && (old(Stuck()) ==> world.log == old(world.log) && world.stored == old(world.stored))
      ensures state ==
        if old(state) in {Requesting, WaitResponse, Importing, AckPending, Checking, RetryWait} then WaitCloud
        else old(state)
    {
      hide SafeSoFar, CoreOk, Remembers, Spent, world.Ok, QuietSinceRelease;
      if identityValid { InvalidateIdentity(); }
      if state.Requesting? || state.WaitResponse? || state.Importing? || state.AckPending? {
        deadlineMs, state := 0, WaitCloud;
        Persist();
      } else if state.Checking? || state.RetryWait? {
        state := WaitCloud;
      }
    }

    method ClockNotSynced()
      requires Inv()
      modifies this`state
      ensures Inv() && state == if old(state).Requesting? then WaitCloud else old(state)
    {
      hide SafeSoFar, CoreOk, Remembers, Spent, world.Ok, QuietSinceRelease;
      if state.Requesting? { state := WaitCloud; }
    }

    /** The states in which a release can be decided or followed. */
    predicate MayReplace()
      reads this`state
    {
      IsReconciliation(state) || state.SupersededRemote? || state.SupersededLocal? || state.Blocked?
    }

    /** The gate is open and the clock is right: the step of the present state. In a state that waits for its next
        retry, nothing at all is done before that time. */
    method Advance() returns (now: int)
      requires Inv()
      modifies this, world
      ensures Inv() && (world.alive ==> old(world.alive))
      ensures (old(IsReconciliation(state)) || old(state) in {WaitCloud, RetryWait}) && old(nextRetryMs) > now ==>
        state == old(state) && attempt == old(attempt) && world.log == old(world.log)
      ensures old(state.Active? || (state.Blocked? && blockedReason != EVIDENCE_CONFLICT && !capabilityEventSeen)) ==>
        state == old(state) && attempt == old(attempt) && world.log == old(world.log)
      ensures !old(MayReplace()) && old(attempt.requestId) != "" && old(attempt.fingerprintVersion) != 0 ==>
        attempt.requestId == old(attempt.requestId)
      ensures old(Stuck()) ==> Untouched(old(attempt), old(state), old(world.log), old(world.stored))
    {
      hide Consistent;
      now := ReadClock();
      if MayReplace() {
        Resolve(now);
      } else {
        Proceed(now);
      }
    }

    /** The attempt is under way. */
    method Proceed(now: int)
      requires Inv() && !MayReplace()
      modifies this, world
      ensures Inv() && (world.alive ==> old(world.alive))
      ensures (old(state) in {WaitCloud, RetryWait} && old(nextRetryMs) > now) || old(state).Active? ==>
        state == old(state) && attempt == old(attempt) && world.log == old(world.log)
      ensures old(attempt.requestId) != "" && old(attempt.fingerprintVersion) != 0 ==>
        attempt.requestId == old(attempt.requestId)
    {
      hide Consistent, AckRound, KeysComplete, Creates, Replaces, StageOf, Sent;
      match state
      case Disabled => Enable();
      case WaitCloud => if nextRetryMs <= now { var answer, built := CheckNow(); }
      case Checking => var answer, built := DoCheck();
      case Requesting => DoRequest();
      case WaitResponse =>
        if deadlineMs == 0 {
          var answer, built := CheckNow();
        } else if now >= deadlineMs {
          var at := OnResponseTimeout();
        }
      case Importing => var handed, answer := DoImport();
      case AckPending => var at, h := DoAck();
      case RetryWait => if nextRetryMs <= now { var answer, built := CheckNow(); }
      case _ =>
    }

    /** The attempt is blocked, released or being reconciled. */
    method Resolve(now: int)
      requires Inv() && MayReplace()
      modifies this, world
      ensures Inv() && (world.alive ==> old(world.alive))
      ensures old(IsReconciliation(state)) && old(nextRetryMs) > now ==>
        state == old(state) && attempt == old(attempt) && world.log == old(world.log)
      ensures old(state.Blocked? && blockedReason != EVIDENCE_CONFLICT && !capabilityEventSeen) ==>
        state == old(state) && attempt == old(attempt) && world.log == old(world.log)
      ensures old(Stuck()) ==> Untouched(old(attempt), old(state), old(world.log), old(world.stored))
    {
      hide Consistent, Checked, Creates, Replaces, StageOf, NoSpin;
      match state
      case Blocked =>
        if blockedReason == EVIDENCE_CONFLICT {
          if nextRetryMs <= now { DoReconcile(); }
        } else if capabilityEventSeen {
          BlockedCheck();
        }
      case SupersededLocal => Supersede();
      case SupersededRemote => Supersede();
      case BlockedAwaitCloudTermination => if nextRetryMs <= now { ObserveTermination(true); }
      case AwaitRemoteRepair => if nextRetryMs <= now { ObserveTermination(false); }
      case _ => if nextRetryMs <= now { DoReconcile(); }
    }

    /** An event may have removed what blocks. */
    method BlockedCheck()
      requires Inv() && state.Blocked?
      modifies this, world
      ensures Inv() && (world.alive ==> old(world.alive))
    {
      hide Consistent, Creates, Replaces;
      capabilityEventSeen := false;
      var answer, built := CheckNow();
    }

    method Enable()
      requires Inv() && state.Disabled?
      modifies this`state
      ensures Inv()
    {
      hide SafeSoFar, CoreOk, Remembers, Spent, world.Ok, QuietSinceRelease;
      state := WaitCloud;
    }

    method Supersede()
      requires Inv() && (state.SupersededLocal? || state.SupersededRemote?)
      modifies this, world
      ensures Inv() && (world.alive ==> old(world.alive))
      ensures old(attempt.successorRequestId) != "" ==>
        attempt.requestId == old(attempt.requestId) || attempt.requestId == old(attempt.successorRequestId)
    {
      hide SafeSoFar, CoreOk, Remembers, Spent, world.Ok, QuietSinceRelease;
      var built := CreateNewAttempt();
    }

    method CheckNow() returns (answer: KeyStatusAnswer, built: bool)
      requires Inv() && !state.SupersededRemote?
      modifies this, world
      ensures Checked(answer, old(attempt), old(recoveringAck || importAttempted)) && (world.alive ==> old(world.alive))
      ensures Creates(built && Replaces(answer, old(attempt)) && !old(secOutcomeUnknown),
                      old(attempt.requestId), old(world.log))
      ensures built ==> FirstRequest(old(attempt.requestId), old(world.log))
      ensures old(attempt.requestId) != "" && old(attempt.fingerprintVersion) != 0 && state.WaitResponse? ==> SameRun()
    {
      hide SafeSoFar, CoreOk, Remembers, Spent, world.Ok, QuietSinceRelease, KeysComplete;
      state := Checking;
      answer, built := DoCheck();
    }

    /** Ask the cloud again and again, with growing intervals, whether it has given the batch up. */
    method ObserveTermination(mayFreshen: bool)
      requires Inv() && (state.BlockedAwaitCloudTermination? || state.AwaitRemoteRepair?)
      modifies this, world
      ensures Inv() && (world.alive ==> old(world.alive))
      ensures attempt.requestId == old(attempt.requestId) && (!mayFreshen ==> attempt == old(attempt))
    {
      hide SafeSoFar, CoreOk, Remembers, Spent, world.Ok, QuietSinceRelease;
      if mayFreshen {
        var freshened, clock := MaybeFreshen();
        if freshened { return; }
      }
      if !reconcileStatusSent {
        SendStatusRequest();
      } else {
        var at := StatusDeadline();
      }
    }

    // ---- handle_routed_downlink ----

    /** What is awaited was sent in another generation, or for another fingerprint. */
    predicate Stale()
      reads this`awaitingActive, this`storeGeneration, this`awaitingGeneration, this`attempt, this`awaitingFingerprint
    {
      awaitingActive && (storeGeneration != awaitingGeneration || attempt.frozenFingerprint != awaitingFingerprint)
    }

    /** A decoded downlink message. Only the current request id is listened to, and only what was sent in the present
        generation and for the frozen fingerprint. */
    method HandleRoutedDownlink(rid: string, message: Downlink) returns (statusHandled: bool)
      requires Inv()
      modifies this, world
      ensures Inv() && (world.alive ==> old(world.alive))
      ensures rid != old(attempt.requestId) || rid == "" ==>
        !statusHandled && Untouched(old(attempt), old(state), old(world.log), old(world.stored))
      ensures old(Stale()) || message.OtherKind? || (message.Response? && !old(state).WaitResponse?) ==>
        !statusHandled && Untouched(old(attempt), old(state), old(world.log), old(world.stored))
      ensures statusHandled ==> message.StatusResponse? && old(IsReconciliation(state)) && NoSpin(rid)
      ensures !statusHandled ==> attempt.requestId == old(attempt.requestId)
    {
      hide SafeSoFar, CoreOk, Remembers, Spent, world.Ok, QuietSinceRelease, StateOk;
      statusHandled := false;
      world.BeginStep();
      if rid != attempt.requestId || attempt.requestId == "" { return; }
      if Stale() { return; }
      match message
      case Response(succeeded, error, expireAt, items) =>
        if state.WaitResponse? { HandleResponse(succeeded, error, expireAt, items); }
      case AckResult(succeeded, error) => HandleAckResult(succeeded, error);
      case StatusResponse(status, error) =>
        if IsReconciliation(state) {
          reconcileStatusSent := false;
          HandleReconcileStatus(status, error);
          statusHandled := true;
        } else if state.AckPending? || state.WaitResponse? || state.Checking? {
          HandleStatus(status, error);
        }
      case OtherKind =>
    }

    predicate OnlyLeaseChanged(before: Attempt)
      reads this`attempt
    {
      var b := before.budget.(ackSafeDeadlineAt := attempt.budget.ackSafeDeadlineAt);
      attempt == before.(leaseExpiresAt := attempt.leaseExpiresAt, ackSafeDeadline := attempt.ackSafeDeadline,
                         budget := b)
    }

    method HandleResponse(succeeded: bool, error: WireError, expireAt: int, items: seq<ResponseItem>)
      requires Inv() && state.WaitResponse? && attempt.requestId != ""
      modifies this, world
      ensures Inv() && (world.alive ==> old(world.alive))
      ensures OnlyLeaseChanged(old(attempt))
      ensures state.Importing? ==> succeeded && pendingItems == items && |items| == |world.cfg.purposes|
      ensures state.Importing? && expireAt > 0 ==> attempt.leaseExpiresAt == expireAt
      ensures state.Importing? ==> SameRun() && !importAttempted
    {
      hide SafeSoFar, CoreOk, Remembers, Spent, world.Ok, QuietSinceRelease;
      if !succeeded {
        var at := RefusedResponse(error);
        return;
      }
      if expireAt > 0 {
        var c := world.ClockSource();
        if LeaseExpired(c.UtcUpper(), expireAt) {
          ReconcileSlowly("response_expired");
          return;
        }
        if !LeaseAcceptable(c.UtcUpper(), expireAt, world.cfg.params) {
          EnterReconcileOldAttempt("lease_too_short");
          return;
        }
      }
      var problem := ResponseValid(world.cfg.purposes, items);
      if problem != "" {
        var now := RetryWithinBudget(problem);
        return;
      }
      TakeResponse(expireAt, items);
    }

    /** A Response that reports a failure. */
    method RefusedResponse(error: WireError) returns (now: int)
      requires Inv() && state.WaitResponse?
      modifies this, world
      ensures Inv() && (world.alive ==> old(world.alive)) && attempt == old(attempt)
      ensures state == if IsIdempotencyConflict(error) then ReconcileOldAttempt
                       else if !error.retryable then State.Blocked
                       else if attempt.budget.RequestOk(world.cfg.params, now) then RetryWait else ReconcileOldAttempt
    {
      hide SafeSoFar, CoreOk, Remembers, Spent, world.Ok, QuietSinceRelease;
      now := 0;
      if IsIdempotencyConflict(error) {
        EnterReconcileOldAttempt("idempotency_conflict");
      } else if error.retryable {
        now := RetryWithinBudget("response_not_succeeded");
      } else {
        BlockWith("response_not_succeeded");
      }
    }

    method RetryWithinBudget(reason: string) returns (now: int)
      requires Inv()
      modifies this, world
      ensures Inv() && (world.alive ==> old(world.alive)) && attempt == old(attempt)
      ensures state == if attempt.budget.RequestOk(world.cfg.params, now) then RetryWait else ReconcileOldAttempt
      ensures lastError == if state.RetryWait? then reason else "request_budget_exhausted"
    {
      hide SafeSoFar, CoreOk, Remembers, Spent, world.Ok, QuietSinceRelease;
      now := world.NowMs();
      if attempt.budget.RequestOk(world.cfg.params, now) {
        RetryAfter(reason);
      } else {
        EnterReconcileOldAttempt("request_budget_exhausted");
        Persist();
      }
    }

    /** A usable Response: store its lease and go on to the import. Without a lease the deadline of the ACK stays
        open. */
    method TakeResponse(expireAt: int, items: seq<ResponseItem>)
      requires Inv() && state.WaitResponse? && attempt.requestId != ""
      modifies this`attempt, this`responseBinding, this`pendingItems, this`importAttempted, this`state, world
      ensures Inv() && state.Importing? && pendingItems == items && (world.alive ==> old(world.alive))
      ensures !importAttempted
      ensures expireAt > 0 ==>
        attempt.leaseExpiresAt == expireAt && attempt.ackSafeDeadline == AckSafeDeadline(expireAt, world.cfg.params)
      ensures expireAt <= 0 ==> attempt == old(attempt)
      ensures OnlyLeaseChanged(old(attempt))
    {
      hide Consistent, SafeSoFar, CoreOk, Remembers, Spent, world.Ok, InStep, StateOk;
      ghost var h, c, m := world.log, attempt.Core(), attempt.Memory(run);
      Standing();
      ghost var next := h;
      if expireAt > 0 {
        if Live() {
          LeaseKeepsStep(world.cfg, c, h, expireAt);
          MemoryKeeps(world.cfg, m, h, LeaseTaken(c.rid, expireAt));
          next := Then(h, LeaseTaken(c.rid, expireAt));
        }
        var d := AckSafeDeadline(expireAt, world.cfg.params);
        attempt := attempt.(leaseExpiresAt := expireAt, ackSafeDeadline := d,
                            budget := attempt.budget.(ackSafeDeadlineAt := d));
        if world.alive { SpentStaysSpent(world.cfg, c, attempt.Core(), world.barred, world.apart); }
      } else if Live() {
        ImportingClaimsNothing(world.cfg, c, state, h);
      }
      responseBinding, pendingItems, importAttempted, state := items, items, false, Importing;
      PersistAs(next);
    }

    /** The cloud's verdict on an acknowledgement. */
    method HandleAckResult(succeeded: bool, error: WireError)
      requires Inv()
      modifies this, world
      ensures Inv() && (world.alive ==> old(world.alive)) && attempt == old(attempt)
      ensures state == if IsIdempotencyConflict(error) then ReconcileOldAttempt
                       else if !old(state).AckPending? then old(state)
                       else if succeeded then State.Active else RetryWait
    {
      hide SafeSoFar, CoreOk, Remembers, Spent, world.Ok, QuietSinceRelease;
      if IsIdempotencyConflict(error) {
        EnterReconcileOldAttempt("ack_result_idempotency_conflict");
      } else if state.AckPending? {
        if succeeded {
          state, importAttempted, recoveringAck, lastError, submission := State.Active, false, false, "", CONFIRMED;
          Persist();
        } else {
          RetryAfter("ack_result_rejected");
        }
      }
    }

    /** A status while the attempt is still under way. */
    method HandleStatus(status: int, error: WireError)
      requires Inv() && (state.AckPending? || state.WaitResponse? || state.Checking?)
      modifies this, world
      ensures Inv() && (world.alive ==> old(world.alive)) && attempt == old(attempt)
      ensures state == if IsIdempotencyConflict(error) then ReconcileOldAttempt
                       else if status != STATUS_ACTIVE then RetryWait
                       else if old(attempt.ackItems != [] || importAttempted) then AckPending else State.Active
    {
      hide SafeSoFar, CoreOk, Remembers, Spent, world.Ok, QuietSinceRelease;
      if IsIdempotencyConflict(error) {
        EnterReconcileOldAttempt("status_idempotency_conflict");
      } else if status == STATUS_ACTIVE {
        if attempt.ackItems != [] || importAttempted {
          state, ackSent := AckPending, false;
        } else {
          state, submission := State.Active, CONFIRMED;
        }
        Persist();
      } else {
        RetryAfter(lastError);
      }
    }
  }
}
