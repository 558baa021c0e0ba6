/** Configuration, states, SEC evidence and message contents of the provisioning coordinator
    (include/v2c_key_provisioning_coordinator.h, include/sec_business_key_facade.h, include/keyprov_protocol.h). */
module KeyprovTypes {
  import opened KeyprovBytes
  import opened KeyprovAttempt
  import opened KeyprovLifecycle

  datatype Config = Config(
    params: Params,
    businessDomain: string,
    purposes: seq<string>,
    certificateProfile: string,
    requestTimeoutMs: u32,
    ackTimeoutMs: u32,
    maxAttemptsBeforeAlert: u32,
    retryInitialMs: u32,
    retryMaxMs: u32,
    retryMultiplier: real,
    retryJitter: bool,
    notFoundCount: u32,
    notFoundWindowMs: u32,
    secImportTimeoutMs: u32,
    secCallbackGraceMs: u32,
    statusInitialMs: u32,
    statusMaxMs: u32)
  {
    /** The time a run of NOT_FOUND answers has to span; the 32-bit sum wraps around as in the source. */
    function StabilizationWindowMs(): u32
    {
      if notFoundWindowMs > 0 then notFoundWindowMs else (secImportTimeoutMs + secCallbackGraceMs) % 0x1_0000_0000
    }

    /** retry_multiplier as the whole factor the source multiplies with: a double that is not positive counts as 2. */
    function Factor(): nat
    {
      if retryMultiplier <= 0.0 then 2 else retryMultiplier.Floor
    }

    /** Intervals for which interval plus a quarter of jitter stays inside 32 bits and is never zero. */
    predicate SaneIntervals()
    {
      0 < retryInitialMs <= 0x8000_0000 && 0 < statusInitialMs <= 0x8000_0000
      && retryMaxMs <= 0x8000_0000 && statusMaxMs <= 0x8000_0000
    }
  }

  datatype State =
    | Disabled | WaitCloud | Checking | Requesting | WaitResponse | Importing | AckPending | Active | RetryWait
    | Blocked
    | ReconcileOldAttempt | SupersededLocal | SupersededRemote | BlockedAwaitCloudTermination | LegacySnapshotUnknown
    | ReconcileEvidence | StabilizingNotFound | ReconcileRemote | AwaitRemoteRepair | HardBlocked

  function StateName(s: State): string
  {
    match s
    case Disabled => "DISABLED"
    case WaitCloud => "WAIT_CLOUD"
    case Checking => "CHECKING"
    case Requesting => "REQUESTING"
    case WaitResponse => "WAIT_RESPONSE"
    case Importing => "IMPORTING"
    case AckPending => "ACK_PENDING"
    case Active => "ACTIVE"
    case RetryWait => "RETRY_WAIT"
    case Blocked => "BLOCKED"
    case ReconcileOldAttempt => "RECONCILE_OLD_ATTEMPT"
    case SupersededLocal => "SUPERSEDED_LOCAL"
    case SupersededRemote => "SUPERSEDED_REMOTE"
    case BlockedAwaitCloudTermination => "BLOCKED_AWAIT_CLOUD_TERMINATION"
    case LegacySnapshotUnknown => "LEGACY_SNAPSHOT_UNKNOWN"
    case ReconcileEvidence => "RECONCILE_EVIDENCE"
    case StabilizingNotFound => "STABILIZING_NOT_FOUND"
    case ReconcileRemote => "RECONCILE_REMOTE"
    case AwaitRemoteRepair => "AWAIT_REMOTE_REPAIR"
    case HardBlocked => "HARD_BLOCKED"
  }

  const ALL_STATES: seq<State> := [
    Disabled, WaitCloud, Checking, Requesting, WaitResponse, Importing, AckPending, State.Active, RetryWait,
    State.Blocked,
    ReconcileOldAttempt, SupersededLocal, SupersededRemote, BlockedAwaitCloudTermination, LegacySnapshotUnknown,
    ReconcileEvidence, StabilizingNotFound, ReconcileRemote, AwaitRemoteRepair, HardBlocked]

  function FindState(name: string, candidates: seq<State>): Option<State>
  {
    if candidates == [] then None
    else if name == StateName(candidates[0]) then Some(candidates[0])
    else FindState(name, candidates[1..])
  }

  function StateFromName(name: string): Option<State>
  {
    FindState(name, ALL_STATES)
  }

  predicate IsReconciliation(s: State)
  {
    s.ReconcileOldAttempt? || s.LegacySnapshotUnknown? || s.BlockedAwaitCloudTermination? || s.ReconcileEvidence?
    || s.StabilizingNotFound? || s.ReconcileRemote? || s.AwaitRemoteRepair? || s.HardBlocked?
  }

  /** Length and third character tell the state names apart. */
  function NameKey(s: State): (nat, char)
  {
    match s
    case Disabled => (8, 'S')
    case WaitCloud => (10, 'I')
    case Checking => (8, 'E')
    case Requesting => (10, 'Q')
    case WaitResponse => (13, 'I')
    case Importing => (9, 'P')
    case AckPending => (11, 'K')
    case Active => (6, 'T')
    case RetryWait => (10, 'T')
    case Blocked => (7, 'O')
    case ReconcileOldAttempt => (21, 'C')
    case SupersededLocal => (16, 'P')
    case SupersededRemote => (17, 'P')
    case BlockedAwaitCloudTermination => (31, 'O')
    case LegacySnapshotUnknown => (23, 'G')
    case ReconcileEvidence => (18, 'C')
    case StabilizingNotFound => (21, 'A')
    case ReconcileRemote => (16, 'C')
    case AwaitRemoteRepair => (19, 'A')
    case HardBlocked => (12, 'R')
  }

  lemma NameKeyReadsName(s: State)
    ensures NameKey(s) == (|StateName(s)|, StateName(s)[2])
  {
    match s {
      case Disabled =>
      case WaitCloud =>
      case Checking =>
      case Requesting =>
      case WaitResponse =>
      case Importing =>
      case AckPending =>
      case Active =>
      case RetryWait =>
      case Blocked =>
      case ReconcileOldAttempt =>
      case SupersededLocal =>
      case SupersededRemote =>
      case BlockedAwaitCloudTermination =>
      case LegacySnapshotUnknown =>
      case ReconcileEvidence =>
      case StabilizingNotFound =>
      case ReconcileRemote =>
      case AwaitRemoteRepair =>
      case HardBlocked =>
    }
  }

  lemma StateNamesDiffer(s: State, t: State)
    requires s != t
    ensures StateName(s) != StateName(t)
  {
    NameKeyReadsName(s);
    NameKeyReadsName(t);
    assert NameKey(s) != NameKey(t);
  }

  lemma {:induction false} FindStateFindsName(s: State, candidates: seq<State>)
    requires s in candidates
    ensures FindState(StateName(s), candidates) == Some(s)
  {
    if candidates[0] != s {
      StateNamesDiffer(s, candidates[0]);
      assert candidates == [candidates[0]] + candidates[1..];
      FindStateFindsName(s, candidates[1..]);
    }
  }

  /** The stored name of a state is read back as that state. */
  lemma StateNameRoundTrip(s: State)
    ensures StateFromName(StateName(s)) == Some(s)
  {
    assert ALL_STATES[StateIndex(s)] == s;
    FindStateFindsName(s, ALL_STATES);
  }

  function StateIndex(s: State): nat
  {
    match s
    case Disabled => 0
    case WaitCloud => 1
    case Checking => 2
    case Requesting => 3
    case WaitResponse => 4
    case Importing => 5
    case AckPending => 6
    case Active => 7
    case RetryWait => 8
    case Blocked => 9
    case ReconcileOldAttempt => 10
    case SupersededLocal => 11
    case SupersededRemote => 12
    case BlockedAwaitCloudTermination => 13
    case LegacySnapshotUnknown => 14
    case ReconcileEvidence => 15
    case StabilizingNotFound => 16
    case ReconcileRemote => 17
    case AwaitRemoteRepair => 18
    case HardBlocked => 19
  }

  // ---- SEC evidence ----

  datatype EvidenceKind = Committed | Failed | NotFound | OutcomeUnknown | QueryError | ContractUnknownEvidence

  datatype Resolution = Unresolved | NoSideEffectProven | HardConflict

  const CR021_NOT_FOUND_CONTRACT: u32 := 2

  datatype ImportState = Requested | Staged | CommittedState | FailedState | UnknownState | NotFoundState | OtherState

  datatype SecCode =
    | Success | ImportUnknown | NotReady | Unsupported | WrappedKeyInvalid | KeyConflict | PartialRollback | OtherCode

  /** One item of a SEC import result, as far as TSP reads it. */
  datatype ImportItem = ImportItem(
    purpose: string, keyId: string, businessKeyVersion: u64, active: bool,
    envelopeFormat: i32, envelopeDigest: Bytes, keyCheckValue: Option<Bytes>,
    proofIsP1363: bool, importProof: Bytes, recipientCertificateDigest: Bytes)

  /** A SEC answer about an import: a code, and a result that only counts when the code is a success. */
  datatype SecAnswer = SecAnswer(code: SecCode, state: ImportState, items: seq<ImportItem>)

  function Classify(a: SecAnswer): EvidenceKind
  {
    if !a.code.Success? then QueryError
    else
      match a.state
      case CommittedState => Committed
      case FailedState => Failed
      case NotFoundState => NotFound
      case OtherState => ContractUnknownEvidence
      case _ => OutcomeUnknown
  }

  /** NOT_FOUND counts as proof of no residue only under a contract that defines it so. */
  predicate StrongNotFound(a: SecAnswer, contract: u32)
  {
    Classify(a) == NotFound && contract >= CR021_NOT_FOUND_CONTRACT
  }

  /** One read of the SEC journal: for which id, how it was classified, under which capability epoch, when. */
  datatype Read = Read(rid: string, kind: EvidenceKind, strong: bool, epoch: u64, mono: int, items: nat)
  {
    predicate IsStrongNotFound()
    {
      kind == NotFound && strong
    }
  }

  // ---- The acknowledgement ----

  datatype AckItem = AckItem(
    purpose: i32, keyId: string, businessKeyVersion: u64,
    envelopeFormat: i32, envelopeDigest: Bytes, keyCheckValue: Bytes,
    proofAlgorithm: i32, importProof: Bytes, recipientCertificateDigest: Bytes)

  const PROOF_ECDSA_P256_P1363: i32 := 1
  const MAX_STRING_BYTES := 128
  const MAX_IMPORT_PROOF_BYTES := 1024

  function BuildAckItem(it: ImportItem): AckItem
  {
    AckItem(PurposeFromString(it.purpose), it.keyId, it.businessKeyVersion,
            it.envelopeFormat, it.envelopeDigest,
            if it.keyCheckValue.Some? then it.keyCheckValue.value else [],
            if it.proofIsP1363 then PROOF_ECDSA_P256_P1363 else 0,
            it.importProof, it.recipientCertificateDigest)
  }

  function BuildAckItems(items: seq<ImportItem>): (r: seq<AckItem>)
    ensures |r| == |items|
  {
    seq(|items|, i requires 0 <= i < |items| => BuildAckItem(items[i]))
  }

  /** The lengths and the algorithm every acknowledged import must have. */
  predicate ExactAttestation(a: AckItem)
  {
    && a.envelopeFormat == FORMAT_ECDH_ES_P256_V1
    && a.proofAlgorithm == PROOF_ECDSA_P256_P1363
    && |a.importProof| == 64
    && |a.recipientCertificateDigest| == 32
    && |a.envelopeDigest| == 32
    && |a.keyCheckValue| == 3
  }

  /** The item checks of build_keyprov_ack_envelope, in their order. */
  function AckItemError(a: AckItem): string
  {
    if |a.keyId| > MAX_STRING_BYTES || |a.importProof| > MAX_IMPORT_PROOF_BYTES then "ack_item_too_large"
    else if a.envelopeFormat == FORMAT_ECDH_ES_P256_V1 then
      if a.proofAlgorithm != PROOF_ECDSA_P256_P1363 || |a.importProof| != 64 || |a.recipientCertificateDigest| != 32
         || |a.envelopeDigest| != 32 || |a.keyCheckValue| != 3
      then "ack_attestation_invalid" else ""
    else if a.envelopeFormat == 0 then "ack_envelope_format_unspecified"
    else "ack_envelope_format_unknown"
  }

  ghost predicate IsFirstError(items: seq<AckItem>, error: string)
  {
    exists i :: 0 <= i < |items| && AckItemError(items[i]) == error
                && forall j :: 0 <= j < i ==> AckItemError(items[j]) == ""
  }

  /** The encoder's loop over the items: the first bad item decides. */
  method CheckAckItems(rid: string, items: seq<AckItem>) returns (error: string)
    ensures error == "" ==>
      rid != "" && |items| <= MAX_ITEMS && forall i :: 0 <= i < |items| ==> ExactAttestation(items[i])
    ensures error != "" ==> rid == "" || |items| > MAX_ITEMS || IsFirstError(items, error)
  {
    if rid == "" { return "ack_request_id_missing"; }
    if |items| > MAX_ITEMS { return "ack_items_too_many"; }
    for i := 0 to |items|
      invariant forall j :: 0 <= j < i ==> ExactAttestation(items[j]) && AckItemError(items[j]) == ""
    {
      if AckItemError(items[i]) != "" { return AckItemError(items[i]); }
    }
    return "";
  }

  // ---- The business payload of a Request: everything in it but the two timestamps ----

  datatype Payload = Payload(
    idempotencyKey: string, businessDomain: string, purposes: seq<i32>,
    deviceIdentityDigest: Bytes, certificateProfile: string, certificateDigest: Bytes,
    wrappingSuites: seq<i32>, envelopeFormats: seq<i32>, currentVersions: seq<Version>)

  /** The payload sent for a frozen snapshot; the two digests come from the session identity of the moment. */
  function MakePayload(key: string, frozen: Snapshot, cfg: Config, device: Bytes, certificate: Bytes): Payload
  {
    Payload(key, if frozen.businessDomain == "" then cfg.businessDomain else frozen.businessDomain, frozen.purposes,
            device, cfg.certificateProfile, certificate,
            frozen.wrappingSuites, frozen.envelopeFormats, frozen.currentVersions)
  }
}
