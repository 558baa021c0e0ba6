/** What the stored record and the memory of the coordinator always say about the history, and why each step keeps it
    so. The predicates are quantified over one value: a step that only passes them on need not look inside. */
module KeyprovInvariant {
  import opened KeyprovBytes
  import opened KeyprovAttempt
  import opened KeyprovLifecycle
  import opened KeyprovTypes
  import opened KeyprovHistory
  import opened KeyprovStore

  // ---- The core: the part of record and memory that safety rests on ----

  datatype Core = Core(rid: string, successor: string, resolution: Resolution, imported: bool,
                       budget: Ledger, lease: int, fpv: u32)

  function ResolutionOf(code: int): Resolution
  {
    if code == 1 then NoSideEffectProven else if code == 2 then HardConflict else Unresolved
  }

  function ResolutionCode(r: Resolution): int
  {
    match r
    case Unresolved => 0
    case NoSideEffectProven => 1
    case HardConflict => 2
  }

  /** What initialize takes over from a record; a record without a request id only keeps the budget and the lease. */
  function CoreOf(r: Record): Core
  {
    if r.requestId == "" then Core("", "", Unresolved, false, r.budget, r.leaseExpiresAtMs, 0)
    else Core(r.requestId, r.successorRequestId, ResolutionOf(r.importInvocationResolution), r.importInvocation,
              r.budget, r.leaseExpiresAtMs, r.fingerprintVersion)
  }

  /** The core agrees with the history. */
  ghost predicate CoreOk(cfg: Config, c: Core, h: History, out: Uncounted)
  {
    forall rid :: rid == c.rid ==> CoreFacts(cfg, c, h, out, rid)
  }

  ghost predicate CoreFacts(cfg: Config, c: Core, h: History, out: Uncounted, rid: string)
  {
    && rid == Current(h)
    && (c.fpv == 0 <==> rid == "")
    && (rid == "" ==> c.successor == "")
    && CountsOk(c.budget, h, out, rid)
    && (out.RequestOut? ==> h.Then? && h.event.RequestSent? && h.event.rid == rid)
    && (out.AckOut? ==> h.Then? && h.event.AckSent? && h.event.rid == rid)
    && c.budget.chainRequestIdCount == Slots(h)
    && c.successor == SuccessorOf(h, rid)
    && (c.successor != "" ==> !AdoptedIn(h, c.successor))
    && (c.resolution.NoSideEffectProven? ==> Cleared(h, rid))
    && (c.imported <==> ImportedIn(h, rid))
    && (rid != "" && !c.imported && Vouched(h, rid) ==> !c.resolution.Unresolved?)
    && (FreshenedIn(h, rid) ==> c.budget.expiryFreshenCount >= 1)
    && c.lease == LeaseOf(h, rid)
    && c.budget.ackSafeDeadlineAt == DeadlineOf(cfg, h, rid)
  }

  /** The budgets count every charge, except the message that is out and those a crash lost. */
  ghost predicate CountsOk(b: Ledger, h: History, out: Uncounted, rid: string)
  {
    var asked, acked := (if out.RequestOut? then 1 else 0), if out.AckOut? then 1 else 0;
    && b.requestSendCount + LostRequests(h, rid) + asked == Charged(h, rid)
    && LostRequests(h, rid) + asked <= Requests(h, rid)
    && (LostRequests(h, rid) == 0 && b.requestSendCount > 0 ==> b.firstRequestAt == WindowStart(h, rid))
    && b.ackSendCount + LostAcks(h, rid) + acked == AcksCharged(h, rid)
    && LostAcks(h, rid) + acked <= Acks(h, rid)
  }

  /** A state that is stored says something about the history, too. */
  ghost predicate StateOk(c: Core, s: State, h: History)
  {
    && !s.SupersededLocal?
    && (s.SupersededRemote? ==>
          c.rid != "" && c.successor != "" && c.resolution.NoSideEffectProven? && QuietSinceRelease(h, c.rid))
  }

  /** Safe, stage by stage. */
  ghost predicate SafeSoFar(cfg: Config, h: History)
  {
    forall p: History :: StageOf(p, h) ==> Safe(cfg, p)
  }

  lemma SafeGrows(cfg: Config, h: History, e: Event)
    requires SafeSoFar(cfg, h) && Legal(cfg, h, e)
    ensures SafeSoFar(cfg, Then(h, e))
  {
    assert StageOf(h, h);
  }

  lemma SafeSoFarIsSafe(cfg: Config, h: History)
    ensures SafeSoFar(cfg, h) <==> Safe(cfg, h)
  {
    assert StageOf(h, h);
    forall p: History | StageOf(p, h) && Safe(cfg, h) ensures Safe(cfg, p) {
      StageIsSafe(cfg, p, h);
    }
  }

  lemma LastIsLegal(cfg: Config, h: History, e: Event)
    requires SafeSoFar(cfg, Then(h, e))
    ensures SafeSoFar(cfg, h) && Safe(cfg, h) && Legal(cfg, h, e)
  {
    SafeSoFarIsSafe(cfg, Then(h, e));
    SafeSoFarIsSafe(cfg, h);
  }

  /** History, core and state together. */
  ghost predicate InStep(cfg: Config, c: Core, s: State, h: History, out: Uncounted)
  {
    SafeSoFar(cfg, h) && CoreOk(cfg, c, h, out) && StateOk(c, s, h)
  }

  const EMPTY_CORE := Core("", "", Unresolved, false, FRESH_LEDGER, 0, 0)

  /** Where a history begins that starts from a record. */
  function OriginFor(c: Core, handed: set<string>): Origin
  {
    Origin(c.rid, c.successor, c.imported, c.resolution, c.budget.requestSendCount, c.budget.firstRequestAt,
           c.budget.ackSendCount, c.budget.expiryFreshenCount, c.budget.chainRequestIdCount, c.lease,
           c.budget.ackSafeDeadlineAt, handed)
  }

  /** A record the release rule can be relied on from: it has no id yet, or an id with a fingerprint that is not
      released already and not its own successor. */
  predicate StartsWell(c: Core, s: State)
  {
    if c.rid == "" then c.fpv == 0 && c.successor == ""
    else c.fpv != 0 && !s.SupersededRemote? && !s.SupersededLocal? && c.successor != c.rid
  }

  /** Such a record agrees with the history that starts from it. */
  lemma RecordIsInStep(cfg: Config, c: Core, s: State, handed: set<string>)
    requires StartsWell(c, s) && (c.rid == "" ==> s.WaitCloud?)
    ensures InStep(cfg, c, s, Start(OriginFor(c, handed)), Settled)
  {
    var h := Start(OriginFor(c, handed));
    assert Safe(cfg, h);
    SafeSoFarIsSafe(cfg, h);
    assert CountsOk(c.budget, h, Settled, c.rid);
    assert CoreFacts(cfg, c, h, Settled, c.rid);
  }

  /** An id that may send no Request any more: its budget is spent, or it has neither a fingerprint to send nor a lease
      to refresh; and it is nobody's successor. Besides, no id is its own successor, unless it was so from the start. */
  ghost predicate Spent(cfg: Config, c: Core, barred: string, apart: bool)
  {
    && (apart && c.rid != "" ==> c.successor != c.rid)
    && forall id :: id == barred && id != "" ==> SpentFacts(cfg, c, id)
  }

  lemma SuccessorIsAnother(cfg: Config, c: Core, barred: string, apart: bool)
    requires Spent(cfg, c, barred, apart) && apart
    ensures c.rid != "" ==> c.successor != c.rid
  {
  }

  ghost predicate SpentFacts(cfg: Config, c: Core, id: string)
  {
    c.successor != id && (c.rid == id ==> c.budget.requestSendCount >= cfg.params.requestLimit || HasNothing(c))
  }

  /** No fingerprint and no lease. */
  predicate HasNothing(c: Core)
  {
    c.fpv == 0 && c.lease <= 0
  }

  /** Whoever has a fingerprint or a lease and is barred has spent its budget. */
  lemma BarredIsSpent(cfg: Config, c: Core, barred: string, apart: bool)
    requires Spent(cfg, c, barred, apart) && !HasNothing(c)
    ensures barred != "" && c.rid == barred ==> c.budget.requestSendCount >= cfg.params.requestLimit
  {
    assert barred != "" ==> SpentFacts(cfg, c, barred);
  }

  lemma SpentStaysSpent(cfg: Config, c: Core, k: Core, barred: string, apart: bool)
    requires Spent(cfg, c, barred, apart)
    requires k.successor == c.successor && k.rid == c.rid && k.budget.requestSendCount >= c.budget.requestSendCount
    requires (k.fpv == c.fpv && k.lease == c.lease) || c.budget.requestSendCount >= cfg.params.requestLimit
             || c.rid != barred
    ensures Spent(cfg, k, barred, apart)
  {
    forall id | id == barred && id != "" ensures SpentFacts(cfg, k, id) {
      assert SpentFacts(cfg, c, id);
    }
  }

  lemma FingerprintVersionOf(cfg: Config, c: Core, h: History)
    requires CoreOk(cfg, c, h, Settled)
    ensures c.fpv == 0 <==> c.rid == ""
  {
    assert CoreFacts(cfg, c, h, Settled, c.rid);
  }

  // ---- The memory beside the core ----

  /** stab_: a run of strong NOT_FOUND answers; first and last are monotonic times, -1 when there is none. */
  datatype Stabilization = Stabilization(
    count: nat, epoch: u64, contract: u32, rid: string, generation: u64, first: int, last: int)

  const NO_STABILIZATION := Stabilization(0, 0, 0, "", 0, -1, -1)

  datatype Memory = Memory(
    rid: string, cachedStatus: int, cachedError: CloudError, hasAckItems: bool,
    key: string, frozen: Snapshot, fingerprint: Digest,
    stab: Stabilization, run: Run, imported: bool, resolution: Resolution)

  /** The fingerprint is that of a snapshot with these two identity digests. */
  ghost predicate MadeFrom(fp: Digest, device: Bytes, certificate: Bytes)
  {
    exists c: Snapshot :: ComputeFingerprint(c) == Ok(fp) && CountsFit(c)
                          && c.deviceIdentityDigest == device && c.recipientCertificateDigest == certificate
  }

  /** So a fingerprint determines the identity. */
  lemma FingerprintBindsIdentity(fp: Digest, d1: Bytes, c1: Bytes, d2: Bytes, c2: Bytes)
    requires MadeFrom(fp, d1, c1) && MadeFrom(fp, d2, c2)
    ensures d1 == d2 && c1 == c2
  {
    var s: Snapshot :| ComputeFingerprint(s) == Ok(fp) && CountsFit(s)
                       && s.deviceIdentityDigest == d1 && s.recipientCertificateDigest == c1;
    var t: Snapshot :| ComputeFingerprint(t) == Ok(fp) && CountsFit(t)
                       && t.deviceIdentityDigest == d2 && t.recipientCertificateDigest == c2;
    FingerprintIdentifiesContent(s, t);
  }

  /** The payload was made of the frozen content, and of the identity the fingerprint determines. */
  ghost predicate SentFrozen(cfg: Config, m: Memory, p: Payload)
  {
    && p == MakePayload(m.key, m.frozen, cfg, p.deviceIdentityDigest, p.certificateDigest)
    && MadeFrom(m.fingerprint, p.deviceIdentityDigest, p.certificateDigest)
  }

  /** While an attempt is unresolved, the memory of its stabilisation is the run the history ends in. */
  ghost predicate StabilizationOk(m: Memory, h: History)
  {
    && (m.stab.count == 0 ==> m.stab.first < 0)
    && (Vouched(h, m.rid) && !m.imported ==> m.stab.first < 0)
    && (Vouched(h, m.rid) && m.resolution.Unresolved? && m.stab.first >= 0 ==>
          && m.run.More? && EndsIn(h, m.run) && AllStrong(m.run, m.rid, m.stab.epoch)
          && Length(m.run) >= m.stab.count && RunStart(m.run) == m.stab.first)
  }

  /** What the memory remembers is what happened. */
  ghost predicate Remembers(cfg: Config, m: Memory, h: History)
  {
    forall rid :: rid == m.rid ==> MemoryFacts(cfg, m, h, rid)
  }

  ghost predicate MemoryFacts(cfg: Config, m: Memory, h: History, rid: string)
  {
    && (m.cachedStatus >= 0 ==> StatusSeenIn(h, rid, m.cachedStatus, m.cachedError))
    && (m.hasAckItems ==> CommittedIn(h, rid))
    && (cfg.purposes != [] && LastItems(h, rid) > 0 ==> m.hasAckItems)
    && (LastPayload(h, rid).Some? ==> SentFrozen(cfg, m, LastPayload(h, rid).value))
    && StabilizationOk(m, h)
  }

  // ---- Messages to the cloud ----

  datatype Message =
    | RequestMessage(rid: string, payload: Payload, checkedAt: int, stampedAt: int)
    | AckMessage(rid: string, items: seq<AckItem>, at: int)
    | StatusMessage(rid: string)

  function EventOf(m: Message): Event
  {
    match m
    case RequestMessage(rid, payload, checkedAt, stampedAt) => RequestSent(rid, payload, checkedAt, stampedAt)
    case AckMessage(rid, items, at) => AckSent(rid, items, at)
    case StatusMessage(rid) => StatusAsked(rid)
  }

  function UncountedBy(m: Message): Uncounted
  {
    match m
    case RequestMessage(_, _, _, _) => RequestOut
    case AckMessage(_, _, _) => AckOut
    case StatusMessage(_) => Settled
  }

  // ---- Steps that leave the stored record alone ----

  /** The next process starts. If the one before it died between a message and its accounting, that message was the last
      thing it did, and the restart accounts for it. */
  lemma LossIsCounted(cfg: Config, c: Core, s: State, h: History, out: Uncounted)
    requires InStep(cfg, c, s, h, out)
    ensures Legal(cfg, h, Restarted(out)) && InStep(cfg, c, s, Then(h, Restarted(out)), Settled)
    ensures out.RequestOut? ==> h.Then? && h.event.RequestSent? && h.event.rid == c.rid
    ensures out.AckOut? ==> h.Then? && h.event.AckSent? && h.event.rid == c.rid
  {
    assert CoreFacts(cfg, c, h, out, c.rid);
    SafeGrows(cfg, h, Restarted(out));
    assert CoreFacts(cfg, c, Then(h, Restarted(out)), Settled, c.rid);
  }

  /** Events after which the record agrees with the history as before. */
  predicate Harmless(e: Event)
  {
    e.JournalRead? || e.CommittedAnswer? || e.StatusSeen?
  }

  lemma HarmlessKeepsStep(cfg: Config, c: Core, s: State, h: History, e: Event)
    requires InStep(cfg, c, s, h, Settled) && Harmless(e) && SafeSoFar(cfg, Then(h, e))
    ensures InStep(cfg, c, s, Then(h, e), Settled)
  {
    assert CoreFacts(cfg, c, h, Settled, c.rid);
    assert CoreFacts(cfg, c, Then(h, e), Settled, c.rid);
  }

  /** MQTT takes a message while no release is stored. */
  lemma SendingKeepsStep(cfg: Config, c: Core, s: State, h: History, m: Message)
    requires InStep(cfg, c, s, h, Settled) && !s.SupersededRemote? && SafeSoFar(cfg, Then(h, EventOf(m)))
    ensures InStep(cfg, c, s, Then(h, EventOf(m)), UncountedBy(m))
  {
    LastIsLegal(cfg, h, EventOf(m));
    assert CoreFacts(cfg, c, h, Settled, c.rid);
    assert CoreFacts(cfg, c, Then(h, EventOf(m)), UncountedBy(m), c.rid);
  }

  /** SEC takes the items of an import while no release is stored. */
  lemma HandingKeepsStep(cfg: Config, c: Core, s: State, h: History, rid: string)
    requires InStep(cfg, c, s, h, Settled) && !s.SupersededRemote? && SafeSoFar(cfg, Then(h, HandedToSec(rid)))
    ensures InStep(cfg, c, s, Then(h, HandedToSec(rid)), Settled)
  {
    assert CoreFacts(cfg, c, h, Settled, c.rid);
    assert CoreFacts(cfg, c, Then(h, HandedToSec(rid)), Settled, c.rid);
  }

  /** What SEC was handed in a history is known to it. */
  lemma {:induction false} HandedIsKnown(cfg: Config, h: History)
    requires Safe(cfg, h)
    ensures HandedIds(h) <= OriginOf(h).handed + KnownIds(h) && "" !in KnownIds(h)
  {
    if h.Then? {
      HandedIsKnown(cfg, h.before);
      if h.event.HandedToSec? {
        CurrentIsAdopted(cfg, h.before);
        AdoptedIsKnown(h.before, h.event.rid);
      }
    }
  }

  lemma CurrentIsKnown(cfg: Config, c: Core, s: State, h: History, out: Uncounted)
    requires InStep(cfg, c, s, h, out)
    ensures c.rid != "" ==> c.rid in KnownIds(h)
  {
    assert CoreFacts(cfg, c, h, out, c.rid);
    SafeSoFarIsSafe(cfg, h);
    if c.rid != "" {
      CurrentIsAdopted(cfg, h);
      AdoptedIsKnown(h, c.rid);
    }
  }

  lemma {:induction false} AdoptedIsKnown(h: History, rid: string)
    requires AdoptedIn(h, rid)
    ensures Known(h, rid)
  {
    if h.Then? && !(h.event.Adopted? && h.event.next == rid) { AdoptedIsKnown(h.before, rid); }
  }

  // ---- Requests ----

  /** A Request that the budget allows and that is made of the frozen content is in order. */
  lemma RequestIsLegal(cfg: Config, c: Core, s: State, m: Memory, h: History, p: Payload, checkedAt: int, at: int)
    requires InStep(cfg, c, s, h, Settled) && Remembers(cfg, m, h) && m.rid == c.rid != ""
    requires c.budget.RequestOk(cfg.params, checkedAt)
    requires SentFrozen(cfg, m, p)
    ensures SafeSoFar(cfg, Then(h, RequestSent(c.rid, p, checkedAt, at)))
  {
    assert CoreFacts(cfg, c, h, Settled, c.rid);
    assert MemoryFacts(cfg, m, h, m.rid);
    if LastPayload(h, c.rid).Some? {
      var q := LastPayload(h, c.rid).value;
      FingerprintBindsIdentity(m.fingerprint, p.deviceIdentityDigest, p.certificateDigest,
                               q.deviceIdentityDigest, q.certificateDigest);
    }
    SafeGrows(cfg, h, RequestSent(c.rid, p, checkedAt, at));
  }

  /** After the Request the preconsumed budget counts it. */
  lemma RequestIsCounted(cfg: Config, c: Core, s: State, m: Memory, h: History, p: Payload, checkedAt: int, at: int)
    requires InStep(cfg, c, s, h, Settled) && Remembers(cfg, m, h) && m.rid == c.rid
    requires SafeSoFar(cfg, Then(h, RequestSent(c.rid, p, checkedAt, at))) && SentFrozen(cfg, m, p)
    ensures InStep(cfg, c.(budget := c.budget.PreconsumeRequest(cfg.params, at)), WaitResponse,
                   Then(h, RequestSent(c.rid, p, checkedAt, at)), Settled)
    ensures Remembers(cfg, m, Then(h, RequestSent(c.rid, p, checkedAt, at)))
  {
    var n, k := Then(h, RequestSent(c.rid, p, checkedAt, at)), c.(budget := c.budget.PreconsumeRequest(cfg.params, at));
    assert CoreFacts(cfg, c, h, Settled, c.rid);
    assert MemoryFacts(cfg, m, h, m.rid);
    assert CountsOk(k.budget, n, Settled, c.rid);
    assert CoreFacts(cfg, k, n, Settled, c.rid);
    assert MemoryFacts(cfg, m, n, m.rid);
  }

  // ---- Acknowledgements ----

  lemma AckIsLegal(cfg: Config, c: Core, s: State, m: Memory, h: History, items: seq<AckItem>, at: int)
    requires InStep(cfg, c, s, h, Settled) && Remembers(cfg, m.(hasAckItems := true), h) && m.rid == c.rid != ""
    requires c.budget.ackSendCount < cfg.params.ackLimit
    requires c.budget.ackSafeDeadlineAt > 0 ==> at < c.budget.ackSafeDeadlineAt
    requires forall i :: 0 <= i < |items| ==> ExactAttestation(items[i])
    ensures SafeSoFar(cfg, Then(h, AckSent(c.rid, items, at)))
  {
    assert CoreFacts(cfg, c, h, Settled, c.rid);
    assert MemoryFacts(cfg, m.(hasAckItems := true), h, m.rid);
    SafeGrows(cfg, h, AckSent(c.rid, items, at));
  }

  lemma AckIsCounted(cfg: Config, c: Core, k: Core, s: State, h: History, items: seq<AckItem>, at: int)
    requires InStep(cfg, c, s, h, Settled) && !s.SupersededRemote?
    requires SafeSoFar(cfg, Then(h, AckSent(c.rid, items, at)))
    requires k == c.(budget := c.budget.(ackSendCount := c.budget.ackSendCount + 1))
    ensures InStep(cfg, k, s, Then(h, AckSent(c.rid, items, at)), Settled)
  {
    var n := Then(h, AckSent(c.rid, items, at));
    assert CoreFacts(cfg, c, h, Settled, c.rid);
    assert CountsOk(k.budget, n, Settled, c.rid);
    assert CoreFacts(cfg, k, n, Settled, c.rid);
  }

  lemma StatusIsLegal(cfg: Config, c: Core, s: State, h: History)
    requires InStep(cfg, c, s, h, Settled) && c.rid != ""
    ensures SafeSoFar(cfg, Then(h, StatusAsked(c.rid)))
  {
    assert CoreFacts(cfg, c, h, Settled, c.rid);
    SafeGrows(cfg, h, StatusAsked(c.rid));
  }

  // ---- What the memory keeps ----

  /** Events that change nothing the memory remembers. */
  predicate Forgettable(e: Event)
  {
    !e.Restarted? && !e.JournalRead? && !e.RequestSent? && !e.Adopted?
  }

  lemma MemoryKeeps(cfg: Config, m: Memory, h: History, e: Event)
    requires Remembers(cfg, m, h) && Forgettable(e)
    ensures Remembers(cfg, m, Then(h, e))
  {
    assert MemoryFacts(cfg, m, h, m.rid);
    assert MemoryFacts(cfg, m, Then(h, e), m.rid);
  }

  lemma StatusIsRemembered(cfg: Config, c: Core, s: State, m: Memory, h: History, status: int, error: CloudError)
    requires InStep(cfg, c, s, h, Settled) && Remembers(cfg, m, h) && m.rid == c.rid != ""
    ensures SafeSoFar(cfg, Then(h, StatusSeen(c.rid, status, error)))
    ensures Remembers(cfg, m.(cachedStatus := status, cachedError := error), Then(h, StatusSeen(c.rid, status, error)))
  {
    var e := StatusSeen(c.rid, status, error);
    assert CoreFacts(cfg, c, h, Settled, c.rid);
    SafeGrows(cfg, h, e);
    assert MemoryFacts(cfg, m, h, m.rid);
    assert MemoryFacts(cfg, m.(cachedStatus := status, cachedError := error), Then(h, e), m.rid);
  }

  lemma CommittedIsRemembered(cfg: Config, m: Memory, h: History)
    requires Remembers(cfg, m, h)
    ensures Remembers(cfg, m.(hasAckItems := true), Then(h, CommittedAnswer(m.rid)))
  {
    assert MemoryFacts(cfg, m, h, m.rid);
    assert MemoryFacts(cfg, m.(hasAckItems := true), Then(h, CommittedAnswer(m.rid)), m.rid);
  }

  lemma CommittedIsThere(cfg: Config, m: Memory, h: History)
    requires Remembers(cfg, m.(hasAckItems := true), h)
    ensures CommittedIn(h, m.rid)
  {
    assert MemoryFacts(cfg, m.(hasAckItems := true), h, m.rid);
  }

  /** The acknowledgement items may come once SEC has answered COMMITTED; they do not go. */
  lemma AckItemsMayChange(cfg: Config, m: Memory, h: History, has: bool)
    requires Remembers(cfg, m.(hasAckItems := true), h)
    requires cfg.purposes != [] && !has ==> Remembers(cfg, m.(hasAckItems := false), h)
    ensures Remembers(cfg, m.(hasAckItems := has), h)
  {
    assert MemoryFacts(cfg, m.(hasAckItems := true), h, m.rid);
    assert MemoryFacts(cfg, m.(hasAckItems := has), h, m.rid);
  }

  lemma {:induction false} ImportedAtStart(h: History, rid: string)
    requires rid == OriginOf(h).rid && OriginOf(h).imported
    ensures ImportedIn(h, rid)
  {
    if h.Then? { ImportedAtStart(h.before, rid); }
  }

  /** SEC's COMMITTED overrides a proof that there was no side effect. */
  lemma CommittedKeepsStep(cfg: Config, c: Core, s: State, m: Memory, h: History, t: State)
    requires InStep(cfg, c, s, h, Settled) && Remembers(cfg, m, h) && m.hasAckItems && m.rid == c.rid
    requires !t.SupersededLocal? && !t.SupersededRemote? && !t.WaitResponse?
    ensures InStep(cfg, c.(resolution := Unresolved), t, h, Settled)
  {
    assert CoreFacts(cfg, c, h, Settled, c.rid);
    assert MemoryFacts(cfg, m, h, m.rid);
    SafeSoFarIsSafe(cfg, h);
    CommittedWasImported(cfg, h, c.rid);
    if c.rid == OriginOf(h).rid && OriginOf(h).imported { ImportedAtStart(h, c.rid); }
    assert CoreFacts(cfg, c.(resolution := Unresolved), h, Settled, c.rid);
  }

  lemma ConflictKeepsStep(cfg: Config, c: Core, s: State, h: History)
    requires InStep(cfg, c, s, h, Settled)
    ensures InStep(cfg, c.(resolution := HardConflict), HardBlocked, h, Settled)
  {
    assert CoreFacts(cfg, c, h, Settled, c.rid);
    assert CoreFacts(cfg, c.(resolution := HardConflict), h, Settled, c.rid);
  }

  // ---- Reads of the SEC journal ----

  lemma ReadIsLegal(cfg: Config, c: Core, s: State, h: History, r: Read)
    requires InStep(cfg, c, s, h, Settled) && r.rid == c.rid != "" && (r.kind == Committed ==> CommittedIn(h, r.rid))
    ensures SafeSoFar(cfg, Then(h, JournalRead(r)))
  {
    assert CoreFacts(cfg, c, h, Settled, c.rid);
    SafeGrows(cfg, h, JournalRead(r));
  }

  /** A COMMITTED read: the items to acknowledge are those it brought. Either the stabilisation starts anew, or the run
      is passed on as it was. */
  lemma CommittedReadIsRemembered(cfg: Config, m: Memory, n: Memory, h: History, r: Read)
    requires Remembers(cfg, m.(hasAckItems := true), h) && IsCommitted(r, m.rid)
    requires n == m.(hasAckItems := r.items > 0, resolution := n.resolution, stab := n.stab)
    requires (n.stab == m.stab && n.resolution == m.resolution)
             || (n.stab.count == 0 && (n.stab == m.stab || (m.stab.count > 0 && n.stab.first < 0)))
    ensures Remembers(cfg, n, Then(h, JournalRead(r)))
  {
    assert MemoryFacts(cfg, m.(hasAckItems := true), h, m.rid);
    assert MemoryFacts(cfg, n, Then(h, JournalRead(r)), n.rid);
  }

  /** A read that ends the stabilisation, or that comes when the attempt is not unresolved. */
  lemma ReadIsRemembered(cfg: Config, m: Memory, n: Memory, h: History, r: Read)
    requires Remembers(cfg, m, h)
    requires n == m.(stab := n.stab, resolution := n.resolution)
    requires n.stab == m.stab || (m.stab.count > 0 && n.stab.first < 0)
    requires (n.resolution.Unresolved? ==> n.stab.count == 0) && r.kind != Committed
    ensures Remembers(cfg, n, Then(h, JournalRead(r)))
  {
    assert MemoryFacts(cfg, m, h, m.rid);
    assert MemoryFacts(cfg, n, Then(h, JournalRead(r)), n.rid);
  }

  /** A contradiction is recorded together with the read that shows it. */
  lemma ConflictIsRecorded(cfg: Config, c: Core, s: State, m: Memory, h: History, r: Read)
    requires InStep(cfg, c, s, h, Settled) && Remembers(cfg, m, h) && r.rid == c.rid != "" && r.kind != Committed
    ensures var next := Then(h, JournalRead(r));
      && InStep(cfg, c.(resolution := HardConflict), HardBlocked, next, Settled)
      && Remembers(cfg, m.(resolution := HardConflict), next) && KnownIds(next) == KnownIds(h)
  {
    ReadIsLegal(cfg, c, s, h, r);
    ConflictKeepsStep(cfg, c, s, h);
    ReadIsRemembered(cfg, m, m.(resolution := HardConflict), h, r);
    HarmlessKeepsStep(cfg, c.(resolution := HardConflict), HardBlocked, h, JournalRead(r));
  }

  /** COMMITTED is recorded together with the read that says so. */
  lemma CommittedIsRecorded(cfg: Config, c: Core, s: State, m: Memory, n: Memory, h: History, r: Read)
    requires InStep(cfg, c, s, h, Settled) && Remembers(cfg, m.(hasAckItems := true), h) && m.rid == c.rid
    requires IsCommitted(r, c.rid) && c.rid != ""
    requires n == m.(hasAckItems := r.items > 0, resolution := Unresolved, stab := n.stab)
    requires n.stab.count == 0 && (n.stab == m.stab || (m.stab.count > 0 && n.stab.first < 0))
    ensures var next := Then(h, JournalRead(r));
      && InStep(cfg, c.(resolution := Unresolved), AckPending, next, Settled)
      && Remembers(cfg, n, next) && KnownIds(next) == KnownIds(h)
  {
    CommittedIsThere(cfg, m, h);
    ReadIsLegal(cfg, c, s, h, r);
    CommittedKeepsStep(cfg, c, s, m.(hasAckItems := true), h, AckPending);
    CommittedReadIsRemembered(cfg, m, n, h, r);
    HarmlessKeepsStep(cfg, c.(resolution := Unresolved), AckPending, h, JournalRead(r));
  }

  lemma UnresolvedIsImported(cfg: Config, c: Core, s: State, h: History)
    requires InStep(cfg, c, s, h, Settled) && c.rid != "" && c.resolution.Unresolved? && Vouched(h, c.rid)
    ensures c.imported
  {
    assert CoreFacts(cfg, c, h, Settled, c.rid);
  }

  /** A strong NOT_FOUND that starts a run or continues the present one. */
  lemma RunGrows(cfg: Config, m: Memory, h: History, stab: Stabilization, run: Run, r: Read, continues: bool)
    requires Remembers(cfg, m, h) && (Vouched(h, m.rid) ==> m.imported) && m.resolution.Unresolved?
    requires r.rid == m.rid && r.epoch == stab.epoch && r.IsStrongNotFound()
    requires continues ==> m.stab.count > 0 && m.stab.epoch == stab.epoch
    requires run == if continues then More(m.run, r) else More(NoRun, r)
    requires stab.count == if continues then m.stab.count + 1 else 1
    requires stab.first == if continues then m.stab.first else r.mono
    ensures Remembers(cfg, m.(stab := stab, run := run), Then(h, JournalRead(r)))
  {
    assert MemoryFacts(cfg, m, h, m.rid);
    if stab.first >= 0 && Vouched(h, m.rid) {
      assert Length(NoRun) == 0;
      assert Length(run) == Length(run.earlier) + 1;
      assert RunStart(run) == stab.first;
      assert EndsIn(Then(h, JournalRead(r)), run);
    }
    assert MemoryFacts(cfg, m.(stab := stab, run := run), Then(h, JournalRead(r)), m.rid);
  }

  /** Enough strong answers over the whole window prove that the import left nothing behind. */
  lemma ProofKeepsStep(cfg: Config, c: Core, s: State, t: State, m: Memory, h: History, at: int)
    requires InStep(cfg, c, s, h, Settled) && Remembers(cfg, m, h) && m.rid == c.rid && m.resolution.Unresolved?
    requires !m.hasAckItems
    requires m.stab.count >= cfg.notFoundCount && m.stab.first >= 0
    requires at - m.stab.first >= cfg.StabilizationWindowMs()
    requires !t.SupersededLocal? && !t.SupersededRemote? && !t.WaitResponse?
    ensures InStep(cfg, c.(resolution := NoSideEffectProven), t, Then(h, Proved(c.rid, m.run, at)), Settled)
    ensures Remembers(cfg, m.(resolution := NoSideEffectProven), Then(h, Proved(c.rid, m.run, at)))
  {
    var e := Proved(c.rid, m.run, at);
    assert CoreFacts(cfg, c, h, Settled, c.rid);
    assert MemoryFacts(cfg, m, h, m.rid);
    if Vouched(h, m.rid) { RunHasLast(m.run, m.rid, m.stab.epoch); }
    SafeGrows(cfg, h, e);
    assert CoreFacts(cfg, c.(resolution := NoSideEffectProven), Then(h, e), Settled, c.rid);
    assert MemoryFacts(cfg, m.(resolution := NoSideEffectProven), Then(h, e), m.rid);
  }

  lemma RunHasLast(run: Run, rid: string, epoch: u64)
    requires AllStrong(run, rid, epoch) && run.More?
    ensures run.last.epoch == epoch
  {
  }

  // ---- Release and adoption ----

  /** The last journal read is a strong NOT_FOUND for this id. */
  ghost predicate FreshNotFound(h: History, rid: string)
  {
    LastRead(h).Some? && LastRead(h).value.rid == rid && LastRead(h).value.IsStrongNotFound()
  }

  /** A release stores a successor: the one already chosen, or a new id for which the chain has a place. */
  lemma ReleaseKeepsStep(cfg: Config, c: Core, k: Core, s: State, m: Memory, h: History, used: set<string>,
                         others: set<string>)
    requires InStep(cfg, c, s, h, Settled) && c.rid != "" && c.resolution.NoSideEffectProven?
    requires KnownIds(h) <= used && others <= used && KnownIds(h) !! others
    requires Remembers(cfg, m, h) && m.rid == c.rid && FreshNotFound(h, c.rid)
    requires CloudReleases(m.cachedStatus, m.cachedError)
    requires c.successor != "" ==> k == c
    requires c.successor == "" ==>
      TakesSlot(c, k) && k.successor !in used && k.successor != "" && c.budget.chainRequestIdCount < cfg.params.chainIds
    ensures InStep(cfg, k, SupersededRemote, Then(h, ReleaseOf(k, m)), Settled)
    ensures KnownIds(Then(h, ReleaseOf(k, m))) <= used + {k.successor} && KnownIds(Then(h, ReleaseOf(k, m))) !! others
    ensures c.successor != "" ==> c.successor in used
  {
    var e := ReleaseOf(k, m);
    assert CoreFacts(cfg, c, h, Settled, c.rid);
    assert MemoryFacts(cfg, m, h, m.rid);
    SafeGrows(cfg, h, e);
    if c.successor == "" && AdoptedIn(h, k.successor) { AdoptedIsKnown(h, k.successor); }
    if c.successor != "" { SuccessorIsKnown(h, c.rid); }
    assert CoreFacts(cfg, k, Then(h, e), Settled, c.rid);
  }

  function ReleaseOf(k: Core, m: Memory): Event
  {
    Released(k.rid, k.successor, k.resolution, m.cachedStatus, m.cachedError)
  }

  /** k is c with a successor and one more slot of the chain. */
  predicate TakesSlot(c: Core, k: Core)
  {
    && k == c.(successor := k.successor, budget := k.budget)
    && k.budget == c.budget.(chainId := k.budget.chainId, chainStartedAt := k.budget.chainStartedAt,
                             chainDeadlineAt := k.budget.chainDeadlineAt,
                             chainRequestIdCount := c.budget.chainRequestIdCount + 1)
  }

  /** After the release the cached status is consumed. */
  lemma ReleaseIsRemembered(cfg: Config, m: Memory, n: Memory, h: History, k: Core)
    requires Remembers(cfg, m, h) && n == m.(cachedStatus := -1, cachedError := n.cachedError)
    ensures Remembers(cfg, n, Then(h, ReleaseOf(k, m)))
  {
    assert MemoryFacts(cfg, m, h, m.rid);
    assert MemoryFacts(cfg, n, Then(h, ReleaseOf(k, m)), n.rid);
  }

  lemma {:induction false} SuccessorIsKnown(h: History, rid: string)
    requires SuccessorOf(h, rid) != ""
    ensures Known(h, SuccessorOf(h, rid))
  {
    if h.Then? && !(h.event.Released? && h.event.rid == rid) { SuccessorIsKnown(h.before, rid); }
  }

  lemma SpentWithSuccessor(cfg: Config, c: Core, k: Core, barred: string, apart: bool)
    requires Spent(cfg, c, barred, apart) && k.rid == c.rid && k.budget.requestSendCount == c.budget.requestSendCount
    requires k.fpv == c.fpv && k.lease == c.lease
    requires k.successor == c.successor || (k.successor != c.rid && (barred != "" ==> k.successor != barred))
    ensures Spent(cfg, k, barred, apart)
  {
    forall id | id == barred && id != "" ensures SpentFacts(cfg, k, id) {
      assert SpentFacts(cfg, c, id);
    }
  }

  /** A spent id does not come back as a successor. */
  lemma SpentSuccessor(cfg: Config, c: Core, barred: string, apart: bool, next: string)
    requires Spent(cfg, c, barred, apart)
    requires c.successor != "" ==> next == c.successor
    requires c.successor == "" && barred != "" ==> next != barred
    ensures Spent(cfg, NewCore(c, next), barred, apart)
  {
    forall id | id == barred && id != "" ensures SpentFacts(cfg, NewCore(c, next), id) {
      assert SpentFacts(cfg, c, id);
    }
  }

  /** The core of an attempt that was just created. */
  function NewCore(c: Core, next: string): Core
  {
    Core(next, "", NoSideEffectProven, false, c.budget.ResetForNewAttempt(), 0, 1)
  }

  lemma AdoptionKeepsStep(cfg: Config, c: Core, s: State, h: History, used: set<string>, others: set<string>,
                          next: string)
    requires InStep(cfg, c, s, h, Settled) && KnownIds(h) <= used && others <= used && KnownIds(h) !! others
    requires if c.successor == "" then next != "" && next !in used else next == c.successor
    requires if c.rid == "" then c.successor == "" else s.SupersededRemote?
    ensures InStep(cfg, NewCore(c, next), Requesting, Then(h, Adopted(c.rid, next)), Settled)
    ensures next != c.rid && next != "" && LastPayload(Then(h, Adopted(c.rid, next)), next).None?
    ensures LastItems(Then(h, Adopted(c.rid, next)), next) == 0
    ensures KnownIds(Then(h, Adopted(c.rid, next))) <= used + {next} && (c.rid != "" ==> next in used)
    ensures KnownIds(Then(h, Adopted(c.rid, next))) !! others
  {
    var n := Then(h, Adopted(c.rid, next));
    assert CoreFacts(cfg, c, h, Settled, c.rid);
    if c.rid != "" { SuccessorIsKnown(h, c.rid); }
    if AdoptedIn(h, next) { AdoptedIsKnown(h, next); }
    SafeGrows(cfg, h, Adopted(c.rid, next));
    SafeSoFarIsSafe(cfg, h);
    CurrentIsAdopted(cfg, h);
    UnknownIdsAreSilent(cfg, h, next);
    assert CountsOk(NewCore(c, next).budget, n, Settled, next);
    assert CoreFacts(cfg, NewCore(c, next), n, Settled, next);
  }

  lemma NewMemory(cfg: Config, m: Memory, h: History)
    requires LastPayload(h, m.rid).None? && LastItems(h, m.rid) == 0 && m.cachedStatus < 0 && !m.hasAckItems
    requires m.stab == NO_STABILIZATION && !m.imported && !m.resolution.Unresolved?
    ensures Remembers(cfg, m, h)
  {
    assert MemoryFacts(cfg, m, h, m.rid);
  }

  // ---- Import, lease and refresh ----

  lemma ImportIsRecorded(cfg: Config, c: Core, m: Memory, h: History)
    requires InStep(cfg, c, Importing, h, Settled) && Remembers(cfg, m, h) && m.rid == c.rid && !c.imported
    requires !m.imported
    ensures InStep(cfg, c.(imported := true, resolution := Unresolved), Importing, Then(h, ImportRecorded(c.rid)),
        Settled)
    ensures Remembers(cfg, m.(imported := true, resolution := Unresolved), Then(h, ImportRecorded(c.rid)))
  {
    var e := ImportRecorded(c.rid);
    assert CoreFacts(cfg, c, h, Settled, c.rid);
    assert MemoryFacts(cfg, m, h, m.rid);
    SafeGrows(cfg, h, e);
    assert CoreFacts(cfg, c.(imported := true, resolution := Unresolved), Then(h, e), Settled, c.rid);
    assert MemoryFacts(cfg, m.(imported := true, resolution := Unresolved), Then(h, e), m.rid);
  }

  lemma ImportingClaimsNothing(cfg: Config, c: Core, s: State, h: History)
    requires InStep(cfg, c, s, h, Settled)
    ensures InStep(cfg, c, Importing, h, Settled)
  {
  }

  lemma HandingIsLegal(cfg: Config, c: Core, s: State, h: History)
    requires InStep(cfg, c, s, h, Settled) && c.imported && c.rid != ""
    ensures SafeSoFar(cfg, Then(h, HandedToSec(c.rid)))
  {
    assert CoreFacts(cfg, c, h, Settled, c.rid);
    SafeGrows(cfg, h, HandedToSec(c.rid));
  }

  lemma LeaseKeepsStep(cfg: Config, c: Core, h: History, e: int)
    requires InStep(cfg, c, WaitResponse, h, Settled) && c.rid != "" && e > 0
    ensures InStep(cfg, c.(lease := e, budget := c.budget.(ackSafeDeadlineAt := AckSafeDeadline(e, cfg.params))),
                   Importing, Then(h, LeaseTaken(c.rid, e)), Settled)
  {
    var k := c.(lease := e, budget := c.budget.(ackSafeDeadlineAt := AckSafeDeadline(e, cfg.params)));
    assert CoreFacts(cfg, c, h, Settled, c.rid);
    SafeGrows(cfg, h, LeaseTaken(c.rid, e));
    assert CountsOk(k.budget, Then(h, LeaseTaken(c.rid, e)), Settled, c.rid);
    assert CoreFacts(cfg, k, Then(h, LeaseTaken(c.rid, e)), Settled, c.rid);
  }

  lemma FresheningKeepsStep(cfg: Config, c: Core, s: State, h: History, at: int)
    requires InStep(cfg, c, s, h, Settled) && c.budget.FreshenOk()
    ensures InStep(cfg, c.(budget := c.budget.PreconsumeFreshen().PreconsumeRequest(cfg.params, at)), s,
                   Then(h, Freshened(c.rid, at)), Settled)
  {
    var k := c.(budget := c.budget.PreconsumeFreshen().PreconsumeRequest(cfg.params, at));
    assert CoreFacts(cfg, c, h, Settled, c.rid);
    SafeGrows(cfg, h, Freshened(c.rid, at));
    assert CountsOk(k.budget, Then(h, Freshened(c.rid, at)), Settled, c.rid);
    assert CoreFacts(cfg, k, Then(h, Freshened(c.rid, at)), Settled, c.rid);
  }

  lemma RestartKeepsMemory(cfg: Config, m: Memory, h: History, lost: Uncounted)
    requires m.cachedStatus < 0 && !m.hasAckItems && m.stab.first < 0
    ensures Remembers(cfg, m, Then(h, Restarted(lost)))
  {
    assert MemoryFacts(cfg, m, Then(h, Restarted(lost)), m.rid);
  }
}
