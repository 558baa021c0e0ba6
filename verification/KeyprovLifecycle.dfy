/** The pure decision table and the budget ledger (src/keyprov_lifecycle.cpp). */
module KeyprovLifecycle {
  import opened KeyprovBytes

  datatype Params = Params(
    ackGraceMs: u32,
    skewMs: u32,
    importMinMs: u32,
    requestLimit: u32,
    requestWindowMs: u32,
    readonlyLimit: u32,
    readonlyWindowMs: u32,
    ackLimit: u32,
    chainIds: u32,
    chainWindowMs: u32)

  const DEFAULT_PARAMS := Params(30000, 2000, 15000, 8, 120000, 12, 300000, 3, 3, 600000)

  // ---- Wire values of the cloud status and the normalised cloud error ----

  const STATUS_UNSPECIFIED := 0
  const STATUS_REQUESTED := 1
  const STATUS_ISSUED := 2
  const STATUS_ACK_PENDING := 3
  const STATUS_ACTIVE := 4
  const STATUS_FAILED := 5
  const ERROR_CODE_NOT_FOUND := 806099

  datatype ErrorAction = UnspecifiedAction | DoNotRetry

  datatype CloudError = CloudError(code: int, retryable: bool, action: ErrorAction, present: bool)

  const NO_CLOUD_ERROR := CloudError(0, false, UnspecifiedAction, false)

  datatype WireError = WireError(code: string, retryable: bool, action: string)

  function NormalizeError(wire: WireError): CloudError
  {
    if wire.code == "" then NO_CLOUD_ERROR
    else
      CloudError(
        if wire.code == "KEYPROV_PROVISIONING_NOT_FOUND" || wire.code == "806099" then ERROR_CODE_NOT_FOUND else 0,
        wire.retryable,
        if wire.action == "DO_NOT_RETRY" then DoNotRetry else UnspecifiedAction,
        true)
  }

  predicate IsIdempotencyConflict(e: WireError)
  {
    e.action == "KEYPROV_IDEMPOTENCY_CONFLICT" || e.code == "KEYPROV_IDEMPOTENCY_CONFLICT" || e.code == "806095"
  }

  /** The one answer that says the batch never existed: UNSPECIFIED with the exact error tuple. */
  predicate ReleasableUnspecified(status: int, e: CloudError)
  {
    status == STATUS_UNSPECIFIED && e.present && e.code == ERROR_CODE_NOT_FOUND && !e.retryable
        && e.action == DoNotRetry
  }

  /** The cloud has given up the batch, or never had it. */
  predicate CloudReleases(status: int, e: CloudError)
  {
    status == STATUS_FAILED || ReleasableUnspecified(status, e)
  }

  // ---- Time ----

  function AckSafeDeadline(leaseExpiresAt: int, p: Params): int
  {
    leaseExpiresAt + p.ackGraceMs - p.skewMs
  }

  predicate LeaseAcceptable(utcUpper: int, leaseExpiresAt: int, p: Params)
  {
    leaseExpiresAt - utcUpper >= p.importMinMs
  }

  predicate LeaseExpired(utcUpper: int, leaseExpiresAt: int)
  {
    utcUpper >= leaseExpiresAt
  }

  datatype Clock = Clock(utcNow: int, uncertainty: u32, sampleAge: u32, skew: u32, rollback: bool, trusted: bool)
  {
    predicate Healthy()
    {
      !rollback && uncertainty <= 1000 && sampleAge <= 300000 && skew <= 2000
    }

    function UtcUpper(): int
    {
      utcNow + uncertainty
    }
  }

  // ---- The decision table ----

  datatype Action =
    | WaitReady | SendRequest | Import | QueryStatusOrSec | SupersedeCas | Active | Blocked
    | LateResponse | Conflict806095 | FreshenSameId | RestoreOriginalAck | RestoreSuccessor
    | ResponseExpired | LeaseTooShort | Reject | TimeUntrusted | ContractUnknown | ReadOnly | BoundedRetry

  datatype Facts = Facts(
    attemptValid: bool, bindingMatch: bool, terminalized: bool,
    clock: Clock, leaseExpiresAt: int, ackSafeDeadline: int,
    freshenUsed: bool, deliverable: bool, importAlready: bool, idempotencyConflict: bool,
    successorPreexisting: bool, transportRetryableFault: bool, reconciliationPending: bool,
    contractReady: bool, secEpochKnown: bool,
    secCommitted: bool, secNotFoundProven: bool, secUnknownOrError: bool, secContractUnknown: bool,
    noSideEffectProven: bool,
    cloudStatus: int, cloudError: CloudError,
    requestBudgetOk: bool, statusBudgetOk: bool, secQueryBudgetOk: bool, ackBudgetOk: bool, chainOk: bool,
    inflight: bool, responseBindingValid: bool, purposesComplete: bool,
    envelopeFresh: bool, payloadFresh: bool, payloadPresent: bool)

  /** keyprov_lifecycle_decide: the first rule that applies, priorities 0 to 9 and then the defaults. */
  function Decide(f: Facts, p: Params): Action
  {
    var upper := f.clock.UtcUpper();
    if !f.attemptValid || !f.bindingMatch || f.terminalized then LateResponse
    else if f.idempotencyConflict then Conflict806095
    else if !f.clock.Healthy() || !f.clock.trusted then TimeUntrusted
    else if f.secContractUnknown || !f.contractReady then
      if f.cloudStatus >= 0 then ReadOnly else ContractUnknown
    else if f.secUnknownOrError then
      if f.statusBudgetOk && f.secQueryBudgetOk then QueryStatusOrSec else Blocked
    else if f.payloadPresent && (!f.envelopeFresh || !f.payloadFresh) then Reject
    else if f.cloudStatus == STATUS_ACTIVE && f.secCommitted && f.purposesComplete then Active
    else if f.secCommitted && f.cloudStatus == STATUS_FAILED then Blocked
    else if f.secNotFoundProven && f.cloudStatus == STATUS_ACTIVE then Blocked
    else if f.secCommitted && f.cloudStatus == STATUS_ACK_PENDING then
      if f.ackBudgetOk && upper < f.ackSafeDeadline then RestoreOriginalAck else ReadOnly
    else if f.noSideEffectProven && CloudReleases(f.cloudStatus, f.cloudError) then
      if !f.chainOk then Blocked
      else if f.successorPreexisting then RestoreSuccessor
      else SupersedeCas
    else if f.noSideEffectProven && f.cloudStatus == STATUS_UNSPECIFIED then ReadOnly
    else DecideLease(f, p, upper)
  }

  /** Priorities 6 to 9 and the trailing defaults. */
  function DecideLease(f: Facts, p: Params, upper: int): Action
  {
    var expiredOrTooShort :=
      f.payloadPresent
      && (LeaseExpired(upper, f.leaseExpiresAt) || !LeaseAcceptable(upper, f.leaseExpiresAt, p) || !f.payloadFresh);
    if expiredOrTooShort && !f.freshenUsed && f.cloudStatus == STATUS_ACK_PENDING && f.noSideEffectProven
       && f.deliverable && f.requestBudgetOk then FreshenSameId
    else if f.payloadPresent && expiredOrTooShort then
      if f.freshenUsed then ReadOnly
      else if LeaseExpired(upper, f.leaseExpiresAt) then ResponseExpired
      else LeaseTooShort
    else if f.payloadPresent && f.payloadFresh && f.envelopeFresh && f.responseBindingValid && f.contractReady
            && f.secEpochKnown && !f.importAlready && !f.inflight
            && LeaseAcceptable(upper, f.leaseExpiresAt, p) then Import
    else if f.transportRetryableFault && f.requestBudgetOk then BoundedRetry
    else if f.purposesComplete then Active
    else if f.inflight then WaitReady
    else if f.reconciliationPending then
      if f.statusBudgetOk && f.secQueryBudgetOk then QueryStatusOrSec else Blocked
    else if f.requestBudgetOk then SendRequest
    else if f.statusBudgetOk || f.secQueryBudgetOk then ReadOnly
    else Blocked
  }

  /** An attempt may be imported at an earlier instant whenever it may be imported at a later one. */
  lemma ImportTimesDownwardClosed(f: Facts, p: Params, earlier: int)
    requires Decide(f, p) == Import
    requires earlier <= f.clock.utcNow
    ensures Decide(f.(clock := f.clock.(utcNow := earlier)), p) == Import
  {
    var g := f.(clock := f.clock.(utcNow := earlier));
    assert g.clock.UtcUpper() <= f.clock.UtcUpper();
    assert DecideLease(f, p, f.clock.UtcUpper()) == Import;
    assert DecideLease(g, p, g.clock.UtcUpper()) == Import;
    assert g.clock.Healthy() == f.clock.Healthy();
  }

  /** The table imports only a payload whose lease has the full admission margin left, under a trusted clock,
      a known and ready SEC contract, and only once. */
  lemma ImportIsAdmitted(f: Facts, p: Params)
    requires Decide(f, p) == Import
    ensures f.attemptValid && f.bindingMatch && !f.terminalized && !f.idempotencyConflict
    ensures f.clock.Healthy() && f.clock.trusted && f.contractReady && !f.secContractUnknown && !f.secUnknownOrError
    ensures f.payloadPresent && f.envelopeFresh && f.payloadFresh && !f.importAlready && !f.inflight
    ensures f.clock.UtcUpper() + p.importMinMs <= f.leaseExpiresAt && f.clock.UtcUpper() < f.leaseExpiresAt
    ensures !(f.noSideEffectProven && CloudReleases(f.cloudStatus, f.cloudError))
  {
    assert DecideLease(f, p, f.clock.UtcUpper()) == Import;
  }

  // ---- The budget ledger, a plain value that is copied into the stored record and back ----

  datatype Ledger = Ledger(
    requestSendCount: nat, firstRequestAt: int, requestDeadlineAt: int,
    statusSendCount: nat, firstReadonlyAt: int, readonlyDeadlineAt: int,
    secQueryCount: nat,
    ackSendCount: nat, ackSafeDeadlineAt: int,
    expiryFreshenCount: nat,
    chainId: string, chainStartedAt: int, chainDeadlineAt: int, chainRequestIdCount: nat,
    migrationToken: string, migrationConsumed: bool,
    exhaustedReason: string)
  {
    predicate RequestOk(p: Params, now: int)
    {
      requestSendCount < p.requestLimit && !(firstRequestAt > 0 && now - firstRequestAt >= p.requestWindowMs)
    }

    predicate ReadonlyOpen(p: Params, now: int)
    {
      !(firstReadonlyAt > 0 && now - firstReadonlyAt >= p.readonlyWindowMs)
    }

    predicate StatusOk(p: Params, now: int)
    {
      statusSendCount < p.readonlyLimit && ReadonlyOpen(p, now)
    }

    predicate SecQueryOk(p: Params, now: int)
    {
      secQueryCount < p.readonlyLimit && ReadonlyOpen(p, now)
    }

    predicate AckOk(p: Params, now: int)
    {
      ackSendCount < p.ackLimit && !(ackSafeDeadlineAt > 0 && now >= ackSafeDeadlineAt)
    }

    predicate FreshenOk()
    {
      expiryFreshenCount < 1
    }

    predicate ChainOk(p: Params, now: int)
    {
      chainRequestIdCount < p.chainIds && !(chainStartedAt > 0 && now - chainStartedAt >= p.chainWindowMs)
    }

    function PreconsumeRequest(p: Params, now: int): Ledger
    {
      if requestSendCount == 0
      then this.(requestSendCount := 1, firstRequestAt := now, requestDeadlineAt := now + p.requestWindowMs)
      else this.(requestSendCount := requestSendCount + 1)
    }

    function PreconsumeStatus(p: Params, now: int): Ledger
    {
      if statusSendCount == 0
      then this.(statusSendCount := 1, firstReadonlyAt := now, readonlyDeadlineAt := now + p.readonlyWindowMs)
      else this.(statusSendCount := statusSendCount + 1)
    }

    function PreconsumeSecQuery(p: Params, now: int): Ledger
    {
      if secQueryCount == 0
      then this.(secQueryCount := 1, firstReadonlyAt := now, readonlyDeadlineAt := now + p.readonlyWindowMs)
      else this.(secQueryCount := secQueryCount + 1)
    }

    function PreconsumeAck(now: int): Ledger
    {
      this.(ackSafeDeadlineAt := if ackSafeDeadlineAt == 0 then now else ackSafeDeadlineAt,
            ackSendCount := ackSendCount + 1)
    }

    function PreconsumeFreshen(): Ledger
    {
      this.(expiryFreshenCount := expiryFreshenCount + 1)
    }

    function PreconsumeChainId(p: Params, now: int): Ledger
    {
      if chainId == ""
      then this.(chainStartedAt := now, chainDeadlineAt := now + p.chainWindowMs,
                 chainRequestIdCount := chainRequestIdCount + 1)
      else this.(chainRequestIdCount := chainRequestIdCount + 1)
    }

    /** The chain and the migration token survive; everything else belongs to one attempt. */
    function ResetForNewAttempt(): Ledger
    {
      FRESH_LEDGER.(chainId := chainId, chainStartedAt := chainStartedAt, chainDeadlineAt := chainDeadlineAt,
                    chainRequestIdCount := chainRequestIdCount,
                    migrationToken := migrationToken, migrationConsumed := migrationConsumed)
    }
  }

  const FRESH_LEDGER := Ledger(0, 0, 0, 0, 0, 0, 0, 0, 0, 0, "", 0, 0, 0, "", false, "")

  // ---- The read-only window that the two read-only budgets share ----

  /** A second acknowledgement passes the budget exactly if there is one left and the deadline was set before the
      first and is not over. Without a deadline the first acknowledgement makes its own time the deadline, and there
      is no second one. */
  lemma SecondAckExactly(b: Ledger, p: Params, now: int, later: int)
    requires b.AckOk(p, now) && 0 < now <= later
    ensures b.PreconsumeAck(now).AckOk(p, later) <==>
      b.ackSendCount + 1 < p.ackLimit && b.ackSafeDeadlineAt != 0
          && (b.ackSafeDeadlineAt < 0 || later < b.ackSafeDeadlineAt)
    ensures b.ackSafeDeadlineAt == 0 ==> !b.PreconsumeAck(now).AckOk(p, later)
  {
  }

  /** A successor whose slot of the chain was charged may be taken later exactly if it was not the last slot and the
      time of the chain is not over: with the last slot charged, a release that was not followed by its successor is
      refused. */
  lemma ChargedSlotExactly(b: Ledger, p: Params, now: int, later: int)
    requires b.ChainOk(p, now)
    ensures b.PreconsumeChainId(p, now).ChainOk(p, later) <==>
      var start := if b.chainId == "" then now else b.chainStartedAt;
      b.chainRequestIdCount + 1 < p.chainIds && (start > 0 ==> later - start < p.chainWindowMs)
    ensures b.chainRequestIdCount + 1 == p.chainIds ==> !b.PreconsumeChainId(p, now).ChainOk(p, later)
  {
  }

  datatype Grant = Grant(isStatus: bool, at: int)

  function CountGrants(grants: seq<Grant>, status: bool): nat
  {
    if grants == [] then 0
    else CountGrants(grants[..|grants| - 1], status) + if grants[|grants| - 1].isStatus == status then 1 else 0
  }

  /** The history of the guarded read-only grants of one ledger that started fresh. */
  ghost predicate ReadonlyHistory(b: Ledger, p: Params, grants: seq<Grant>)
  {
    && b.statusSendCount == CountGrants(grants, true) <= p.readonlyLimit
    && b.secQueryCount == CountGrants(grants, false) <= p.readonlyLimit
    && (grants == [] ==> b.firstReadonlyAt == 0)
    && (grants != [] ==>
          && 0 < grants[0].at <= b.firstReadonlyAt
          && (b.statusSendCount == 0 || b.secQueryCount == 0 ==> b.firstReadonlyAt == grants[0].at)
          && (b.firstReadonlyAt == grants[0].at || b.firstReadonlyAt - grants[0].at < p.readonlyWindowMs)
          && (var last := grants[|grants| - 1].at;
              b.firstReadonlyAt == last || last - b.firstReadonlyAt < p.readonlyWindowMs))
    && (forall i :: 0 < i < |grants| ==> grants[i].at - grants[0].at < 2 * p.readonlyWindowMs)
    && (forall i, j :: 0 <= i < j < |grants| ==> grants[i].at <= grants[j].at)
  }

  /** The ledger as the object the source updates in place. */
  class BudgetLedger {
    var ledger: Ledger
    ghost var grants: seq<Grant>

    constructor ()
      ensures ledger == FRESH_LEDGER && grants == []
    {
      ledger := FRESH_LEDGER;
      grants := [];
    }

    /** One guarded status request: it is granted, and recorded, exactly when the status budget is open. */
    method GrantStatus(p: Params, now: int) returns (granted: bool)
      requires ReadonlyHistory(ledger, p, grants)
      requires now > 0 && (grants != [] ==> grants[|grants| - 1].at <= now)
      modifies this
      ensures granted == old(ledger.StatusOk(p, now))
      ensures ledger == if granted then old(ledger).PreconsumeStatus(p, now) else old(ledger)
      ensures grants == if granted then old(grants) + [Grant(true, now)] else old(grants)
      ensures ReadonlyHistory(ledger, p, grants)
    {
      granted := ledger.StatusOk(p, now);
      if granted {
        GrantKeepsHistory(ledger, p, grants, Grant(true, now));
        ledger := ledger.PreconsumeStatus(p, now);
        grants := grants + [Grant(true, now)];
      }
    }

    /** One guarded SEC query. */
    method GrantSecQuery(p: Params, now: int) returns (granted: bool)
      requires ReadonlyHistory(ledger, p, grants)
      requires now > 0 && (grants != [] ==> grants[|grants| - 1].at <= now)
      modifies this
      ensures granted == old(ledger.SecQueryOk(p, now))
      ensures ledger == if granted then old(ledger).PreconsumeSecQuery(p, now) else old(ledger)
      ensures grants == if granted then old(grants) + [Grant(false, now)] else old(grants)
      ensures ReadonlyHistory(ledger, p, grants)
    {
      granted := ledger.SecQueryOk(p, now);
      if granted {
        GrantKeepsHistory(ledger, p, grants, Grant(false, now));
        ledger := ledger.PreconsumeSecQuery(p, now);
        grants := grants + [Grant(false, now)];
      }
    }
  }

  function AfterGrant(b: Ledger, p: Params, g: Grant): Ledger
  {
    if g.isStatus then b.PreconsumeStatus(p, g.at) else b.PreconsumeSecQuery(p, g.at)
  }

  predicate GrantAllowed(b: Ledger, p: Params, g: Grant)
  {
    if g.isStatus then b.StatusOk(p, g.at) else b.SecQueryOk(p, g.at)
  }

  lemma GrantKeepsHistory(b: Ledger, p: Params, grants: seq<Grant>, g: Grant)
    requires ReadonlyHistory(b, p, grants) && GrantAllowed(b, p, g)
    requires g.at > 0 && (grants != [] ==> grants[|grants| - 1].at <= g.at)
    ensures ReadonlyHistory(AfterGrant(b, p, g), p, grants + [g])
  {
    var more := grants + [g];
    assert more[..|grants|] == grants;
    if grants != [] {
      assert forall i :: 0 <= i < |grants| ==> more[i] == grants[i] && grants[i].at <= grants[|grants| - 1].at;
      assert grants[0].at <= grants[|grants| - 1].at;
    }
  }

  /** The ledger and the grants that result from a list of guarded attempts on a fresh ledger. */
  function AfterAttempts(p: Params, attempts: seq<Grant>): (Ledger, seq<Grant>)
  {
    if attempts == [] then (FRESH_LEDGER, [])
    else
      var (b, grants) := AfterAttempts(p, attempts[..|attempts| - 1]);
      var g := attempts[|attempts| - 1];
      if GrantAllowed(b, p, g) then (AfterGrant(b, p, g), grants + [g]) else (b, grants)
  }

  ghost predicate TimesNonDecreasing(attempts: seq<Grant>)
  {
    forall i, j :: 0 <= i <= j < |attempts| ==> 0 < attempts[i].at <= attempts[j].at
  }

  /** Whatever the interleaving of the two kinds, each is granted at most readonlyLimit times and no grant
      comes two windows or more after the first: the first grant of either kind starts the shared window. */
  lemma {:induction false} SharedReadonlyWindow(p: Params, attempts: seq<Grant>)
    requires TimesNonDecreasing(attempts)
    ensures ReadonlyHistory(AfterAttempts(p, attempts).0, p, AfterAttempts(p, attempts).1)
    ensures LastGrantIn(AfterAttempts(p, attempts).1, attempts)
  {
    if attempts != [] {
      var shorter, g := attempts[..|attempts| - 1], attempts[|attempts| - 1];
      assert TimesNonDecreasing(shorter);
      SharedReadonlyWindow(p, shorter);
      var (b, grants) := AfterAttempts(p, shorter);
      if GrantAllowed(b, p, g) {
        GrantKeepsHistory(b, p, grants, g);
      }
    }
  }

  /** The last grant is not later than the last attempt. */
  ghost predicate LastGrantIn(grants: seq<Grant>, attempts: seq<Grant>)
  {
    grants != [] ==> attempts != [] && grants[|grants| - 1].at <= attempts[|attempts| - 1].at
  }

  /** The same in numbers: counts, and the distance of every grant from the first. */
  lemma ReadonlyGrantsBounded(p: Params, attempts: seq<Grant>)
    requires TimesNonDecreasing(attempts)
    ensures CountGrants(AfterAttempts(p, attempts).1, true) <= p.readonlyLimit
    ensures CountGrants(AfterAttempts(p, attempts).1, false) <= p.readonlyLimit
    ensures var grants := AfterAttempts(p, attempts).1;
      forall i :: 0 < i < |grants| ==> grants[i].at - grants[0].at < 2 * p.readonlyWindowMs
  {
    SharedReadonlyWindow(p, attempts);
  }

  /** When the next grant may lie a window or more after the first: exactly when the shared start was moved and one of
      the two budgets still has a grant left. */
  lemma OneWindowExactly(b: Ledger, p: Params, grants: seq<Grant>)
    requires ReadonlyHistory(b, p, grants) && grants != []
    ensures (exists g: Grant :: GrantAllowed(b, p, g) && g.at >= grants[|grants| - 1].at
                                && g.at - grants[0].at >= p.readonlyWindowMs)
            <==> grants[0].at < b.firstReadonlyAt
                 && (b.statusSendCount < p.readonlyLimit || b.secQueryCount < p.readonlyLimit)
  {
    if grants[0].at < b.firstReadonlyAt && (b.statusSendCount < p.readonlyLimit || b.secQueryCount < p.readonlyLimit) {
      var last, over := grants[|grants| - 1].at, grants[0].at + p.readonlyWindowMs;
      var g := Grant(b.statusSendCount < p.readonlyLimit, if last < over then over else last);
      assert GrantAllowed(b, p, g);
    }
  }

  /** One window is not enough as a bound: with the default parameters a SEC query is still granted
      599998 ms after the first read-only grant, although the window is 300000 ms. */
  lemma OneWindowIsExceeded()
    ensures AfterAttempts(DEFAULT_PARAMS, [Grant(true, 1), Grant(false, 300000), Grant(false, 599999)]).1
            == [Grant(true, 1), Grant(false, 300000), Grant(false, 599999)]
  {
    var a := [Grant(true, 1), Grant(false, 300000), Grant(false, 599999)];
    assert a[..2] == [Grant(true, 1), Grant(false, 300000)];
    assert a[..2][..1] == [Grant(true, 1)] && a[..2][..1][..0] == [];
    assert AfterAttempts(DEFAULT_PARAMS, a[..2][..1]).1 == [Grant(true, 1)];
    assert AfterAttempts(DEFAULT_PARAMS, a[..2]).1 == [Grant(true, 1), Grant(false, 300000)];
  }
}
