/** The history of everything the coordinator does to the outside world and learns from it, over any number of
    process lifetimes, and the rule each step has to obey with respect to the history before it. */
module KeyprovHistory {
  import opened KeyprovBytes
  import opened KeyprovLifecycle
  import opened KeyprovTypes

  /** The journal reads of a stabilisation run, latest on top. */
  datatype Run = NoRun | More(earlier: Run, last: Read)

  /** A message MQTT took that the stored record does not count yet. */
  datatype Uncounted = Settled | RequestOut | AckOut

  datatype Event =
      // a process starts and loads the stored record; the one before it may have died between a message and the record
      // that counts it
    | Restarted(lost: Uncounted)
      // reconcile_sec_journal_locked read the SEC journal, with whatever answer
    | JournalRead(read: Read)
      // SEC answered COMMITTED for an id
    | CommittedAnswer(rid: string)
      // the intent to import was stored, and then the items were handed to SEC
    | ImportRecorded(rid: string)
    | HandedToSec(rid: string)
      // the cloud reported a status for an id
    | StatusSeen(rid: string, status: int, error: CloudError)
      // an id was stored as having had no side effect
    | Proved(rid: string, run: Run, at: int)
      // the decision to replace an id was stored, with its successor
    | Released(rid: string, successor: string, resolution: Resolution, status: int, error: CloudError)
      // a new attempt was stored; prev is empty for the first one
    | Adopted(prev: string, next: string)
      // a delivery lease was stored
    | LeaseTaken(rid: string, expiresAt: int)
      // the one refresh of an expired lease was charged, as one more Request
    | Freshened(rid: string, at: int)
      // MQTT took a message
    | RequestSent(rid: string, payload: Payload, checkedAt: int, stampedAt: int)
    | AckSent(rid: string, items: seq<AckItem>, at: int)
    | StatusAsked(rid: string)

  /** What the stored record said when the history began, and the ids SEC had been handed before. */
  datatype Origin = Origin(
    rid: string, successor: string, imported: bool, resolution: Resolution,
    requests: nat, firstRequestAt: int, acks: nat, freshens: nat, slots: nat, lease: int, deadline: int,
    handed: set<string>)

  datatype History = Start(origin: Origin) | Then(before: History, event: Event)

  function OriginOf(h: History): Origin
  {
    match h
    case Start(o) => o
    case Then(b, _) => OriginOf(b)
  }

  // ---- What a history says ----

  /** The id of the current attempt. */
  function Current(h: History): string
  {
    match h
    case Start(o) => o.rid
    case Then(b, Adopted(_, next)) => next
    case Then(b, _) => Current(b)
  }

  function Requests(h: History, rid: string): nat
  {
    match h
    case Start(_) => 0
    case Then(b, RequestSent(r, _, _, _)) => Requests(b, rid) + if r == rid then 1 else 0
    case Then(b, _) => Requests(b, rid)
  }

  /** The crashes between a Request of the id and the record that counts it. */
  function LostRequests(h: History, rid: string): nat
  {
    match h
    case Start(_) => 0
    case Then(b, Restarted(RequestOut)) => LostRequests(b, rid) + if Current(b) == rid then 1 else 0
    case Then(b, _) => LostRequests(b, rid)
  }

  function Acks(h: History, rid: string): nat
  {
    match h
    case Start(_) => 0
    case Then(b, AckSent(r, _, _)) => Acks(b, rid) + if r == rid then 1 else 0
    case Then(b, _) => Acks(b, rid)
  }

  /** The crashes between an acknowledgement of the id and the record that counts it. */
  function LostAcks(h: History, rid: string): nat
  {
    match h
    case Start(_) => 0
    case Then(b, Restarted(AckOut)) => LostAcks(b, rid) + if Current(b) == rid then 1 else 0
    case Then(b, _) => LostAcks(b, rid)
  }

  /** The Requests charged to the budget of an id, with those of the record the history began with; a refresh is
      charged as one more. */
  function Charged(h: History, rid: string): nat
  {
    match h
    case Start(o) => if rid == o.rid then o.requests else 0
    case Then(b, RequestSent(r, _, _, _)) => Charged(b, rid) + if r == rid then 1 else 0
    case Then(b, Freshened(r, _)) => Charged(b, rid) + if r == rid then 1 else 0
    case Then(b, _) => Charged(b, rid)
  }

  /** The time stamp of the first charge. */
  function WindowStart(h: History, rid: string): int
  {
    match h
    case Start(o) => if rid == o.rid then o.firstRequestAt else 0
    case Then(b, RequestSent(r, _, _, at)) => if r == rid && Charged(b, rid) == 0 then at else WindowStart(b, rid)
    case Then(b, Freshened(r, at)) => if r == rid && Charged(b, rid) == 0 then at else WindowStart(b, rid)
    case Then(b, _) => WindowStart(b, rid)
  }

  /** The acknowledgements of an id, with those of the record the history began with. */
  function AcksCharged(h: History, rid: string): nat
  {
    match h
    case Start(o) => if rid == o.rid then o.acks else 0
    case Then(b, AckSent(r, _, _)) => AcksCharged(b, rid) + if r == rid then 1 else 0
    case Then(b, _) => AcksCharged(b, rid)
  }

  /** The payload of the last Request of an id in the present process. */
  function LastPayload(h: History, rid: string): Option<Payload>
  {
    match h
    case Start(_) => None
    case Then(b, Restarted(_)) => None
    case Then(b, RequestSent(r, p, _, _)) => if r == rid then Some(p) else LastPayload(b, rid)
    case Then(b, _) => LastPayload(b, rid)
  }

  /** The last journal read of the present process. */
  function LastRead(h: History): Option<Read>
  {
    match h
    case Start(_) => None
    case Then(b, Restarted(_)) => None
    case Then(b, JournalRead(r)) => Some(r)
    case Then(b, _) => LastRead(b)
  }

  /** How many items the last COMMITTED read of the present process brought for an id. */
  function LastItems(h: History, rid: string): nat
  {
    match h
    case Start(_) => 0
    case Then(b, Restarted(_)) => 0
    case Then(b, JournalRead(r)) => if IsCommitted(r, rid) then r.items else LastItems(b, rid)
    case Then(b, _) => LastItems(b, rid)
  }

  predicate ImportedIn(h: History, rid: string)
  {
    match h
    case Start(o) => rid == o.rid && o.imported
    case Then(b, ImportRecorded(r)) => r == rid || ImportedIn(b, rid)
    case Then(b, _) => ImportedIn(b, rid)
  }

  /** The ids whose items were handed to SEC, before the history or in it. */
  function HandedIds(h: History): set<string>
  {
    match h
    case Start(o) => o.handed
    case Then(b, HandedToSec(r)) => HandedIds(b) + {r}
    case Then(b, _) => HandedIds(b)
  }

  predicate HandedIn(h: History, rid: string)
  {
    rid in HandedIds(h)
  }

  predicate CommittedIn(h: History, rid: string)
  {
    match h
    case Start(_) => false
    case Then(b, CommittedAnswer(r)) => r == rid || CommittedIn(b, rid)
    case Then(b, _) => CommittedIn(b, rid)
  }

  predicate StatusSeenIn(h: History, rid: string, status: int, error: CloudError)
  {
    match h
    case Start(_) => false
    case Then(b, StatusSeen(r, s, e)) => (r == rid && s == status && e == error) || StatusSeenIn(b, rid, status, error)
    case Then(b, _) => StatusSeenIn(b, rid, status, error)
  }

  predicate FreshenedIn(h: History, rid: string)
  {
    match h
    case Start(o) => rid == o.rid && o.freshens > 0
    case Then(b, Freshened(r, _)) => r == rid || FreshenedIn(b, rid)
    case Then(b, _) => FreshenedIn(b, rid)
  }

  /** No import was recorded for the id, or a stabilisation was completed after the recording; of what was before the
      history, the record says so. */
  predicate Cleared(h: History, rid: string)
  {
    match h
    case Start(o) => rid == o.rid && o.imported ==> o.resolution.NoSideEffectProven?
    case Then(b, ImportRecorded(r)) => r != rid && Cleared(b, rid)
    case Then(b, Proved(r, _, _)) => r == rid || Cleared(b, rid)
    case Then(b, _) => Cleared(b, rid)
  }

  /** The successor chosen for an id, or the empty id. */
  function SuccessorOf(h: History, rid: string): string
  {
    match h
    case Start(o) => if rid == o.rid && rid != "" then o.successor else ""
    case Then(b, Released(r, s, _, _, _)) => if r == rid then s else SuccessorOf(b, rid)
    case Then(b, _) => SuccessorOf(b, rid)
  }

  /** The slots of the chain that are charged: the first release of each id generates a successor, which costs one. */
  function Slots(h: History): nat
  {
    match h
    case Start(o) => o.slots
    case Then(b, Released(r, _, _, _, _)) => Slots(b) + if SuccessorOf(b, r) == "" then 1 else 0
    case Then(b, _) => Slots(b)
  }

  /** Nothing was sent or imported under the id since it was released last. */
  predicate QuietSinceRelease(h: History, rid: string)
  {
    match h
    case Start(_) => false
    case Then(b, Released(r, _, _, _, _)) => r == rid || QuietSinceRelease(b, rid)
    case Then(b, RequestSent(r, _, _, _)) => r != rid && QuietSinceRelease(b, rid)
    case Then(b, AckSent(r, _, _)) => r != rid && QuietSinceRelease(b, rid)
    case Then(b, StatusAsked(r)) => r != rid && QuietSinceRelease(b, rid)
    case Then(b, ImportRecorded(r)) => r != rid && QuietSinceRelease(b, rid)
    case Then(b, HandedToSec(r)) => r != rid && QuietSinceRelease(b, rid)
    case Then(b, _) => QuietSinceRelease(b, rid)
  }

  /** The lease stored last for an id; 0 when there is none. */
  function LeaseOf(h: History, rid: string): int
  {
    match h
    case Start(o) => if rid == o.rid then o.lease else 0
    case Then(b, LeaseTaken(r, e)) => if r == rid then e else LeaseOf(b, rid)
    case Then(b, _) => LeaseOf(b, rid)
  }

  /** The ACK deadline D that belongs to the lease of an id; of the record the history began with, what it says. */
  function DeadlineOf(cfg: Config, h: History, rid: string): int
  {
    match h
    case Start(o) => if rid == o.rid then o.deadline else 0
    case Then(b, LeaseTaken(r, e)) => if r == rid then AckSafeDeadline(e, cfg.params) else DeadlineOf(cfg, b, rid)
    case Then(b, _) => DeadlineOf(cfg, b, rid)
  }

  /** The ids that were current at some time, were chosen as a successor, or were handed to SEC before. */
  function KnownIds(h: History): set<string>
  {
    match h
    case Start(o) => {o.rid, o.successor} + o.handed - {""}
    case Then(b, Adopted(_, next)) => KnownIds(b) + {next}
    case Then(b, Released(_, s, _, _, _)) => KnownIds(b) + {s}
    case Then(b, _) => KnownIds(b)
  }

  predicate Known(h: History, rid: string)
  {
    rid in KnownIds(h)
  }

  predicate AdoptedIn(h: History, rid: string)
  {
    match h
    case Start(o) => rid == o.rid && rid != ""
    case Then(b, Adopted(_, next)) => next == rid || AdoptedIn(b, rid)
    case Then(b, _) => AdoptedIn(b, rid)
  }

  // ---- Stabilisation runs ----

  function Length(run: Run): nat
  {
    match run
    case NoRun => 0
    case More(e, _) => Length(e) + 1
  }

  /** Every read of the run is a strong NOT_FOUND for the id under the epoch. */
  predicate AllStrong(run: Run, rid: string, epoch: u64)
  {
    match run
    case NoRun => true
    case More(e, r) => AllStrong(e, rid, epoch) && r.rid == rid && r.epoch == epoch && r.IsStrongNotFound()
  }

  function RunStart(run: Run): int
  {
    match run
    case NoRun => 0
    case More(NoRun, r) => r.mono
    case More(e, _) => RunStart(e)
  }

  /** A COMMITTED read for an id; the stabilisation neither counts it nor ends with it. */
  predicate IsCommitted(r: Read, rid: string)
  {
    r.kind == Committed && r.rid == rid
  }

  /** The journal reads of the present process end in this run, COMMITTED reads for its id left aside. */
  predicate EndsIn(h: History, run: Run)
  {
    match run
    case NoRun => true
    case More(e, r) =>
      match h
      case Start(_) => false
      case Then(b, Restarted(_)) => false
      case Then(b, JournalRead(x)) => if IsCommitted(x, r.rid) then EndsIn(b, run) else x == r && EndsIn(b, e)
      case Then(b, _) => EndsIn(b, run)
  }

  // ---- What the record of the beginning is good for ----

  /** The stabilisation of an id can be relied on: the record of the beginning did not leave open whether an import had
      taken place, and SEC was not handed the id without a record of it. */
  predicate Vouched(h: History, rid: string)
  {
    var o := OriginOf(h);
    if rid == o.rid then o.imported || (!o.resolution.Unresolved? && rid !in o.handed) else rid !in o.handed
  }

  /** The record of the beginning says that an import of the id was recorded and then proven to have had no effect. */
  predicate ProvenBefore(h: History, rid: string)
  {
    var o := OriginOf(h);
    rid == o.rid && o.imported && o.resolution.NoSideEffectProven?
  }

  // ---- The rule of each step ----

  /** What has to hold of the history before an event for the event to be in order. */
  ghost predicate Legal(cfg: Config, h: History, e: Event)
  {
    match e
    case Restarted(lost) =>
      && (lost.RequestOut? ==> h.Then? && h.event.RequestSent? && h.event.rid == Current(h))
      && (lost.AckOut? ==> h.Then? && h.event.AckSent? && h.event.rid == Current(h))
    case JournalRead(r) => r.rid == Current(h) && r.rid != "" && (r.kind == Committed ==> CommittedIn(h, r.rid))
    case CommittedAnswer(rid) => HandedIn(h, rid)
    case ImportRecorded(rid) => rid == Current(h) && !ImportedIn(h, rid)
    case HandedToSec(rid) => rid == Current(h) && rid != "" && ImportedIn(h, rid)
    case StatusSeen(rid, _, _) => rid == Current(h) && rid != ""
    case Proved(rid, run, at) =>
      && rid == Current(h) && (cfg.purposes != [] ==> LastItems(h, rid) == 0)
      && (Vouched(h, rid) ==>
            && Length(run) >= cfg.notFoundCount && run.More?
            && AllStrong(run, rid, run.last.epoch)
            && EndsIn(h, run)
            && at - RunStart(run) >= cfg.StabilizationWindowMs())
    case Released(rid, successor, resolution, status, error) =>
      && rid == Current(h) && rid != "" && successor != ""
      && LastRead(h).Some? && LastRead(h).value.rid == rid && LastRead(h).value.IsStrongNotFound()
      && resolution == NoSideEffectProven
      && Cleared(h, rid)
      && CloudReleases(status, error) && StatusSeenIn(h, rid, status, error)
      && (SuccessorOf(h, rid) == successor
          || (SuccessorOf(h, rid) == "" && !Known(h, successor) && Slots(h) < cfg.params.chainIds))
    case Adopted(prev, next) =>
      && prev == Current(h) && next != "" && !AdoptedIn(h, next)
      && (if prev == "" then !Known(h, next) else SuccessorOf(h, prev) == next && QuietSinceRelease(h, prev))
    case LeaseTaken(rid, _) => rid == Current(h) && rid != ""
    case Freshened(rid, _) => rid == Current(h) && !FreshenedIn(h, rid)
    case RequestSent(rid, payload, checkedAt, _) =>
      && rid == Current(h) && rid != ""
      && Charged(h, rid) < cfg.params.requestLimit + LostRequests(h, rid)
      && (Charged(h, rid) > 0 && LostRequests(h, rid) == 0 && WindowStart(h, rid) > 0 ==>
            checkedAt - WindowStart(h, rid) < cfg.params.requestWindowMs)
      && (LastPayload(h, rid).Some? ==> LastPayload(h, rid).value == payload)
    case AckSent(rid, items, at) =>
      && rid == Current(h) && rid != ""
      && CommittedIn(h, rid)
      && (forall i :: 0 <= i < |items| ==> ExactAttestation(items[i]))
      && AcksCharged(h, rid) < cfg.params.ackLimit + LostAcks(h, rid)
      && (DeadlineOf(cfg, h, rid) > 0 ==> at < DeadlineOf(cfg, h, rid))
    case StatusAsked(rid) => rid == Current(h) && rid != ""
  }

  /** Every event obeyed its rule when it happened. */
  ghost predicate Safe(cfg: Config, h: History)
  {
    match h
    case Start(_) => true
    case Then(b, e) => Safe(cfg, b) && Legal(cfg, b, e)
  }

  // ---- Positions in a history ----

  /** p is an earlier stage of h, or h itself. */
  predicate StageOf(p: History, h: History)
  {
    p == h || (h.Then? && StageOf(p, h.before))
  }

  lemma {:induction false} StageIsSafe(cfg: Config, p: History, h: History)
    requires StageOf(p, h) && Safe(cfg, h)
    ensures Safe(cfg, p)
  {
    if p != h { StageIsSafe(cfg, p, h.before); }
  }

  lemma {:induction false} StageHasOrigin(p: History, h: History)
    requires StageOf(p, h)
    ensures OriginOf(p) == OriginOf(h)
  {
    if p != h { StageHasOrigin(p, h.before); }
  }

  /** Every event anywhere in a safe history obeyed its rule with respect to the stage before it. */
  lemma EveryEventLegal(cfg: Config, p: History, h: History)
    requires StageOf(p, h) && Safe(cfg, h) && p.Then?
    ensures Legal(cfg, p.before, p.event)
  {
    StageIsSafe(cfg, p, h);
  }

  // ---- Bounds ----

  /** The restarts that come directly after a Request of the id. */
  function CrashesAfterRequest(h: History, rid: string): nat
  {
    match h
    case Start(_) => 0
    case Then(b, Restarted(_)) =>
      CrashesAfterRequest(b, rid) + if b.Then? && b.event.RequestSent? && b.event.rid == rid then 1 else 0
    case Then(b, _) => CrashesAfterRequest(b, rid)
  }

  /** The restarts that come directly after an acknowledgement of the id. */
  function CrashesAfterAck(h: History, rid: string): nat
  {
    match h
    case Start(_) => 0
    case Then(b, Restarted(_)) =>
      CrashesAfterAck(b, rid) + if b.Then? && b.event.AckSent? && b.event.rid == rid then 1 else 0
    case Then(b, _) => CrashesAfterAck(b, rid)
  }

  function Restarts(h: History): nat
  {
    match h
    case Start(_) => 0
    case Then(b, Restarted(_)) => Restarts(b) + 1
    case Then(b, _) => Restarts(b)
  }

  /** Nothing is lost but by a crash directly after a message. */
  lemma {:induction false} LossesAreCrashes(cfg: Config, h: History, rid: string)
    requires Safe(cfg, h)
    ensures LostRequests(h, rid) <= CrashesAfterRequest(h, rid)
    ensures LostAcks(h, rid) <= CrashesAfterAck(h, rid)
    ensures CrashesAfterRequest(h, rid) + CrashesAfterAck(h, rid) <= Restarts(h)
  {
    if h.Then? { LossesAreCrashes(cfg, h.before, rid); }
  }

  /** Requests of one id: at most the limit, plus one for each crash directly after one, before it is counted; what the
      record of the beginning counted goes off the limit. */
  lemma {:induction false} RequestsBounded(cfg: Config, h: History, rid: string)
    requires Safe(cfg, h)
    ensures Requests(h, rid) <= cfg.params.requestLimit + LostRequests(h, rid)
    ensures Requests(h, rid) > 0 && rid == OriginOf(h).rid ==>
      OriginOf(h).requests + Requests(h, rid) <= cfg.params.requestLimit + LostRequests(h, rid)
    ensures LostRequests(h, rid) <= Requests(h, rid)
    ensures (if rid == OriginOf(h).rid then OriginOf(h).requests else 0) + Requests(h, rid) <= Charged(h, rid)
  {
    hide Vouched, EndsIn, AllStrong, RunStart, Length, DeadlineOf, LastPayload, LastRead, StatusSeenIn, Cleared;
    hide LastItems, QuietSinceRelease, KnownIds, HandedIds, ImportedIn, FreshenedIn, CommittedIn, SuccessorOf, Slots;
    hide AdoptedIn;
    if h.Then? {
      RequestsBounded(cfg, h.before, rid);
      if h.event.Restarted? && h.event.lost.RequestOut? { RequestsBounded(cfg, h.before.before, rid); }
    }
  }

  /** The same for acknowledgements. */
  lemma {:induction false} AcksBounded(cfg: Config, h: History, rid: string)
    requires Safe(cfg, h)
    ensures Acks(h, rid) <= cfg.params.ackLimit + LostAcks(h, rid)
    ensures Acks(h, rid) > 0 && rid == OriginOf(h).rid ==>
      OriginOf(h).acks + Acks(h, rid) <= cfg.params.ackLimit + LostAcks(h, rid)
    ensures LostAcks(h, rid) <= Acks(h, rid)
    ensures AcksCharged(h, rid) == (if rid == OriginOf(h).rid then OriginOf(h).acks else 0) + Acks(h, rid)
  {
    hide Vouched, EndsIn, AllStrong, RunStart, Length, DeadlineOf, LastPayload, LastRead, StatusSeenIn, Cleared;
    hide LastItems, QuietSinceRelease, KnownIds, HandedIds, ImportedIn, FreshenedIn, CommittedIn, SuccessorOf, Slots;
    hide AdoptedIn;
    if h.Then? {
      AcksBounded(cfg, h.before, rid);
      if h.event.Restarted? && h.event.lost.AckOut? { AcksBounded(cfg, h.before.before, rid); }
    }
  }

  /** Without a crash directly after a Request of the id the limit holds, and the same for acknowledgements. */
  lemma LimitHoldsWithoutCrash(cfg: Config, h: History, rid: string)
    requires Safe(cfg, h)
    ensures CrashesAfterRequest(h, rid) == 0 ==> Requests(h, rid) <= cfg.params.requestLimit
    ensures CrashesAfterAck(h, rid) == 0 ==> Acks(h, rid) <= cfg.params.ackLimit
    ensures Requests(h, rid) <= cfg.params.requestLimit + CrashesAfterRequest(h, rid)
    ensures Acks(h, rid) <= cfg.params.ackLimit + CrashesAfterAck(h, rid)
  {
    RequestsBounded(cfg, h, rid);
    AcksBounded(cfg, h, rid);
    LossesAreCrashes(cfg, h, rid);
  }

  /** The refreshes of an id; of the record of the beginning it counts whether there was one. */
  function Freshenings(h: History, rid: string): nat
  {
    match h
    case Start(o) => if rid == o.rid && o.freshens > 0 then 1 else 0
    case Then(b, Freshened(r, _)) => Freshenings(b, rid) + if r == rid then 1 else 0
    case Then(b, _) => Freshenings(b, rid)
  }

  lemma {:induction false} FreshenedOnce(cfg: Config, h: History, rid: string)
    requires Safe(cfg, h)
    ensures Freshenings(h, rid) <= 1
    ensures Freshenings(h, rid) == 1 <==> FreshenedIn(h, rid)
  {
    if h.Then? { FreshenedOnce(cfg, h.before, rid); }
  }

  function TotalRequests(h: History): nat
  {
    match h
    case Start(_) => 0
    case Then(b, RequestSent(_, _, _, _)) => TotalRequests(b) + 1
    case Then(b, _) => TotalRequests(b)
  }

  /** The crashes between any Request and the record that counts it. */
  function TotalLost(h: History): nat
  {
    match h
    case Start(_) => 0
    case Then(b, Restarted(RequestOut)) => TotalLost(b) + 1
    case Then(b, _) => TotalLost(b)
  }

  /** The restarts that come directly after a Request. */
  function TotalCrashes(h: History): nat
  {
    match h
    case Start(_) => 0
    case Then(b, Restarted(_)) => TotalCrashes(b) + if b.Then? && b.event.RequestSent? then 1 else 0
    case Then(b, _) => TotalCrashes(b)
  }

  lemma {:induction false} TotalLossesAreCrashes(cfg: Config, h: History)
    requires Safe(cfg, h)
    ensures TotalLost(h) <= TotalCrashes(h) <= Restarts(h)
  {
    if h.Then? { TotalLossesAreCrashes(cfg, h.before); }
  }

  /** The number of ids that ever became current. */
  function Attempts(h: History): nat
  {
    match h
    case Start(o) => if o.rid == "" then 0 else 1
    case Then(b, Adopted(_, _)) => Attempts(b) + 1
    case Then(b, _) => Attempts(b)
  }

  /** Ids never heard of have sent nothing, and only adopted ids are current. */
  lemma {:induction false} UnknownIdsAreSilent(cfg: Config, h: History, rid: string)
    requires Safe(cfg, h) && !AdoptedIn(h, rid) && rid != ""
    ensures Requests(h, rid) == 0 && LostRequests(h, rid) == 0 && Acks(h, rid) == 0 && LostAcks(h, rid) == 0
    ensures Charged(h, rid) == 0 && AcksCharged(h, rid) == 0
    ensures Current(h) != rid && !ImportedIn(h, rid) && !FreshenedIn(h, rid) && LeaseOf(h, rid) == 0
    ensures DeadlineOf(cfg, h, rid) == 0 && LastPayload(h, rid) == None && SuccessorOf(h, rid) == "" && Cleared(h, rid)
    ensures LastItems(h, rid) == 0
    ensures CommittedIn(h, rid) ==> HandedIn(h, rid)
    ensures HandedIn(h, rid) ==> rid in OriginOf(h).handed
  {
    if h.Then? { UnknownIdsAreSilent(cfg, h.before, rid); }
  }

  lemma {:induction false} CurrentIsAdopted(cfg: Config, h: History)
    requires Safe(cfg, h)
    ensures Current(h) != "" ==> AdoptedIn(h, Current(h))
    ensures Current(h) == "" ==> Slots(h) == OriginOf(h).slots
    ensures Attempts(h) == 0 <==> Current(h) == ""
  {
    if h.Then? { CurrentIsAdopted(cfg, h.before); }
  }

  /** A successor the record of the beginning had chosen already. */
  function Pending(o: Origin): nat
  {
    if o.rid != "" && o.successor != "" then 1 else 0
  }

  /** Each adopted successor used one slot of the chain, or was chosen before; at most one waits to be adopted. */
  lemma {:induction false} AttemptsUseSlots(cfg: Config, h: History)
    requires Safe(cfg, h)
    ensures OriginOf(h).slots <= Slots(h)
    ensures Slots(h) <= cfg.params.chainIds || Slots(h) == OriginOf(h).slots
    ensures Current(h) == "" ==> Attempts(h) == 0 && Slots(h) == OriginOf(h).slots && OriginOf(h).rid == ""
    ensures Current(h) != "" ==>
      Attempts(h) == 1 + Slots(h) - OriginOf(h).slots + Pending(OriginOf(h))
                     - (if SuccessorOf(h, Current(h)) == "" then 0 else 1)
  {
    hide Charged, WindowStart, AcksCharged, Requests, LostRequests, Acks, LostAcks, EndsIn, AllStrong, RunStart, Length;
    hide DeadlineOf, CommittedIn, HandedIds, ImportedIn, FreshenedIn, LastPayload, LastRead, StatusSeenIn, Cleared;
    hide Vouched;
    if h.Then? {
      AttemptsUseSlots(cfg, h.before);
      match h.event
      case Adopted(prev, next) =>
        UnknownIdsAreSilent(cfg, h.before, next);
      case _ =>
    }
  }

  /** At most one id more than the chain allows is ever current, and one more if the record of the beginning had a
      successor without a slot. */
  lemma AttemptsBounded(cfg: Config, h: History)
    requires Safe(cfg, h)
    ensures Attempts(h) <= 1 + cfg.params.chainIds + Pending(OriginOf(h))
    ensures Pending(OriginOf(h)) <= OriginOf(h).slots <= cfg.params.chainIds ==> Attempts(h) <= 1 + cfg.params.chainIds
  {
    AttemptsUseSlots(cfg, h);
  }

  lemma TimesOneMore(limit: nat, n: nat)
    ensures limit * n + limit == limit * (n + 1)
  {
  }

  lemma TimesMonotone(limit: nat, n: nat, m: nat)
    requires n <= m
    ensures limit * n <= limit * m
  {
    assert limit * m == limit * n + limit * (m - n);
  }

  lemma {:induction false} TotalsSplit(cfg: Config, h: History)
    requires Safe(cfg, h)
    ensures Attempts(h) == 0 ==> TotalRequests(h) == 0
    ensures Attempts(h) > 0 ==>
      TotalRequests(h) + LostRequests(h, Current(h)) <=
        cfg.params.requestLimit * (Attempts(h) - 1) + TotalLost(h) + Requests(h, Current(h))
  {
    hide WindowStart, AcksCharged, Acks, LostAcks, EndsIn, AllStrong, RunStart, Length, DeadlineOf, CommittedIn;
    hide HandedIds, ImportedIn, FreshenedIn, LastPayload, LastRead, StatusSeenIn, Cleared, Vouched, QuietSinceRelease;
    hide LastItems, KnownIds, SuccessorOf, Slots, Charged, OriginOf;
    if h.Then? {
      var b := h.before;
      TotalsSplit(cfg, b);
      CurrentIsAdopted(cfg, b);
      RequestsBounded(cfg, b, Current(b));
      match h.event
      case Adopted(prev, next) =>
        UnknownIdsAreSilent(cfg, b, next);
        if Attempts(b) > 0 { TimesOneMore(cfg.params.requestLimit, Attempts(b) - 1); }
      case _ =>
    }
  }

  /** All Requests of all ids over all process lifetimes: so many for each id, and one for each crash directly after a
      Request, before it is counted. */
  lemma TotalRequestsBounded(cfg: Config, h: History)
    requires Safe(cfg, h)
    ensures TotalRequests(h) <= cfg.params.requestLimit * Attempts(h) + TotalLost(h)
    ensures var ids := 1 + cfg.params.chainIds + Pending(OriginOf(h));
      TotalRequests(h) <= cfg.params.requestLimit * ids + TotalLost(h)
    ensures TotalLost(h) <= TotalCrashes(h) <= Restarts(h)
  {
    TotalLossesAreCrashes(cfg, h);
    TotalsSplit(cfg, h);
    AttemptsBounded(cfg, h);
    RequestsBounded(cfg, h, Current(h));
    if Attempts(h) > 0 { TimesOneMore(cfg.params.requestLimit, Attempts(h) - 1); }
    TimesMonotone(cfg.params.requestLimit, Attempts(h), 1 + cfg.params.chainIds + Pending(OriginOf(h)));
  }

  // ---- The send window ----

  lemma {:induction false} WindowStartStays(cfg: Config, p: History, h: History, rid: string)
    requires Safe(cfg, h) && StageOf(p, h) && Charged(p, rid) > 0
    ensures WindowStart(h, rid) == WindowStart(p, rid) && Charged(h, rid) >= Charged(p, rid)
  {
    if p != h { WindowStartStays(cfg, p, h.before, rid); }
  }

  /** The budget check of a Request comes less than one window after the first charge of its id, if no Request of the id
      was lost: after its first Request, or after its refresh if that came first. The message itself carries a later
      reading of the clock. */
  lemma RequestsInsideWindow(cfg: Config, first: History, later: History, rid: string)
    requires Safe(cfg, later) && StageOf(first, later) && first != later
    requires first.Then? && Charged(first.before, rid) == 0 && Charged(first, rid) > 0
    requires later.event.RequestSent? && later.event.rid == rid
    requires LostRequests(later.before, rid) == 0 && WindowStart(first, rid) > 0
    ensures first.event.RequestSent? || first.event.Freshened?
    ensures WindowStart(first, rid) == if first.event.RequestSent? then first.event.stampedAt else first.event.at
    ensures later.event.checkedAt - WindowStart(first, rid) < cfg.params.requestWindowMs
  {
    WindowStartStays(cfg, first, later.before, rid);
  }

  // ---- One successor, and silence afterwards ----

  function StatusesAsked(h: History, rid: string): nat
  {
    match h
    case Start(_) => 0
    case Then(b, StatusAsked(r)) => StatusesAsked(b, rid) + if r == rid then 1 else 0
    case Then(b, _) => StatusesAsked(b, rid)
  }

  lemma {:induction false} NeverCurrentAgain(cfg: Config, p: History, h: History, rid: string)
    requires Safe(cfg, h) && StageOf(p, h) && AdoptedIn(p, rid) && Current(p) != rid
    ensures AdoptedIn(h, rid) && Current(h) != rid
    ensures Requests(h, rid) == Requests(p, rid) && Acks(h, rid) == Acks(p, rid)
    ensures StatusesAsked(h, rid) == StatusesAsked(p, rid)
    ensures HandedIn(h, rid) == HandedIn(p, rid)
  {
    if p != h { NeverCurrentAgain(cfg, p, h.before, rid); }
  }

  /** Once a successor is adopted, nothing is sent under the old id any more: no Request, no acknowledgement,
      no status request, and no import. */
  lemma ReplacedIdIsSilent(cfg: Config, p: History, h: History)
    requires Safe(cfg, h) && StageOf(p, h) && p.Then? && p.event.Adopted? && p.event.prev != ""
    ensures Current(h) != p.event.prev
    ensures Requests(h, p.event.prev) == Requests(p, p.event.prev)
    ensures Acks(h, p.event.prev) == Acks(p, p.event.prev)
    ensures StatusesAsked(h, p.event.prev) == StatusesAsked(p, p.event.prev)
    ensures HandedIn(h, p.event.prev) == HandedIn(p, p.event.prev)
  {
    StageIsSafe(cfg, p, h);
    CurrentIsAdopted(cfg, p.before);
    NeverCurrentAgain(cfg, p, h, p.event.prev);
  }

  lemma {:induction false} SuccessorStays(cfg: Config, p: History, h: History, rid: string)
    requires Safe(cfg, h) && StageOf(p, h) && SuccessorOf(p, rid) != ""
    ensures SuccessorOf(h, rid) == SuccessorOf(p, rid)
  {
    if p != h { SuccessorStays(cfg, p, h.before, rid); }
  }

  /** All releases of an id, in whatever process, name one successor, and only that successor is ever adopted for it. */
  lemma SuccessorIsUnique(cfg: Config, p: History, q: History, h: History)
    requires Safe(cfg, h) && StageOf(p, q) && StageOf(q, h)
    requires p.Then? && p.event.Released? && q.Then?
    ensures q.event.Released? && q.event.rid == p.event.rid ==> q.event.successor == p.event.successor
    ensures q.event.Adopted? && q.event.prev == p.event.rid ==> q.event.next == p.event.successor
  {
    StageIsSafe(cfg, q, h);
    StageIsSafe(cfg, p, q);
    SuccessorStays(cfg, p, q, p.event.rid);
    if p != q { SuccessorStays(cfg, p, q.before, p.event.rid); }
  }

  /** An id is replaced at most once. */
  lemma ReplacedOnce(cfg: Config, p: History, q: History, h: History)
    requires Safe(cfg, h) && StageOf(p, q) && StageOf(q, h)
    requires p.Then? && p.event.Adopted? && q.Then? && q.event.Adopted?
    requires p.event.prev == q.event.prev && p.event.prev != ""
    ensures p == q
  {
    if p != q {
      StageIsSafe(cfg, q, h);
      ReplacedIdIsSilent(cfg, p, q.before);
    }
  }

  // ---- Why an id was replaced ----

  /** The stage of the latest release of an id that has been quiet since. */
  function ReleaseStage(h: History, rid: string): (p: History)
    requires QuietSinceRelease(h, rid)
    ensures StageOf(p, h) && p.Then? && p.event.Released? && p.event.rid == rid
    ensures Requests(p, rid) == Requests(h, rid) && Acks(p, rid) == Acks(h, rid)
    ensures StatusesAsked(p, rid) == StatusesAsked(h, rid)
    ensures HandedIn(p, rid) == HandedIn(h, rid) && ImportedIn(p, rid) == ImportedIn(h, rid)
    ensures SuccessorOf(p, rid) == SuccessorOf(h, rid)
  {
    if h.event.Released? && h.event.rid == rid then h else ReleaseStage(h.before, rid)
  }

  /** The stage of the latest completed stabilisation of an id whose import was recorded and then cleared. */
  function ProofStage(h: History, rid: string): (p: History)
    requires Cleared(h, rid) && ImportedIn(h, rid) && !ProvenBefore(h, rid)
    ensures StageOf(p, h) && p.Then? && p.event.Proved? && p.event.rid == rid
  {
    if h.event.Proved? && h.event.rid == rid then h else ProofStage(h.before, rid)
  }

  lemma {:induction false} ProofComesAfterImport(cfg: Config, h: History, rid: string)
    requires Safe(cfg, h) && Cleared(h, rid) && ImportedIn(h, rid) && !ProvenBefore(h, rid)
    ensures ImportedIn(ProofStage(h, rid).before, rid)
  {
    if !(h.event.Proved? && h.event.rid == rid) { ProofComesAfterImport(cfg, h.before, rid); }
  }

  /** Release safety. Whenever a successor takes over from an id, then at the stage r where the release was stored:
      the last journal read was a strong NOT_FOUND for that id, the import was resolved as having no side effect, the
      cloud had reported for that same id that it gives the batch up, and nothing was sent or imported under the id
      since. If an import of the id had ever been recorded, a stabilisation was completed after the recording, in this
      history or before it. */
  lemma ReplacementIsJustified(cfg: Config, p: History, h: History) returns (r: History)
    requires Safe(cfg, h) && StageOf(p, h) && p.Then? && p.event.Adopted? && p.event.prev != ""
    ensures StageOf(r, p.before) && r.Then? && r.event.Released?
    ensures r.event.rid == p.event.prev && r.event.successor == p.event.next
    ensures r.event.resolution == NoSideEffectProven
    ensures LastRead(r.before).Some? && LastRead(r.before).value.rid == p.event.prev
    ensures LastRead(r.before).value.IsStrongNotFound()
    ensures CloudReleases(r.event.status, r.event.error)
    ensures StatusSeenIn(r.before, p.event.prev, r.event.status, r.event.error)
    ensures Requests(r, p.event.prev) == Requests(p, p.event.prev)
    ensures HandedIn(r, p.event.prev) == HandedIn(p, p.event.prev)
    ensures ImportedIn(p, p.event.prev) ==> ImportedIn(r.before, p.event.prev) && Cleared(r.before, p.event.prev)
    ensures ImportedIn(p, p.event.prev) && !ProvenBefore(h, p.event.prev) ==>
      !ProvenBefore(r.before, p.event.prev) && ImportedIn(ProofStage(r.before, p.event.prev).before, p.event.prev)
  {
    StageIsSafe(cfg, p, h);
    r := ReleaseStage(p.before, p.event.prev);
    StageIsSafe(cfg, r, p.before);
    UnknownIdsAreSilent(cfg, p.before, p.event.next);
    StageHasOrigin(p, h);
    StageHasOrigin(r, p.before);
    if ImportedIn(p, p.event.prev) && !ProvenBefore(h, p.event.prev) {
      ProofComesAfterImport(cfg, r.before, p.event.prev);
    }
  }

  // ---- What a completed stabilisation rests on ----

  /** The journal reads of the present process, oldest first. */
  function Reads(h: History): seq<Read>
  {
    match h
    case Start(_) => []
    case Then(b, Restarted(_)) => []
    case Then(b, JournalRead(r)) => Reads(b) + [r]
    case Then(b, _) => Reads(b)
  }

  /** How many of the last reads a run takes up, from its first read on. */
  function Span(h: History, run: Run): (n: nat)
    requires EndsIn(h, run)
    ensures n <= |Reads(h)|
    decreases h, run
  {
    match run
    case NoRun => 0
    case More(e, r) =>
      if h.event.JournalRead? then Span(h.before, if IsCommitted(h.event.read, r.rid) then run else e) + 1
      else Span(h.before, run)
  }

  function Tail(h: History, run: Run): seq<Read>
    requires EndsIn(h, run)
  {
    Reads(h)[|Reads(h)| - Span(h, run)..]
  }

  function StrongReads(answers: seq<Read>): nat
  {
    if answers == [] then 0
    else StrongReads(answers[..|answers| - 1]) + if answers[|answers| - 1].IsStrongNotFound() then 1 else 0
  }

  /** Every read is a strong NOT_FOUND for the id under the epoch, or COMMITTED for the id. */
  ghost predicate StrongOrCommitted(answers: seq<Read>, rid: string, epoch: u64)
  {
    forall r :: r in answers ==> r.rid == rid && (r.kind == Committed || (r.IsStrongNotFound() && r.epoch == epoch))
  }

  /** What is left of a run before the last read of a history. */
  function Shorter(x: Read, run: Run): Run
    requires run.More?
  {
    if IsCommitted(x, run.last.rid) then run else run.earlier
  }

  lemma TailGrows(h: History, x: Read, run: Run)
    requires run.More? && EndsIn(Then(h, JournalRead(x)), run)
    ensures EndsIn(h, Shorter(x, run)) && Tail(Then(h, JournalRead(x)), run) == Tail(h, Shorter(x, run)) + [x]
    ensures IsCommitted(x, run.last.rid) || x == run.last
  {
    assert Reads(Then(h, JournalRead(x))) == Reads(h) + [x];
    assert Span(Then(h, JournalRead(x)), run) == Span(h, Shorter(x, run)) + 1;
  }

  lemma {:induction false} TailOfRun(h: History, run: Run, rid: string, epoch: u64)
    requires EndsIn(h, run) && AllStrong(run, rid, epoch) && run.More?
    ensures StrongOrCommitted(Tail(h, run), rid, epoch) && StrongReads(Tail(h, run)) == Length(run)
    ensures Tail(h, run) != [] && Tail(h, run)[0].IsStrongNotFound() && Tail(h, run)[0].mono == RunStart(run)
    decreases h, run
  {
    if h.event.JournalRead? {
      TailOfLast(h.before, h.event.read, run, rid, epoch);
    } else {
      TailOfRun(h.before, run, rid, epoch);
    }
  }

  lemma {:induction false} TailOfLast(h: History, x: Read, run: Run, rid: string, epoch: u64)
    requires run.More? && EndsIn(Then(h, JournalRead(x)), run) && AllStrong(run, rid, epoch)
    ensures var tail := Tail(Then(h, JournalRead(x)), run);
      && StrongOrCommitted(tail, rid, epoch) && StrongReads(tail) == Length(run)
      && tail != [] && tail[0].IsStrongNotFound() && tail[0].mono == RunStart(run)
    decreases Then(h, JournalRead(x)), run, 0
  {
    hide EndsIn, Reads, Span, Tail;
    var shorter := Shorter(x, run);
    TailGrows(h, x, run);
    var tail, before := Tail(Then(h, JournalRead(x)), run), Tail(h, shorter);
    assert tail[..|tail| - 1] == before;
    if shorter.More? {
      TailOfRun(h, shorter, rid, epoch);
    } else {
      EmptyTail(h);
      assert run.earlier == NoRun;
    }
  }

  lemma EmptyTail(h: History)
    ensures EndsIn(h, NoRun) && Tail(h, NoRun) == []
  {
  }

  /** The last COMMITTED read, if there is one, brought no items. */
  ghost predicate LastBroughtNone(answers: seq<Read>)
  {
    forall i :: 0 <= i < |answers| && answers[i].kind == Committed ==>
      answers[i].items == 0 || exists j :: i < j < |answers| && answers[j].kind == Committed
  }

  /** When an id is proved to have had no side effect, the journal reads of this very process end in a tail that
      begins with a strong NOT_FOUND for it and spans the stabilisation window up to the proof. At least N reads of
      the tail are strong NOT_FOUND answers under one capability epoch, and all others say COMMITTED, which the
      stabilisation passes over as long as the last of them brought no items. If SEC never answered COMMITTED, the tail
      is unbroken. */
  lemma ProofRestsOnReads(cfg: Config, p: History, h: History) returns (tail: seq<Read>)
    requires Safe(cfg, h) && StageOf(p, h) && p.Then? && p.event.Proved? && Vouched(h, p.event.rid)
    ensures 0 < |tail| <= |Reads(p.before)| && Reads(p.before)[|Reads(p.before)| - |tail|..] == tail
    ensures StrongOrCommitted(tail, p.event.rid, tail[0].epoch) && StrongReads(tail) >= cfg.notFoundCount
    ensures tail[0].IsStrongNotFound() && p.event.at - tail[0].mono >= cfg.StabilizationWindowMs()
    ensures cfg.purposes != [] ==> LastBroughtNone(tail)
    ensures !CommittedIn(p.before, p.event.rid) ==> forall r :: r in tail ==> r.IsStrongNotFound()
  {
    StageIsSafe(cfg, p, h);
    StageHasOrigin(p, h);
    var run := p.event.run;
    tail := Tail(p.before, run);
    TailOfRun(p.before, run, p.event.rid, run.last.epoch);
    assert tail[0] in tail;
    if cfg.purposes != [] { TailBroughtNone(p.before, tail, p.event.rid); }
    forall r | r in tail && r.kind == Committed ensures CommittedIn(p.before, p.event.rid) {
      ReadWasAnswered(cfg, p.before, r);
    }
  }

  lemma {:induction false} LastItemsAt(h: History, i: nat)
    requires i < |Reads(h)| && Reads(h)[i].kind == Committed
    requires forall j :: i < j < |Reads(h)| ==> Reads(h)[j].kind != Committed
    ensures LastItems(h, Reads(h)[i].rid) == Reads(h)[i].items
  {
    if h.event.JournalRead? {
      var before := Reads(h.before);
      assert Reads(h) == before + [h.event.read];
      if i < |before| {
        assert Reads(h)[|before|] == h.event.read && Reads(h)[i] == before[i];
        forall j | i < j < |before| ensures before[j].kind != Committed { assert Reads(h)[j] == before[j]; }
        LastItemsAt(h.before, i);
      }
    } else {
      LastItemsAt(h.before, i);
    }
  }

  lemma TailBroughtNone(h: History, tail: seq<Read>, rid: string)
    requires |tail| <= |Reads(h)| && Reads(h)[|Reads(h)| - |tail|..] == tail
    requires (forall r :: r in tail ==> r.rid == rid) && LastItems(h, rid) == 0
    ensures LastBroughtNone(tail)
  {
    hide Reads, LastItems;
    var first := |Reads(h)| - |tail|;
    forall i | 0 <= i < |tail| && tail[i].kind == Committed
               && (forall j :: i < j < |tail| ==> tail[j].kind != Committed)
      ensures tail[i].items == 0
    {
      assert tail[i] in tail && Reads(h)[first + i] == tail[i];
      assert forall j :: first + i < j < |Reads(h)| ==> Reads(h)[j] == tail[j - first];
      LastItemsAt(h, first + i);
    }
  }

  lemma {:induction false} ReadWasAnswered(cfg: Config, h: History, r: Read)
    requires Safe(cfg, h) && r in Reads(h) && r.kind == Committed
    ensures CommittedIn(h, r.rid)
  {
    if !(h.event.JournalRead? && h.event.read == r) { ReadWasAnswered(cfg, h.before, r); }
  }

  // ---- The content of an attempt never changes while a process lives ----

  /** h extends p without a restart in between. */
  predicate SameProcess(p: History, h: History)
  {
    p == h || (h.Then? && !h.event.Restarted? && SameProcess(p, h.before))
  }

  lemma {:induction false} PayloadStays(cfg: Config, p: History, h: History)
    requires Safe(cfg, h) && SameProcess(p, h) && p.Then? && p.event.RequestSent?
    ensures LastPayload(h, p.event.rid) == Some(p.event.payload)
  {
    if p != h { PayloadStays(cfg, p, h.before); }
  }

  /** Any two Requests of one id within one process carry the same business payload. */
  lemma AttemptIsImmutable(cfg: Config, p: History, q: History)
    requires Safe(cfg, q) && SameProcess(p, q)
    requires p.Then? && p.event.RequestSent? && q.Then? && q.event.RequestSent? && p.event.rid == q.event.rid
    ensures p.event.payload == q.event.payload
  {
    if p != q { PayloadStays(cfg, p, q.before); }
  }

  // ---- What an acknowledgement rests on ----

  lemma {:induction false} CommittedWasImported(cfg: Config, h: History, rid: string)
    requires Safe(cfg, h)
    ensures CommittedIn(h, rid) ==> HandedIn(h, rid)
    ensures HandedIn(h, rid) ==> ImportedIn(h, rid) || rid in OriginOf(h).handed
  {
    if h.Then? { CommittedWasImported(cfg, h.before, rid); }
  }

  /** An acknowledgement is sent only for an id that SEC was handed and answered COMMITTED for, in this history after
      its import was recorded; its items have the exact attestation; and the clock was read before the deadline in
      force when that was checked, though the message leaves a little later. */
  lemma AckIsJustified(cfg: Config, p: History, h: History)
    requires Safe(cfg, h) && StageOf(p, h) && p.Then? && p.event.AckSent?
    ensures CommittedIn(p.before, p.event.rid) && HandedIn(p.before, p.event.rid)
    ensures ImportedIn(p.before, p.event.rid) || p.event.rid in OriginOf(h).handed
    ensures forall i :: 0 <= i < |p.event.items| ==> ExactAttestation(p.event.items[i])
    ensures var d := DeadlineOf(cfg, p.before, p.event.rid); d > 0 ==> p.event.at < d
  {
    StageIsSafe(cfg, p, h);
    StageHasOrigin(p, h);
    CommittedWasImported(cfg, p.before, p.event.rid);
  }

  /** That deadline is E + grace - skew of the last lease, if the history took one. */
  lemma {:induction false} DeadlineBelongsToLease(cfg: Config, h: History, rid: string)
    ensures var o, e, d := OriginOf(h), LeaseOf(h, rid), DeadlineOf(cfg, h, rid);
      d == AckSafeDeadline(e, cfg.params) || (rid == o.rid && e == o.lease && d == o.deadline) || (e == 0 && d == 0)
  {
    if h.Then? { DeadlineBelongsToLease(cfg, h.before, rid); }
  }
}
