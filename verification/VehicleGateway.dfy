/** The vehicle message gateway: exchange threads, downlink threads, sweepers and stop share one correlation table.
    Each method below is one critical section; a run interleaves them in any order
    (src/vehicle_message_gateway.cpp). */
module VehicleGateway {
  import opened KeyprovBytes

  datatype TransportOutcome =
    | Accepted | Rejected | Timeout | Unknown | ProtocolError | VersionMismatch | PayloadTooLarge | Stopping

  datatype MessageKind = Unspecified | Request | Reply | Event

  /** A parsed VehicleMessageEnvelope, as far as the gateway looks into it. */
  datatype Envelope = Envelope(
    version: string, kind: MessageKind, service: string, payloadType: string, payloadSize: nat,
    expireAtMs: Option<int>, messageId: string, correlationId: string)

  /** Envelope bytes: their number, and what they parse to, if they do. */
  datatype Wire = Wire(size: nat, parsed: Option<Envelope>)

  datatype Limits = Limits(services: seq<string>, versions: seq<string>, maxEnvelopeBytes: u32, maxPayloadBytes: u32)

  datatype Config = Config(limits: Limits, maxInFlight: u32, defaultTimeoutMs: u32)
  {
    /** How long a finished message id stays protected; the doubling wraps around at 32 bits. */
    function WindowMs(): (w: nat)
      ensures w >= 5000 && (2 * defaultTimeoutMs < 0x1_0000_0000 ==> w >= 2 * defaultTimeoutMs)
    {
      var twice := 2 * defaultTimeoutMs % 0x1_0000_0000;
      if twice > 5000 then twice else 5000
    }
  }

  const TERMINAL_GRACE_MS := 1000

  // ---- The validation of an envelope ----

  predicate NameChar(c: char, first: bool)
  {
    'A' <= c <= 'Z' || 'a' <= c <= 'z' || c == '_' || (!first && '0' <= c <= '9')
  }

  predicate PayloadTypeInCapability(service: string, payloadType: string)
  {
    var prefix := service + ".v1.";
    && |prefix| < |payloadType| && payloadType[..|prefix|] == prefix
    && forall i :: |prefix| <= i < |payloadType| ==> NameChar(payloadType[i], i == |prefix|)
  }

  datatype Verdict = Valid(envelope: Envelope) | Invalid(outcome: TransportOutcome, reason: string)

  function Validate(limits: Limits, w: Wire, expectRequest: bool, nowMs: int): Verdict
  {
    if w.size == 0 then Invalid(ProtocolError, "empty_envelope")
    else if w.size > limits.maxEnvelopeBytes then Invalid(PayloadTooLarge, "envelope_exceeds_max_bytes")
    else if w.parsed.None? then Invalid(ProtocolError, "envelope_parse_failed")
    else
      var e := w.parsed.value;
      if e.version !in limits.versions then Invalid(VersionMismatch, "protocol_version_unsupported")
      else if e.kind.Unspecified? then Invalid(ProtocolError, "message_kind_unspecified")
      else if expectRequest && !e.kind.Request? then Invalid(ProtocolError, "expected_request")
      else if !expectRequest && e.kind.Request? then Invalid(ProtocolError, "illegal_downlink_request")
      else if e.service !in limits.services then Invalid(ProtocolError, "service_not_allowed")
      else if !PayloadTypeInCapability(e.service, e.payloadType) then Invalid(VersionMismatch,
          "payload_type_not_supported")
      else if e.payloadSize > limits.maxPayloadBytes then Invalid(PayloadTooLarge, "payload_exceeds_max_bytes")
      else if e.expireAtMs.Some? && 0 < e.expireAtMs.value <= nowMs then Invalid(TransportOutcome.Rejected,
          "ttl_expired")
      else if e.messageId == "" then Invalid(ProtocolError, "message_id_missing")
      else if e.kind.Reply? && e.correlationId == "" then Invalid(ProtocolError, "correlation_id_missing")
      else Valid(e)
  }

  /** What a completed exchange hands to its caller is a response the gateway would accept at some time. */
  predicate ValidResponse(limits: Limits, w: Wire)
  {
    && 0 < w.size <= limits.maxEnvelopeBytes && w.parsed.Some?
    && w.parsed.value.kind.Reply? && w.parsed.value.version in limits.versions
    && w.parsed.value.service in limits.services
    && PayloadTypeInCapability(w.parsed.value.service, w.parsed.value.payloadType)
    && w.parsed.value.payloadSize <= limits.maxPayloadBytes
    && w.parsed.value.messageId != "" && w.parsed.value.correlationId != ""
  }

  lemma ValidatedResponse(limits: Limits, w: Wire, nowMs: int)
    requires Validate(limits, w, false, nowMs).Valid? && w.parsed.Some? && w.parsed.value.kind.Reply?
    ensures ValidResponse(limits, w) && Validate(limits, w, false, nowMs).envelope == w.parsed.value
  {
  }

  // ---- Correlation entries; a shared pointer to one is its index ----

  datatype Entry = Entry(
    messageId: string, service: string, deadline: int, maxResponseBytes: nat,
    mqttAccepted: bool, outcome: TransportOutcome, response: Option<Wire>, terminal: bool, completedAt: int)

  /** Where the exchange thread of an entry is. */
  datatype Stage =
    | Publishing
    | Waiting
    | Woken(outcome: TransportOutcome, response: Option<Wire>)
    | Returned

  /** A downlink thread that found an entry and has not locked it yet. */
  datatype Delivery = Delivery(handle: nat, response: Wire)

  datatype TransportResult = TransportResult(outcome: TransportOutcome, value: Option<Wire>, error: string)

  /** In which of the two counters an entry was counted. */
  datatype Tally = Uncounted | CountedTimeout | CountedCompletion

  // ---- What an entry may do: become terminal once, and stay as it is then ----

  predicate Progress(e: Entry, f: Entry)
  {
    && f.messageId == e.messageId && f.service == e.service && f.deadline == e.deadline
    && f.maxResponseBytes == e.maxResponseBytes
    && (e.mqttAccepted ==> f.mqttAccepted)
    && (e.terminal ==>
          f.terminal && f.outcome == e.outcome && f.response == e.response && f.completedAt == e.completedAt)
  }

  ghost predicate Evolves(before: seq<Entry>, now: seq<Entry>)
  {
    |before| <= |now| && forall i :: 0 <= i < |before| ==> Progress(before[i], now[i])
  }

  /** Steps compose: whatever an entry was once it became terminal, it still is after any number of steps. */
  lemma EvolvesTransitive(a: seq<Entry>, b: seq<Entry>, c: seq<Entry>)
    requires Evolves(a, b) && Evolves(b, c)
    ensures Evolves(a, c)
  {
    forall i | 0 <= i < |a| ensures Progress(a[i], c[i]) {
      assert Progress(a[i], b[i]) && Progress(b[i], c[i]);
    }
  }

  // ---- The shared state, and what always holds of it ----

  /** Everything the threads share, at one instant. `orderly` says that every call so far returned before its own
      tombstone was dropped. */
  datatype Shared = Shared(
    entries: seq<Entry>, stages: seq<Stage>, table: map<string, nat>, recent: map<string, int>,
    deliveries: seq<Delivery>, tallies: seq<Tally>, timeouts: nat, completed: nat, total: nat,
    births: seq<int>, clock: int, orderly: bool)

  /** An accepted entry holds a valid response to its own message, for its own service, within its own limit. */
  predicate Answered(limits: Limits, e: Entry)
  {
    && e.response.Some? && ValidResponse(limits, e.response.value)
    && e.response.value.parsed.value.correlationId == e.messageId
    && e.response.value.parsed.value.service == e.service
    && e.response.value.size <= e.maxResponseBytes
  }

  ghost predicate AnswersOk(cfg: Config, s: Shared)
  {
    forall i :: 0 <= i < |s.entries| && s.entries[i].terminal && s.entries[i].outcome == TransportOutcome.Accepted ==>
      Answered(cfg.limits, s.entries[i])
  }

  /** Nothing was completed in the future. */
  ghost predicate TimesOk(s: Shared)
  {
    forall i :: 0 <= i < |s.entries| && s.entries[i].terminal ==> s.entries[i].completedAt <= s.clock
  }

  ghost predicate TableOk(cfg: Config, s: Shared)
  {
    && |s.table| <= cfg.maxInFlight
    && s.table.Keys !! s.recent.Keys
    && forall id :: id in s.table ==> s.table[id] < |s.entries| && s.entries[s.table[id]].messageId == id
  }

  /** A call is marked as published once, and then returns only after its entry is terminal. */
  ghost predicate ReturnsOk(s: Shared)
  {
    && |s.stages| == |s.entries|
    && (forall i :: 0 <= i < |s.stages| && s.stages[i].Returned? && s.entries[i].mqttAccepted ==> s.entries[i].terminal)
    && (forall i :: 0 <= i < |s.stages| && s.stages[i].Publishing? ==> !s.entries[i].mqttAccepted)
  }

  ghost predicate CallsOk(cfg: Config, s: Shared)
  {
    && ReturnsOk(s)
    && (forall i :: 0 <= i < |s.stages| && s.stages[i].Woken? ==>
          s.entries[i].terminal && s.entries[i].outcome == s.stages[i].outcome
              && s.entries[i].response == s.stages[i].response)
    && (forall k :: 0 <= k < |s.deliveries| ==>
          && s.deliveries[k].handle < |s.entries| && ValidResponse(cfg.limits, s.deliveries[k].response)
          && s.deliveries[k].response.parsed.value.correlationId == s.entries[s.deliveries[k].handle].messageId)
  }

  /** Every entry is counted at most once, as a timeout or as a completion. */
  ghost predicate TalliesOk(s: Shared)
    requires |s.stages| == |s.entries|
  {
    && |s.tallies| == |s.entries| <= s.total
    && multiset(s.tallies)[CountedTimeout] == s.timeouts
    && multiset(s.tallies)[CountedCompletion] == s.completed
    && forall i :: 0 <= i < |s.tallies| ==>
         && (s.tallies[i].CountedTimeout? ==>
               s.entries[i].terminal && s.entries[i].outcome != TransportOutcome.Accepted)
         && (s.tallies[i].CountedCompletion? ==> s.entries[i].terminal && s.stages[i].Returned?)
  }

  /** The exchange call of an entry has not returned. */
  predicate LiveCall(s: Shared, i: nat)
    requires i < |s.stages|
  {
    !s.stages[i].Returned?
  }

  /** No two live calls have one id; the table holds live calls only; a live call is in the table or protected. */
  ghost predicate LiveIdsOk(s: Shared)
    requires |s.stages| == |s.entries|
    requires forall id :: id in s.table ==> s.table[id] < |s.entries|
  {
    && (forall i, j :: 0 <= i < j < |s.entries| && LiveCall(s, i) && LiveCall(s, j) ==>
          s.entries[i].messageId != s.entries[j].messageId)
    && (forall id :: id in s.table ==> LiveCall(s, s.table[id]))
    && (forall i :: 0 <= i < |s.entries| && LiveCall(s, i) ==>
          || (s.entries[i].messageId in s.table && s.table[s.entries[i].messageId] == i)
          || (s.entries[i].messageId in s.recent && s.entries[i].terminal))
  }

  ghost predicate ReuseOk(cfg: Config, s: Shared)
    requires |s.stages| == |s.entries|
    requires forall id :: id in s.table ==> s.table[id] < |s.entries|
  {
    && LiveIdsOk(s)
    && (forall i :: 0 <= i < |s.entries| && s.entries[i].terminal && (s.entries[i].mqttAccepted || LiveCall(s, i)) ==>
          Protected(cfg.WindowMs(), s, i))
  }

  /** The id of a terminal entry cannot be taken before the window is over. */
  predicate Protected(window: nat, s: Shared, i: nat)
    requires i < |s.entries| == |s.stages|
  {
    var e := s.entries[i];
    || (LiveCall(s, i) && e.messageId in s.table)
    || (e.messageId in s.recent && s.recent[e.messageId] >= e.completedAt + window)
    || s.clock >= e.completedAt + window
  }

  /** An id is used again only after the earlier call returned; and if that was published, not before its protection was
      over. */
  ghost predicate BirthsOk(cfg: Config, s: Shared)
  {
    && |s.births| == |s.entries| == |s.stages|
    && (s.orderly ==> forall i, j :: 0 <= i < j < |s.entries| && s.entries[i].messageId == s.entries[j].messageId ==>
          IsReused(cfg, s, i, s.births[j]))
  }

  /** The call of entry i is over, and so is its protection at this time. */
  predicate IsReused(cfg: Config, s: Shared, i: nat, at: int)
    requires i < |s.entries| == |s.stages|
  {
    !LiveCall(s, i) && (s.entries[i].mqttAccepted && s.entries[i].terminal ==>
        at >= s.entries[i].completedAt + cfg.WindowMs())
  }

  ghost predicate SharedOk(cfg: Config, s: Shared)
  {
    && AnswersOk(cfg, s) && TimesOk(s) && TableOk(cfg, s) && CallsOk(cfg, s) && TalliesOk(s)
    && (s.orderly ==> ReuseOk(cfg, s)) && BirthsOk(cfg, s)
  }

  // ---- Consequences ----

  lemma {:induction false} TalliesAddUp(t: seq<Tally>)
    ensures multiset(t)[CountedTimeout] + multiset(t)[CountedCompletion] <= |t|
  {
    if t != [] {
      var front := t[..|t| - 1];
      TalliesAddUp(front);
      assert t == front + [t[|t| - 1]];
    }
  }

  /** Completed exchanges and timeouts together never exceed the requests. */
  lemma CountersAddUp(cfg: Config, s: Shared)
    requires SharedOk(cfg, s)
    ensures s.completed + s.timeouts <= s.total
  {
    TalliesAddUp(s.tallies);
  }

  /** Whoever may register an id comes after every live and every protected use of it. */
  lemma RegisteringIsLate(cfg: Config, s: Shared, id: string)
    requires TableOk(cfg, s) && ReturnsOk(s) && ReuseOk(cfg, s) && id !in s.table && id !in s.recent
    ensures forall i :: 0 <= i < |s.entries| && s.entries[i].messageId == id ==>
      && !LiveCall(s, i)
      && (s.entries[i].mqttAccepted && s.entries[i].terminal ==> s.clock >= s.entries[i].completedAt + cfg.WindowMs())
  {
    forall i | 0 <= i < |s.entries| && s.entries[i].messageId == id
      ensures !LiveCall(s, i)
      ensures s.entries[i].mqttAccepted && s.entries[i].terminal ==>
        s.clock >= s.entries[i].completedAt + cfg.WindowMs()
    {
      if s.entries[i].terminal && s.entries[i].mqttAccepted {
        assert Protected(cfg.WindowMs(), s, i);
      }
    }
  }

  lemma UniqueLive(cfg: Config, s: Shared, i: nat, j: nat)
    requires |s.stages| == |s.entries| && forall id :: id in s.table ==> s.table[id] < |s.entries|
    requires ReuseOk(cfg, s) && i < |s.entries| && j < |s.entries| && i != j && LiveCall(s, i) && LiveCall(s, j)
    ensures s.entries[i].messageId != s.entries[j].messageId
  {
    if i < j {
    } else {
      assert s.entries[j].messageId != s.entries[i].messageId;
    }
  }

  lemma SameLive(cfg: Config, s: Shared, i: nat, j: nat)
    requires |s.stages| == |s.entries| && forall id :: id in s.table ==> s.table[id] < |s.entries|
    requires ReuseOk(cfg, s) && i < |s.entries| && j < |s.entries| && LiveCall(s, i) && LiveCall(s, j)
    requires s.entries[i].messageId == s.entries[j].messageId
    ensures i == j
  {
    assert !(i < j) && !(j < i);
  }

  lemma OtherIds(cfg: Config, s: Shared, i: nat)
    requires |s.stages| == |s.entries| && forall id :: id in s.table ==> s.table[id] < |s.entries|
    requires ReuseOk(cfg, s) && i < |s.entries| && LiveCall(s, i)
    ensures forall j :: 0 <= j < |s.entries| && j != i && LiveCall(s, j) ==>
      s.entries[j].messageId != s.entries[i].messageId
  {
    forall j | 0 <= j < |s.entries| && j != i && LiveCall(s, j)
      ensures s.entries[j].messageId != s.entries[i].messageId {
      UniqueLive(cfg, s, i, j);
    }
  }

  /** What a live call finds in the table under its id is its own entry. */
  lemma OwnEntry(cfg: Config, s: Shared, call: nat)
    requires SharedOk(cfg, s) && s.orderly && call < |s.entries| && LiveCall(s, call)
    requires s.entries[call].messageId in s.table
    ensures s.table[s.entries[call].messageId] == call
  {
    var h := s.table[s.entries[call].messageId];
    SameLive(cfg, s, h, call);
  }

  // ---- The steps, on the shared state ----

  lemma MapGrows<K, V>(m: map<K, V>, k: K, v: V)
    requires k !in m
    ensures |m[k := v]| == |m| + 1
  {
    assert m[k := v].Keys == m.Keys + {k};
    assert |m[k := v].Keys| == |m.Keys| + 1;
  }

  lemma MapShrinks<K, V>(m: map<K, V>, k: K)
    ensures |m - {k}| <= |m|
  {
    assert (m - {k}).Keys <= m.Keys;
    SetShrinks((m - {k}).Keys, m.Keys);
  }

  lemma {:induction false} SetShrinks<K>(a: set<K>, b: set<K>)
    requires a <= b
    ensures |a| <= |b|
  {
    if a != {} {
      var x :| x in a;
      SetShrinks(a - {x}, b - {x});
    }
  }

  /** Time passes. */
  function AtTime(s: Shared, later: int): Shared
  {
    s.(clock := later)
  }

  lemma TimePasses(cfg: Config, s: Shared, later: int)
    requires SharedOk(cfg, s) && s.clock <= later
    ensures SharedOk(cfg, AtTime(s, later))
  {
    var n := AtTime(s, later);
    assert ReuseOk(cfg, s) ==> ReuseOk(cfg, n) by {
      assert forall i :: 0 <= i < |s.entries| ==>
        LiveCall(s, i) == LiveCall(n, i) && (Protected(cfg.WindowMs(), s, i) ==> Protected(cfg.WindowMs(), n, i));
    }
  }

  function Counted(s: Shared): Shared
  {
    s.(total := s.total + 1)
  }

  lemma CountingKeeps(cfg: Config, s: Shared)
    requires SharedOk(cfg, s)
    ensures SharedOk(cfg, Counted(s))
  {
    SameReuse(cfg, s, Counted(s));
  }

  /** The rules for ids look only at some of the shared state. */
  lemma SameReuse(cfg: Config, s: Shared, n: Shared)
    requires |s.stages| == |s.entries| && forall id :: id in s.table ==> s.table[id] < |s.entries|
    requires n.entries == s.entries && n.stages == s.stages && n.table == s.table && n.recent == s.recent
    requires n.clock == s.clock
    ensures ReuseOk(cfg, s) ==> ReuseOk(cfg, n)
  {
    assert forall i :: 0 <= i < |s.entries| ==>
      LiveCall(s, i) == LiveCall(n, i) && Protected(cfg.WindowMs(), s, i) == Protected(cfg.WindowMs(), n, i);
  }

  function Registered(s: Shared, e: Entry): Shared
  {
    s.(entries := s.entries + [e], stages := s.stages + [Publishing], tallies := s.tallies + [Uncounted],
       births := s.births + [s.clock], table := s.table[e.messageId := |s.entries|])
  }

  lemma RegisteringKeeps(cfg: Config, s: Shared, e: Entry)
    requires SharedOk(cfg, s) && |s.entries| < s.total
    requires !e.terminal && !e.mqttAccepted && e.messageId !in s.table && e.messageId !in s.recent
    requires |s.table| < cfg.maxInFlight
    ensures SharedOk(cfg, Registered(s, e)) && Evolves(s.entries, Registered(s, e).entries)
  {
    hide AnswersOk, TimesOk, TableOk, TalliesOk, ReuseOk, BirthsOk;
    RegisteringTable(cfg, s, e);
    RegisteringCalls(cfg, s, e);
    RegisteringIsBorn(cfg, s, e);
    if s.orderly { RegisteringKeepsReuse(cfg, s, e); }
  }

  lemma RegisteringIsBorn(cfg: Config, s: Shared, e: Entry)
    requires BirthsOk(cfg, s) && TableOk(cfg, s) && ReturnsOk(s) && (s.orderly ==> ReuseOk(cfg, s))
    requires e.messageId !in s.table && e.messageId !in s.recent
    ensures BirthsOk(cfg, Registered(s, e))
  {
    if s.orderly {
      RegisteringIsLate(cfg, s, e.messageId);
      var n := Registered(s, e);
      forall i, j | 0 <= i < j < |n.entries| && n.entries[i].messageId == n.entries[j].messageId
        ensures IsReused(cfg, n, i, n.births[j])
      {
        assert j < |s.entries| ==> IsReused(cfg, s, i, s.births[j]);
      }
    }
  }

  lemma RegisteringTable(cfg: Config, s: Shared, e: Entry)
    requires TableOk(cfg, s) && e.messageId !in s.table && e.messageId !in s.recent && |s.table| < cfg.maxInFlight
    ensures TableOk(cfg, Registered(s, e))
  {
    MapGrows(s.table, e.messageId, |s.entries|);
  }

  lemma RegisteringCalls(cfg: Config, s: Shared, e: Entry)
    requires AnswersOk(cfg, s) && TimesOk(s) && CallsOk(cfg, s) && TalliesOk(s) && |s.entries| < s.total && !e.terminal
    requires !e.mqttAccepted
    ensures AnswersOk(cfg, Registered(s, e)) && TimesOk(Registered(s, e)) && CallsOk(cfg, Registered(s, e))
    ensures TalliesOk(Registered(s, e))
  {
  }

  lemma RegisteringKeepsReuse(cfg: Config, s: Shared, e: Entry)
    requires TableOk(cfg, s) && ReturnsOk(s) && ReuseOk(cfg, s)
    requires !e.terminal && !e.mqttAccepted && e.messageId !in s.table && e.messageId !in s.recent
    requires TableOk(cfg, Registered(s, e))
    ensures ReuseOk(cfg, Registered(s, e))
  {
    var n := Registered(s, e);
    RegisteringIsLate(cfg, s, e.messageId);
    assert forall i :: 0 <= i < |s.entries| ==> LiveCall(s, i) == LiveCall(n, i);
    forall i | 0 <= i < |n.entries| && n.entries[i].terminal && (n.entries[i].mqttAccepted || LiveCall(n, i))
      ensures Protected(cfg.WindowMs(), n, i)
    {
      assert i < |s.entries| && n.entries[i] == s.entries[i];
      assert Protected(cfg.WindowMs(), s, i);
    }
  }

  /** MQTT took the message: the exchange thread goes to wait. */
  function MarkedAccepted(s: Shared, i: nat): Shared
    requires i < |s.entries| == |s.stages|
  {
    s.(entries := s.entries[i := s.entries[i].(mqttAccepted := true)], stages := s.stages[i := Waiting])
  }

  lemma MarkingKeeps(cfg: Config, s: Shared, i: nat)
    requires SharedOk(cfg, s) && i < |s.entries| && s.stages[i].Publishing?
    ensures SharedOk(cfg, MarkedAccepted(s, i)) && Evolves(s.entries, MarkedAccepted(s, i).entries)
  {
    hide ReuseOk;
    var n := MarkedAccepted(s, i);
    assert forall j :: 0 <= j < |s.entries| ==> LiveCall(s, j) == LiveCall(n, j);
    assert AnswersOk(cfg, n) && TimesOk(n) && TableOk(cfg, n) && CallsOk(cfg, n) && TalliesOk(n);
    if s.orderly { MarkingKeepsReuse(cfg, s, i); }
  }

  lemma MarkingKeepsReuse(cfg: Config, s: Shared, i: nat)
    requires TableOk(cfg, s) && ReturnsOk(s) && ReuseOk(cfg, s) && i < |s.entries| && s.stages[i].Publishing?
    requires TableOk(cfg, MarkedAccepted(s, i))
    ensures ReuseOk(cfg, MarkedAccepted(s, i))
  {
    var n := MarkedAccepted(s, i);
    assert forall j :: 0 <= j < |s.entries| ==> LiveCall(s, j) == LiveCall(n, j);
    forall j | 0 <= j < |n.entries| && n.entries[j].terminal && (n.entries[j].mqttAccepted || LiveCall(n, j))
      ensures Protected(cfg.WindowMs(), n, j)
    {
      assert Protected(cfg.WindowMs(), s, j);
    }
  }

  /** An entry becomes terminal. */
  function Terminated(s: Shared, i: nat, outcome: TransportOutcome, response: Option<Wire>, at: int,
      timesOut: bool): Shared
    requires i < |s.entries| == |s.tallies|
  {
    s.(entries := s.entries[i := s.entries[i].(outcome := outcome, response := response, terminal := true,
        completedAt := at)],
       tallies := if timesOut then s.tallies[i := CountedTimeout] else s.tallies,
       timeouts := if timesOut then s.timeouts + 1 else s.timeouts)
  }

  lemma TerminatingKeeps(cfg: Config, s: Shared, i: nat, outcome: TransportOutcome, response: Option<Wire>, at: int,
      timesOut: bool)
    requires SharedOk(cfg, s) && i < |s.entries| && !s.entries[i].terminal && at <= s.clock
    requires timesOut ==> outcome != TransportOutcome.Accepted
    requires outcome == TransportOutcome.Accepted ==>
      Answered(cfg.limits, s.entries[i].(outcome := outcome, response := response, terminal := true, completedAt := at))
    ensures SharedOk(cfg, Terminated(s, i, outcome, response, at, timesOut))
    ensures Evolves(s.entries, Terminated(s, i, outcome, response, at, timesOut).entries)
  {
    hide ReuseOk;
    var n := Terminated(s, i, outcome, response, at, timesOut);
    assert AnswersOk(cfg, n) && TimesOk(n) && TableOk(cfg, n) && CallsOk(cfg, n);
    assert s.tallies[i].Uncounted?;
    if timesOut { TallyCounts(s.tallies, i, CountedTimeout); }
    assert TalliesOk(n);
    if s.orderly { TerminatingKeepsReuse(cfg, s, i, n); }
  }

  lemma TerminatingKeepsReuse(cfg: Config, s: Shared, i: nat, n: Shared)
    requires TableOk(cfg, s) && ReturnsOk(s) && ReuseOk(cfg, s) && i < |s.entries| && !s.entries[i].terminal
    requires n == s.(entries := n.entries, tallies := n.tallies, timeouts := n.timeouts)
    requires |n.entries| == |s.entries| && n.entries == s.entries[i := n.entries[i]] && n.entries[i].terminal
    requires n.entries[i].messageId == s.entries[i].messageId && n.entries[i].mqttAccepted == s.entries[i].mqttAccepted
    requires TableOk(cfg, n)
    ensures ReuseOk(cfg, n)
  {
    assert forall j :: 0 <= j < |s.entries| ==> LiveCall(s, j) == LiveCall(n, j);
    forall j | 0 <= j < |n.entries| && n.entries[j].terminal && (n.entries[j].mqttAccepted || LiveCall(n, j))
      ensures Protected(cfg.WindowMs(), n, j)
    {
      if j != i { assert Protected(cfg.WindowMs(), s, j); }
    }
  }

  /** The exchange thread wakes up at a terminal entry and copies what it finds. */
  function WokenUp(s: Shared, i: nat): Shared
    requires i < |s.entries| == |s.stages|
  {
    s.(stages := s.stages[i := Woken(s.entries[i].outcome, s.entries[i].response)])
  }

  lemma WakingKeeps(cfg: Config, s: Shared, i: nat)
    requires SharedOk(cfg, s) && i < |s.entries| && s.entries[i].terminal && s.stages[i].Waiting?
    ensures SharedOk(cfg, WokenUp(s, i))
  {
    hide ReuseOk;
    if s.orderly { WakingKeepsReuse(cfg, s, i); }
  }

  lemma WakingKeepsReuse(cfg: Config, s: Shared, i: nat)
    requires TableOk(cfg, s) && ReturnsOk(s) && ReuseOk(cfg, s) && i < |s.entries| && s.stages[i].Waiting?
    ensures ReuseOk(cfg, WokenUp(s, i))
  {
    var n := WokenUp(s, i);
    assert forall j :: 0 <= j < |s.entries| ==> LiveCall(s, j) == LiveCall(n, j);
    forall j | 0 <= j < |n.entries| && n.entries[j].terminal && (n.entries[j].mqttAccepted || LiveCall(n, j))
      ensures Protected(cfg.WindowMs(), n, j)
    {
      assert Protected(cfg.WindowMs(), s, j);
    }
  }
  /** The publication was refused: the id leaves the table without protection. */
  function GivenUp(s: Shared, i: nat): Shared
    requires i < |s.entries| == |s.stages|
  {
    s.(table := s.table - {s.entries[i].messageId}, stages := s.stages[i := Returned])
  }

  lemma GivingUpKeeps(cfg: Config, s: Shared, i: nat)
    requires SharedOk(cfg, s) && i < |s.entries| && s.stages[i].Publishing?
    ensures SharedOk(cfg, GivenUp(s, i))
  {
    hide AnswersOk, TimesOk, TableOk, TalliesOk, BirthsOk, ReuseOk, IsReused;
    Shapes(cfg, s);
    GivingUpKeepsTable(cfg, s, i);
    GivingUpKeepsOthers(cfg, s, i);
    if s.orderly { GivingUpKeepsReuse(cfg, s, i); }
  }

  lemma GivingUpKeepsTable(cfg: Config, s: Shared, i: nat)
    requires TableOk(cfg, s) && i < |s.entries| == |s.stages|
    ensures TableOk(cfg, GivenUp(s, i))
  {
    MapShrinks(s.table, s.entries[i].messageId);
  }

  lemma GivingUpKeepsOthers(cfg: Config, s: Shared, i: nat)
    requires AnswersOk(cfg, s) && TimesOk(s) && CallsOk(cfg, s) && TalliesOk(s) && BirthsOk(cfg, s)
    requires i < |s.entries| && s.stages[i].Publishing?
    ensures var n := GivenUp(s, i);
      AnswersOk(cfg, n) && TimesOk(n) && CallsOk(cfg, n) && TalliesOk(n) && BirthsOk(cfg, n)
  {
  }

  lemma GivingUpKeepsReuse(cfg: Config, s: Shared, i: nat)
    requires TimesOk(s) && TableOk(cfg, s) && CallsOk(cfg, s) && ReuseOk(cfg, s) && i < |s.entries| == |s.stages|
    requires s.stages[i].Publishing? && TableOk(cfg, GivenUp(s, i))
    ensures ReuseOk(cfg, GivenUp(s, i))
  {
    hide AnswersOk, TableOk, ReuseOk;
    ReturningKeepsReuse(cfg, s, i, GivenUp(s, i));
  }

  /** A call returns: its id leaves the table, and is protected unless nothing was published. */
  lemma ReturningKeepsReuse(cfg: Config, s: Shared, i: nat, n: Shared)
    requires TimesOk(s) && TableOk(cfg, s) && ReturnsOk(s) && ReuseOk(cfg, s) && i < |s.entries| && LiveCall(s, i)
    requires n.entries == s.entries && n.stages == s.stages[i := Returned] && n.clock == s.clock
    requires n.table == s.table - {s.entries[i].messageId}
    requires (n.recent == s.recent && !s.entries[i].mqttAccepted)
             || n.recent == s.recent[s.entries[i].messageId := n.clock + cfg.WindowMs()]
    requires TableOk(cfg, n)
    ensures ReuseOk(cfg, n)
  {
    OtherIds(cfg, s, i);
    ReturningKeepsLive(cfg, s, i, n);
    forall j | 0 <= j < |n.entries| && n.entries[j].terminal && (n.entries[j].mqttAccepted || LiveCall(n, j))
      ensures Protected(cfg.WindowMs(), n, j)
    {
      assert LiveCall(n, j) == (LiveCall(s, j) && j != i);
      ReturningProtects(cfg, s, i, n, j);
    }
  }

  lemma ReturningKeepsLive(cfg: Config, s: Shared, i: nat, n: Shared)
    requires TableOk(cfg, s) && ReturnsOk(s) && LiveIdsOk(s) && i < |s.entries| && LiveCall(s, i)
    requires forall j :: 0 <= j < |s.entries| && j != i && LiveCall(s, j) ==>
      s.entries[j].messageId != s.entries[i].messageId
    requires n.entries == s.entries && n.stages == s.stages[i := Returned]
    requires n.table == s.table - {s.entries[i].messageId}
    requires forall id :: id in s.recent ==> id in n.recent
    ensures LiveIdsOk(n)
  {
    assert forall j :: 0 <= j < |s.entries| ==> LiveCall(n, j) == (LiveCall(s, j) && j != i);
    forall k | k in n.table ensures LiveCall(n, n.table[k]) {
      assert LiveCall(s, s.table[k]) && s.entries[s.table[k]].messageId == k;
    }
  }

  lemma ReturningProtects(cfg: Config, s: Shared, i: nat, n: Shared, j: nat)
    requires i < |s.entries| == |s.stages| && j < |s.entries| && s.entries[j].terminal
    requires s.entries[j].completedAt <= s.clock
    requires n.entries == s.entries && n.stages == s.stages[i := Returned] && n.clock == s.clock
    requires n.table == s.table - {s.entries[i].messageId}
    requires (n.recent == s.recent && j != i)
             || n.recent == s.recent[s.entries[i].messageId := n.clock + cfg.WindowMs()]
    requires j != i && LiveCall(s, j) ==> s.entries[j].messageId != s.entries[i].messageId
    requires Protected(cfg.WindowMs(), s, j)
    ensures Protected(cfg.WindowMs(), n, j)
  {
  }

  /** The exchange thread is done: out of the table, into protection. */
  function Finished(cfg: Config, s: Shared, i: nat): Shared
    requires i < |s.entries| == |s.stages| == |s.tallies|
  {
    var done := s.stages[i].Woken? && s.stages[i].outcome == TransportOutcome.Accepted;
    s.(table := s.table - {s.entries[i].messageId}, stages := s.stages[i := Returned],
       recent := s.recent[s.entries[i].messageId := s.clock + cfg.WindowMs()],
       tallies := if done then s.tallies[i := CountedCompletion] else s.tallies,
       completed := if done then s.completed + 1 else s.completed)
  }

  lemma TallyCounts(t: seq<Tally>, i: nat, x: Tally)
    requires i < |t| && t[i].Uncounted? && !x.Uncounted?
    ensures multiset(t[i := x])[x] == multiset(t)[x] + 1
    ensures forall y :: y != x && !y.Uncounted? ==> multiset(t[i := x])[y] == multiset(t)[y]
  {
    assert t == t[..i] + [t[i]] + t[i + 1..];
    assert t[i := x] == t[..i] + [x] + t[i + 1..];
  }

  lemma FinishingKeeps(cfg: Config, s: Shared, i: nat)
    requires SharedOk(cfg, s) && i < |s.entries| && s.stages[i].Woken?
    ensures SharedOk(cfg, Finished(cfg, s, i))
  {
    hide AnswersOk, TimesOk, TableOk, CallsOk, TalliesOk, ReuseOk;
    Shapes(cfg, s);
    var n := Finished(cfg, s, i);
    FinishingTallies(cfg, s, i);
    FinishingTable(cfg, s, i);
    FinishingCalls(cfg, s, i);
    if s.orderly { FinishingReuse(cfg, s, i); }
  }

  lemma FinishingReuse(cfg: Config, s: Shared, i: nat)
    requires TimesOk(s) && TableOk(cfg, s) && CallsOk(cfg, s) && ReuseOk(cfg, s)
    requires i < |s.entries| == |s.stages| == |s.tallies|
    requires s.stages[i].Woken? && TableOk(cfg, Finished(cfg, s, i))
    ensures ReuseOk(cfg, Finished(cfg, s, i))
  {
    hide AnswersOk, TableOk, ReuseOk;
    ReturningKeepsReuse(cfg, s, i, Finished(cfg, s, i));
  }

  lemma FinishingTable(cfg: Config, s: Shared, i: nat)
    requires TableOk(cfg, s) && i < |s.entries| == |s.stages| == |s.tallies|
    ensures TableOk(cfg, Finished(cfg, s, i))
  {
    MapShrinks(s.table, s.entries[i].messageId);
  }

  lemma FinishingCalls(cfg: Config, s: Shared, i: nat)
    requires AnswersOk(cfg, s) && TimesOk(s) && CallsOk(cfg, s) && i < |s.entries| == |s.tallies| && s.stages[i].Woken?
    ensures AnswersOk(cfg, Finished(cfg, s, i)) && TimesOk(Finished(cfg, s, i)) && CallsOk(cfg, Finished(cfg, s, i))
  {
  }

  lemma FinishingTallies(cfg: Config, s: Shared, i: nat)
    requires CallsOk(cfg, s) && TalliesOk(s) && i < |s.entries| && s.stages[i].Woken?
    ensures |Finished(cfg, s, i).stages| == |s.entries| && TalliesOk(Finished(cfg, s, i))
  {
    if s.stages[i].outcome == TransportOutcome.Accepted { TallyCounts(s.tallies, i, CountedCompletion); }
  }

  /** A sweeper moves an entry that has been terminal for a while out of the table, into protection. */
  function Retired(cfg: Config, s: Shared, id: string, sampled: int): Shared
  {
    s.(table := s.table - {id}, recent := s.recent[id := sampled + cfg.WindowMs()])
  }

  lemma RetiringKeeps(cfg: Config, s: Shared, id: string, sampled: int)
    requires SharedOk(cfg, s) && id in s.table && sampled <= s.clock
    requires s.entries[s.table[id]].terminal && s.entries[s.table[id]].completedAt <= sampled
    ensures SharedOk(cfg, Retired(cfg, s, id, sampled))
  {
    hide AnswersOk, TimesOk, TableOk, TalliesOk, BirthsOk, ReuseOk, IsReused;
    RetiringKeepsTable(cfg, s, id, sampled);
    RetiringKeepsOthers(cfg, s, id, sampled);
    if s.orderly { RetiringKeepsReuse(cfg, s, id, sampled); }
  }

  lemma RetiringKeepsTable(cfg: Config, s: Shared, id: string, sampled: int)
    requires TableOk(cfg, s) && id in s.table
    ensures TableOk(cfg, Retired(cfg, s, id, sampled))
  {
    MapShrinks(s.table, id);
  }

  lemma RetiringKeepsOthers(cfg: Config, s: Shared, id: string, sampled: int)
    requires AnswersOk(cfg, s) && TimesOk(s) && CallsOk(cfg, s) && TalliesOk(s) && BirthsOk(cfg, s)
    ensures var n := Retired(cfg, s, id, sampled);
      AnswersOk(cfg, n) && TimesOk(n) && CallsOk(cfg, n) && TalliesOk(n) && BirthsOk(cfg, n)
  {
    var n := Retired(cfg, s, id, sampled);
    assert forall i, at :: 0 <= i < |s.entries| ==> IsReused(cfg, n, i, at) == IsReused(cfg, s, i, at);
  }

  lemma RetiringKeepsReuse(cfg: Config, s: Shared, id: string, sampled: int)
    requires TimesOk(s) && TableOk(cfg, s) && ReturnsOk(s) && ReuseOk(cfg, s) && id in s.table && sampled <= s.clock
    requires s.entries[s.table[id]].terminal && s.entries[s.table[id]].completedAt <= sampled
    requires TableOk(cfg, Retired(cfg, s, id, sampled))
    ensures ReuseOk(cfg, Retired(cfg, s, id, sampled))
  {
    var n := Retired(cfg, s, id, sampled);
    var h := s.table[id];
    RetiringKeepsLive(cfg, s, id, sampled);
    forall j | 0 <= j < |n.entries| && LiveCall(n, j) && n.entries[j].messageId == id ensures j == h {
      SameLive(cfg, s, h, j);
    }
    forall j | 0 <= j < |n.entries| && n.entries[j].terminal && (n.entries[j].mqttAccepted || LiveCall(n, j))
      ensures Protected(cfg.WindowMs(), n, j)
    {
      RetiringProtects(cfg, s, id, sampled, j);
    }
  }

  lemma RetiringKeepsLive(cfg: Config, s: Shared, id: string, sampled: int)
    requires TableOk(cfg, s) && ReturnsOk(s) && LiveIdsOk(s) && id in s.table && s.entries[s.table[id]].terminal
    ensures LiveIdsOk(Retired(cfg, s, id, sampled))
    ensures LiveCall(s, s.table[id]) && s.entries[s.table[id]].messageId == id
  {
    var n := Retired(cfg, s, id, sampled);
    assert forall j :: 0 <= j < |s.entries| ==> LiveCall(s, j) == LiveCall(n, j);
  }

  lemma RetiringProtects(cfg: Config, s: Shared, id: string, sampled: int, j: nat)
    requires j < |s.entries| == |s.stages| && s.entries[j].terminal && id in s.table && id !in s.recent
    requires LiveCall(s, j) && s.entries[j].messageId == id ==> s.entries[j].completedAt <= sampled
    requires Protected(cfg.WindowMs(), s, j)
    ensures Protected(cfg.WindowMs(), Retired(cfg, s, id, sampled), j)
  {
  }

  /** Every live call is still within its own protection. */
  ghost predicate OnTime(s: Shared, sampled: int)
    requires |s.stages| == |s.entries|
  {
    forall i :: 0 <= i < |s.entries| && LiveCall(s, i) && s.entries[i].messageId in s.recent ==>
      sampled < s.recent[s.entries[i].messageId]
  }

  /** Protections that are over are dropped. */
  ghost function Purged(s: Shared, sampled: int): Shared
    requires |s.stages| == |s.entries|
  {
    s.(recent := map id | id in s.recent && s.recent[id] > sampled :: s.recent[id], orderly := s.orderly && OnTime(s,
        sampled))
  }

  lemma PurgingKeeps(cfg: Config, s: Shared, sampled: int)
    requires SharedOk(cfg, s) && sampled <= s.clock
    ensures SharedOk(cfg, Purged(s, sampled))
  {
    var n := Purged(s, sampled);
    assert AnswersOk(cfg, n) && TimesOk(n) && TableOk(cfg, n) && CallsOk(cfg, n) && TalliesOk(n);
    if n.orderly {
      assert forall j :: 0 <= j < |s.entries| ==> LiveCall(s, j) == LiveCall(n, j);
      forall j | 0 <= j < |n.entries| && n.entries[j].terminal && (n.entries[j].mqttAccepted || LiveCall(n, j))
        ensures Protected(cfg.WindowMs(), n, j)
      {
        assert Protected(cfg.WindowMs(), s, j);
      }
    }
  }

  /** A downlink thread has found the entry its response belongs to. */
  function Found(s: Shared, d: Delivery): Shared
  {
    s.(deliveries := s.deliveries + [d])
  }

  lemma FindingKeeps(cfg: Config, s: Shared, d: Delivery)
    requires SharedOk(cfg, s) && d.handle < |s.entries| && ValidResponse(cfg.limits, d.response)
    requires d.response.parsed.value.correlationId == s.entries[d.handle].messageId
    ensures SharedOk(cfg, Found(s, d))
  {
    SameReuse(cfg, s, Found(s, d));
  }

  /** At the end of stop both maps are emptied, with whatever protection they gave. */
  function Cleared(s: Shared): Shared
  {
    s.(table := map[], recent := map[], orderly := false)
  }

  lemma ClearingKeeps(cfg: Config, s: Shared)
    requires SharedOk(cfg, s)
    ensures SharedOk(cfg, Cleared(s))
  {
    var n := Cleared(s);
    assert AnswersOk(cfg, n) && TimesOk(n) && TableOk(cfg, n) && CallsOk(cfg, n) && TalliesOk(n);
  }

  class Gateway {
    const cfg: Config
    /** std::hash over message ids, which assigns them to the sweepers. */
    const hash: string -> nat

    var entries: seq<Entry>
    var stages: seq<Stage>
    var table: map<string, nat>
    var recent: map<string, int>
    var deliveries: seq<Delivery>
    var stopping: bool
    var requestTotal: nat
    var responseCompleted: nat
    var responseRejected: nat
    var exchangeTimeout: nat
    var envelopeInvalid: nat
    /** The monotonic clock, which only runs forward. */
    var clock: int
    ghost var tallies: seq<Tally>
    ghost var orderly: bool
    /** When each entry was registered. */
    ghost var births: seq<int>

    ghost function Now(): Shared
      reads this
    {
      Shared(entries, stages, table, recent, deliveries, tallies, exchangeTimeout, responseCompleted, requestTotal,
             births, clock, orderly)
    }

    ghost predicate Ok()
      reads this
    {
      SharedOk(cfg, Now())
    }

    constructor (cfg: Config, hash: string -> nat)
      ensures Ok() && orderly && entries == [] && this.cfg == cfg
    {
      this.cfg, this.hash := cfg, hash;
      entries, stages, table, recent, deliveries := [], [], map[], map[], [];
      stopping, requestTotal, responseCompleted, responseRejected := false, 0, 0, 0;
      exchangeTimeout, envelopeInvalid, clock, tallies, orderly, births := 0, 0, 0, [], true, [];
    }

    /** steady_clock::now(). */
    method ReadClock() returns (now: int)
      requires Ok()
      modifies this`clock
      ensures Ok() && now == clock && clock >= old(clock)
      ensures Now() == AtTime(old(Now()), clock)
    {
      hide SharedOk;
      var passes: int := *;
      if passes > 0 {
        TimePasses(cfg, Now(), clock + passes);
        clock := clock + passes;
      }
      now := clock;
    }

    // ---- exchange ----

    /** The check at the start of exchange. The flag may be set right after it, so Register does not rely on it. */
    method Begin() returns (refused: Option<TransportResult>)
      ensures refused.Some? <==> stopping
      ensures refused.Some? ==> refused.value.outcome == TransportOutcome.Stopping && refused.value.value.None?
    {
      if stopping { return Some(TransportResult(TransportOutcome.Stopping, None, "stopping")); }
      return None;
    }

    /** Validate the request and enter it into the table, before anything is published. Only a valid request of an id
        that is neither active nor protected gets in, and only while there is room. The thread looked at the clock for
        its deadline some time before it took the table, so that an entry may be overdue from the start. */
    method Register(w: Wire, timeoutMs: nat, maxResponseBytes: nat, wallMs: int, sampled: int)
      returns (refused: Option<TransportResult>, call: nat)
      requires Ok() && sampled <= clock
      modifies this
      ensures Ok() && Evolves(old(entries), entries) && orderly == old(orderly)
      ensures refused.None? <==>
        && Validate(cfg.limits, w, true, wallMs).Valid?
        && |old(table)| < cfg.maxInFlight
        && Validate(cfg.limits, w, true, wallMs).envelope.messageId !in old(table)
        && Validate(cfg.limits, w, true, wallMs).envelope.messageId !in old(recent)
      ensures refused.Some? ==>
        entries == old(entries) && table == old(table) && recent == old(recent) && refused.value.value.None?
      ensures refused.None? ==>
        call == |old(entries)| == |entries| - 1 && Now() == Registered(Counted(old(Now())), entries[call])
      ensures refused.None? ==>
        && entries[call].messageId == Validate(cfg.limits, w, true, wallMs).envelope.messageId
        && entries[call].service == Validate(cfg.limits, w, true, wallMs).envelope.service
        && !entries[call].terminal && !entries[call].mqttAccepted
        && entries[call].deadline ==
             sampled + (if 0 < timeoutMs < cfg.defaultTimeoutMs then timeoutMs else cfg.defaultTimeoutMs)
      // an id is not used again while another call lives under it, nor before its protection is over
      ensures refused.None? && old(orderly) ==>
        forall i :: 0 <= i < |old(entries)| && old(entries[i]).messageId == entries[call].messageId ==>
          && old(stages[i]).Returned?
          && (old(entries[i]).mqttAccepted && old(entries[i]).terminal ==>
                clock >= old(entries[i]).completedAt + cfg.WindowMs())
    {
      hide SharedOk, Validate, Evolves;
      call := 0;
      EvolvesReflexive(entries);
      var v := Validate(cfg.limits, w, true, wallMs);
      if v.Invalid? {
        envelopeInvalid := envelopeInvalid + 1;
        return Some(TransportResult(v.outcome, None, v.reason)), 0;
      }
      CountingKeeps(cfg, Now());
      ghost var before := Now();
      requestTotal := requestTotal + 1;
      var bounded := if 0 < timeoutMs < cfg.defaultTimeoutMs then timeoutMs else cfg.defaultTimeoutMs;
      var id := v.envelope.messageId;
      if |table| >= cfg.maxInFlight {
        return Some(TransportResult(TransportOutcome.Rejected, None, "max_in_flight")), 0;
      }
      if id in table || id in recent {
        responseRejected := responseRejected + 1;
        return Some(TransportResult(ProtocolError, None, "message_identity_conflict")), 0;
      }
      call := |entries|;
      var limit := if maxResponseBytes > 0 then maxResponseBytes else cfg.limits.maxEnvelopeBytes;
      var e := Entry(id, v.envelope.service, sampled + bounded, limit, false, Unknown, None, false, 0);
      RegisteringFits(cfg, before, Now(), e);
      Enter(e);
      return None, call;
    }

    method Enter(e: Entry)
      modifies this`entries, this`stages, this`tallies, this`table, this`births
      ensures Now() == Registered(old(Now()), e)
    {
      births := births + [clock];
      table := table[e.messageId := |entries|];
      entries, stages, tallies := entries + [e], stages + [Publishing], tallies + [Uncounted];
    }

    /** MQTT refused the message, or its fate is unknown: the entry leaves the table. Nobody else's entry does. */
    method PublishFailed(call: nat, unknown: bool) returns (r: TransportResult)
      requires Ok() && call < |stages| == |entries| && stages[call].Publishing?
      modifies this
      ensures Ok() && Now() == GivenUp(old(Now()), call)
      ensures orderly ==> forall id :: id in old(table) && id !in table ==> old(table)[id] == call
      ensures r.value.None? && r.outcome == if unknown then Unknown else TransportOutcome.Rejected
    {
      hide SharedOk;
      GivingUpKeeps(cfg, Now(), call);
      if orderly { OwnEntryOnly(cfg, Now(), call); }
      table, stages := table - {entries[call].messageId}, stages[call := Returned];
      return TransportResult(if unknown then Unknown else TransportOutcome.Rejected, None,
                             if unknown then "publish_outcome_unknown" else "mqtt_local_rejected");
    }

    /** MQTT took the message, which does not complete anything yet. */
    method MarkAccepted(call: nat)
      requires Ok() && call < |stages| == |entries| && stages[call].Publishing?
      modifies this`entries, this`stages
      ensures Ok() && Now() == MarkedAccepted(old(Now()), call) && Evolves(old(entries), entries)
    {
      hide SharedOk;
      MarkingKeeps(cfg, Now(), call);
      entries, stages := entries[call := entries[call].(mqttAccepted := true)], stages[call := Waiting];
    }

    /** The waiting thread wakes up, at its deadline or because the entry is terminal. Only a thread that finds the
        entry not terminal decides the outcome itself. */
    method Wake(call: nat)
      requires Ok() && call < |stages| == |entries| && stages[call].Waiting?
      modifies this`entries, this`stages, this`tallies, this`exchangeTimeout, this`clock
      ensures Ok() && Evolves(old(entries), entries) && |entries| == |old(entries)|
      ensures orderly == old(orderly) && clock >= old(clock)
      ensures old(entries[call]).terminal || clock >= old(entries[call]).deadline ==>
        stages[call] == Woken(entries[call].outcome, entries[call].response) && entries[call].terminal
      ensures !old(entries[call]).terminal && clock < old(entries[call]).deadline ==>
        entries == old(entries) && stages == old(stages)
      ensures !old(entries[call]).terminal && clock >= old(entries[call]).deadline ==>
        entries[call].outcome == (if entries[call].mqttAccepted then Timeout
            else Unknown) && exchangeTimeout == old(exchangeTimeout) + 1
      ensures old(entries[call]).terminal ==> exchangeTimeout == old(exchangeTimeout)
    {
      hide SharedOk;
      var now := ReadClock();
      Shapes(cfg, Now());
      if !entries[call].terminal {
        if now < entries[call].deadline {
          EvolvesReflexive(entries);
          return;
        }
        TimeOut(call, now);
      } else {
        EvolvesReflexive(entries);
      }
      WakingKeeps(cfg, Now(), call);
      stages := stages[call := Woken(entries[call].outcome, entries[call].response)];
    }

    /** An entry whose deadline is over: the outcome tells whether MQTT had taken the message. */
    method TimeOut(h: nat, now: int)
      requires Ok() && h < |entries| == |tallies| && !entries[h].terminal && now <= clock
      modifies this`entries, this`tallies, this`exchangeTimeout
      ensures Ok() && Now() == Terminated(old(Now()), h, if old(entries[h]).mqttAccepted then Timeout else Unknown,
                                          old(entries[h]).response, now, true)
      ensures Evolves(old(entries), entries)
    {
      hide SharedOk;
      var outcome := if entries[h].mqttAccepted then Timeout else Unknown;
      TerminatingKeeps(cfg, Now(), h, outcome, entries[h].response, now, true);
      entries := entries[h := entries[h].(outcome := outcome, terminal := true, completedAt := now)];
      tallies, exchangeTimeout := tallies[h := CountedTimeout], exchangeTimeout + 1;
    }

    /** The exchange returns. An accepted result carries the response that was delivered to its own entry. */
    method Finish(call: nat) returns (r: TransportResult)
      requires Ok() && call < |stages| == |entries| == |tallies| && stages[call].Woken?
      modifies this
      ensures Ok() && Now() == Finished(cfg, AtTime(old(Now()), clock), call)
      ensures entries == old(entries) && orderly == old(orderly)
      ensures r.outcome == entries[call].outcome
      ensures r.outcome == TransportOutcome.Accepted ==>
        && r.value == entries[call].response && Answered(cfg.limits, entries[call])
        && responseCompleted == old(responseCompleted) + 1
      ensures r.outcome != TransportOutcome.Accepted ==> r.value.None? && responseCompleted == old(responseCompleted)
      ensures orderly ==> forall id :: id in old(table) && id !in table ==> old(table)[id] == call
      ensures entries[call].messageId in recent && recent[entries[call].messageId] == clock + cfg.WindowMs()
    {
      hide SharedOk, Answered, Evolves;
      WokenFacts(cfg, Now(), call);
      var now := ReadClock();
      FinishingKeeps(cfg, Now(), call);
      if orderly { OwnEntryOnly(cfg, Now(), call); }
      r := Leave(call, now);
    }

    method Leave(call: nat, now: int) returns (r: TransportResult)
      requires call < |stages| == |entries| == |tallies| && stages[call].Woken? && now == clock
      modifies this
      ensures Now() == Finished(cfg, old(Now()), call)
      ensures r.outcome == old(stages[call]).outcome
      ensures r.value == if r.outcome == TransportOutcome.Accepted then old(stages[call]).response else None
    {
      var outcome, response := stages[call].outcome, stages[call].response;
      var id := entries[call].messageId;
      if outcome == TransportOutcome.Accepted {
        responseCompleted, tallies := responseCompleted + 1, tallies[call := CountedCompletion];
      }
      table, recent, stages := table - {id}, recent[id := now + cfg.WindowMs()], stages[call := Returned];
      if outcome == TransportOutcome.Accepted {
        r := TransportResult(outcome, response, "");
      } else {
        r := TransportResult(outcome, None, ErrorText(outcome));
      }
    }

    function ErrorText(o: TransportOutcome): string
    {
      match o
      case Timeout => "business_response_timeout"
      case Unknown => "business_response_unknown"
      case PayloadTooLarge => "response_too_large"
      case Stopping => "stopping"
      case _ => ""
    }

    // ---- handle_routed_downlink ----

    /** A downlink message is validated, and a response is matched with an entry of the table. */
    method Lookup(w: Wire, wallMs: int) returns (found: bool)
      requires Ok()
      modifies this
      ensures Ok() && entries == old(entries) && table == old(table) && recent == old(recent) && orderly == old(orderly)
      ensures found ==>
        && !stopping && Validate(cfg.limits, w, false, wallMs).Valid? && w.parsed.value.kind.Reply?
        && w.parsed.value.correlationId in table
        && deliveries == old(deliveries) + [Delivery(table[w.parsed.value.correlationId], w)]
      ensures !found ==> deliveries == old(deliveries)
    {
      hide SharedOk;
      if stopping { return false; }
      var v := Validate(cfg.limits, w, false, wallMs);
      if v.Invalid? {
        envelopeInvalid := envelopeInvalid + 1;
        return false;
      }
      // an event goes to the publisher; it completes nothing
      if !v.envelope.kind.Reply? { return false; }
      if v.envelope.correlationId !in table {
        responseRejected := responseRejected + 1;
        return false;
      }
      ValidatedResponse(cfg.limits, w, wallMs);
      TableFacts(cfg, Now(), v.envelope.correlationId);
      FindingKeeps(cfg, Now(), Delivery(table[v.envelope.correlationId], w));
      deliveries := deliveries + [Delivery(table[v.envelope.correlationId], w)];
      return true;
    }

    /** The thread that found the entry locks it. Only the first fitting response completes it; one that is too large
        completes it as such, without its bytes. */
    method Complete(k: nat)
      requires Ok() && k < |deliveries|
      modifies this`entries, this`clock, this`responseRejected
      ensures Ok() && Evolves(old(entries), entries) && |entries| == |old(entries)|
      ensures orderly == old(orderly) && clock >= old(clock)
      ensures old(deliveries[k]).handle < |old(entries)|
      ensures var h, w := old(deliveries[k]).handle, old(deliveries[k]).response;
        && (forall i :: 0 <= i < |entries| && i != h ==> entries[i] == old(entries)[i])
        && w.parsed.Some?
        && (!old(entries)[h].terminal && w.parsed.value.service == old(entries)[h].service ==>
              entries[h].terminal
              && (w.size <= entries[h].maxResponseBytes ==>
                    entries[h].outcome == TransportOutcome.Accepted && entries[h].response == Some(w))
              && (w.size > entries[h].maxResponseBytes ==> entries[h].outcome == PayloadTooLarge))
        && (old(entries)[h].terminal || w.parsed.value.service != old(entries)[h].service ==> entries == old(entries))
    {
      hide SharedOk, ValidResponse;
      DeliveryFacts(cfg, Now(), k);
      EvolvesReflexive(entries);
      var h, w := deliveries[k].handle, deliveries[k].response;
      if entries[h].terminal || entries[h].service != w.parsed.value.service {
        responseRejected := responseRejected + 1;
        return;
      }
      var now := ReadClock();
      if w.size > entries[h].maxResponseBytes {
        responseRejected := responseRejected + 1;
        TerminatingKeeps(cfg, Now(), h, PayloadTooLarge, entries[h].response, now, false);
        entries := entries[h := entries[h].(outcome := PayloadTooLarge, terminal := true, completedAt := now)];
        return;
      }
      TerminatingKeeps(cfg, Now(), h, TransportOutcome.Accepted, Some(w), now, false);
      entries := entries[h := entries[h].(outcome := TransportOutcome.Accepted, response := Some(w), terminal := true,
          completedAt := now)];
    }

    // ---- sweeper_loop ----

    /** What other threads do meanwhile to entries, without the table: any number of steps of any kind. */
    method OthersAct()
      requires Ok()
      modifies this`entries, this`stages, this`tallies, this`exchangeTimeout, this`clock, this`responseRejected
      ensures Ok() && Evolves(old(entries), entries) && |entries| == |old(entries)|
      ensures clock >= old(clock) && orderly == old(orderly)
    {
      hide SharedOk, Evolves;
      EvolvesReflexive(entries);
      var steps: int := *;
      for i := 0 to if steps > 0 then steps else 0
        invariant Ok() && Evolves(old(entries), entries) && |entries| == |old(entries)| && clock >= old(clock)
      {
        ghost var before := entries;
        Shapes(cfg, Now());
        var which: int, k: int := *, *;
        if which == 0 && 0 <= k < |stages| && stages[k].Publishing? {
          MarkAccepted(k);
        } else if which == 1 && 0 <= k < |stages| && stages[k].Waiting? {
          Wake(k);
        } else if 0 <= k < |deliveries| {
          Complete(k);
        } else {
          EvolvesReflexive(entries);
        }
        EvolvesTransitive(old(entries), before, entries);
      }
    }

    /** One look at an entry of the sweeper's shard: overdue entries end, ended ones leave the table after a while. */
    method Visit(id: string, sampled: int)
      requires Ok() && id in table && sampled <= clock
      modifies this`entries, this`tallies, this`exchangeTimeout, this`table, this`recent
      ensures Ok() && Evolves(old(entries), entries) && |entries| == |old(entries)| && orderly == old(orderly)
      ensures old(table)[id] < |entries|
      ensures old(entries)[old(table)[id]].deadline <= sampled ==> entries[old(table)[id]].terminal
      ensures id in table ==> table == old(table) && recent == old(recent)
      ensures id !in table ==>
        && table == old(table) - {id} && recent == old(recent)[id := sampled + cfg.WindowMs()]
        && entries == old(entries)
        && entries[old(table)[id]].terminal && sampled - entries[old(table)[id]].completedAt > TERMINAL_GRACE_MS
    {
      hide SharedOk;
      TableFacts(cfg, Now(), id);
      Shapes(cfg, Now());
      EvolvesReflexive(entries);
      var h := table[id];
      if !entries[h].terminal && entries[h].deadline <= sampled {
        TimeOut(h, sampled);
      } else if entries[h].terminal && sampled - entries[h].completedAt > TERMINAL_GRACE_MS {
        RetiringKeeps(cfg, Now(), id, sampled);
        table, recent := table - {id}, recent[id := sampled + cfg.WindowMs()];
      }
    }

    /** The sweeper goes on to the next entry, which it looks at if it is one of its own. */
    method Pass(id: string, sampled: int, own: bool)
      requires Ok() && id in table && sampled <= clock
      modifies this
      ensures Ok() && Evolves(old(entries), entries) && |entries| == |old(entries)| && clock >= old(clock)
      ensures old(table)[id] < |entries|
      ensures own && old(entries)[old(table)[id]].deadline <= sampled ==> entries[old(table)[id]].terminal
      ensures id in table ==> table == old(table) && recent == old(recent)
      ensures id !in table ==> table == old(table) - {id} && recent == old(recent)[id := sampled + cfg.WindowMs()]
    {
      hide SharedOk, Evolves;
      TableFacts(cfg, Now(), id);
      OthersAct();
      if own {
        ghost var middle := entries;
        DeadlinesStay(old(entries), entries);
        Visit(id, sampled);
        EvolvesTransitive(old(entries), middle, entries);
      }
    }

    /** Drop the protections that are over. */
    method Purge(sampled: int)
      requires Ok() && sampled <= clock
      modifies this`recent, this`orderly
      ensures Ok() && |stages| == |entries| && Now() == Purged(old(Now()), sampled)
    {
      hide SharedOk;
      Shapes(cfg, Now());
      PurgingKeeps(cfg, Now(), sampled);
      orderly := orderly && OnTime(Now(), sampled);
      recent := map id | id in recent && recent[id] > sampled :: recent[id];
    }

    /** A pass of the sweeper of one shard, which looked at the clock some time before it took the table. It holds the
        table all the time, while other threads may still end entries between its visits. What was overdue when it
        looked at the clock has ended afterwards; ids only leave the table into protection. */
    method Sweep(shard: nat, shards: nat, sampled: int)
      requires Ok() && shards > 0 && sampled <= clock
      modifies this
      ensures Ok() && Evolves(old(entries), entries) && |entries| == |old(entries)|
      ensures table.Keys <= old(table.Keys)
      ensures forall id :: id in old(table) && id !in table ==> id in recent && recent[id] >= sampled + cfg.WindowMs()
      ensures forall id :: id in old(table) && hash(id) % shards == shard && old(table)[id] < |old(entries)| ==>
        (old(entries)[old(table)[id]].deadline <= sampled ==> entries[old(table)[id]].terminal)
    {
      hide SharedOk, Evolves;
      ghost var all := table;
      EvolvesReflexive(entries);
      var todo := table.Keys;
      while todo != {}
        invariant Ok() && clock >= sampled && Evolves(old(entries), entries) && |entries| == |old(entries)|
        invariant todo <= table.Keys <= all.Keys
        invariant forall id :: id in table ==> table[id] == all[id]
        invariant forall id :: id in all && id !in table ==> id in recent && recent[id] == sampled + cfg.WindowMs()
        invariant forall id :: id in all && id !in todo && hash(id) % shards == shard && all[id] < |old(entries)| ==>
          (old(entries)[all[id]].deadline <= sampled ==> entries[all[id]].terminal)
        decreases |todo|
      {
        ghost var before := entries;
        var id :| id in todo;
        todo := todo - {id};
        Pass(id, sampled, hash(id) % shards == shard);
        EvolvesTransitive(old(entries), before, entries);
        StillEnded(before, entries);
        DeadlinesStay(old(entries), before);
      }
      Purge(sampled);
    }

    // ---- stop ----

    /** Everything in the table that has not ended yet ends now. */
    method StopCalls()
      requires Ok()
      modifies this
      ensures Ok() && stopping && Evolves(old(entries), entries) && |entries| == |old(entries)|
      ensures table == old(table) && recent == old(recent) && orderly == old(orderly)
      ensures forall id :: id in table ==> table[id] < |entries| && entries[table[id]].terminal
    {
      hide SharedOk, Evolves;
      stopping := true;
      EvolvesReflexive(entries);
      var todo := table.Keys;
      while todo != {}
        invariant Ok() && Evolves(old(entries), entries) && |entries| == |old(entries)|
        invariant table == old(table) && recent == old(recent) && orderly == old(orderly) && stopping
        invariant todo <= table.Keys
        invariant forall id :: id in table && id !in todo ==> table[id] < |entries| && entries[table[id]].terminal
        decreases |todo|
      {
        ghost var before := entries;
        var id :| id in todo;
        OthersAct();
        EvolvesTransitive(old(entries), before, entries);
        StillEnded(before, entries);
        ghost var middle := entries;
        StopEntry(id);
        EvolvesTransitive(old(entries), middle, entries);
        StillEnded(middle, entries);
        todo := todo - {id};
      }
    }

    method StopEntry(id: string)
      requires Ok() && id in table
      modifies this`entries, this`clock
      ensures Ok() && Evolves(old(entries), entries) && |entries| == |old(entries)|
      ensures table[id] < |entries| && entries[table[id]].terminal
      ensures !old(entries)[table[id]].terminal ==> entries[table[id]].outcome == Stopping
    {
      hide SharedOk;
      TableFacts(cfg, Now(), id);
      Shapes(cfg, Now());
      EvolvesReflexive(entries);
      var h := table[id];
      if !entries[h].terminal {
        var now := ReadClock();
        TerminatingKeeps(cfg, Now(), h, Stopping, entries[h].response, now, false);
        entries := entries[h := entries[h].(outcome := Stopping, terminal := true, completedAt := now)];
      }
    }

    /** The end of stop: both maps are emptied, and with them every protection. */
    method Clear()
      requires Ok() && stopping
      modifies this`table, this`recent, this`orderly
      ensures Ok() && Now() == Cleared(old(Now()))
    {
      hide SharedOk;
      ClearingKeeps(cfg, Now());
      table, recent, orderly := map[], map[], false;
    }
  }

  /** Ended entries stay ended. */
  lemma StillEnded(a: seq<Entry>, b: seq<Entry>)
    requires Evolves(a, b)
    ensures forall i :: 0 <= i < |a| && a[i].terminal ==> b[i].terminal
  {
    assert forall i :: 0 <= i < |a| ==> Progress(a[i], b[i]);
  }

  lemma DeadlinesStay(a: seq<Entry>, b: seq<Entry>)
    requires Evolves(a, b)
    ensures forall i :: 0 <= i < |a| ==> b[i].deadline == a[i].deadline
  {
    assert forall i :: 0 <= i < |a| ==> Progress(a[i], b[i]);
  }

  /** Any number of critical sections of any threads in any order. */
  method Run(cfg: Config, hash: string -> nat, steps: nat) returns (g: Gateway, ghost watched: seq<Entry>)
    ensures fresh(g) && g.cfg == cfg && g.Ok()
    ensures g.responseCompleted + g.exchangeTimeout <= g.requestTotal
    ensures |g.table| <= cfg.maxInFlight && g.table.Keys !! g.recent.Keys
    // an id was registered again only after the earlier call had returned, and, if that was published, not before its
    // window was over; in particular no two live calls share an id
    ensures BirthsOk(cfg, g.Now())
    // whatever the entries were at some moment of the run: those terminal then are unchanged now
    ensures Evolves(watched, g.entries)
    ensures AnswersOk(cfg, g.Now())
  {
    hide SharedOk, Evolves, Answered;
    g := new Gateway(cfg, hash);
    watched := g.entries;
    EvolvesReflexive(watched);
    for i := 0 to steps
      invariant fresh(g) && g.cfg == cfg && g.Ok() && Evolves(watched, g.entries)
    {
      var looksNow: bool := *;
      if looksNow {
        watched := g.entries;
        EvolvesReflexive(watched);
      }
      ghost var before := g.entries;
      Step(g);
      EvolvesTransitive(watched, before, g.entries);
    }
    AllOfShared(cfg, g.Now());
  }

  lemma AllOfShared(cfg: Config, s: Shared)
    requires SharedOk(cfg, s)
    ensures s.completed + s.timeouts <= s.total
    ensures |s.table| <= cfg.maxInFlight && s.table.Keys !! s.recent.Keys
    ensures BirthsOk(cfg, s)
    ensures AnswersOk(cfg, s)
  {
    CountersAddUp(cfg, s);
  }

  /** One critical section of some thread. */
  method Step(g: Gateway)
    requires g.Ok()
    modifies g
    ensures g.Ok() && Evolves(old(g.entries), g.entries)
  {
    hide SharedOk, Evolves;
    Shapes(g.cfg, g.Now());
    EvolvesReflexive(g.entries);
    var which: int, k: int, w: Wire, wallMs: int := *, *, *, *;
    if which == 0 {
      var timeoutMs: int, maxBytes: int, sampled: int := *, *, *;
      var refused, call := g.Register(w, if timeoutMs > 0 then timeoutMs else 0, if maxBytes > 0 then maxBytes else 0,
          wallMs, if sampled <= g.clock then sampled else g.clock);
    } else if which == 1 && 0 <= k < |g.stages| && g.stages[k].Publishing? {
      var unknown: bool := *;
      var r := g.PublishFailed(k, unknown);
    } else if which == 2 && 0 <= k < |g.stages| && g.stages[k].Publishing? {
      g.MarkAccepted(k);
    } else if which == 3 && 0 <= k < |g.stages| && g.stages[k].Waiting? {
      g.Wake(k);
    } else if which == 4 && 0 <= k < |g.stages| && g.stages[k].Woken? {
      var r := g.Finish(k);
    } else if which == 5 {
      var found := g.Lookup(w, wallMs);
    } else if which == 6 && 0 <= k < |g.deliveries| {
      g.Complete(k);
    } else if which == 7 && k > 0 {
      var shard: int, sampled: int := *, *;
      g.Sweep(if shard > 0 then shard else 0, k, if sampled <= g.clock then sampled else g.clock);
    } else if which == 8 {
      g.StopCalls();
    } else if which == 9 && g.stopping {
      g.Clear();
    } else if which == 10 {
      g.stopping := false;
    } else if which == 11 {
      // time passes
      var now := g.ReadClock();
    }
  }

  lemma EvolvesReflexive(a: seq<Entry>)
    ensures Evolves(a, a)
  {
  }

  lemma RegisteringFits(cfg: Config, before: Shared, s: Shared, e: Entry)
    requires SharedOk(cfg, before) && SharedOk(cfg, s) && s == AtTime(Counted(before), s.clock)
    requires !e.terminal && !e.mqttAccepted && e.messageId !in s.table && e.messageId !in s.recent
    requires |s.table| < cfg.maxInFlight
    ensures SharedOk(cfg, Registered(s, e)) && Evolves(s.entries, Registered(s, e).entries)
    ensures s.orderly ==> forall i :: 0 <= i < |s.entries| && s.entries[i].messageId == e.messageId ==>
      && i < |s.stages| && s.stages[i].Returned?
      && (s.entries[i].mqttAccepted && s.entries[i].terminal ==> s.clock >= s.entries[i].completedAt + cfg.WindowMs())
  {
    RegisteringKeeps(cfg, s, e);
    if s.orderly { RegisteringIsLate(cfg, s, e.messageId); }
  }

  lemma OwnEntryOnly(cfg: Config, s: Shared, call: nat)
    requires SharedOk(cfg, s) && s.orderly && call < |s.entries| == |s.stages| && LiveCall(s, call)
    ensures s.entries[call].messageId in s.table ==> s.table[s.entries[call].messageId] == call
  {
    if s.entries[call].messageId in s.table { OwnEntry(cfg, s, call); }
  }

  lemma Shapes(cfg: Config, s: Shared)
    requires SharedOk(cfg, s)
    ensures |s.stages| == |s.entries| == |s.tallies|
  {
  }

  lemma WokenFacts(cfg: Config, s: Shared, call: nat)
    requires SharedOk(cfg, s) && call < |s.entries| == |s.stages| && s.stages[call].Woken?
    ensures s.entries[call].terminal && s.entries[call].outcome == s.stages[call].outcome
    ensures s.entries[call].response == s.stages[call].response
    ensures s.entries[call].outcome == TransportOutcome.Accepted ==> Answered(cfg.limits, s.entries[call])
  {
  }

  lemma TableFacts(cfg: Config, s: Shared, id: string)
    requires SharedOk(cfg, s) && id in s.table
    ensures s.table[id] < |s.entries| && s.entries[s.table[id]].messageId == id
  {
  }

  lemma DeliveryFacts(cfg: Config, s: Shared, k: nat)
    requires SharedOk(cfg, s) && k < |s.deliveries|
    ensures s.deliveries[k].handle < |s.entries| == |s.tallies| && ValidResponse(cfg.limits, s.deliveries[k].response)
    ensures s.deliveries[k].response.parsed.Some?
    ensures s.deliveries[k].response.parsed.value.correlationId == s.entries[s.deliveries[k].handle].messageId
  {
  }
}
