/** What surrounds the coordinator and outlives its process: the stored record, the SEC journal, MQTT, the clocks and
    the supply of ids. Every answer of this world is arbitrary, and the process may die before any effect. */
module KeyprovWorld {
  import opened KeyprovBytes
  import opened KeyprovAttempt
  import opened KeyprovLifecycle
  import opened KeyprovTypes
  import opened KeyprovHistory
  import opened KeyprovStore
  import opened KeyprovInvariant

  datatype RejectReason = ContextStale | ContextRequired | ContextUnsupported | IdentityRejected | OtherReason

  /** Accepted, or of unknown outcome, or rejected. */
  datatype PublishOutcome = Taken | Rejected(reason: RejectReason, retryable: bool)

  // ---- Ids are never used up ----

  lemma {:induction false} LongId(ids: set<string>) returns (id: string)
    ensures id != "" && forall x :: x in ids ==> |x| < |id|
  {
    if ids == {} {
      id := "k";
    } else {
      var x :| x in ids;
      id := LongId(ids - {x});
      if |x| >= |id| { id := x + "k"; }
    }
  }

  /** Storing a record enters at most one event into the history, and none that sends or imports. */
  ghost predicate Marks(h: History, next: History)
  {
    next == h || (next.Then? && next.before == h && !next.event.HandedToSec? && !next.event.RequestSent?
                  && !next.event.Restarted?)
  }

  lemma MarkingKeeps(h: History, next: History, rid: string)
    requires Marks(h, next)
    ensures HandedIds(next) == HandedIds(h) && Requests(next, rid) == Requests(h, rid) && OriginOf(next) == OriginOf(h)
    ensures TotalCrashes(next) == TotalCrashes(h)
  {
  }

  /** What persist_locked always writes. */
  ghost predicate Storable(r: Record, s: State)
  {
    && r.state == StateName(s)
    && r.schemaVersion == SCHEMA_VERSION
    && 0 <= r.secImportEvidenceKind <= 5 && 0 <= r.importInvocationResolution <= 2
    && (r.fingerprintVersion > 0 ==> r.attemptFingerprint != "")
  }

  /** The state a stored name is read back as; what is no name counts as WAIT_CLOUD. */
  ghost predicate Names(text: string, s: State)
  {
    text == StateName(s) || (s == WaitCloud && StateFromName(text).None?)
  }

  lemma StorableNames(r: Record, s: State)
    requires Storable(r, s)
    ensures r.state == StateName(s)
  {
  }

  /** What the next load returns after r was saved. */
  method Reloaded(r: Record, s: State) returns (n: Record)
    requires Storable(r, s)
    ensures CoreOf(n) == CoreOf(r) && n.requestId == r.requestId && n.state == StateName(s)
    ensures n.valid <==> n.requestId != ""
    ensures n.legacySnapshotUnknown <==> r.fingerprintVersion != 1
  {
    SavedIsDerived(r);
    n := FromJson(ToJson(r));
  }

  /** The ids a history begins with are in use. */
  lemma StartKnows(o: Origin)
    ensures KnownIds(Start(o)) == {o.rid, o.successor} + o.handed - {""} && HandedIds(Start(o)) == o.handed
    ensures TotalCrashes(Start(o)) == 0 && OriginOf(Start(o)) == o
    ensures forall rid :: Requests(Start(o), rid) == 0
  {
  }

  lemma EmptyIsSpent(cfg: Config, barred: string)
    ensures Spent(cfg, EMPTY_CORE, barred, true) && CoreOf(EMPTY_RECORD) == EMPTY_CORE
  {
  }

  lemma InStepMeansSafe(cfg: Config, c: Core, s: State, h: History, out: Uncounted)
    requires InStep(cfg, c, s, h, out)
    ensures SafeSoFar(cfg, h)
  {
  }

  lemma StartingKeepsStep(cfg: Config, c: Core, s: State, h: History, out: Uncounted)
    requires InStep(cfg, c, s, h, out)
    ensures InStep(cfg, c, s, Then(h, Restarted(out)), Settled)
  {
    LossIsCounted(cfg, c, s, h, out);
  }

  /** A restart changes nothing of what the world keeps apart; and the first of a history comes after no message. */
  lemma StartingKeepsWorld(h: History, lost: Uncounted, rid: string)
    ensures var n := Then(h, Restarted(lost));
      && HandedIds(n) == HandedIds(h) && KnownIds(n) == KnownIds(h) && OriginOf(n) == OriginOf(h)
      && Requests(n, rid) == Requests(h, rid) && (h.Start? ==> TotalCrashes(n) == TotalCrashes(h))
  {
  }

  /** The state a record names; what is no name, or stands in no valid record, counts as WAIT_CLOUD. */
  method ReadState(r: Record, ghost named: State) returns (s: State)
    requires r.valid && !r.legacySnapshotUnknown ==> Names(r.state, named)
    ensures r.valid && !r.legacySnapshotUnknown ==> s == named
    ensures !r.valid ==> s == WaitCloud
  {
    s := WaitCloud;
    StateNameRoundTrip(named);
    if r.valid {
      var found := StateFromName(r.state);
      if found.Some? { s := found.value; }
    }
  }

  /** The state a process takes a record to be in that names this one. */
  function ReadAs(r: Record, named: State): State
  {
    if r.legacySnapshotUnknown then LegacySnapshotUnknown else named
  }

  /** A barred id that has not spent its budget stands in a record without a readable fingerprint. */
  ghost predicate BarredIsLegacy(cfg: Config, r: Record, barred: string)
  {
    barred != "" && r.requestId == barred && r.budget.requestSendCount < cfg.params.requestLimit ==>
      r.legacySnapshotUnknown
  }

  lemma StoredIsLegacy(cfg: Config, r: Record, n: Record, barred: string, apart: bool)
    requires Spent(cfg, CoreOf(n), barred, apart) && CoreOf(n) == CoreOf(r)
    requires n.legacySnapshotUnknown <==> r.fingerprintVersion != 1
    ensures BarredIsLegacy(cfg, n, barred)
  {
    if barred != "" && n.requestId == barred && r.fingerprintVersion != 0 {
      BarredIsSpent(cfg, CoreOf(n), barred, apart);
    }
  }

  /** The state of a record and what it names. */
  ghost predicate InState(r: Record, s: State)
  {
    r.requestId != "" ==> if r.legacySnapshotUnknown then s.LegacySnapshotUnknown? else Names(r.state, s)
  }

  lemma StoredInState(n: Record, s: State)
    requires n.state == StateName(s)
    ensures InState(n, ReadAs(n, s))
  {
  }

  lemma ReadInStep(cfg: Config, n: Record, c: Core, s: State, h: History)
    requires InStep(cfg, c, s, h, Settled)
    ensures InStep(cfg, c, ReadAs(n, s), h, Settled)
  {
  }

  /** One store, and the history of the processes over it. A process whose store does not work has a world of its own,
      with a store that is empty and goes with it; the SEC journal and the ids in use are handed on. */
  class World {
    const cfg: Config
    /** This is the world of one process without a store that works. */
    ghost const stray: bool
    /** The record the history begins with is one the release rule can be relied on from. */
    ghost const tracked: bool
    /** That record's successor is another id. */
    ghost const apart: bool
    /** An id of the initial record that must stay silent, or the empty string. */
    ghost const barred: string
    /** Where the history begins. */
    ghost const origin: Origin
    /** The ids in use elsewhere when it began. */
    ghost const elsewhere: set<string>

    /** The record last written. */
    var stored: Record
    var journal: set<string>
    var used: set<string>
    var alive: bool
    ghost var log: History
    ghost var out: Uncounted
    /** What SEC was handed by processes of other worlds since. */
    ghost var foreign: set<string>
    /** What the record last written says about safety, and the state the next process will take it to be in. */
    ghost var core: Core
    ghost var phase: State
    /** The earliest reading of the wall clock in the present step. */
    ghost var earliest: Option<int>

    /** A world with a stored record and a SEC journal from before; the history starts now. */
    constructor (cfg: Config, initial: Record, state: State, journal: set<string>, used: set<string>,
                 ghost barred: string)
      requires barred != "" ==> barred in used
      requires initial.valid <==> initial.requestId != ""
      requires initial.requestId != "" ==> Names(initial.state, state)
      requires Spent(cfg, CoreOf(initial), barred, false) && BarredIsLegacy(cfg, initial, barred)
      ensures Ok() && out.Settled? && !alive && !stray
      ensures this.cfg == cfg && this.barred == barred && core == CoreOf(initial) && stored == initial
      ensures log == Start(OriginFor(core, journal)) && origin == OriginOf(log)
      ensures tracked == StartsWell(CoreOf(initial), ReadAs(initial, state))
    {
      this.cfg, this.barred, this.journal, stray, elsewhere, foreign := cfg, barred, journal, false, {}, {};
      var s := if initial.requestId == "" then WaitCloud else ReadAs(initial, state);
      var before := CoreOf(initial);
      this.used := used + {before.rid, before.successor} + journal;
      apart := before.rid == "" || before.successor != before.rid;
      tracked := StartsWell(before, ReadAs(initial, state));
      stored, core, phase := initial, before, s;
      alive, log, out, earliest := false, Start(OriginFor(before, journal)), Settled, None;
      origin := OriginFor(before, journal);
      new;
      hide Names, SafeSoFar, CoreOk, StateName, StateFromName, InStep, KnownIds, HandedIds, Requests, OriginOf;
      StartKnows(OriginFor(core, journal));
      if tracked { RecordIsInStep(cfg, core, phase, journal); }
    }

    /** The world of a process without a store that works, while the processes of another one rest. */
    constructor Stray(rest: World)
      requires rest.Ok() && !rest.stray
      ensures Ok() && out.Settled? && !alive && stray && tracked && apart
      ensures cfg == rest.cfg && barred == rest.barred && stored == EMPTY_RECORD
      ensures log == Start(OriginFor(EMPTY_CORE, rest.journal)) && origin == OriginOf(log)
      ensures elsewhere == rest.used - rest.journal - {""}
    {
      cfg, barred, journal, stray, foreign := rest.cfg, rest.barred, rest.journal, true, {};
      used, elsewhere := rest.used + rest.journal, rest.used - rest.journal - {""};
      apart, tracked := true, true;
      stored, core, phase := EMPTY_RECORD, EMPTY_CORE, WaitCloud;
      alive, log, out, earliest := false, Start(OriginFor(EMPTY_CORE, rest.journal)), Settled, None;
      origin := OriginFor(EMPTY_CORE, rest.journal);
      new;
      hide Names, SafeSoFar, CoreOk, StateName, StateFromName, InStep, KnownIds, HandedIds, Requests, OriginOf, Spent;
      StartKnows(OriginFor(core, journal));
      RecordIsInStep(cfg, core, phase, journal);
      EmptyIsSpent(cfg, barred);
    }

    /** Ids of other histories. */
    ghost function Others(): set<string>
      reads this`foreign
    {
      elsewhere + foreign
    }

    ghost predicate Ok()
      reads this
    {
      && core == CoreOf(stored)
      && (stored.valid <==> stored.requestId != "")
      && InState(stored, phase)
      && Spent(cfg, core, barred, apart) && BarredIsLegacy(cfg, stored, barred)
      && (barred != "" ==> barred in used && Requests(log, barred) == 0)
      && (tracked ==> KnownIds(log) <= used && InStep(cfg, core, phase, log, out))
      && (tracked ==> IdsApart(log))
      && OriginOf(log) == origin
      && (stray ==> tracked && apart && foreign == {} && TotalCrashes(log) == 0)
    }

    /** The ids of this history and those of others are different. */
    ghost predicate IdsApart(h: History)
      reads this`journal, this`used, this`foreign
    {
      && journal == HandedIds(h) + foreign && Others() <= used && "" !in Others() && KnownIds(h) !! Others()
    }

    /** What holds of a record at the moment it is stored and the history becomes next. */
    ghost predicate MayStore(c: Core, s: State, next: History)
      reads this
    {
      && Spent(cfg, c, barred, apart)
      && Marks(log, next)
      && (tracked ==> KnownIds(next) <= used && KnownIds(next) !! Others() && InStep(cfg, c, s, next, Settled))
    }

    /** A living process has counted what it sent. */
    ghost predicate Calm()
      reads this`alive, this`out
    {
      alive ==> out.Settled?
    }

    /** The process dies, unless it is dead already or lives on. What is uncounted then stays so. */
    method MayDie()
      requires Ok()
      modifies this`alive
      ensures Ok() && (alive ==> old(alive))
    {
      hide InStep, Names, Spent, SafeSoFar, StateName, StateFromName, KnownIds, HandedIds, Requests, CoreOf;
      var dies: bool := *;
      alive := alive && !dies;
    }

    /** What was saved is what load returns, so saving keeps the loaded form of the record. */
    method Save(r: Record, s: State, ghost next: History)
      requires Ok()
      requires Storable(r, s)
      requires alive ==> MayStore(CoreOf(r), s, next)
      modifies this`alive, this`log, this`out, this`stored, this`core, this`phase
      ensures Ok() && Calm()
      ensures alive ==> old(alive) && core == CoreOf(r) && phase == ReadAs(stored, s) && log == next
      ensures alive ==> stored.requestId == r.requestId && (stored.legacySnapshotUnknown <==> r.fingerprintVersion != 1)
      ensures !alive ==> unchanged(`log, `out, `stored, `core, `phase)
    {
      hide SafeSoFar, CoreOk, Spent, Storable, Ok;
      MayDie();
      if alive { Write(r, s, next); }
    }

    method Write(r: Record, s: State, ghost next: History)
      requires Ok() && Storable(r, s) && MayStore(CoreOf(r), s, next)
      modifies this`log, this`out, this`stored, this`core, this`phase
      ensures Ok() && out.Settled? && core == CoreOf(r) && phase == ReadAs(stored, s) && log == next
      ensures stored.requestId == r.requestId && (stored.legacySnapshotUnknown <==> r.fingerprintVersion != 1)
    {
      hide Names, InStep, Spent, StateName, Storable, HandedIds, KnownIds, Requests, Marks, CoreOf, OriginOf,
        BarredIsLegacy, InState, ReadAs;
      StorableNames(r, s);
      MarkingKeeps(log, next, barred);
      var n := Reloaded(r, s);
      StoredInState(n, s);
      if tracked { ReadInStep(cfg, n, CoreOf(r), s, next); }
      StoredIsLegacy(cfg, r, n, barred, apart);
      stored, core, phase, log, out := n, CoreOf(r), ReadAs(n, s), next, Settled;
    }

    /** Publish to the cloud. */
    method Publish(m: Message) returns (outcome: PublishOutcome)
      requires Ok() && Calm()
      requires alive && tracked ==> SafeSoFar(cfg, Then(log, EventOf(m))) && !phase.SupersededRemote?
      requires alive && m.RequestMessage? && barred != "" ==> m.rid != barred
      modifies this`alive, this`log, this`out
      ensures Ok()
      ensures alive ==> old(alive)
      ensures alive && outcome.Taken? ==> log == Then(old(log), EventOf(m)) && out == UncountedBy(m)
      ensures !alive || !outcome.Taken? ==> log == old(log) && out == old(out)
    {
      MayDie();
      outcome := *;
      if alive && outcome.Taken? {
        if tracked { SendingKeepsStep(cfg, core, phase, log, m); }
        log, out := Then(log, EventOf(m)), UncountedBy(m);
      }
    }

    /** Ask SEC for the outcome of an import. It reports COMMITTED only for what it was handed. */
    method QueryImportResult(rid: string) returns (a: SecAnswer)
      requires Ok() && Calm() && (alive ==> rid == core.rid)
      modifies this`alive, this`log
      ensures Ok() && Calm()
      ensures alive ==> old(alive)
      ensures alive ==> log == if Classify(a) == Committed then Then(old(log), CommittedAnswer(rid)) else old(log)
    {
      MayDie();
      a := ArbitraryAnswer(rid in journal);
      if Classify(a) == Committed { NoteCommitted(rid); }
    }

    /** Hand the items of an import to SEC and wait for its answer. */
    method ImportKeys(rid: string) returns (a: SecAnswer)
      requires Ok() && Calm()
      requires alive ==> rid == core.rid
      requires alive && tracked ==> SafeSoFar(cfg, Then(log, HandedToSec(rid))) && !phase.SupersededRemote?
      modifies this`alive, this`log, this`journal
      ensures Ok() && Calm()
      ensures alive ==> old(alive)
      ensures alive ==>
        log == if Classify(a) == Committed then Then(Then(old(log), HandedToSec(rid)), CommittedAnswer(rid))
               else Then(old(log), HandedToSec(rid))
    {
      MayDie();
      if alive {
        if tracked { HandingKeepsStep(cfg, core, phase, log, rid); }
        log, journal := Then(log, HandedToSec(rid)), journal + {rid};
      }
      a := ArbitraryAnswer(rid in journal);
      if Classify(a) == Committed { NoteCommitted(rid); }
    }

    method ArbitraryAnswer(handed: bool) returns (a: SecAnswer)
      ensures Classify(a) == Committed ==> handed
    {
      a := *;
      if Classify(a) == Committed && !handed { a := SecAnswer(OtherCode, a.state, a.items); }
    }

    ghost method NoteCommitted(rid: string)
      requires Ok() && Calm() && rid in journal && (alive ==> rid == core.rid)
      modifies this`log
      ensures Ok() && log == if alive then Then(old(log), CommittedAnswer(rid)) else old(log)
    {
      if alive {
        if tracked {
          CurrentIsKnown(cfg, core, phase, log, out);
          SafeGrows(cfg, log, CommittedAnswer(rid));
          HarmlessKeepsStep(cfg, core, phase, log, CommittedAnswer(rid));
        }
        log := Then(log, CommittedAnswer(rid));
      }
    }

    /** Enter what the coordinator read into the history. */
    ghost method Note(e: Event)
      requires Ok() && Calm() && (e.JournalRead? || e.StatusSeen?)
      requires alive && tracked ==> SafeSoFar(cfg, Then(log, e))
      modifies this`log
      ensures Ok() && log == if alive then Then(old(log), e) else old(log)
    {
      if alive {
        if tracked { HarmlessKeepsStep(cfg, core, phase, log, e); }
        log := Then(log, e);
      }
    }

    /** A new process starts and finds the stored record and the state named in it. If the process before it died
        between a message and the record that counts it, the restart is the one that lost it. */
    method Restart() returns (r: Record, s: State)
      requires Ok() && Calm() && (stray ==> log.Start?)
      modifies this`alive, this`log, this`out, this`earliest
      ensures Ok() && alive && out.Settled? && log == Then(old(log), Restarted(old(out)))
      ensures r == stored && (r.requestId == "" ==> s == WaitCloud)
      ensures r.requestId != "" && !r.legacySnapshotUnknown ==> s == phase
    {
      hide SafeSoFar, CoreOk, Spent, InStep, StateName, StateFromName, BarredIsLegacy, KnownIds, HandedIds;
      hide OriginOf, Requests, TotalCrashes, CoreOf, Names;
      StartingKeepsWorld(log, out, barred);
      if tracked { StartingKeepsStep(cfg, core, phase, log, out); }
      alive, log, out, earliest := true, Then(log, Restarted(out)), Settled, None;
      r := stored;
      s := ReadState(stored, phase);
    }

    /** The process of another world has ended: what it handed to SEC stays there, and its ids stay in use. */
    method Absorb(other: World)
      requires Ok() && Calm() && !stray && other.Ok() && other.stray && other != this
      requires other.elsewhere == used - journal - {""} && other.origin.handed == journal
      modifies this`journal, this`used, this`foreign
      ensures Ok() && Calm() && journal == old(journal) + other.journal
    {
      hide SafeSoFar, CoreOk, Spent, InStep, BarredIsLegacy, KnownIds, HandedIds, OriginOf, Requests, TotalCrashes;
      hide CoreOf, InState;
      InStepMeansSafe(other.cfg, other.core, other.phase, other.log, other.out);
      SafeSoFarIsSafe(other.cfg, other.log);
      HandedIsKnown(other.cfg, other.log);
      assert forall id :: id in other.journal - journal ==> id in KnownIds(other.log) && id !in used;
      foreign := foreign + (other.journal - journal);
      used := used + other.used + other.journal;
      journal := journal + other.journal;
      assert tracked ==> journal == HandedIds(log) + foreign;
    }

    /** The readings of the clock are told apart step by step. */
    ghost method BeginStep()
      modifies this`earliest
      ensures earliest.None? && (old(Ok()) ==> Ok())
    {
      earliest := None;
    }

    method NowMs() returns (t: int)
      modifies this`earliest
      ensures old(Ok()) ==> Ok()
      ensures earliest.Some? && earliest.value <= t
      ensures old(earliest.Some?) ==> earliest.value <= old(earliest.value)
    {
      t := *;
      earliest := Some(if earliest.Some? && earliest.value < t then earliest.value else t);
    }

    method MonotonicMs() returns (t: int)
    {
      t := *;
    }

    /** The clock as the lifecycle rules see it, with its own bound on the error. */
    method ClockSource() returns (c: Clock)
    {
      c := *;
    }

    /** generate_id: two 64-bit random numbers, taken to be a supply of new ids. */
    method GenerateId(current: string) returns (id: string)
      modifies this`used
      ensures old(Ok()) ==> Ok()
      ensures id != "" && id != current && id !in old(used) && used == old(used) + {id}
    {
      ghost var long := LongId(used + {current});
      id :| id != "" && id != current && id !in used;
      used := used + {id};
    }
  }
}
