/** The subscription registrar over its persistent store: starts, catalogue changes, reconnects and retries, in any
    order and over any number of processes (src/subscription_registrar.cpp). */
module SubscriptionRegistrar {
  import opened KeyprovBytes
  import opened SubscriptionSnapshots

  const OWNER := "tsp"
  const BACKOFF_INITIAL_MS := 200
  const BACKOFF_MAX_MS := 5000
  const LAST_GENERATION: u64 := 0xFFFF_FFFF_FFFF_FFFF

  datatype Status = Accepted | Rejected | Unknown

  datatype RegistrationState = NotRegistered | Registering | Registered | Degraded

  // ---- The catalogue's validation ----

  predicate OccursAt(s: string, part: string, i: nat)
  {
    i + |part| <= |s| && s[i..i + |part|] == part
  }

  predicate Contains(s: string, part: string)
  {
    exists i :: 0 <= i <= |s| && OccursAt(s, part, i)
  }

  predicate ValidItem(it: Item)
  {
    it.routeId != "" && it.topic != "" && !Contains(it.topic, "{device_sn}") && it.target != "" && it.qos <= 2
  }

  /** Every item is valid, and no route id occurs twice. */
  method ValidateCatalog(items: seq<Item>) returns (ok: bool)
    ensures ok <==> UniqueRoutes(items) && forall i :: 0 <= i < |items| ==> ValidItem(items[i])
  {
    var seen: set<string> := {};
    for i := 0 to |items|
      invariant forall id :: id in seen <==> exists j :: 0 <= j < i && items[j].routeId == id
      invariant UniqueRoutes(items[..i]) && forall j :: 0 <= j < i ==> ValidItem(items[j])
    {
      if !ValidItem(items[i]) { return false; }
      if items[i].routeId in seen {
        var j :| 0 <= j < i && items[j].routeId == items[i].routeId;
        return false;
      }
      seen := seen + {items[i].routeId};
    }
    assert items[..|items|] == items;
    return true;
  }

  // ---- The backoff ----

  /** 200 ms, doubled with every retry after the first, never more than 5000 ms. */
  function BackoffBase(retries: nat): (base: nat)
    ensures BACKOFF_INITIAL_MS <= base <= BACKOFF_MAX_MS
  {
    if retries <= 1 then BACKOFF_INITIAL_MS
    else
      var twice := 2 * BackoffBase(retries - 1);
      if twice > BACKOFF_MAX_MS then BACKOFF_MAX_MS else twice
  }

  lemma {:induction false} BackoffGrows(n: nat, m: nat)
    requires n <= m
    ensures BackoffBase(n) <= BackoffBase(m)
  {
    if n < m { BackoffGrows(n, m - 1); }
  }

  /** From the sixth retry on the interval is the greatest. */
  lemma BackoffSaturates(n: nat)
    requires n >= 6
    ensures BackoffBase(n) == BACKOFF_MAX_MS
  {
    assert BackoffBase(2) == 400;
    assert BackoffBase(3) == 800;
    assert BackoffBase(4) == 1600;
    assert BackoffBase(5) == 3200;
    BackoffGrows(6, n);
  }

  /** current_backoff_ms: the loop stops early once the maximum is reached. */
  method CurrentBackoff(retryCount: u32) returns (ms: nat)
    ensures BackoffBase(retryCount) <= ms <= BACKOFF_MAX_MS
    ensures ms <= BackoffBase(retryCount) + BackoffBase(retryCount) / 2
  {
    var base := BACKOFF_INITIAL_MS;
    var i := 1;
    while i < retryCount && base < BACKOFF_MAX_MS
      invariant 1 <= i && (i <= retryCount || i == 1)
      invariant base == BackoffBase(i)
    {
      base := base * 2;
      if base > BACKOFF_MAX_MS { base := BACKOFF_MAX_MS; }
      i := i + 1;
    }
    if i < retryCount { BackoffGrows(i, retryCount); }
    var random: nat := *;
    var jitter := if random > 0 then random % (base / 2 + 1) else 0;
    ms := if base + jitter < BACKOFF_MAX_MS then base + jitter else BACKOFF_MAX_MS;
  }

  // ---- The persistent store, and what MQTT has been given ----

  /** A ready store; no crash falls between a submission and the save after it. */
  class Backend {
    var generation: u64
    var digest: ContentDigest
    /** The digests of the generations whose submission was answered ACCEPTED or UNKNOWN. */
    ghost var answered: map<u64, ContentDigest>
    /** The pairs that were stored, one after the other. */
    ghost var adopted: seq<(u64, ContentDigest)>

    constructor ()
      ensures generation == 0 && digest == NoDigest && answered == map[] && adopted == [] && Agreed()
    {
      generation, digest, answered, adopted := 0, NoDigest, map[], [];
    }

    /** The pairs stored so far end in the present one, and grew all the way. */
    ghost predicate Kept()
      reads this`generation, this`digest, this`adopted
    {
      && Growing(adopted)
      && (if generation == 0 then adopted == [] && digest == NoDigest
          else adopted != [] && adopted[|adopted| - 1] == (generation, digest))
    }

    method Save(g: u64, d: ContentDigest)
      requires Kept() && 0 < g && ((g, d) == (generation, digest) || (g > generation && d != digest))
      modifies this`generation, this`digest, this`adopted
      ensures generation == g && digest == d && Kept()
      ensures adopted == if (g, d) == (old(generation), old(digest)) then old(adopted) else old(adopted) + [(g, d)]
    {
      if (g, d) != (generation, digest) { adopted := adopted + [(g, d)]; }
      generation, digest := g, d;
    }

    /** No answered generation is later than the stored one, and the stored one was answered for the stored digest. */
    ghost predicate Agreed()
      reads this
    {
      && (forall g :: g in answered ==> 0 < g <= generation)
      && (generation in answered ==> answered[generation] == digest)
      && (generation == 0 ==> digest == NoDigest)
      && Kept()
    }
  }

  /** Every change of content came with a greater generation. */
  ghost predicate Growing(adopted: seq<(u64, ContentDigest)>)
  {
    && (forall i, j :: 0 <= i < j < |adopted| ==> adopted[i].0 < adopted[j].0)
    && (forall i :: 0 < i < |adopted| ==> adopted[i].1 != adopted[i - 1].1)
  }

  /** Answers are never taken back and never contradicted. */
  ghost predicate OneDigestEach(before: map<u64, ContentDigest>, now: map<u64, ContentDigest>)
  {
    forall g :: g in before ==> g in now && now[g] == before[g]
  }

  class Registrar {
    const backend: Backend

    var catalog: seq<Item>
    var current: Snapshot
    var acceptedGeneration: u64
    var acceptedDigest: ContentDigest
    var retryCount: u32
    var nextRetryMs: int
    var submittedOnce: bool
    var lastConnected: bool
    var state: RegistrationState
    /** How often the branch for a digest conflict was taken. */
    ghost var conflicts: nat

    constructor (backend: Backend, catalog: seq<Item>)
      ensures this.backend == backend && this.catalog == catalog && !submittedOnce && acceptedGeneration == 0
      ensures conflicts == 0
    {
      this.backend, this.catalog := backend, catalog;
      current := Snapshot("", 0, NoDigest, false, []);
      acceptedGeneration, acceptedDigest, retryCount, nextRetryMs := 0, NoDigest, 0, 0;
      submittedOnce, lastConnected, state, conflicts := false, false, NotRegistered, 0;
    }

    /** The invariant of a registrar that was started. */
    ghost predicate Ok()
      reads this, backend
    {
      && backend.Agreed() && conflicts == 0
      && current.generation == backend.generation > 0 && current.digest == backend.digest
      && current.digest == DigestOf(catalog) && current.items == SortedByRouteId(catalog)
      && (acceptedGeneration > 0 ==>
            acceptedGeneration in backend.answered && backend.answered[acceptedGeneration] == acceptedDigest)
      && (state.Registered? ==> acceptedGeneration == current.generation && acceptedDigest == current.digest)
    }

    /** submit_snapshot_locked. A generation that was accepted with another digest is refused on the spot; otherwise
        MQTT decides, or its answer gets lost. */
    method Submit(snap: Snapshot) returns (status: Status)
      modifies this`acceptedGeneration, this`acceptedDigest, this`retryCount, this`nextRetryMs, this`state,
        this`conflicts,
        backend`answered
      ensures var conflict := old(acceptedGeneration) == snap.generation && old(acceptedGeneration) > 0
          && old(acceptedDigest) != snap.digest;
        && conflicts == old(conflicts) + (if conflict then 1 else 0)
        && (conflict ==> status.Rejected?)
      ensures backend.answered == if status.Rejected? then old(backend.answered)
          else old(backend.answered)[snap.generation := snap.digest]
      ensures status.Accepted? ==>
        state.Registered? && acceptedGeneration == snap.generation && acceptedDigest == snap.digest
      ensures !status.Accepted? ==>
        acceptedGeneration == old(acceptedGeneration) && acceptedDigest == old(acceptedDigest)
      ensures status.Unknown? ==> state == old(state)
      ensures status.Rejected? ==> state.Degraded?
    {
      if acceptedGeneration == snap.generation && acceptedGeneration > 0 && acceptedDigest != snap.digest {
        conflicts, state := conflicts + 1, Degraded;
        return Rejected;
      }
      status := *;
      if !status.Rejected? { backend.answered := backend.answered[snap.generation := snap.digest]; }
      if status.Accepted? {
        acceptedGeneration, acceptedDigest := snap.generation, snap.digest;
        retryCount, nextRetryMs, state := 0, 0, Registered;
      } else if status.Rejected? {
        state := Degraded;
      }
    }

    method ScheduleRetry(nowMs: int)
      modifies this`retryCount, this`nextRetryMs
      ensures nextRetryMs > nowMs && nextRetryMs <= nowMs + BACKOFF_MAX_MS
    {
      retryCount := (retryCount + 1) % 0x1_0000_0000;
      var backoff := CurrentBackoff(retryCount);
      nextRetryMs := nowMs + backoff;
    }

    /** A new registrar, or one that was started before, stopped or not. */
    ghost predicate CanStart()
      reads this, backend
    {
      && backend.Agreed() && conflicts == 0
      && (acceptedGeneration > 0 ==>
            acceptedGeneration in backend.answered && backend.answered[acceptedGeneration] == acceptedDigest)
    }

    /** start: take up the stored generation, or the next one if the catalogue differs; store it, then submit it. */
    method Start(connected: bool, nowMs: int)
      requires CanStart() && backend.generation < LAST_GENERATION
      modifies this, backend
      ensures Ok() && submittedOnce && catalog == old(catalog)
      ensures OneDigestEach(old(backend.answered), backend.answered)
      ensures backend.generation ==
        if old(backend.generation) > 0 && DigestOf(catalog) == old(backend.digest) then old(backend.generation)
        else old(backend.generation) + 1
    {
      hide DigestOf, SortedByRouteId, backend.Kept, Build;
      TakeUp();
      state := Registering;
      var status := Submit(current);
      submittedOnce := true;
      if !status.Accepted? { ScheduleRetry(nowMs); }
      lastConnected := connected;
    }

    /** Build the snapshot of the catalogue and store its generation. */
    method TakeUp()
      requires CanStart() && backend.generation < LAST_GENERATION
      modifies this`current, backend`generation, backend`digest, backend`adopted
      ensures CanStart() && current.generation == backend.generation > 0
      ensures current.digest == backend.digest == DigestOf(catalog)
      ensures current.items == SortedByRouteId(catalog)
      ensures backend.generation in backend.answered ==> backend.answered[backend.generation] == backend.digest
      ensures backend.generation ==
        if old(backend.generation) > 0 && DigestOf(catalog) == old(backend.digest) then old(backend.generation)
        else old(backend.generation) + 1
    {
      hide SortedByRouteId, backend.Kept;
      current := Build(catalog, OWNER, backend.generation, backend.digest);
      backend.Save(current.generation, current.digest);
    }

    method Stop()
      requires Ok()
      modifies this`state
      ensures Ok() && state.NotRegistered?
    {
      state := NotRegistered;
    }

    /** apply_catalog_change. A change is adopted, under the next generation, unless MQTT rejects it; what is refused
        leaves catalogue, generation and store alone. */
    method ApplyCatalogChange(items: seq<Item>, nowMs: int) returns (valid: bool)
      requires Ok() && backend.generation < LAST_GENERATION
      modifies this`catalog, this`current, this`acceptedGeneration, this`acceptedDigest, this`retryCount,
        this`nextRetryMs, this`state, this`conflicts, backend
      ensures Ok() && OneDigestEach(old(backend.answered), backend.answered)
      ensures valid <==> UniqueRoutes(items) && forall i :: 0 <= i < |items| ==> ValidItem(items[i])
      ensures current == old(current) ||
        (valid && DigestOf(items) != old(current.digest) && catalog == items && current.digest == DigestOf(items)
         && current.generation == old(current.generation) + 1)
      ensures current == old(current) ==> catalog == old(catalog) && backend.generation == old(backend.generation)
      ensures state.Degraded? && !old(state).Degraded? ==> current == old(current)
    {
      hide DigestOf, SortedByRouteId, backend.Kept, ValidItem, UniqueRoutes;
      valid := ValidateCatalog(items);
      if !valid { return; }
      var candidate := Build(items, OWNER, backend.generation, backend.digest);
      if candidate.digest == current.digest { return; }
      state := Registering;
      var status := Submit(candidate);
      if status.Rejected? {
        ScheduleRetry(nowMs);
        return;
      }
      catalog, current := items, candidate;
      backend.Save(candidate.generation, candidate.digest);
      if status.Unknown? { ScheduleRetry(nowMs); }
    }

    // ---- check_connection_and_retry, critical section by critical section ----

    /** The connection is compared with the last look at it. */
    method ObserveConnection(connected: bool) returns (reconnected: bool)
      requires Ok()
      modifies this`lastConnected, this`state
      ensures Ok() && lastConnected == connected
      ensures reconnected <==> connected && !old(lastConnected)
      ensures state == if !connected && old(lastConnected) then NotRegistered else old(state)
    {
      reconnected := connected && !lastConnected;
      if !connected && lastConnected { state := NotRegistered; }
      lastConnected := connected;
    }

    /** After a reconnect the current snapshot is submitted again, under the same generation. */
    method Resubmit(nowMs: int)
      requires Ok()
      modifies this`acceptedGeneration, this`acceptedDigest, this`retryCount, this`nextRetryMs, this`state,
        this`conflicts, backend`answered
      ensures Ok() && OneDigestEach(old(backend.answered), backend.answered)
      ensures !state.Registered? ==> nextRetryMs > nowMs
    {
      hide DigestOf, SortedByRouteId;
      state := Registering;
      var status := Submit(current);
      if !status.Accepted? { ScheduleRetry(nowMs); }
    }

    method RetryIfDue(nowMs: int)
      requires Ok()
      modifies this`acceptedGeneration, this`acceptedDigest, this`retryCount, this`nextRetryMs, this`state,
        this`conflicts, backend`answered
      ensures Ok() && OneDigestEach(old(backend.answered), backend.answered)
      ensures old(state).Registered? || nowMs < old(nextRetryMs) ==>
        state == old(state) && backend.answered == old(backend.answered)
      ensures !state.Registered? ==> nextRetryMs > nowMs
    {
      if !state.Registered? && nowMs >= nextRetryMs { Resubmit(nowMs); }
    }
  }

  /** Any number of processes over one store, each with any catalogue, in any order of its steps. Every generation that
      was ever answered has kept one digest; every adopted change of content has a greater generation; the branch for a
      digest conflict is never taken; a registered registrar has registered what is current. */
  method Run(steps: nat) returns (backend: Backend, registrar: Registrar, ghost watched: map<u64, ContentDigest>)
    requires steps < LAST_GENERATION - 1
    ensures registrar.backend == backend && registrar.Ok() && registrar.conflicts == 0
    ensures OneDigestEach(watched, backend.answered) && Growing(backend.adopted)
    ensures registrar.state.Registered? ==>
      registrar.acceptedGeneration == registrar.current.generation
          && registrar.acceptedDigest == registrar.current.digest
  {
    hide DigestOf, SortedByRouteId, ValidItem, UniqueRoutes, Growing;
    backend := new Backend();
    var first: seq<Item> := *;
    registrar := new Registrar(backend, first);
    registrar.Start(false, 0);
    watched := backend.answered;
    for i := 0 to steps
      invariant fresh(backend) && fresh(registrar) && registrar.backend == backend && registrar.Ok()
      invariant backend.generation <= i + 1
      invariant OneDigestEach(watched, backend.answered)
    {
      ghost var before := backend.answered;
      var looksNow: bool := *;
      if looksNow { watched := backend.answered; }
      var which: int, nowMs: int, connected: bool, items: seq<Item> := *, *, *, *;
      if which == 0 {
        registrar := new Registrar(backend, items);
        registrar.Start(connected, nowMs);
      } else if which == 1 {
        var valid := registrar.ApplyCatalogChange(items, nowMs);
      } else if which == 2 {
        var reconnected := registrar.ObserveConnection(connected);
      } else if which == 3 {
        registrar.Resubmit(nowMs);
      } else if which == 4 {
        registrar.RetryIfDue(nowMs);
      } else if which == 5 {
        registrar.Start(connected, nowMs);
      } else {
        registrar.Stop();
      }
    }
  }
}
