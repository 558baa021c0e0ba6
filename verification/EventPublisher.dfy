/** The downlink event publisher: a bounded queue with a count per service, filled by producers and drained by one
    worker (src/tsp_event_publisher.cpp). Each method is one critical section. */
module EventPublisher {
  import opened KeyprovBytes

  datatype VehicleEvent = VehicleEvent(service: string, envelope: Bytes, traceId: string, requestId: string)

  /** What happens to a new event whose service has filled its share of the queue. */
  datatype SlowPolicy = Disconnect | Drop | Reject

  /** How many events of a service are in a list. */
  function Queued(q: seq<VehicleEvent>, service: string): nat
  {
    if q == [] then 0 else (if q[0].service == service then 1 else 0) + Queued(q[1..], service)
  }

  lemma {:induction false} QueuedAppend(q: seq<VehicleEvent>, e: VehicleEvent, service: string)
    ensures Queued(q + [e], service) == Queued(q, service) + if e.service == service then 1 else 0
  {
    if q == [] {
      assert q + [e] == [e] && [e][1..] == [];
    } else {
      assert (q + [e])[1..] == q[1..] + [e];
      QueuedAppend(q[1..], e, service);
    }
  }

  lemma {:induction false} QueuedSome(q: seq<VehicleEvent>, service: string)
    ensures Queued(q, service) > 0 <==> exists i :: 0 <= i < |q| && q[i].service == service
  {
    if q != [] {
      QueuedSome(q[1..], service);
      if i :| 0 <= i < |q| && q[i].service == service {
        if i > 0 { assert q[1..][i - 1] == q[i]; }
      }
      if Queued(q[1..], service) > 0 {
        var k :| 0 <= k < |q[1..]| && q[1..][k].service == service;
        assert q[k + 1].service == service;
      }
    }
  }

  class Publisher {
    const capacity: u32
    const policy: SlowPolicy
    var queue: seq<VehicleEvent>
    var serviceCount: map<string, nat>
    var running: bool
    var exited: bool
    /** Everything ever put into the queue, and everything taken out of it, in order. */
    ghost var enqueued: seq<VehicleEvent>
    ghost var popped: seq<VehicleEvent>

    function Count(service: string): nat
      reads this
    {
      if service in serviceCount then serviceCount[service] else 0
    }

    /** Nothing is lost, duplicated or reordered; every count is the number of queued events, within the capacity. */
    ghost predicate Ok()
      reads this
    {
      && enqueued == popped + queue
      && (forall service :: Count(service) == Queued(queue, service) <= capacity)
    }

    constructor (downlinkQueueSize: u32, policy: SlowPolicy)
      ensures Ok() && queue == [] && enqueued == [] && !running && !exited
      ensures capacity == (if downlinkQueueSize == 0 then 256 else downlinkQueueSize) && this.policy == policy
    {
      capacity := if downlinkQueueSize == 0 then 256 else downlinkQueueSize;
      this.policy := policy;
      queue, serviceCount, running, exited, enqueued, popped := [], map[], false, false, [], [];
    }

    /** An event is queued exactly when its service has room; only the policy Reject tells the caller otherwise. */
    method Publish(e: VehicleEvent) returns (ok: bool)
      requires Ok()
      modifies this`queue, this`serviceCount, this`enqueued
      ensures Ok() && popped == old(popped)
      ensures Queued(old(queue), e.service) < capacity ==> queue == old(queue) + [e] && enqueued == old(enqueued) + [e]
      ensures Queued(old(queue), e.service) >= capacity ==> queue == old(queue) && enqueued == old(enqueued)
      ensures ok <==> Queued(old(queue), e.service) < capacity || !policy.Reject?
    {
      var count := Count(e.service);
      // reading a missing count creates it as zero
      serviceCount := serviceCount[e.service := count];
      assert forall service :: Count(service) == old(Count(service));
      if count >= capacity { return !policy.Reject?; }
      forall service
        ensures Queued(queue + [e], service) == Queued(queue, service) + if e.service == service then 1 else 0 {
        QueuedAppend(queue, e, service);
      }
      queue, enqueued := queue + [e], enqueued + [e];
      serviceCount := serviceCount[e.service := count + 1];
      return true;
    }

    /** One look of the worker at the queue: it takes the oldest event, or waits, or ends. It ends only at an instant at
        which the publisher was stopped and the queue is empty. */
    method TakeOrExit() returns (taken: Option<VehicleEvent>)
      requires Ok() && !exited
      modifies this`queue, this`serviceCount, this`popped, this`exited
      ensures Ok() && enqueued == old(enqueued)
      ensures exited <==> !running && old(queue) == []
      ensures exited ==> popped == enqueued && taken.None?
      ensures taken.Some? <==> old(queue) != []
      ensures taken.Some? ==>
        taken.value == old(queue)[0] && queue == old(queue)[1..] && popped == old(popped) + [taken.value]
      ensures taken.None? ==> queue == old(queue) && popped == old(popped)
    {
      if queue == [] {
        exited := !running;
        return None;
      }
      var e := queue[0];
      forall service
        ensures Queued(queue, service) == Queued(queue[1..], service) + if e.service == service then 1 else 0 {
      }
      assert enqueued == (popped + [e]) + queue[1..] by { assert queue == [e] + queue[1..]; }
      queue, popped := queue[1..], popped + [e];
      if e.service in serviceCount && serviceCount[e.service] > 0 {
        serviceCount := serviceCount[e.service := serviceCount[e.service] - 1];
      }
      return Some(e);
    }

    /** A new worker begins. */
    method Start()
      requires Ok()
      modifies this`running, this`exited
      ensures Ok() && running && !exited
    {
      running, exited := true, false;
    }

    method Stop()
      requires Ok()
      modifies this`running
      ensures Ok() && !running
    {
      running := false;
    }
  }

  /** Producers, the worker, start and stop in any order: what came out, followed by what is still queued, is what went
      in, in order. `atExit` is how much had gone in when the worker ended last: all of that has come out. Events that
      are published after that wait until somebody starts the publisher again. */
  method Run(size: u32, policy: SlowPolicy, steps: nat) returns (p: Publisher, ghost atExit: seq<VehicleEvent>)
    ensures p.Ok() && p.enqueued == p.popped + p.queue
    ensures p.exited ==> atExit <= p.popped <= p.enqueued
  {
    p := new Publisher(size, policy);
    p.Start();
    atExit := [];
    for i := 0 to steps
      invariant fresh(p) && p.Ok() && (p.exited ==> atExit <= p.popped)
    {
      var which: int, e: VehicleEvent := *, *;
      if which == 0 {
        var ok := p.Publish(e);
      } else if which == 1 && !p.exited {
        var taken := p.TakeOrExit();
        if p.exited { atExit := p.enqueued; }
      } else if which == 2 {
        p.Stop();
      } else if which == 3 && p.exited {
        p.Start();
      }
    }
  }
}
