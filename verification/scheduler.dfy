/**
 * The per-event scheduling step of main_loop (src/main.c:305-328): the clamp of the lower
 * bound, the rule that EV_SYN events are not randomised, the insertion at the tail of the
 * queue and the update of `prev_release_time`.
 *
 * Times are milliseconds as returned by current_time_ms; `now` is the clock reading taken
 * once the poll reported input (src/main.c:285). The C `long` arithmetic never comes near
 * its limits for real clock values, so times are unbounded integers here.
 */
module Scheduler {
  import opened Events
  import RandomDelay

  /** max_delay: a C `int` that main rejects when negative (src/main.c:398-400). */
  type MaxDelay = d: int | 0 <= d <= 0x7fff_ffff

  /** One `struct entry`: the buffered event, its release time and the index of the device
      it was read from (which is also the index of the uinput clone it goes out on). */
  datatype Entry = Entry(ev: InputEvent, time: int, device: nat)

  /** The release queue and the release time of the last event put into it. */
  datatype Schedule = Schedule(queue: seq<Entry>, prevRelease: int)

  /** The schedule main_loop starts from: an empty queue and prev_release_time = 0. */
  const Initial: Schedule := Schedule([], 0)

  /** Release times never decrease from head to tail. */
  ghost predicate Ordered(q: seq<Entry>) {
    forall i, j :: 0 <= i < j < |q| ==> q[i].time <= q[j].time
  }

  /** `prev_release_time` is the release time of the tail entry, when there is one. */
  ghost predicate Anchored(s: Schedule) {
    |s.queue| > 0 ==> s.queue[|s.queue| - 1].time == s.prevRelease
  }

  /** min(max(prev_release_time - current_time, 0), max_delay): how far the new event must be
      pushed back to stay behind the previous one, capped by the maximum delay. */
  function LowerBound(prevRelease: int, now: int, maxDelay: MaxDelay): (lb: int)
    ensures 0 <= lb <= maxDelay
    ensures prevRelease <= now ==> lb == 0
    ensures now <= prevRelease <= now + maxDelay ==> now + lb == prevRelease
    ensures prevRelease >= now + maxDelay ==> lb == maxDelay
  {
    var backlog := prevRelease - now;
    var positive := if backlog > 0 then backlog else 0;
    if positive < maxDelay then positive else maxDelay
  }

  /** The delay given to `ev` (src/main.c:310-315): exactly the lower bound for an EV_SYN
      event, a draw from [lower bound, max_delay] for any other. */
  function Delay(ev: InputEvent, lb: int, maxDelay: MaxDelay, draw: nat): (d: int)
    requires 0 <= lb <= maxDelay
    ensures ev.evType == EvSyn ==> d == lb
    ensures lb <= d <= maxDelay
  {
    if ev.evType == EvSyn then lb else RandomDelay.RandomBetween(lb, maxDelay, draw)
  }

  /** Buffer `ev`, read from device `device` at time `now`, at the tail of the queue. */
  function Enqueue(s: Schedule, ev: InputEvent, device: nat, now: int, maxDelay: MaxDelay, draw: nat)
    : (s': Schedule)
    ensures s'.queue == s.queue + [Entry(ev, s'.prevRelease, device)]
    ensures now <= s'.prevRelease <= now + maxDelay
    ensures now + LowerBound(s.prevRelease, now, maxDelay) <= s'.prevRelease
    ensures ev.evType == EvSyn ==> s'.prevRelease == now + LowerBound(s.prevRelease, now, maxDelay)
    ensures s.prevRelease - now <= maxDelay ==> s.prevRelease <= s'.prevRelease
  {
    var lb := LowerBound(s.prevRelease, now, maxDelay);
    var time := now + Delay(ev, lb, maxDelay, draw);
    Schedule(s.queue + [Entry(ev, time, device)], time)
  }

  /** Every release time the scheduler can pick: any value of [now + lower bound,
      now + max_delay] is the outcome of some draw for an event other than EV_SYN. */
  lemma EnqueueReachesWindow(s: Schedule, ev: InputEvent, device: nat, now: int, maxDelay: MaxDelay, t: int)
    requires ev.evType != EvSyn
    requires now + LowerBound(s.prevRelease, now, maxDelay) <= t <= now + maxDelay
    ensures exists draw: nat :: Enqueue(s, ev, device, now, maxDelay, draw).prevRelease == t
  {
    var lb := LowerBound(s.prevRelease, now, maxDelay);
    if lb < maxDelay {
      RandomDelay.RandomBetweenReachesAll(lb, maxDelay, t - now);
      var draw: nat :| RandomDelay.RandomBetween(lb, maxDelay, draw) == t - now;
      assert Enqueue(s, ev, device, now, maxDelay, draw).prevRelease == t;
    } else {
      assert Enqueue(s, ev, device, now, maxDelay, 0).prevRelease == t;
    }
  }

  /** While the backlog is at most max_delay, enqueueing keeps the queue in release order. */
  lemma {:induction false} EnqueuePreservesOrder(s: Schedule, ev: InputEvent, device: nat, now: int,
                                                 maxDelay: MaxDelay, draw: nat)
    requires Ordered(s.queue) && Anchored(s)
    requires s.prevRelease - now <= maxDelay
    ensures Ordered(Enqueue(s, ev, device, now, maxDelay, draw).queue)
  {
    var q' := Enqueue(s, ev, device, now, maxDelay, draw).queue;
    forall i, j | 0 <= i < j < |q'|
      ensures q'[i].time <= q'[j].time
    {
      if j == |s.queue| {
        assert q'[i] == s.queue[i];
        assert s.queue[i].time <= s.queue[|s.queue| - 1].time;
      } else {
        assert q'[i] == s.queue[i] && q'[j] == s.queue[j];
      }
    }
  }

  /** When the clock has not moved back since the previous enqueue, the backlog is at most
      max_delay, which is what EnqueuePreservesOrder needs. */
  lemma BacklogBoundedByMonotoneClock(s: Schedule, ev: InputEvent, device: nat, now: int, later: int,
                                      maxDelay: MaxDelay, draw: nat)
    requires now <= later
    ensures Enqueue(s, ev, device, now, maxDelay, draw).prevRelease - later <= maxDelay
  {
  }

  /** With a backlog larger than max_delay (the clock went back), the new event can be
      released before the one queued ahead of it: ordering is not promised there. */
  lemma BacklogBeyondMaxDelayReorders()
    ensures var ev := InputEvent(EvKey, 30, 1);
            var s := Schedule([Entry(ev, 100, 0)], 100);
            var s' := Enqueue(s, ev, 0, 50, 10, 0);
            s.prevRelease - 50 > 10 && Ordered(s.queue) && Anchored(s) && !Ordered(s'.queue)
  {
    var ev := InputEvent(EvKey, 30, 1);
    var s := Schedule([Entry(ev, 100, 0)], 100);
    var s' := Enqueue(s, ev, 0, 50, 10, 0);
    assert s'.queue[1].time == 60;
    assert s'.queue[0].time > s'.queue[1].time;
  }
}
