/**
 * main_loop (src/main.c:235-344) as a state machine. Each pass of the `while (!interrupt)`
 * loop is a Round: a clock reading, the head-only drain, and then, if poll reported input,
 * a second clock reading and one event from every ready device in device order, each run
 * through the rescue check and buffered. The clock, poll and read are inputs: a Round says
 * what they returned.
 */
module Engine {
  import opened Events
  import opened Scheduler
  import opened Emission
  import RescueCombo

  /** What main_loop reads from the globals set up before it runs. */
  datatype Config = Config(maxDelay: MaxDelay, rescueKeys: seq<nat>, deviceCount: nat)

  /** The loop's state: the queue with prev_release_time, rescue_state, the interrupt flag,
      and everything written to the uinput clones so far. */
  datatype State = State(sched: Schedule, held: seq<bool>, interrupt: bool, outputs: Outputs)

  /** One event read from ready device `device`, with the random word its delay consumes. */
  datatype Arrival = Arrival(device: nat, ev: InputEvent, draw: nat)

  /** One pass of the loop: the clock before the drain, the clock after poll returned, and the
      events read in that pass (none when poll timed out). */
  datatype Round = Round(drainTime: int, arrivalTime: int, arrivals: seq<Arrival>)

  /** The state main_loop starts in: empty queue, prev_release_time 0, no rescue key held. */
  function Start(cfg: Config): (st: State)
    ensures WellShaped(cfg, st) && Ordered(st.sched.queue) && !st.interrupt
    ensures forall j :: 0 <= j < |st.held| ==> !st.held[j]
    ensures forall dev :: 0 <= dev < cfg.deviceCount ==> st.outputs[dev] == [] && EventsOf(st.sched.queue, dev) == []
  {
    State(Scheduler.Initial, seq(|cfg.rescueKeys|, _ => false), false, seq(cfg.deviceCount, _ => []))
  }

  /** What holds of the state between rounds whatever the clock does. */
  ghost predicate WellShaped(cfg: Config, st: State) {
    && |st.held| == |cfg.rescueKeys|
    && |st.outputs| == cfg.deviceCount
    && DevicesBelow(st.sched.queue, cfg.deviceCount)
    && Anchored(st.sched)
  }

  /** The backlog behind clock reading `clock` is at most max_delay. */
  ghost predicate Calm(cfg: Config, st: State, clock: int) {
    st.sched.prevRelease - clock <= cfg.maxDelay
  }

  /** One read per ready device, in increasing device order, from devices that exist. */
  ghost predicate WellFormedArrivals(cfg: Config, arrivals: seq<Arrival>) {
    && (forall k :: 0 <= k < |arrivals| ==> arrivals[k].device < cfg.deviceCount)
    && (forall j, k :: 0 <= j < k < |arrivals| ==> arrivals[j].device < arrivals[k].device)
  }

  /** Every round's arrivals are well formed. */
  ghost predicate WellFormedRounds(cfg: Config, rounds: seq<Round>) {
    forall k :: 0 <= k < |rounds| ==> WellFormedArrivals(cfg, rounds[k].arrivals)
  }

  /** The clock readings of `rounds`, in the order the loop takes them, never go back and
      start no earlier than `clock`. */
  ghost predicate ClockFrom(rounds: seq<Round>, clock: int)
    decreases |rounds|
  {
    rounds == []
    || (clock <= rounds[0].drainTime <= rounds[0].arrivalTime && ClockFrom(rounds[1..], rounds[0].arrivalTime))
  }

  lemma EventsOfSingle(e: Entry, d: nat)
    ensures EventsOf([e], d) == if e.device == d then [e.ev] else []
  {
    assert [e][1..] == [];
  }

  /** The events of `arrivals`, in reading order. */
  function EventsRead(arrivals: seq<Arrival>): (evs: seq<InputEvent>)
    ensures |evs| == |arrivals|
    ensures forall k :: 0 <= k < |arrivals| ==> evs[k] == arrivals[k].ev
  {
    seq(|arrivals|, k requires 0 <= k < |arrivals| => arrivals[k].ev)
  }

  /** The events of `arrivals` read from device `dev`. */
  function EventsFrom(arrivals: seq<Arrival>, dev: nat): seq<InputEvent>
  {
    if arrivals == [] then []
    else (if arrivals[0].device == dev then [arrivals[0].ev] else []) + EventsFrom(arrivals[1..], dev)
  }

  lemma {:induction false} EventsFromAppend(arrivals: seq<Arrival>, a: Arrival, dev: nat)
    ensures EventsFrom(arrivals + [a], dev)
            == EventsFrom(arrivals, dev) + (if a.device == dev then [a.ev] else [])
    decreases |arrivals|
  {
    var tail := if a.device == dev then [a.ev] else [];
    if arrivals == [] {
      assert [a][1..] == [];
    } else {
      var all := arrivals + [a];
      var head := if arrivals[0].device == dev then [arrivals[0].ev] else [];
      assert all[0] == arrivals[0];
      assert all[1..] == arrivals[1..] + [a];
      calc {
        EventsFrom(all, dev);
        head + EventsFrom(arrivals[1..] + [a], dev);
        { EventsFromAppend(arrivals[1..], a, dev); }
        head + (EventsFrom(arrivals[1..], dev) + tail);
        (head + EventsFrom(arrivals[1..], dev)) + tail;
      }
    }
  }

  /** The events read from device `dev` over `rounds`. */
  function RoundEventsFrom(rounds: seq<Round>, dev: nat): seq<InputEvent>
  {
    if rounds == [] then [] else EventsFrom(rounds[0].arrivals, dev) + RoundEventsFrom(rounds[1..], dev)
  }

  /** The body of the `for k` loop for one ready device (src/main.c:289-328): the rescue
      check, then the event is buffered whatever the check decided. The event joins the tail
      of the queue with a release time within `max_delay` of `now`; only a key event can move
      the rescue flags or raise `interrupt`, which is never lowered; nothing is written. */
  function Ingest(cfg: Config, st: State, now: int, a: Arrival): (st': State)
    requires |st.held| == |cfg.rescueKeys|
    ensures st'.sched.queue == st.sched.queue + [Entry(a.ev, st'.sched.prevRelease, a.device)]
    ensures now <= st'.sched.prevRelease <= now + cfg.maxDelay
    ensures |st'.held| == |st.held|
    ensures !IsKeyEvent(a.ev) ==> st'.held == st.held && st'.interrupt == st.interrupt
    ensures st.interrupt ==> st'.interrupt
    ensures st'.interrupt && !st.interrupt ==> RescueCombo.AllHeld(st'.held)
    ensures st'.outputs == st.outputs
  {
    var held' := RescueCombo.Update(cfg.rescueKeys, st.held, a.ev);
    var fire := a.ev.evType == EvKey && RescueCombo.AllHeld(held');
    State(Enqueue(st.sched, a.ev, a.device, now, cfg.maxDelay, a.draw), held', st.interrupt || fire, st.outputs)
  }

  /** The `for k` loop over the ready devices, all read at the same clock reading `now`. */
  function IngestAll(cfg: Config, st: State, now: int, arrivals: seq<Arrival>): (st': State)
    requires |st.held| == |cfg.rescueKeys|
    ensures |st'.held| == |cfg.rescueKeys|
    ensures st'.outputs == st.outputs
    decreases |arrivals|
  {
    if arrivals == [] then st
    else
      var n := |arrivals| - 1;
      Ingest(cfg, IngestAll(cfg, st, now, arrivals[..n]), now, arrivals[n])
  }

  /** A batch ends with its last event, queued behind the rest of the batch. */
  lemma IngestAllLast(cfg: Config, st: State, now: int, arrivals: seq<Arrival>)
    requires |st.held| == |cfg.rescueKeys| && arrivals != []
    ensures var n := |arrivals| - 1;
            var st' := IngestAll(cfg, st, now, arrivals);
            st'.sched.queue
            == IngestAll(cfg, st, now, arrivals[..n]).sched.queue
               + [Entry(arrivals[n].ev, st'.sched.prevRelease, arrivals[n].device)]
  {
  }

  /** Buffering a batch read from existing devices keeps the state well shaped. */
  lemma {:induction false} IngestAllKeepsShape(cfg: Config, st: State, now: int, arrivals: seq<Arrival>)
    requires WellShaped(cfg, st)
    requires forall k :: 0 <= k < |arrivals| ==> arrivals[k].device < cfg.deviceCount
    ensures WellShaped(cfg, IngestAll(cfg, st, now, arrivals))
    decreases |arrivals|
  {
    if arrivals != [] {
      var n := |arrivals| - 1;
      IngestAllKeepsShape(cfg, st, now, arrivals[..n]);
      IngestAllLast(cfg, st, now, arrivals);
    }
  }

  /** The rescue flags after a batch are the flags the batch's events leave behind. */
  lemma {:induction false} IngestAllHeld(cfg: Config, st: State, now: int, arrivals: seq<Arrival>)
    requires |st.held| == |cfg.rescueKeys|
    ensures IngestAll(cfg, st, now, arrivals).held == RescueCombo.UpdateAll(cfg.rescueKeys, st.held, EventsRead(arrivals))
    decreases |arrivals|
  {
    if arrivals != [] {
      var n := |arrivals| - 1;
      IngestAllHeld(cfg, st, now, arrivals[..n]);
      assert EventsRead(arrivals)[..n] == EventsRead(arrivals[..n]);
    }
  }

  /** Event `k` of the batch is a key event after which every rescue flag is set. */
  ghost predicate CompletesCombo(cfg: Config, held: seq<bool>, arrivals: seq<Arrival>, k: nat)
    requires |held| == |cfg.rescueKeys| && k < |arrivals|
  {
    IsKeyEvent(arrivals[k].ev)
    && RescueCombo.AllHeld(RescueCombo.UpdateAll(cfg.rescueKeys, held, EventsRead(arrivals[..k + 1])))
  }

  /** The interrupt flag is set after a batch exactly when it was already set or some key
      event of the batch completed the combo. The flag does not stop the batch: every event
      of it, that one included, is still queued (Ingest, IngestAllQueues). */
  lemma {:induction false} IngestAllInterrupt(cfg: Config, st: State, now: int, arrivals: seq<Arrival>)
    requires |st.held| == |cfg.rescueKeys|
    ensures IngestAll(cfg, st, now, arrivals).interrupt
            <==> st.interrupt || exists k :: 0 <= k < |arrivals| && CompletesCombo(cfg, st.held, arrivals, k)
    decreases |arrivals|
  {
    if arrivals != [] {
      var n := |arrivals| - 1;
      var init := arrivals[..n];
      IngestAllInterrupt(cfg, st, now, init);
      IngestAllHeld(cfg, st, now, arrivals);
      assert arrivals[..n + 1] == arrivals;
      var last := CompletesCombo(cfg, st.held, arrivals, n);
      assert IngestAll(cfg, st, now, arrivals).interrupt <==> IngestAll(cfg, st, now, init).interrupt || last;
      CompletesComboPrefix(cfg, st.held, arrivals, n);
    }
  }

  /** Whether an event completes the combo does not depend on the events read after it. */
  lemma CompletesComboPrefix(cfg: Config, held: seq<bool>, arrivals: seq<Arrival>, n: nat)
    requires |held| == |cfg.rescueKeys| && n < |arrivals|
    ensures (exists k :: 0 <= k < n + 1 && CompletesCombo(cfg, held, arrivals, k))
            <==> (exists k :: 0 <= k < n && CompletesCombo(cfg, held, arrivals[..n], k))
                 || CompletesCombo(cfg, held, arrivals, n)
  {
    var init := arrivals[..n];
    forall k | 0 <= k < n
      ensures CompletesCombo(cfg, held, arrivals, k) == CompletesCombo(cfg, held, init, k)
    {
      assert arrivals[..k + 1] == init[..k + 1];
    }
  }

  /** The two parts of a split queue keep what holds of every entry and of every pair of
      entries, and the second part keeps the tail. */
  lemma SplitKeepsShape(a: seq<Entry>, b: seq<Entry>, count: nat)
    requires DevicesBelow(a + b, count)
    ensures DevicesBelow(a, count) && DevicesBelow(b, count)
    ensures Ordered(a + b) ==> Ordered(b)
    ensures |b| > 0 ==> b[|b| - 1] == (a + b)[|a + b| - 1]
  {
    var q := a + b;
    assert forall i :: 0 <= i < |a| ==> a[i] == q[i];
    assert forall i :: 0 <= i < |b| ==> b[i] == q[|a| + i];
  }

  /** Draining keeps the shape of the state: what is left is a suffix of the queue. */
  lemma DrainKeepsShape(cfg: Config, st: State, now: int)
    requires WellShaped(cfg, st)
    ensures var d := Drain(st.sched.queue, now);
            && DevicesBelow(d.emitted, cfg.deviceCount)
            && DevicesBelow(d.rest, cfg.deviceCount)
            && (Ordered(st.sched.queue) ==> Ordered(d.rest))
            && Anchored(Schedule(d.rest, st.sched.prevRelease))
  {
    var d := Drain(st.sched.queue, now);
    SplitKeepsShape(d.emitted, d.rest, cfg.deviceCount);
  }

  /** The state after the drain of a round, before its reads. */
  function Drained(cfg: Config, st: State, now: int): (st': State)
    requires WellShaped(cfg, st)
    ensures WellShaped(cfg, st')
  {
    DrainKeepsShape(cfg, st, now);
    var d := Drain(st.sched.queue, now);
    State(Schedule(d.rest, st.sched.prevRelease), st.held, st.interrupt, EmitAll(st.outputs, d.emitted))
  }

  /** One pass of `while (!interrupt)`: drain what is due at `drainTime`, then buffer what
      was read at `arrivalTime`. */
  function Step(cfg: Config, st: State, r: Round): (st': State)
    requires WellShaped(cfg, st)
    requires WellFormedArrivals(cfg, r.arrivals)
    ensures WellShaped(cfg, st')
  {
    var mid := Drained(cfg, st, r.drainTime);
    IngestAllKeepsShape(cfg, mid, r.arrivalTime, r.arrivals);
    IngestAll(cfg, mid, r.arrivalTime, r.arrivals)
  }

  /** Buffering a batch at clock `now` keeps the queue in release order when the backlog
      behind `now` is at most max_delay, and leaves it at most max_delay behind `now`. */
  lemma {:induction false} IngestAllKeepsOrder(cfg: Config, st: State, now: int, arrivals: seq<Arrival>)
    requires WellShaped(cfg, st) && Ordered(st.sched.queue) && Calm(cfg, st, now)
    requires forall k :: 0 <= k < |arrivals| ==> arrivals[k].device < cfg.deviceCount
    ensures Ordered(IngestAll(cfg, st, now, arrivals).sched.queue)
    ensures Calm(cfg, IngestAll(cfg, st, now, arrivals), now)
    decreases |arrivals|
  {
    if arrivals != [] {
      var n := |arrivals| - 1;
      IngestAllKeepsOrder(cfg, st, now, arrivals[..n]);
      var mid := IngestAll(cfg, st, now, arrivals[..n]);
      EnqueuePreservesOrder(mid.sched, arrivals[n].ev, arrivals[n].device, now, cfg.maxDelay, arrivals[n].draw);
    }
  }

  /** With a clock that does not go back, a pass keeps the queue in release order. */
  lemma StepKeepsOrder(cfg: Config, st: State, clock: int, r: Round)
    requires WellShaped(cfg, st) && Ordered(st.sched.queue) && Calm(cfg, st, clock)
    requires clock <= r.drainTime <= r.arrivalTime
    requires WellFormedArrivals(cfg, r.arrivals)
    ensures Ordered(Step(cfg, st, r).sched.queue) && Calm(cfg, Step(cfg, st, r), r.arrivalTime)
  {
    DrainKeepsShape(cfg, st, r.drainTime);
    IngestAllKeepsOrder(cfg, Drained(cfg, st, r.drainTime), r.arrivalTime, r.arrivals);
  }

  /** The queue after a batch holds each device's events of the batch behind its old ones. */
  lemma {:induction false} IngestAllQueues(cfg: Config, st: State, now: int, arrivals: seq<Arrival>, dev: nat)
    requires |st.held| == |cfg.rescueKeys|
    ensures EventsOf(IngestAll(cfg, st, now, arrivals).sched.queue, dev)
            == EventsOf(st.sched.queue, dev) + EventsFrom(arrivals, dev)
    decreases |arrivals|
  {
    if arrivals != [] {
      var n := |arrivals| - 1;
      var init, a := arrivals[..n], arrivals[n];
      var mid := IngestAll(cfg, st, now, init);
      IngestAllQueues(cfg, st, now, init, dev);
      var st' := IngestAll(cfg, st, now, arrivals);
      var e := Entry(a.ev, st'.sched.prevRelease, a.device);
      IngestAllLast(cfg, st, now, arrivals);
      var tail := if a.device == dev then [a.ev] else [];
      EventsOfAppend(mid.sched.queue, [e], dev);
      EventsOfSingle(e, dev);
      EventsFromAppend(init, a, dev);
      assert init + [a] == arrivals;
      var queued := EventsOf(st.sched.queue, dev);
      assert (queued + EventsFrom(init, dev)) + tail == queued + (EventsFrom(init, dev) + tail);
    }
  }

  /** Nothing is lost, duplicated or reordered per device: what a device's clone has written
      plus what is still queued for it grows by exactly that device's events of the pass. */
  lemma StepConserves(cfg: Config, st: State, r: Round, dev: nat)
    requires WellShaped(cfg, st) && WellFormedArrivals(cfg, r.arrivals) && dev < cfg.deviceCount
    ensures var st' := Step(cfg, st, r);
            st'.outputs[dev] + EventsOf(st'.sched.queue, dev)
            == st.outputs[dev] + EventsOf(st.sched.queue, dev) + EventsFrom(r.arrivals, dev)
  {
    DrainKeepsShape(cfg, st, r.drainTime);
    var d := Drain(st.sched.queue, r.drainTime);
    var mid := Drained(cfg, st, r.drainTime);
    var st' := Step(cfg, st, r);
    assert mid.sched.queue == d.rest && mid.outputs == EmitAll(st.outputs, d.emitted);
    assert st' == IngestAll(cfg, mid, r.arrivalTime, r.arrivals);
    EmitAllAppends(st.outputs, d.emitted, dev);
    EventsOfAppend(d.emitted, d.rest, dev);
    IngestAllQueues(cfg, mid, r.arrivalTime, r.arrivals, dev);
    Regroup(st.outputs[dev], EventsOf(d.emitted, dev), EventsOf(d.rest, dev), EventsFrom(r.arrivals, dev));
  }

  /** Regrouping the four parts of a pass's conservation equation. Stated over plain
      sequences: proved inside StepConserves or RunConserves, where the parts are large
      terms, the same step costs the solver several times more. */
  lemma Regroup<T>(a: seq<T>, b: seq<T>, c: seq<T>, d: seq<T>)
    ensures (a + b) + (c + d) == a + (b + c) + d
    ensures (a + b + c) + d == (a + b) + (c + d)
  {
  }

  /** The events of the first n + 1 rounds: those of the first round, then the next n. */
  lemma RoundEventsFromFirst(rounds: seq<Round>, n: nat, dev: nat)
    requires n < |rounds|
    ensures RoundEventsFrom(rounds[..n + 1], dev)
            == EventsFrom(rounds[0].arrivals, dev) + RoundEventsFrom(rounds[1..][..n], dev)
  {
    assert rounds[..n + 1][1..] == rounds[1..][..n];
  }

  /** The loop: passes run until the interrupt flag is set or the rounds run out. */
  function Run(cfg: Config, st: State, rounds: seq<Round>): (st': State)
    requires WellShaped(cfg, st) && WellFormedRounds(cfg, rounds)
    ensures WellShaped(cfg, st')
    decreases |rounds|
  {
    if rounds == [] || st.interrupt then st
    else Run(cfg, Step(cfg, st, rounds[0]), rounds[1..])
  }

  /** How many passes Run makes. */
  function RoundsRun(cfg: Config, st: State, rounds: seq<Round>): (n: nat)
    requires WellShaped(cfg, st) && WellFormedRounds(cfg, rounds)
    ensures n <= |rounds|
    decreases |rounds|
  {
    if rounds == [] || st.interrupt then 0
    else 1 + RoundsRun(cfg, Step(cfg, st, rounds[0]), rounds[1..])
  }

  /** The loop only stops early because the interrupt flag is set, and a set flag stops it
      at once: no later pass drains the queue, so whatever is still buffered is dropped. */
  lemma {:induction false} RunStopsOnInterrupt(cfg: Config, st: State, rounds: seq<Round>)
    requires WellShaped(cfg, st) && WellFormedRounds(cfg, rounds)
    ensures RoundsRun(cfg, st, rounds) < |rounds| ==> Run(cfg, st, rounds).interrupt
    ensures st.interrupt ==> Run(cfg, st, rounds) == st
    decreases |rounds|
  {
    if rounds != [] && !st.interrupt {
      RunStopsOnInterrupt(cfg, Step(cfg, st, rounds[0]), rounds[1..]);
    }
  }

  /** Over a whole run with a clock that does not go back, the queue stays in release order. */
  lemma {:induction false} RunKeepsOrder(cfg: Config, st: State, clock: int, rounds: seq<Round>)
    requires WellShaped(cfg, st) && WellFormedRounds(cfg, rounds)
    requires Ordered(st.sched.queue) && Calm(cfg, st, clock)
    requires ClockFrom(rounds, clock)
    ensures Ordered(Run(cfg, st, rounds).sched.queue)
    decreases |rounds|
  {
    if rounds != [] && !st.interrupt {
      StepKeepsOrder(cfg, st, clock, rounds[0]);
      RunKeepsOrder(cfg, Step(cfg, st, rounds[0]), rounds[0].arrivalTime, rounds[1..]);
    }
  }

  /** Over a whole run, each device's clone has written, followed by what is still queued for
      it, exactly the events read from that device in the passes that ran. */
  lemma {:induction false} RunConserves(cfg: Config, st: State, rounds: seq<Round>, dev: nat)
    requires WellShaped(cfg, st) && WellFormedRounds(cfg, rounds) && dev < cfg.deviceCount
    ensures var st' := Run(cfg, st, rounds);
            st'.outputs[dev] + EventsOf(st'.sched.queue, dev)
            == st.outputs[dev] + EventsOf(st.sched.queue, dev)
               + RoundEventsFrom(rounds[..RoundsRun(cfg, st, rounds)], dev)
    decreases |rounds|
  {
    if rounds == [] || st.interrupt {
      assert rounds[..0] == [];
    } else {
      var next := Step(cfg, st, rounds[0]);
      StepConserves(cfg, st, rounds[0], dev);
      RunConserves(cfg, next, rounds[1..], dev);
      var n := RoundsRun(cfg, next, rounds[1..]);
      RoundEventsFromFirst(rounds, n, dev);
      Regroup(st.outputs[dev], EventsOf(st.sched.queue, dev), EventsFrom(rounds[0].arrivals, dev),
              RoundEventsFrom(rounds[1..][..n], dev));
    }
  }
}
