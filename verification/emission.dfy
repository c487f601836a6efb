/**
 * The release side of main_loop: the head-only drain at the top of every iteration
 * (src/main.c:269-274) and emit_event (src/main.c:218-233), whose uinput write is modelled
 * as appending the event to the output of the entry's device.
 */
module Emission {
  import opened Events
  import opened Scheduler

  /** What has been written to each uinput clone, indexed like the input devices. */
  type Outputs = seq<seq<InputEvent>>

  /** Every entry of `q` names one of the `count` devices. */
  ghost predicate DevicesBelow(q: seq<Entry>, count: nat) {
    forall i :: 0 <= i < |q| ==> q[i].device < count
  }

  /** The events of the entries of `q` that belong to device `d`, in queue order. */
  function EventsOf(q: seq<Entry>, d: nat): (es: seq<InputEvent>)
    ensures |es| <= |q|
  {
    if q == [] then []
    else (if q[0].device == d then [q[0].ev] else []) + EventsOf(q[1..], d)
  }

  lemma {:induction false} EventsOfAppend(a: seq<Entry>, b: seq<Entry>, d: nat)
    ensures EventsOf(a + b, d) == EventsOf(a, d) + EventsOf(b, d)
  {
    if a == [] {
      assert a + b == b;
    } else {
      var ab := a + b;
      var head := if a[0].device == d then [a[0].ev] else [];
      assert ab[0] == a[0];
      assert ab[1..] == a[1..] + b;
      calc {
        EventsOf(ab, d);
        head + EventsOf(a[1..] + b, d);
        { EventsOfAppend(a[1..], b, d); }
        head + (EventsOf(a[1..], d) + EventsOf(b, d));
        (head + EventsOf(a[1..], d)) + EventsOf(b, d);
      }
    }
  }

  /** emit_event: the entry's event goes out unchanged on the clone of its device. */
  function Emit(outs: Outputs, e: Entry): (outs': Outputs)
    requires e.device < |outs|
    ensures |outs'| == |outs|
    ensures outs'[e.device] == outs[e.device] + [e.ev]
    ensures forall d :: 0 <= d < |outs| && d != e.device ==> outs'[d] == outs[d]
  {
    outs[e.device := outs[e.device] + [e.ev]]
  }

  /** emit_event for each entry of `es` in turn. */
  function EmitAll(outs: Outputs, es: seq<Entry>): (outs': Outputs)
    requires DevicesBelow(es, |outs|)
    ensures |outs'| == |outs|
    decreases |es|
  {
    if es == [] then outs else EmitAll(Emit(outs, es[0]), es[1..])
  }

  /** Emitting a run of entries appends to every output exactly that output's events, in
      the order of the run. */
  lemma {:induction false} EmitAllAppends(outs: Outputs, es: seq<Entry>, d: nat)
    requires DevicesBelow(es, |outs|)
    requires d < |outs|
    ensures EmitAll(outs, es)[d] == outs[d] + EventsOf(es, d)
    decreases |es|
  {
    if es != [] {
      EmitAllAppends(Emit(outs, es[0]), es[1..], d);
    }
  }

  /** What one drain does to the queue: the entries it released, and what is left. */
  datatype Drained = Drained(emitted: seq<Entry>, rest: seq<Entry>)

  /** How many entries the loop at src/main.c:270 releases: it stops at the first entry
      whose time has not come, whatever follows it. */
  function DueCount(q: seq<Entry>, now: int): (n: nat)
    ensures n <= |q|
    ensures forall i :: 0 <= i < n ==> q[i].time <= now
    ensures n < |q| ==> q[n].time > now
  {
    if q != [] && now >= q[0].time then 1 + DueCount(q[1..], now) else 0
  }

  /** The drain at the top of every pass: release the head while its time has come. */
  function Drain(q: seq<Entry>, now: int): (r: Drained)
    ensures r.emitted + r.rest == q
    ensures forall i :: 0 <= i < |r.emitted| ==> r.emitted[i].time <= now
    ensures r.rest == [] || r.rest[0].time > now
  {
    var n := DueCount(q, now);
    assert q[..n] + q[n..] == q;
    Drained(q[..n], q[n..])
  }

  /** On a queue in release order the drain releases exactly the entries that are due and
      keeps exactly the ones that are not. */
  lemma DrainOrderedIsExact(q: seq<Entry>, now: int)
    requires Ordered(q)
    ensures forall e :: e in Drain(q, now).emitted <==> e in q && e.time <= now
    ensures forall e :: e in Drain(q, now).rest <==> e in q && e.time > now
  {
    var n := DueCount(q, now);
    forall k | n <= k < |q|
      ensures q[k].time > now
    {
      assert q[n].time <= q[k].time;
    }
    assert forall e :: e in q[..n] <==> exists k :: 0 <= k < n && q[k] == e;
    assert forall e :: e in q[n..] <==> exists k :: n <= k < |q| && q[k] == e;
  }

  /** The head-only rule holds back a due entry that sits behind one that is not due, which
      can only happen in a queue out of release order. */
  lemma HeadOnlyDrainHoldsBack()
    ensures var late := Entry(InputEvent(EvKey, 30, 1), 10, 0);
            var due := Entry(InputEvent(EvKey, 30, 0), 5, 0);
            var r := Drain([late, due], 7);
            r.emitted == [] && due in r.rest && due.time <= 7
  {
    var late := Entry(InputEvent(EvKey, 30, 1), 10, 0);
    var due := Entry(InputEvent(EvKey, 30, 0), 5, 0);
    assert Drain([late, due], 7).rest == [late, due];
  }

  /** The drain loop with emit_event in its body, as main_loop runs it. */
  method DrainQueue(q: seq<Entry>, outs: Outputs, now: int) returns (rest: seq<Entry>, outs': Outputs)
    requires DevicesBelow(q, |outs|)
    ensures rest == Drain(q, now).rest
    ensures |outs'| == |outs|
    ensures forall d :: 0 <= d < |outs| ==> outs'[d] + EventsOf(rest, d) == outs[d] + EventsOf(q, d)
  {
    rest := q;
    outs' := outs;
    ghost var released := 0;
    while rest != [] && now >= rest[0].time
      invariant released <= DueCount(q, now) && rest == q[released..]
      invariant |outs'| == |outs|
      invariant forall d :: 0 <= d < |outs| ==> outs'[d] + EventsOf(rest, d) == outs[d] + EventsOf(q, d)
      decreases |rest|
    {
      assert rest[1..] == q[released + 1..];
      forall d | 0 <= d < |outs|
        ensures Emit(outs', rest[0])[d] + EventsOf(rest[1..], d) == outs'[d] + EventsOf(rest, d)
      {
        var head := if rest[0].device == d then [rest[0].ev] else [];
        assert Emit(outs', rest[0])[d] == outs'[d] + head;
        assert EventsOf(rest, d) == head + EventsOf(rest[1..], d);
      }
      outs' := Emit(outs', rest[0]);
      rest := rest[1..];
      released := released + 1;
    }
  }
}
