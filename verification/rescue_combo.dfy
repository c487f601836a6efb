/**
 * The rescue-combo detector of main_loop (src/main.c:294-303): every EV_KEY event read
 * from any device updates the flags of the rescue slots holding its code, and the loop is
 * told to stop once every flag is set. The arriving event is buffered either way; that is
 * the caller's business (see Engine.Ingest).
 */
module RescueCombo {
  import opened Events

  /** rescue_state[j] after `ev`, for the combo `keys` (rescue_keys[0..rescue_len)). */
  function Update(keys: seq<nat>, held: seq<bool>, ev: InputEvent): (held': seq<bool>)
    requires |held| == |keys|
    ensures |held'| == |keys|
    ensures !IsKeyEvent(ev) ==> held' == held
    ensures forall j :: 0 <= j < |keys| && keys[j] != ev.code ==> held'[j] == held[j]
    ensures IsKeyEvent(ev) ==>
              forall j :: 0 <= j < |keys| && keys[j] == ev.code ==> held'[j] == (ev.value != 0)
  {
    if !IsKeyEvent(ev) then held
    else seq(|keys|, j requires 0 <= j < |keys| => if keys[j] == ev.code then ev.value != 0 else held[j])
  }

  /** Every key of the combo is down. */
  predicate AllHeld(held: seq<bool>) {
    forall j :: 0 <= j < |held| ==> held[j]
  }

  /** The check as main_loop runs it on one event: one pass over the slots that updates the
      matching flags and folds them into `all`. `interrupt` says whether this event sets the
      loop's interrupt flag. */
  method CheckRescue(keys: seq<nat>, held: seq<bool>, ev: InputEvent) returns (held': seq<bool>, interrupt: bool)
    requires |held| == |keys|
    ensures held' == Update(keys, held, ev)
    ensures interrupt <==> IsKeyEvent(ev) && AllHeld(held')
  {
    held' := held;
    interrupt := false;
    if ev.evType == EvKey {
      var all := true;
      var j := 0;
      while j < |keys|
        invariant 0 <= j <= |keys| && |held'| == |keys|
        invariant forall i :: 0 <= i < j ==> held'[i] == Update(keys, held, ev)[i]
        invariant forall i :: j <= i < |keys| ==> held'[i] == held[i]
        invariant all <==> forall i :: 0 <= i < j ==> held'[i]
      {
        if keys[j] == ev.code {
          held' := held'[j := ev.value != 0];
        }
        all := all && held'[j];
        j := j + 1;
      }
      interrupt := all;
    }
  }

  /** The flags after a run of events, starting from `held`. */
  function UpdateAll(keys: seq<nat>, held: seq<bool>, evs: seq<InputEvent>): (held': seq<bool>)
    requires |held| == |keys|
    ensures |held'| == |keys|
    decreases |evs|
  {
    if evs == [] then held
    else Update(keys, UpdateAll(keys, held, evs[..|evs| - 1]), evs[|evs| - 1])
  }

  /** Whether key `code` is down after `evs`: decided by the last EV_KEY event for it (any
      non-zero value, press or autorepeat, counts as down), or `initial` if there is none. */
  function LastKeyDown(evs: seq<InputEvent>, code: nat, initial: bool): bool
    decreases |evs|
  {
    if evs == [] then initial
    else
      var ev := evs[|evs| - 1];
      if IsKeyEvent(ev) && ev.code == code then ev.value != 0
      else LastKeyDown(evs[..|evs| - 1], code, initial)
  }

  /** A rescue flag only remembers the last event for its key: events of other keys and
      non-key events with the same code leave it alone. */
  lemma {:induction false} UpdateAllIsLastKeyDown(keys: seq<nat>, held: seq<bool>, evs: seq<InputEvent>, j: nat)
    requires |held| == |keys| && j < |keys|
    ensures UpdateAll(keys, held, evs)[j] == LastKeyDown(evs, keys[j], held[j])
    decreases |evs|
  {
    if evs != [] {
      UpdateAllIsLastKeyDown(keys, held, evs[..|evs| - 1], j);
    }
  }

  /** Starting from all flags clear, the combo fires on a key event exactly when, counting
      that event, the last event for every key of the combo is a press or an autorepeat. */
  lemma ComboFiresIff(keys: seq<nat>, evs: seq<InputEvent>, ev: InputEvent)
    requires IsKeyEvent(ev)
    ensures var cleared := seq(|keys|, _ => false);
            AllHeld(UpdateAll(keys, cleared, evs + [ev]))
            <==> forall j :: 0 <= j < |keys| ==> LastKeyDown(evs + [ev], keys[j], false)
  {
    var cleared := seq(|keys|, _ => false);
    forall j | 0 <= j < |keys|
      ensures UpdateAll(keys, cleared, evs + [ev])[j] == LastKeyDown(evs + [ev], keys[j], false)
    {
      UpdateAllIsLastKeyDown(keys, cleared, evs + [ev], j);
    }
  }
}
