/**
 * Device classification and autodetection (src/main.c:117-182). The ioctl queries are
 * replaced by what they report: the set of event types a device supports and the set of key
 * codes it has. /dev/input/event<i> is node i of a sequence; a node that cannot be opened is
 * Missing.
 */
module Devices {
  import opened Events

  /** MAX_INPUTS: the size of named_inputs. */
  const MaxInputs: nat := 16

  /** MAX_DEVICES: how many /dev/input/event<i> nodes autodetection tries. */
  const MaxDevices: nat := 16

  /** MIN_KEYBOARD_KEYS: a keyboard needs more keys than this. */
  const MinKeyboardKeys: nat := 20

  /** What EVIOCGBIT reports for a device: its event types and its key codes. */
  datatype Capabilities = Capabilities(eventTypes: set<nat>, keys: set<nat>)

  /** One /dev/input/event<i> node, if it could be opened. */
  datatype Node = Missing | Present(caps: Capabilities)

  /** How detect_devices sees an opened device. */
  datatype Kind = Keyboard | Mouse | Ignored

  /** The key codes below `bound` that the device has. */
  function KeysBelow(caps: Capabilities, bound: nat): set<nat> {
    set k | k in caps.keys && k < bound
  }

  /** The keys is_keyboard can see: codes 0 to KEY_MAX. */
  function SupportedKeys(caps: Capabilities): set<nat> {
    KeysBelow(caps, KeyMax + 1)
  }

  /** The keyboard rule: EV_KEY support and strictly more than MIN_KEYBOARD_KEYS keys. */
  ghost predicate KeyboardLike(caps: Capabilities) {
    EvKey in caps.eventTypes && |SupportedKeys(caps)| > MinKeyboardKeys
  }

  /** is_mouse: relative or absolute axes. */
  predicate MouseLike(caps: Capabilities) {
    EvRel in caps.eventTypes || EvAbs in caps.eventTypes
  }

  /** Widening the scanned range by one code adds that code when the device has it. */
  lemma KeysBelowStep(caps: Capabilities, bound: nat)
    ensures |KeysBelow(caps, bound + 1)| == |KeysBelow(caps, bound)| + (if bound in caps.keys then 1 else 0)
  {
    if bound in caps.keys {
      assert KeysBelow(caps, bound + 1) == KeysBelow(caps, bound) + {bound};
    } else {
      assert KeysBelow(caps, bound + 1) == KeysBelow(caps, bound);
    }
  }

  /** is_keyboard: count the supported keys from 0 to KEY_MAX, but only for a device that
      reports EV_KEY at all. */
  method IsKeyboard(caps: Capabilities) returns (keyboard: bool)
    ensures keyboard <==> KeyboardLike(caps)
  {
    var supported: nat := 0;
    if EvKey in caps.eventTypes {
      var key: nat := 0;
      while key <= KeyMax
        invariant key <= KeyMax + 1
        invariant supported == |KeysBelow(caps, key)|
      {
        KeysBelowStep(caps, key);
        if key in caps.keys {
          supported := supported + 1;
        }
        key := key + 1;
      }
    }
    keyboard := supported > MinKeyboardKeys;
  }

  /** The classification of detect_devices: the keyboard test first, then the mouse test. */
  method Classify(caps: Capabilities) returns (kind: Kind)
    ensures kind == Keyboard <==> KeyboardLike(caps)
    ensures kind == Mouse <==> !KeyboardLike(caps) && MouseLike(caps)
  {
    var keyboard := IsKeyboard(caps);
    if keyboard {
      kind := Keyboard;
    } else if MouseLike(caps) {
      kind := Mouse;
    } else {
      kind := Ignored;
    }
  }

  /** A node detect_devices records. */
  ghost predicate Usable(node: Node) {
    node.Present? && (KeyboardLike(node.caps) || MouseLike(node.caps))
  }

  /** detect_devices: try nodes 0 .. MAX_DEVICES-1 in order, record the keyboards and mice,
      and stop once MAX_INPUTS devices are recorded. `found` lists the recorded node
      numbers; nodes past the end of `nodes` cannot be opened. */
  method DetectDevices(nodes: seq<Node>) returns (found: seq<nat>)
    ensures |found| <= MaxInputs
    ensures forall a, b :: 0 <= a < b < |found| ==> found[a] < found[b]
    ensures forall k :: 0 <= k < |found| ==> found[k] < MaxDevices
    ensures forall i :: 0 <= i < MaxDevices ==> (i in found <==> i < |nodes| && Usable(nodes[i]))
  {
    found := [];
    var i := 0;
    var full := false;
    while i < MaxDevices && !full
      invariant 0 <= i <= MaxDevices && |found| <= i
      invariant full ==> |found| >= MaxInputs
      invariant forall a, b :: 0 <= a < b < |found| ==> found[a] < found[b]
      invariant forall k :: 0 <= k < |found| ==> found[k] < i
      invariant forall j :: 0 <= j < i ==> (j in found <==> j < |nodes| && Usable(nodes[j]))
    {
      if i < |nodes| && nodes[i].Present? {
        var kind := Classify(nodes[i].caps);
        if kind != Ignored {
          found := found + [i];
        }
      }
      // the `break` once device_count reaches MAX_INPUTS
      full := |found| >= MaxInputs;
      i := i + 1;
    }
  }
}
