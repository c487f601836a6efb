/**
 * Linux input events as kloak reads them from its grabbed devices and writes them to its
 * uinput clones. Only the fields kloak looks at are kept: the event type, the code and the
 * value; the kernel timestamp of `struct input_event` is never read by the program.
 */
module Events {

  /** `struct input_event` without its timestamp. */
  datatype InputEvent = InputEvent(evType: nat, code: nat, value: int)

  /** Event types of linux/input-event-codes.h that kloak tests for. */
  const EvSyn: nat := 0
  const EvKey: nat := 1
  const EvRel: nat := 2
  const EvAbs: nat := 3

  /** Highest key code the kernel defines (KEY_MAX = 0x2ff). */
  const KeyMax: nat := 0x2ff

  /** A key press (value 1), release (value 0) or autorepeat (value 2) of key `code`. */
  predicate IsKeyEvent(ev: InputEvent) {
    ev.evType == EvKey
  }
}
