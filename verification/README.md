# kloak: the event-scheduling engine in Dafny

kloak is a keystroke-anonymisation daemon. It grabs the keyboards and mice of a Linux machine, buffers every input event, and releases each event on a uinput clone of its device after a random delay. The delay is bounded by `max_delay`. The queue is first in, first out and only its head is released, so each device's events go out in the order they were read. While the clock does not go back, release times also stay in order, so no entry is held back behind a later one. A rescue key combo stops the daemon.

This project models the logic of that engine and proves its promises:

- `random_between` with libsodium's `randombytes_uniform` (module `RandomDelay`).
- The per-event scheduling step: the lower-bound clamp, the rule that EV_SYN events are not randomised, the enqueue at the tail and the update of `prev_release_time` (module `Scheduler`).
- The head-only drain at the top of every loop pass, with `emit_event` modelled as an append to the output of the event's device (module `Emission`).
- The rescue-combo detector (module `RescueCombo`).
- `main_loop` as a state machine over rounds, one round per pass of `while (!interrupt)` (module `Engine`).
- `set_rescue_keys`: strtok splitting, name lookup and the cap of ten keys (module `RescueKeys`).
- `is_keyboard`, `is_mouse` and `detect_devices` over abstract capability sets (module `Devices`).
- `key_table`, `lookup_keycode` and `lookup_keyname` (module `Keycodes`).

Time, randomness and input are parameters. A round says:

- what the clock read before the drain;
- what it read after `poll` reported input;
- which events were read, from which device, and with which random word.

The draw is the word `randombytes_uniform` finally reduces mod n, taken as an arbitrary natural number. `RandomBetweenReachesAll` and `EnqueueReachesWindow` show that every delay the C code can pick is the outcome of some draw.

Where the code and its comments disagree, the model follows the code:

- The comment on `MIN_KEYBOARD_KEYS` says a keyboard needs "at least" 20 keys, but `is_keyboard` tests `num_supported_keys > MIN_KEYBOARD_KEYS`. `Devices.IsKeyboard` uses "strictly more than 20".
- The comments on `MAX_INPUTS` and `MAX_DEVICES` describe each other's use. In the code, `detect_devices` tries `MAX_DEVICES` nodes and stops once `MAX_INPUTS` devices are recorded. Both are 16.
- With an empty combo (a `-k` argument of only separators), the `all` flag of the rescue check stays 1. Any EV_KEY event then sets `interrupt`. `RescueCombo.CheckRescue` states this: `AllHeld` of an empty sequence is true.

The key codes come from the Linux input-event-code assignments (KEY_ESC = 1, ..., KEY_F24 = 194, KEY_UNKNOWN = 240). KEY_HANGUEL is the kernel's alias of KEY_HANGEUL (122). The header that defines them is not part of this model. The event types are EV_SYN = 0, EV_KEY = 1, EV_REL = 2 and EV_ABS = 3, and KEY_MAX = 0x2ff.

## Model

| member | source | states |
|---|---|---|
| RandomDelay.Uniform | src/main.c:89 | randombytes_uniform(n) lies in [0, n) for n ≥ 1, and is 0 when n ≤ 1 |
| RandomDelay.SpanArgument | src/main.c:89 | the long `upper - lower + 1` reaches the uint32 parameter truncated; it is unchanged when it is below 2^32 |
| RandomDelay.RandomBetween | src/main.c:84-90 | an empty or one-point interval (lower ≥ upper) yields exactly `upper`; otherwise the result lies in [lower, upper] |
| RandomDelay.RandomBetweenReachesAll | src/main.c:84-90 | on intervals narrower than 2^32, every value of [lower, upper] is the outcome of some draw |
| RandomDelay.FullWidthIntervalCollapses | src/main.c:89 | on an interval of exactly 2^32 values the truncated bound is 0 and every draw yields `lower` |
| Scheduler.LowerBound | src/main.c:308 | the clamp lies in [0, max_delay]; it is 0 without backlog, equals the backlog when that fits, and is max_delay beyond |
| Scheduler.Delay | src/main.c:310-315 | an EV_SYN event gets exactly the lower bound; any event gets a delay in [lower bound, max_delay] |
| Scheduler.Enqueue | src/main.c:305-328 | the event and its device go to the tail with release time prev_release_time', which lies in [now + lower bound, now + max_delay] (so at or after now); EV_SYN lands exactly at now + lower bound; a backlog of at most max_delay does not move prev_release_time back |
| Scheduler.EnqueueReachesWindow | src/main.c:308-322 | every release time in [now + lower bound, now + max_delay] is reachable for an event other than EV_SYN |
| Scheduler.EnqueuePreservesOrder | src/main.c:305-328 | if the backlog is at most max_delay, enqueueing keeps a queue anchored at its tail in non-decreasing release order |
| Scheduler.BacklogBoundedByMonotoneClock | src/main.c:308-328 | after an enqueue, the backlog behind any later clock reading is at most max_delay |
| Scheduler.BacklogBeyondMaxDelayReorders | src/main.c:308-328 | a backlog beyond max_delay (the clock went back) can put a new entry before the tail: order is not promised there |
| Emission.Emit | src/main.c:218-233 | emit_event appends the entry's event, unchanged, to its own device's output and touches no other output |
| Emission.EmitAllAppends | src/main.c:270-274 | emitting a run of entries appends to each device's output exactly that device's events, in run order |
| Emission.DueCount | src/main.c:270 | the drain releases a prefix whose entries are all due, and stops at the first entry that is not |
| Emission.Drain | src/main.c:269-274 | released entries followed by the rest give back the queue; every released entry is due; the rest is empty or its head is not due |
| Emission.DrainOrderedIsExact | src/main.c:269-274 | on an ordered queue the drain releases exactly the due entries and keeps exactly the others |
| Emission.HeadOnlyDrainHoldsBack | src/main.c:270 | a due entry behind a head that is not due stays queued: only head entries are emitted |
| Emission.DrainQueue | src/main.c:269-274 | the drain loop leaves what Drain leaves, and per device the output written plus what is still queued is unchanged |
| RescueCombo.Update | src/main.c:294-300 | only EV_KEY events change the flags; slots of the event's code become "value ≠ 0"; other slots are unchanged |
| RescueCombo.CheckRescue | src/main.c:294-303 | the slot loop computes Update, and sets interrupt iff the event is EV_KEY and every flag is set afterwards |
| RescueCombo.UpdateAllIsLastKeyDown | src/main.c:296-298 | a flag after a run of events is decided by the last EV_KEY event for its key, or is its initial value |
| RescueCombo.ComboFiresIff | src/main.c:294-303 | from cleared flags, a key event fires the combo iff, counting it, the last event for every combo key is a press or an autorepeat |
| RescueKeys.TokenLength | src/main.c:100 | the first token runs up to, and not including, the first ',' or ' ' |
| RescueKeys.Tokens | src/main.c:100-112 | strtok's tokens are non-empty and free of separators |
| RescueKeys.TokensSplitAtSeparator | src/main.c:100-112 | a separator splits the token stream and contributes no token: Tokens(a + [c] + b) = Tokens(a) + Tokens(b) |
| RescueKeys.TokensOfToken | src/main.c:100-112 | a lone separator-free name is returned whole |
| RescueKeys.TokensOfJoin | src/main.c:100-112 | splitting a list of names joined by ',' or ' ' gives back the names |
| RescueKeys.ParseRescueKeys | src/main.c:100-113 | success iff at most 10 tokens, each known, with the codes in token order; else the first unknown name at index ≤ 10, or "too many" iff the first 11 tokens are known |
| RescueKeys.SetRescueKeys | src/main.c:92-115 | the same, with `lookup_keycode` over the key table and known meaning "a table name" |
| RescueKeys.DefaultRescueTokens | src/main.c:38 | the default combo splits into KEY_LEFTSHIFT, KEY_RIGHTSHIFT and KEY_ESC |
| RescueKeys.DefaultRescueCodes | src/keycodes.c:11-64 | those names have the codes 42, 54 and 1 |
| Devices.IsKeyboard | src/main.c:132-147 | the counting loop says "keyboard" iff EV_KEY is supported and more than 20 codes in [0, KEY_MAX] are |
| Devices.Classify | src/main.c:164-172 | a keyboard iff the keyboard test holds; a mouse iff it fails and EV_REL or EV_ABS is supported |
| Devices.DetectDevices | src/main.c:153-182 | at most 16 devices recorded, in increasing node order, all below 16; while there is room, node i is recorded iff it opens and is a keyboard or a mouse |
| Engine.Start | src/main.c:237-248 | the loop starts well shaped and ordered, with no interrupt, empty outputs and nothing queued |
| Engine.Ingest | src/main.c:289-328 | one read event is queued at the tail, whatever the rescue check decided, with a release time in [now, now + max_delay]; a non-key event leaves the rescue flags and interrupt alone; interrupt is never cleared, and it is newly set only when every rescue flag is set; nothing is written |
| Engine.IngestAll | src/main.c:288-340 | the reads of one pass keep the rescue flags sized to the combo and write nothing |
| Engine.IngestAllLast | src/main.c:317-328 | the last event of a pass is queued at the tail, behind everything queued before it |
| Engine.IngestAllKeepsShape | src/main.c:288-340 | reads from existing devices keep every queued entry's device valid and prev_release_time anchored at the tail |
| Engine.IngestAllHeld | src/main.c:294-303 | the flags after a pass are those the pass's events leave behind, in reading order |
| Engine.IngestAllInterrupt | src/main.c:294-303 | interrupt is set after a pass iff it was set before or some key event of the pass completed the combo |
| Engine.DrainKeepsShape | src/main.c:269-274 | the drain keeps devices valid, keeps the order of an ordered queue, and leaves prev_release_time anchored |
| Engine.Drained | src/main.c:268-274 | the state after the drain is well shaped |
| Engine.Step | src/main.c:267-341 | a pass keeps the state well shaped |
| Engine.IngestAllKeepsOrder | src/main.c:305-328 | reads at a clock with backlog at most max_delay keep the queue ordered and the backlog at most max_delay |
| Engine.StepKeepsOrder | src/main.c:267-341 | with clock readings that do not go back, a pass keeps the queue in release order |
| Engine.IngestAllQueues | src/main.c:317-325 | per device, the queue after a pass holds the old entries followed by that device's events of the pass, whatever the rescue check decided, so the event that completes the combo and those read after it are still queued |
| Engine.StepConserves | src/main.c:267-341 | per device, output plus queue grows by exactly that device's events of the pass: nothing lost, duplicated or reordered |
| Engine.Run | src/main.c:267-341 | the loop keeps the state well shaped |
| Engine.RoundsRun | src/main.c:267 | the loop makes at most as many passes as there are rounds |
| Engine.RunStopsOnInterrupt | src/main.c:267-302 | the loop stops before the rounds run out only with interrupt set, and a set flag stops it before any further pass |
| Engine.RunKeepsOrder | src/main.c:267-341 | over a whole run with a clock that does not go back, the queue stays in release order |
| Engine.RunConserves | src/main.c:267-341 | over a whole run, each device's output followed by its queued events is exactly its events from the passes that ran |
| Keycodes.FirstNamed | src/keycodes.c:161-165 | the scan by name stops at the first matching row, or at the end |
| Keycodes.FirstValued | src/keycodes.c:171-175 | the scan by code stops at the first matching row, or at the end |
| Keycodes.LookupKeycode | src/keycodes.c:159-167 | the result is negative iff the name is not in the table, and is then -1; otherwise it is the code of the first row with that name |
| Keycodes.LookupKeyname | src/keycodes.c:169-177 | "KEY_UNKNOWN" for a code not in the table; otherwise the name of the first row with that code |
| Keycodes.KeyTableNamesDistinct | src/keycodes.c:11-154 | no two rows share a name |
| Keycodes.CodesIncrease | src/keycodes.c:11-154 | codes never decrease along the table, and the only repeat is KEY_HANGUEL after KEY_HANGEUL |
| Keycodes.LookupKeycodeOfRow | src/keycodes.c:159-167 | the lookup of every row's name returns that row's code |
| Keycodes.LookupKeycodeIsMembership | src/keycodes.c:159-167 | lookup_keycode(n) = c iff (n, c) is a row, so row order does not matter |
| Keycodes.KeycodeOfKeyname | src/keycodes.c:159-177 | lookup_keycode(lookup_keyname(c)) = c for every code in the table |
| Keycodes.KeynameOfKeycode | src/keycodes.c:133-134 | lookup_keyname(lookup_keycode(n)) has n's code, and is n for every name but KEY_HANGUEL, which maps back to KEY_HANGEUL |
| Keycodes.UnknownCodeRoundTrip | src/keycodes.c:154-177 | a code outside the table is named KEY_UNKNOWN, whose code is 240 |
| Keycodes.SentinelCodeUnmatched | src/keycodes.c:156-177 | the sentinel's code 0 is not in the table, because the scan stops at the sentinel's NULL name |

## Left out

- Kernel interaction: ioctl capability queries, EVIOCGRAB, FIONBIO, `poll`, `read` and the libevdev/uinput devices. Capabilities are sets, a read is an `Arrival`, and a uinput write is an append to a per-device output.
- Failure paths that only panic: `poll`, `read`, `malloc` and the uinput write failing. The model has no such failures.
- `current_time_ms`, `sleep_ms` and the startup timeout. Clock readings are fields of a `Round`.
- The libsodium generator. A draw is a parameter, and `Uniform` is its reduction into [0, n). The statistical uniformity of the draw is not modelled, and neither is the rejection loop of `randombytes_uniform`, which may discard words before it reduces one.
- getopt parsing, `usage`, `banner`, verbose printing, and the BUFSIZE truncation of `-r` and `-k` arguments by strncpy.
- `banner` looks up `rescue_keys[0]` even when the combo is empty. `rescue_keys` is a zero-initialised static array, so that read gives 0, which is printed as KEY_UNKNOWN (`Keycodes.SentinelCodeUnmatched`). The printing itself is not modelled.
- The `main` checks around the loop, except the rejection of a negative `-d` value, which is the `MaxDelay` subset type. The `-r` cap of 16 devices, the call of `detect_devices` only when no `-r` was given, and the panic when none is found are not modelled.
- Shutdown: the loop ends at the next `while (!interrupt)` test after the flag is set. The event that completed the combo, and the events read later in the same pass, are still queued (`Engine.Ingest`, `Engine.IngestAllQueues`). Entries still queued at that point are dropped and never emitted. `RunStopsOnInterrupt` states that no pass runs after the flag is set; resource cleanup is not modelled.
- Scheduler.Enqueue: C `long` arithmetic on times and the `(int)` cast of the emit delay are unbounded integers here. Real clock values never come near those limits.
- Devices.DetectDevices: the opened device names and file descriptors are replaced by node numbers. Node i stands for /dev/input/event<i>.
- RescueKeys.SetRescueKeys: a C string cannot contain NUL, but a Dafny string can. A NUL in the argument is treated like any other non-separator character.
- src/eventcap.c is an event-dumping tool made only of I/O, and src/kloak.h holds only declarations. Neither is modelled.
