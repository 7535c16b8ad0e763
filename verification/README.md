# MELD node firmware, modelled in Dafny

This project models the core of a MELD node. A MELD node is an NFC-triggered
"ritual" device. When a tag is presented, the firmware runs the configured
behaviour. A behaviour can:

- save a moment;
- send a tip;
- vote A or B;
- increment a counter;
- run a light show;
- unlock content.

Every activation opens with a status screen and ends with a dwell and the
ready screen. What happens in between depends on the behaviour:

- Saving a moment, sending a tip, voting and unlocking content each give
  LED and buzzer feedback and store one record under a timestamped key.
- The counter behaviour stores a 4-byte count.
- The light show drives the LED (only the rainbow pattern also sounds the
  buzzer) and stores nothing.
- PLAY_SOUND, CUSTOM and unknown codes only show "Unknown behavior".

The firmware also handles the touch screen: a long press opens a small menu.

The model covers three source files:

- **`src/fw/hal.h`** is the hardware abstraction contract. It is modelled by
  `Hal`:
  - the value types: `nfc_tag_t` as `NfcTag`, `touch_event_t` as `TouchEvent`;
  - the 296 × 296 display geometry;
  - the documented return conventions;
  - a recording `Device` class. Every display, LED, buzzer, storage and delay
    call of the firmware becomes one entry of an ordered effect trace. Storage
    is a key → blob map. The clock is a millisecond counter that only delays
    advance. The tag in the field and the successive results of `touch_read`
    are inputs held in fields.
- **`src/fw/main.cpp`** is the firmware. It is modelled twice:
  - **As specification functions over values:**
    - `Rituals`: the dispatch and one `Run` per handler, giving the effects and
      the state after.
    - `Menu`: the band classification and the selections.
    - `Gestures`: the two blocking touch waits.
    - `Acquisition`: the NFC and touch phases of `loop()`, and whole passes.
    - `Counter`: the 4-byte big-endian codec.
    - `UidString`: `uid_to_string`.
    - `Text`: decimal rendering and record keys.
  - **As the imperative class `Firmware.Node`:**
    - Its fields are the firmware's globals: `current_ritual`,
      `ritual_initialized`, `last_nfc_check`, `last_uid`, `last_touch_time`.
    - Its methods make the same HAL calls in the same order on a `Device`. Each
      is proved to produce exactly the trace and state that its specification
      function gives.
    - `uid_to_string` writes into a char array.
    - The counter handler decodes and re-encodes a 4-byte array in place.
    - The wait loops are `while` loops proved against `Gestures`.
- **`src/sim/hal-wasm.cpp`** is the browser backend of the HAL. It is modelled
  by the class `WasmHal.Simulator`, which has:
  - the bounded touch FIFO, where drop-oldest keeps the newest ten;
  - the single-tag NFC queue, with the UID clamped to 7 bytes and NDEF to 512;
  - the three initialisation flags;
  - the argument guards of the display, NFC and storage calls.

  Calls into the host page (`js_*`) are recorded in `calls`. Their answers are
  parameters.

## Model

| member | source | states |
|---|---|---|
| Hal.LoadedLength | src/fw/hal.h:180-187 | storage_load reports no more than the buffer holds and no more than is stored; it reports 0 for an absent key and something whenever there is something to read |
| Hal.LoadAfterSave | src/fw/hal.h:170-187 | a load after a save under the same key reads the saved bytes, all of them when the buffer is large enough |
| Hal.Device.Init | src/fw/hal.h:18-21 | display, NFC and touch initialisation are recorded in call order |
| Hal.Device.Clear | src/fw/hal.h:23-26 | display_clear is recorded |
| Hal.Device.Draw | src/fw/hal.h:36-43 | text is drawn only at a documented size 1–4, and the call is recorded with its position, text and size |
| Hal.Device.Update | src/fw/hal.h:45-49 | display_update is recorded with its partial flag |
| Hal.Device.TagPresent | src/fw/hal.h:65-69 | nfc_tag_present is true exactly when a tag is in the field |
| Hal.Device.GetUid | src/fw/hal.h:71-76 | nfc_get_uid yields the UID of the tag in the field; its length is 0 when there is no tag |
| Hal.Device.TouchRead | src/fw/hal.h:106-111 | touch_read yields the next event and consumes exactly it; it reports nothing and consumes nothing when no event is available |
| Hal.Device.Millis | src/fw/hal.h:114-117 | system_millis reads the clock |
| Hal.Device.Sleep | src/fw/hal.h:119-123 | system_delay advances the clock by exactly its argument and is recorded |
| Hal.Device.SetLed | src/fw/hal.h:139-143 | led_set is recorded |
| Hal.Device.Blink | src/fw/hal.h:145-150 | led_blink is recorded as one event |
| Hal.Device.Buzz | src/fw/hal.h:153-158 | buzzer_tone is recorded with frequency and duration |
| Hal.Device.BuzzSuccess | src/fw/hal.h:160-163 | buzzer_success is recorded |
| Hal.Device.StorageSave | src/fw/hal.h:171-178 | storage_save succeeds, and the key then holds the saved value |
| Hal.Device.StorageLoad | src/fw/hal.h:180-187 | storage_load copies the first LoadedLength stored bytes into the buffer, leaves the rest of the buffer alone and returns that length |
| Text.Dec | src/fw/main.cpp:82 | "%llu" gives a non-empty string of decimal digits with no leading zero |
| Text.ParseDecOfDec | src/fw/main.cpp:82 | the decimal text reads back as the number |
| Text.RecordKeyInjective | src/fw/main.cpp:81-82 | two keys with the same prefix are equal if and only if their timestamps are |
| UidString.HexShape | src/fw/main.cpp:42-47 | the text of a UID has two upper-case hex digits per byte, high nibble first: byte k at positions 2k and 2k+1 |
| UidString.UnhexHex | src/fw/main.cpp:42-47 | the text decodes back to the UID bytes |
| UidString.HexInjective | src/fw/main.cpp:42-47 | two UIDs render to the same string if and only if they are equal |
| UidString.UidToString | src/fw/main.cpp:42-47 | the buffer holds the UID's hex text in its first 2·length cells and a NUL at index 2·length; later cells are untouched |
| Counter.Decode | src/fw/main.cpp:165 | the most significant byte is the value divided by 2^24, and the last byte is the value mod 256 |
| Counter.DecodeEncode | src/fw/main.cpp:165-172 | decoding the big-endian encoding of a 32-bit value gives the value back |
| Counter.EncodeDecode | src/fw/main.cpp:165-172 | encoding the decoded value of four bytes gives the bytes back |
| Counter.Next | src/fw/main.cpp:166 | the increment adds one, except that 2^32 − 1 wraps to 0 |
| Counter.BlinkCount | src/fw/main.cpp:177 | the blink count is below 10 and equals the new value mod 10 |
| Counter.ToneHz | src/fw/main.cpp:178 | the tone lies in 1000–1499 Hz and is 1000 + the new value mod 500 |
| Counter.LoadedBuffer | src/fw/main.cpp:162-163 | the zeroed buffer holds the loaded bytes first and zeros after them |
| Counter.StoredCount | src/fw/main.cpp:162-165 | an absent counter reads as 0 |
| Counter.StoredCountOfEncoding | src/fw/main.cpp:162-165 | a stored 4-byte encoding reads back as the value it encodes |
| Counter.Increment | src/fw/main.cpp:162-174 | after one activation, the counter key holds the encoding of the incremented value, every other key is unchanged and no other key appears |
| Counter.CountsActivations | src/fw/main.cpp:162-174 | starting from an absent key, N activations leave N mod 2^32 stored big-endian |
| Counter.StoredCountIncrement | src/fw/main.cpp:162-174 | an increment moves the count read back under its key on by one, wrapping at 2^32 |
| Rituals.FromCode | src/fw/main.cpp:429 | the integer from the configurator keeps its value; it is outside the enumeration exactly when it is not 0–8 |
| Rituals.FromCodeOfCode | src/fw/main.cpp:11-21 | each behaviour is recovered from its enumeration value |
| Rituals.DispatchFrame | src/fw/main.cpp:243-271 | every activation opens with the behaviour's status message and closes with its dwell and the ready screen. Only the seven handled behaviours do anything in between; PLAY_SOUND, CUSTOM and unknown values take the default branch |
| Rituals.DispatchTiming | src/fw/main.cpp:243-271 | every activation takes at least its dwell (1000 or 2000 ms), leaves touch input alone and emits effects |
| Rituals.DispatchStore | src/fw/main.cpp:68-240 | a recording behaviour adds exactly one record under "prefix + timestamp", stamped while it runs and holding the uid, the node and the timestamp. The counter behaviour increments its counter. Every other behaviour leaves storage unchanged |
| Rituals.LaterRecordKeyDiffers | src/fw/main.cpp:81-82 | an activation that starts after an earlier one finished writes under a different key, whichever recording behaviours the two run (so VoteA and VoteB never overwrite each other) |
| Rituals.CounterStep | src/fw/main.cpp:156-185 | one dispatch of the counter behaviour changes the store exactly as Counter.Increment does on its counter_name |
| Rituals.CounterActivations | src/fw/main.cpp:156-185 | N successive dispatches of the counter behaviour, starting with no counter stored, leave N mod 2^32 stored under counter_name |
| Rituals.RecordSurvives | src/fw/main.cpp:68-240 | a record already stored survives every later recording activation unchanged |
| Rituals.RainbowCycles | src/fw/main.cpp:192-200 | the rainbow pattern is its ten 5-effect cycles in order |
| Rituals.RainbowTones | src/fw/main.cpp:194-196 | cycle i of the rainbow sounds 500 + 100·i Hz |
| Rituals.PulseCycles | src/fw/main.cpp:201-208 | the pulse pattern is its five 4-effect cycles in order |
| Rituals.RainbowOrnamental | src/fw/main.cpp:192-200 | the rainbow only drives the LED, the buzzer and delays |
| Rituals.PulseOrnamental | src/fw/main.cpp:201-208 | the pulse only drives the LED, the buzzer and delays |
| Rituals.LightShowOrnamental | src/fw/main.cpp:192-212 | every light pattern only touches the LED, the buzzer and the clock |
| Menu.BandsPartition | src/fw/main.cpp:285-321 | each item owns exactly the 20 rows from its band top (50, 70, 90, 110); everything below 50 or from 130 on exits |
| Menu.MenuLinesInTheirBands | src/fw/main.cpp:274-283 | each numbered menu line is drawn at the top of its own band; the title and the exit hint lie in the exit band |
| Menu.SelectionEndsReady | src/fw/main.cpp:285-322 | every selection ends on the ready screen and never loads or saves, "Clear Data" included. Only Node Info consumes touch input, up to and including the dismissing touch-down |
| Menu.SelectionDwell | src/fw/main.cpp:285-300 | the stub selections dwell 1000 ms, the NFC test 3000 ms, and exit only redraws the ready screen |
| Gestures.AwaitRelease | src/fw/main.cpp:389-395 | the wait's clock advances 10 ms per poll |
| Gestures.ReleaseCharacterized | src/fw/main.cpp:386-395 | the long-press wait reports a hold exactly when none of the polls it has time for brings a touch-up, and then it has used the whole window. Otherwise it stops at the first touch-up, consuming exactly the polls up to it |
| Gestures.FreshWindow | src/fw/main.cpp:386-395 | started on the touch-down's poll, the wait has room for exactly 100 polls and a hold ends 1000 ms later |
| Gestures.ExpiredWindow | src/fw/main.cpp:389 | a window opened 1000 ms or more earlier polls nothing and reports a hold |
| Gestures.TapCharacterized | src/fw/main.cpp:402-408 | the selection wait takes the first touch-down and consumes exactly the polls before it, one 10 ms sleep each; it finds none exactly when the input holds none |
| Acquisition.PresenceDispatchesOnce | src/fw/main.cpp:360-369 | a new tag held for k ≥ 1 due polls is dispatched once, on the first of them |
| Acquisition.StillPresent | src/fw/main.cpp:365 | while the same tag stays, nothing more is dispatched |
| Acquisition.EmptyFieldClears | src/fw/main.cpp:371-374 | an empty field clears last_uid and dispatches nothing |
| Acquisition.OneDispatchPerSession | src/fw/main.cpp:353-375 | over any series of presence intervals, each preceded by an empty poll, the dispatched UIDs are exactly one per interval, in order, even when the same tag returns |
| Acquisition.SwapDispatches | src/fw/main.cpp:365-369 | a tag replaced by another without an empty poll between them is dispatched exactly when the UIDs differ |
| Acquisition.NfcPhaseSpec | src/fw/main.cpp:353-375 | a poll happens only when due (more than 100 ms since the last) and then records its time. A ritual runs if and only if the tag's UID string is non-empty and differs from last_uid, which holds it from then on. An empty field clears last_uid. A present tag that is not dispatched (the same UID string, or an empty UID) leaves last_uid as it was |
| Acquisition.PassStep | src/fw/main.cpp:349-414 | for the loop as written and for the corrected loop alike, a pass that is not due leaves last_uid alone and runs nothing; a due pass moves last_uid as one debounce step does and runs a ritual exactly when that step dispatches; the touch phase never changes last_uid |
| Acquisition.PassesDebounce | src/fw/main.cpp:349-414 | over any run of whole passes of the loop as written or of the corrected loop, touch phases and non-due passes included, the rituals that run are exactly those the debounce of the due polls dispatches, and last_uid ends where it leaves it |
| Acquisition.PassesOneDispatchPerSession | src/fw/main.cpp:353-375 | over whole passes of the loop as written or of the corrected loop, when the due polls form a series of presence sessions, one ritual runs per session, for that session's tag, in order |
| Acquisition.TouchIgnored | src/fw/main.cpp:378-381 | an event that is not a due touch-down (more than 500 ms since the last) is consumed and changes nothing else |
| Acquisition.LongPressOpensMenu | src/fw/main.cpp:379-399 | read on its own poll, a due touch-down opens the menu exactly when none of the next 100 polls brings a touch-up; otherwise it is a tap costing one 10 ms sleep per poll up to the release |
| Acquisition.StaleWindowTapOpensMenu | src/fw/main.cpp:386 | in the loop as written, a tap read after a ritual ran in the same pass opens the menu even though the next poll brings its release |
| Acquisition.FreshWindowTapIsTap | src/fw/main.cpp:386 | with the window opened at the touch-down, the same input is a tap: the pass is the ritual followed by one 10 ms poll and the loop's 10 ms delay, and both events are consumed |
| Firmware.Node.constructor | src/fw/main.cpp:35-39 | the globals start zeroed: no configuration, not initialised, times 0, last_uid empty |
| Firmware.Node.ShowStatus | src/fw/main.cpp:49-56 | show_status_message makes the six display calls of the status screen |
| Firmware.Node.ShowReady | src/fw/main.cpp:58-65 | show_ready_screen makes the six display calls of the ready screen |
| Firmware.Node.SaveRecord | src/fw/main.cpp:81-83 | a record is saved under its prefix followed by millis() |
| Firmware.Node.SaveMoment | src/fw/main.cpp:68-88 | execute_save_moment produces exactly RunSaveMoment's effects and state |
| Firmware.Node.TipChime | src/fw/main.cpp:94-101 | the tip feedback is five blinks and a rising three-tone chime, taking 240 ms |
| Firmware.Node.SendTip | src/fw/main.cpp:90-118 | execute_send_tip produces exactly RunSendTip's effects and state |
| Firmware.Node.VoteFeedback | src/fw/main.cpp:128-138 | vote A is a long tone under the LED and takes no time; vote B is blinks and two falling tones with a 100 ms gap |
| Firmware.Node.Vote | src/fw/main.cpp:120-154 | execute_vote produces exactly RunVote's effects and state for either option |
| Firmware.Node.StepCounter | src/fw/main.cpp:161-174 | the in-place 4-byte buffer yields the stored count plus one (mod 2^32). It loads, then saves the new encoding, and the store becomes Counter.Increment of the old store |
| Firmware.Node.IncrementCounter | src/fw/main.cpp:156-185 | execute_increment_counter produces exactly RunIncrementCounter's effects and state |
| Firmware.Node.RainbowStep | src/fw/main.cpp:195-199 | one rainbow cycle emits its five effects and takes 150 ms |
| Firmware.Node.PlayRainbow | src/fw/main.cpp:192-200 | the rainbow loop emits Rainbow(10) and takes 1500 ms |
| Firmware.Node.PlayPulse | src/fw/main.cpp:201-208 | the pulse loop emits Pulse(5) and takes 500 ms |
| Firmware.Node.LightShow | src/fw/main.cpp:192-212 | the configured pattern picks rainbow, pulse or the default strobe, with its duration |
| Firmware.Node.TriggerLight | src/fw/main.cpp:187-217 | execute_trigger_light produces exactly RunTriggerLight's effects and state |
| Firmware.Node.UnlockContent | src/fw/main.cpp:219-240 | execute_unlock_content produces exactly RunUnlockContent's effects and state |
| Firmware.Node.UnknownBehavior | src/fw/main.cpp:266-269 | the default branch shows "Unknown behavior", waits 1000 ms and restores the ready screen |
| Firmware.Node.ExecuteRitual | src/fw/main.cpp:243-271 | execute_ritual_behavior produces exactly Dispatch's effects and state |
| Firmware.Node.Setup | src/fw/main.cpp:325-347 | setup initialises display, NFC and touch in that order, installs the default ritual, marks it initialised and shows the ready screen |
| Firmware.Node.SetRitualConfig | src/fw/main.cpp:424-438 | every field except the sound file is replaced, the behaviour comes from its integer code, and the ready screen is redrawn only once setup has run |
| Firmware.Node.ShowMenu | src/fw/main.cpp:274-283 | show_menu draws the menu screen |
| Firmware.Node.WaitForTap | src/fw/main.cpp:402-408 | the polling loop finds what AwaitTap finds, consumes what it consumes and sleeps 10 ms per skipped poll |
| Firmware.Node.NodeInfo | src/fw/main.cpp:301-317 | Node Info shows the node's identity, waits for a touch-down, then shows the ready screen |
| Firmware.Node.HandleTouchMenu | src/fw/main.cpp:285-322 | handle_touch_menu produces exactly Menu.Selection's effects and state, and never moves the clock back |
| Firmware.Node.HoldWait | src/fw/main.cpp:386-395 | the long-press loop ends exactly as AwaitRelease says: held or released, with the clock, the remaining input and one sleep per poll |
| Firmware.Node.NfcPhase | src/fw/main.cpp:350-375 | the NFC half of loop() updates last_nfc_check and last_uid and runs the ritual exactly as Acquisition.NfcPhase says; it leaves last_touch_time alone |
| Firmware.Node.MenuSession | src/fw/main.cpp:397-409 | the long-press branch shows the menu and acts on the next touch-down exactly as Acquisition.MenuSession says |
| Firmware.Node.TouchPhase | src/fw/main.cpp:377-411 | the touch half of loop() updates last_touch_time, waits and opens the menu exactly as Acquisition.TouchPhase says |
| Firmware.Node.Loop | src/fw/main.cpp:349-414 | one pass of loop(), with the long-press window opened at the touch-down, is exactly Acquisition.Cycle. It keeps the remembered times behind the clock |
| Firmware.Node.LoopAsWritten | src/fw/main.cpp:349-414 | one pass of loop() as written, with the window opened at `now`, is exactly Acquisition.CycleAsWritten |
| WasmHal.KeepNewest | src/sim/hal-wasm.cpp:224-229 | after the drop-oldest loop the queue holds min(length, 10) events, and they are the newest, in arrival order |
| WasmHal.PushAllKeepsNewest | src/sim/hal-wasm.cpp:215-230 | however many events the page pushes, the queue is the newest ten of everything it has seen, in order |
| WasmHal.Clamp | src/sim/hal-wasm.cpp:237-240 | a clamped length is the given length or the cap, whichever is smaller |
| WasmHal.Simulator.constructor | src/sim/hal-wasm.cpp:45-50 | nothing is initialised and both queues are empty |
| WasmHal.Simulator.InitDisplay | src/sim/hal-wasm.cpp:53-57 | display_init marks the display initialised and clears it through the host |
| WasmHal.Simulator.ClearDisplay | src/sim/hal-wasm.cpp:59-62 | display_clear reaches the host only after init |
| WasmHal.Simulator.SetPixel | src/sim/hal-wasm.cpp:64-68 | a pixel reaches the host only after init and when it is on the 296 × 296 surface |
| WasmHal.Simulator.DrawString | src/sim/hal-wasm.cpp:70-73 | text reaches the host only after init and when it is not null |
| WasmHal.Simulator.Refresh | src/sim/hal-wasm.cpp:75-78 | display_update reaches the host only after init |
| WasmHal.Simulator.InitNfc | src/sim/hal-wasm.cpp:81-84 | nfc_init marks NFC initialised |
| WasmHal.Simulator.TagPresent | src/sim/hal-wasm.cpp:86-88 | a tag is present exactly when one is queued, initialised or not |
| WasmHal.Simulator.GetUid | src/sim/hal-wasm.cpp:90-96 | the queued tag's UID is copied out and its length returned, and the tag stays queued. The result is 0 before init, for a null buffer or with no tag, and then the buffer is untouched |
| WasmHal.Simulator.ReadNdef | src/sim/hal-wasm.cpp:98-104 | as GetUid, for the NDEF payload |
| WasmHal.Simulator.WriteNdef | src/sim/hal-wasm.cpp:106-109 | the write is refused before init, for a null buffer or a non-positive length; otherwise the host answers. The host's length parameter is 16-bit (src/sim/hal-wasm.cpp:29), so it is handed the first `len` mod 2^16 bytes |
| WasmHal.Simulator.PushTag | src/sim/hal-wasm.cpp:232-250 | once initialised, the queue holds exactly the new tag, with its UID clamped to 7 bytes, its NDEF to 512 and its detection time; before init nothing changes |
| WasmHal.Simulator.RemoveTag | src/sim/hal-wasm.cpp:252-257 | the queue is emptied, so no tag is present |
| WasmHal.Simulator.InitTouch | src/sim/hal-wasm.cpp:112-115 | touch_init marks touch initialised |
| WasmHal.Simulator.ReadTouch | src/sim/hal-wasm.cpp:117-123 | the front event is returned and exactly it removed. Before init, for a null destination or with an empty queue, nothing is returned and the queue is unchanged |
| WasmHal.Simulator.PushTouch | src/sim/hal-wasm.cpp:215-230 | once initialised, the event joins the back and the queue keeps the newest ten; before init nothing changes |
| WasmHal.Simulator.StorageSave | src/sim/hal-wasm.cpp:196-199 | a null key, null data or zero length is refused without reaching the host; otherwise the host's answer is returned |
| WasmHal.Simulator.StorageLoad | src/sim/hal-wasm.cpp:201-204 | a null key, null buffer or zero capacity gives 0 without reaching the host and leaves the buffer alone; otherwise the host's bytes are copied and counted |
| WasmHal.Simulator.StorageDelete | src/sim/hal-wasm.cpp:206-209 | a null key is refused without reaching the host; otherwise the host's answer is returned |

## Left out

- 64-bit time: `system_millis` and the three remembered times are `uint64_t`. The model's clock is an unbounded natural, so wrap-around after 2^64 ms is not modelled. The loop's unsigned differences are plain differences because `Firmware.Node.Loop` keeps the remembered times behind the clock (`Synced`).
- Record text: the records are JSON text produced by `sprintf`. They are modelled as their ordered field lists (`Blob.Object`), not as bytes. The key is modelled exactly.
- Counter.StoredCount: a counter key that holds a record reads as empty, so the count restarts at 1. An example is `counter_name` set to "moment_5000" after a moment was saved at 5000 ms. The firmware would instead decode the record's first four JSON bytes as the count, and the model does not capture this because record text is not modelled as bytes.
- Tip amount: `tip_amount` is a float, and the firmware only ever prints it with "%.2f". The configuration keeps that rendering as a string, and no floating point is modelled.
- Debug output: `debug_print` and `debug_printf` calls are not part of the trace.
- `led_blink`: the browser backend schedules it asynchronously with timer callbacks. It is modelled as one trace event that takes no time.
- `buzzer_success`: modelled as one trace event that takes no time. The browser backend's version (src/sim/hal-wasm.cpp:181-187) sleeps 240 ms inside it. On that backend, moment timestamps would be 240 ms later than the model's and unlock timestamps 240 ms later too. The ESP32 driver is not part of this model.
- The remaining backend forwarders are not modelled: `led_set`, `buzzer_tone`, `buzzer_error`, `system_millis`, `system_delay` (`emscripten_sleep`) and `debug_print` in src/sim/hal-wasm.cpp only forward to the host. The host functions (`js_*`) are foreign. `WasmHal.Simulator` records the calls it makes and takes their answers as parameters.
- Storage failure is not modelled on the firmware side. The firmware ignores the results of `storage_save` and `storage_load`, and `Hal.Device.StorageSave` always succeeds. The browser backend's refusals are modelled in `WasmHal.Simulator`.
- Blocking waits: the two touch waits end when the touch input runs out. These are the menu's wait for a touch-down and Node Info's wait. `Firmware.Node.WaitForTap` and `Gestures.AwaitTap` stop at the end of the input script, where the firmware would spin until a touch-down arrives.
- `strcpy` into the fixed `ritual_config_t` buffers and into `last_uid`: overflow of those buffers is not modelled. Strings are unbounded.
- `app_main`, and the `wasm_setup`/`wasm_loop` wrappers: they only call `setup` and `loop` (the latter forever), which are modelled.
- ESP32 drivers: they are not part of this model.
- Tag input: the tag in the field is an input of each pass. Queue changes during a ritual are not interleaved with the firmware's steps. On the browser backend the page can deliver those changes while `system_delay` yields.
- Configuration changes during a ritual: the configuration is one value for a whole activation. `Rituals.Dispatch` and `Firmware.Node.ExecuteRitual` read a single `RitualConfig` throughout. On the browser backend the page can call `set_ritual_config` (src/fw/main.cpp:424-438) while `system_delay` yields mid-ritual. Fields read after such a yield, such as the label on the closing ready screen after the final dwell, would then come from the new configuration, and the call itself redraws the ready screen. This interleaving is not modelled.

## Findings

| source | as written | input that shows it | evidently intended | confidence | as-written member | corrected member |
|---|---|---|---|---|---|---|
| src/fw/main.cpp:386 | `touch_start = now` opens the 1000 ms long-press window at the time read at the top of `loop()`, before the NFC phase. A ritual dispatched in the same pass takes at least 1000 ms, so by the time the touch-down is read the window has already expired. | A new tag is in the field and due, and the touch input is a touch-down followed immediately by its touch-up. | The window is measured from when the touch-down is read, so an immediate release is a tap and the menu stays closed. | not executed | Acquisition.StaleWindowTapOpensMenu (about Acquisition.CycleAsWritten / Firmware.Node.LoopAsWritten) | Acquisition.FreshWindowTapIsTap (about Acquisition.Cycle / Firmware.Node.Loop) |
