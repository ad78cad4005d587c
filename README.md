# FSM-GA LED synchronisation, modelled in Dafny

This project models the LED synchronisation core of `main.py`, a small bridge between Microsoft Flight Simulator and the VKB FSM-GA autopilot panel. The bridge behaves as follows:
- It polls the simulator's autopilot variables.
- For each of the ten LEDs that have an updater (10..21 except TRK 11 and VNAV 16), it derives a lit, flashing or dark state. TRK and VNAV are mapped to `led_update_noop` and are never written.
- It sends a command to the device only when the derived state differs from the one cached in `KNOWN_LED_STATE`.
- A self-test can also be run. It turns every LED off, then fast-flashes each LED in turn.

The modules follow the program's structure:

- `leds.dfy`, module `Leds`:
  - the `FSMGALED` enumeration (HDG = 10, then `auto()`);
  - `LOOKUP_LED_BY_ID` as its list of entries in insertion order;
  - `FSMGADevice.ALL_LEDS`;
  - the key sort `sorted(..., key=lambda x: x[0])` used by the self-test.
- `device.dfy`, module `Device`:
  - the five command kinds the program sends;
  - the device as a class whose `log` records every command received, with methods for `set_led_on`, `set_led_flashing`, `set_led_off`, `flash_led` and `all_leds_off`;
  - the device selection rule `get_fsmga`.
- `rules.dfy`, module `Rules`:
  - the cached values with Python's truthiness;
  - the snapshot;
  - the decision each updater makes (`_set_bool_led`, `led_update_apr`, `led_update_alt`, `led_update_noop`) and its case tables.
- `engine.dfy`, module `Engine`:
  - `LED_UPDATER_MAP`;
  - one pass (`led_update_loop`) as functions on the cache and the snapshot;
  - the class `LedSync`, whose field `known` is `KNOWN_LED_STATE` and whose methods are the updaters, the pass loop, the bootstrap and the `run_simconnect` session;
  - pass-level and session-level properties.
- `selftest.dfy`, module `SelfTest`: `perform_self_test` and the command trace it produces.

Modelling choices:
- **Cache values.** A cache value is `PyNone | PyInt(i) | PyStr(s)`. The program stores 0, 1 and the strings "on", "flash", "off", "locked" and "armed", and `get` reads a missing key as None. With this type, `not known_state`, `or "off"` and `!= "off"` keep their Python meaning.
- **Snapshots.** A telemetry snapshot is a map from variable name to integer reading.
  - A missing key reads as 0, as `aircraft_state.get(key) or 0` does.
  - A variable that is present with the value None is the same as a missing one, so it is not represented separately.
- **Updaters.** Each updater is a method on `LedSync`. It is specified by two functions on the old cache:
  - `StepCmds`, the commands it sends;
  - `StepCache`, the cache it leaves.
- **Passes and sessions.** A pass and a session are specified the same way:
  - a pass by `PassCmds`/`PassCache`;
  - a session by `SessionCmds`/`SessionCache`.
- **Simulator run.** The simulator's run is given as the list of snapshots of the passes it lasts.

Three behaviours of the code are modelled as written:
- **Positive readings.** A two-state LED turns on only for a reading above 0. A negative reading never changes it: it is not above 0 and it is truthy, so neither branch of `_set_bool_led` fires (`BoolDecide`).
- **Failed writes.** A failed device write is not caught, so it ends the program, and nothing turns the LEDs off at exit. The model's commands always succeed (see "Left out").
- **Reset value.** The bootstrap caches 0 for every id. The two-state and altitude rules read 0 like a missing entry. The approach rule does not read 0 as "off", so the first all-clear pass after the bootstrap writes "off" to LED 13 (`FirstPassClear`).

## Model

| member | source | states |
|---|---|---|
| Leds.MembersComplete | main.py:11-28 | every member of the enumeration is listed once, at the position of its ordinal |
| Leds.MemberValues | main.py:17-28 | there are 12 members and the i-th has value 10 + i (HDG = 10, then `auto()` adds one) |
| Leds.IdRange | main.py:31-41 | `ALL_LEDS` is exactly 10..21, equals the key list of `LOOKUP_LED_BY_ID` in iteration order, and k is a key exactly when 10 <= k <= 21 |
| Leds.MemberAt | main.py:17-28 | definition: the member declared at position i, from which `MEMBERS` (the iteration order of `FSMGALED` at main.py:31) is built; `MembersComplete` states every member appears once at its ordinal |
| Leds.Ordinal | main.py:17-28 | definition: the declaration position of a member; `MembersComplete` relates it to `MEMBERS` |
| Leds.Value | main.py:17-31 | definition: `int(x.value)`, HDG = 10 plus the ordinal as `auto()` counts up; `MemberValues` states member i has value 10 + i |
| Leds.Name | main.py:17-31 | definition: `x.name`, the member's identifier; `LookupNames` states entry i of the table carries the name of member i |
| Leds.LookupLedById | main.py:31 | definition: the dict's entries (value, name) in insertion order, one per member of `MEMBERS`; `LookupNames` states its contents |
| Leds.LookupKeys | main.py:31 | definition: the keys `for led_id in LOOKUP_LED_BY_ID` visits (main.py:80, 266), in iteration order; `IdRange` states they are 10..21 |
| Leds.AllLeds | main.py:41 | definition: `range(HDG, HDG + len(FSMGALED))`; `IdRange` states it is 10..21 and equals the key list |
| Leds.LookupNames | main.py:31 | entry i of the id-to-name table is (10 + i, name of member i) |
| Leds.Insert | main.py:293 | inserting an entry into a list adds one entry and keeps the multiset of the others |
| Leds.InsertMembers | main.py:293 | every entry after an insertion is the inserted one or was already there |
| Leds.InsertSorted | main.py:293 | inserting into a key-sorted list keeps it key-sorted |
| Leds.HeadBelowSorted | main.py:293 | an entry with a key no larger than every key of a sorted list can be put in front of it |
| Leds.SortByKey | main.py:293 | the sort's result is sorted by key, has the same length and is a permutation of its input |
| Leds.SortIncreasingIsIdentity | main.py:293 | sorting a list whose keys strictly increase returns it unchanged |
| Leds.SortedLookupIsLookup | main.py:293 | `sorted(LOOKUP_LED_BY_ID.items(), key=...)` returns the table unchanged, because its keys already strictly increase |
| Device.PrimaryColor | main.py:43-81 | a command's first colour is `#000` exactly for the two off commands |
| Device.PatternOf | main.py:43-77 | only the flashing command blinks slowly and only the self-test command blinks fast |
| Device.SecondaryColor | main.py:52-60 | only the flashing command has a second colour |
| Device.BareOffAll | main.py:80-81 | one bare `#000` command per id, position by position |
| Device.AllOffCmds | main.py:79-82 | `all_leds_off` sends exactly 12 commands, the i-th being the bare `#000` for LED 10 + i |
| Device.VkbDevice.SetLedOn | main.py:43-50 | the log gains exactly one "on" command for the LED |
| Device.VkbDevice.SetLedFlashing | main.py:52-60 | the log gains exactly one flashing command for the LED |
| Device.VkbDevice.SetLedOff | main.py:62-69 | the log gains exactly one "off" command for the LED |
| Device.VkbDevice.FlashLed | main.py:71-77 | the log gains exactly one fast-flash command for the LED |
| Device.VkbDevice.AllLedsOff | main.py:79-82 | the log gains the all-off trace `AllOffCmds` |
| Device.VkbDevice.BareOffEach | main.py:80-81 | the loop of `all_leds_off` appends one bare `#000` per id, in order |
| Device.IsFsmGa | main.py:90 | definition: `x.PRODUCT_ID == FSM_GA_PID`, with the constant `FSM_GA_PID = 0x2220` of main.py:8; `FsmGaDevices` and `GetFsmga` state the selection in terms of it |
| Device.FsmGaDevices | main.py:90 | the filtered list has only FSM-GA devices of the input, and every FSM-GA device of the input is in it |
| Device.NoneFiltered | main.py:90-95 | the filtered list is empty exactly when no device has the FSM-GA product id |
| Device.TwoPositionsFiltered | main.py:90-92 | two FSM-GA positions in the list leave at least two devices after the filter |
| Device.FilteredPositions | main.py:90-92 | two devices left after the filter come from two distinct FSM-GA positions |
| Device.SeveralFiltered | main.py:90-92 | more than one device survives the filter exactly when two positions hold FSM-GA devices |
| Device.GetFsmga | main.py:89-97 | "multiple devices" exactly when two positions hold FSM-GA devices (checked first); "not found" exactly when none does; otherwise the result is an FSM-GA device of the list and every FSM-GA device of the list is that one |
| Rules.Truthy | main.py:124-129 | definition: Python truthiness of a cached value (None, 0 and "" are false), used by `not known_state` and by `or "off"` (main.py:186) |
| Rules.Get | main.py:121 | definition: `KNOWN_LED_STATE.get(led_id)`, None for a missing key (also main.py:151, 186) |
| Rules.Read | main.py:122 | definition: `aircraft_state.get(key) or 0`, 0 for a missing reading |
| Rules.Flag | main.py:188-189 | definition: `(aircraft_state.get(key) or 0) > 0` |
| Rules.AprFlagsOf | main.py:153-159 | definition: the six approach and glideslope flags, each a reading above 0 |
| Rules.AprEngaged | main.py:162 | definition: `apr_active or apr_captured or gs_active or apr_hold`; `AprDecide` states "on" is written only when it holds |
| Rules.AprArmed | main.py:168 | definition: `apr_armed or gs_armed`; `AprDecide` states flashing is written only when it holds |
| Rules.BoolDecide | main.py:119-131 | a write happens only when the lit state (reading > 0) differs from the cache's truthiness; it is "on" or "off", leaves the cache truthy exactly when lit, and a negative reading never writes; no write exactly when the cache already agrees |
| Rules.BoolTransitions | main.py:124-131 | the three cases of `_set_bool_led`: on and cache 1 iff reading > 0 and cache falsy; off and cache 0 iff reading 0 and cache truthy; nothing otherwise |
| Rules.AprDecide | main.py:150-179 | every approach write changes the cached tag and sends its command; "on" only when engaged, flashing only when armed, "off" only when all six flags are clear; no write exactly when the cache holds the tag of every condition that holds |
| Rules.AprTransitions | main.py:162-179 | engaged and not cached "on" writes "on"; otherwise armed and not cached "flash" writes flashing; "off" is written iff all six flags are clear and the cache is not "off"; a None or 0 entry with all flags clear writes "off" |
| Rules.AltKnown | main.py:186 | the normalised altitude entry is always truthy: a falsy or missing entry reads as "off", a truthy one as itself |
| Rules.AltDecide | main.py:185-203 | every altitude write changes the tag and sends its command; "on" only when locked, flashing only when armed, "off" only when neither; no write exactly when the cache holds the tag of every condition that holds |
| Rules.AltTransitions | main.py:186-203 | locked wins unless cached "locked" (then armed writes flashing); else armed unless cached "armed"; else "off" unless cached "off"; a falsy entry with both flags clear writes nothing |
| Rules.Decide | main.py:134-136 | the no-op updater never writes, and every value written is truthy or 0 |
| Rules.DecideChangesEntry | main.py:119-203 | every write stores a value different from what `get` read for that LED |
| Rules.DecideSettles | main.py:119-203 | deciding again on the value just cached writes nothing, for every rule, unless approach or altitude is engaged and armed at once |
| Rules.AprOscillates | main.py:162-171 | engaged and armed at once, the approach rule always writes: "on" unless cached "on", then flashing, then "on" again |
| Rules.AltOscillates | main.py:191-198 | locked and armed at once, the altitude rule always writes, alternating "locked" (on) and "armed" (flashing) |
| Engine.RuleOf | main.py:239-252 | definition: the updater `LED_UPDATER_MAP` attaches to each member, with the simulator variable of each two-state LED (main.py:142-235) |
| Engine.RuleOfCases | main.py:239-252 | only TRK and VNAV have the no-op updater, only APR the approach rule, only ALT the altitude rule, and the other eight are two-state |
| Engine.Updaters | main.py:239-252 | definition: the entries of `LED_UPDATER_MAP` in insertion order, one per member; `UpdaterTable` states their properties |
| Engine.Id | main.py:255 | definition: `int(led_id)` of a map entry, the member's value; `UpdaterIds` states entry i has id 10 + i |
| Engine.UpdaterTable | main.py:239-252 | `LED_UPDATER_MAP` has 12 entries in member order matching `ALL_LEDS`; only TRK and VNAV have the no-op updater; entry 3 is the approach rule and the only one; entry 4 is the altitude rule; ids strictly increase |
| Engine.UpdaterIds | main.py:239-252 | entry i of the map is member i, LED 10 + i |
| Engine.UpdaterNoops | main.py:239-252 | entry i has the no-op updater exactly when i is 1 (TRK) or 6 (VNAV) |
| Engine.UpdaterApr | main.py:243-244 | entry 3 (LED 13) is `led_update_apr` and entry 4 (LED 14) `led_update_alt`, and no other entry has either rule |
| Engine.UpdatersIncreasing | main.py:239-252 | the ids of the map strictly increase in insertion order |
| Engine.StepCmds | main.py:119-212 | one updater sends at most one command, only for its own LED, and none if it is the no-op updater |
| Engine.StepCache | main.py:119-212 | one updater changes only its own LED's entry, leaves the cache unchanged exactly when it sends nothing, and otherwise changes what `get` reads for its LED |
| Engine.DecideReadsOwnEntry | main.py:121-186 | an updater's decision depends on the cache only through its own LED's entry |
| Engine.PassCmds | main.py:254-255 | a pass sends no more commands than there are updaters, and only to LEDs with a real updater |
| Engine.PassCache | main.py:254-255 | a pass leaves the entries of LEDs without a real updater as they were |
| Engine.PassFrameStep | main.py:254-255 | one updater's frame composed with the rest of the pass gives the pass's frame |
| Engine.ActiveIdsAmong | main.py:239-252 | every LED with a real updater comes from an entry of the map |
| Engine.ActiveIdsHas | main.py:239-252 | every entry with a real updater puts its LED among those with one |
| Engine.LaterIdsAbove | main.py:239-255 | with increasing ids, the updaters after the first act only on larger ids |
| Engine.PassKeepsInactive | main.py:254-255 | a pass does not change what `get` reads for a LED without a real updater |
| Engine.NoopLedsUntouched | main.py:134-136 | in a pass, TRK (11) and VNAV (16) get no command and keep their entries, and at most 12 commands are sent |
| Engine.HeadBelowTail | main.py:254-255 | a command below every command of an id-ordered list can go in front of it |
| Engine.PassInOrder | main.py:239-255 | with increasing ids a pass sends its commands in strictly increasing LED order |
| Engine.SettledPassIsSilent | main.py:254-255 | a pass over a cache on which no updater would write sends nothing and changes nothing |
| Engine.PassSettles | main.py:162-203 | after one pass, every updater whose snapshot is not engaged and armed at once would write nothing, whatever the others do |
| Engine.Unsettled | main.py:254-255 | definition: the LEDs of a list whose updater would write on a given cache |
| Engine.UnsettledTail | main.py:254-255 | the first updater's step does not make any later updater write where it would not have |
| Engine.PassCmdsUnsettled | main.py:254-255 | with increasing ids, a pass sends commands only to LEDs whose updater would write on the cache the pass starts from |
| Engine.PassCacheUnsettled | main.py:254-255 | with increasing ids, every other LED reads the same after the pass |
| Engine.PassAt | main.py:254-255 | with increasing ids, the updater at position k sends within the pass the command it would send on the starting cache, and leaves its entry as it would there |
| Engine.Restless | main.py:162-171 | definition: LED 13 when the approach is engaged and armed at once, LED 14 when the altitude is locked and armed at once (main.py:191-198) |
| Engine.OscillatingIsRestless | main.py:239-252 | an entry of the map whose snapshot is engaged and armed at once is LED 13 or LED 14, and that LED is restless |
| Engine.UnsettledAfterPass | main.py:254-255 | after one pass of the map, only restless LEDs would still be written |
| Engine.SecondPassSilent | main.py:254-255 | idempotence: a second pass over the same snapshot sends commands only to restless LEDs and leaves every other LED reading as the first pass left it; with no restless LED it sends nothing and leaves the cache unchanged |
| Engine.AprPassWrites | main.py:162-171 | with the approach engaged and armed, every pass changes the approach entry to "on" (sending on) or to "flash" (sending flashing) |
| Engine.AltPassWrites | main.py:191-198 | with the altitude locked and armed, every pass changes the altitude entry to "locked" (sending on) or to "armed" (sending flashing) |
| Engine.AprAlternates | main.py:162-171 | engaged and armed, two consecutive passes of the map both write LED 13: the entry takes "on" and "flash" in one order or the other, and the two passes send on and flashing in that order |
| Engine.AltAlternates | main.py:191-198 | locked and armed, two consecutive passes of the map both write LED 14: the entry takes "locked" and "armed" in one order or the other, and the two passes send on and flashing in that order |
| Engine.ZeroCache | main.py:266-267 | the bootstrap's entries are exactly the ids 10..21, each 0 |
| Engine.ResetPass | main.py:262-267 | over entries reset to 0, a pass where every rule is raised (or every flag clear) sends exactly the reference commands |
| Engine.ResetRaisedShape | main.py:124-193 | with every rule raised, the reference commands are "on" for exactly the LEDs with a real updater |
| Engine.ResetClearNone | main.py:129-203 | with every flag clear, a list without the approach updater sends nothing |
| Engine.ResetClearOne | main.py:174-179 | with every flag clear, a list whose only approach updater is at k sends exactly one "off" for it |
| Engine.ResetClearTable | main.py:239-252 | with every flag clear, the reference for the map is the single "off" for LED 13 |
| Engine.ActiveTable | main.py:239-252 | the LEDs with a real updater are exactly 10..21 except 11 and 16 |
| Engine.FirstPassRaised | main.py:262-267 | after the bootstrap, a snapshot raising every rule yields exactly "on" for LEDs 10, 12..15 and 17..21, nothing else, in strictly increasing id order |
| Engine.FirstPassClear | main.py:262-267 | after the bootstrap, an all-clear snapshot yields exactly one command, "off" for the approach LED 13 |
| Engine.SessionCmds | main.py:273-276 | the commands of one pass per snapshot: no more than the number of map entries times the number of passes, and only to LEDs with a real updater |
| Engine.SessionCache | main.py:273-276 | after the session, only the entries of LEDs with a real updater can differ from where it started |
| Engine.SettledSessionIsSilent | main.py:273-276 | passes over a settled cache with an unchanged snapshot send nothing and change nothing |
| Engine.LaterPassesRestless | main.py:273-276 | over one unchanged snapshot, every pass after the first sends commands only to restless LEDs |
| Engine.SteadySession | main.py:273-276 | over one unchanged snapshot, every command of the session is one of the first pass's or goes to a restless LED; with no restless LED only the first pass sends commands |
| Engine.LedSync.constructor | main.py:116 | the cache starts empty |
| Engine.LedSync.SetBoolLed | main.py:119-131 | the device log gains `StepCmds` of the two-state rule and the cache becomes `StepCache` |
| Engine.LedSync.UpdateNoop | main.py:134-136 | sends nothing and leaves the cache as it was (also `led_update_vnav`, main.py:210-212) |
| Engine.LedSync.UpdateApr | main.py:150-179 | the device log gains `StepCmds` of the approach rule and the cache becomes `StepCache` |
| Engine.LedSync.UpdateAlt | main.py:185-203 | the device log gains `StepCmds` of the altitude rule and the cache becomes `StepCache` |
| Engine.LedSync.Update | main.py:255 | calling one entry's updater appends its `StepCmds` and leaves its `StepCache` |
| Engine.LedSync.UpdateLoop | main.py:238-255 | the device log gains `PassCmds` of the map and the cache becomes `PassCache` |
| Engine.LedSync.Bootstrap | main.py:262-267 | the device log gains the all-off trace, then every id 10..21 is cached as 0 over the old cache |
| Engine.LedSync.MarkAllOff | main.py:265-267 | the cache becomes the old cache with every id 10..21 set to 0 |
| Engine.LedSync.MarkOff | main.py:266-267 | the loop sets each id of its list to 0, keeping all other entries |
| Engine.LedSync.RunPasses | main.py:273-276 | one pass per snapshot: the log gains `SessionCmds` and the cache becomes `SessionCache` |
| Engine.LedSync.RunSimConnect | main.py:258-276 | the result is `get_fsmga`'s; on an error no device and no cache entry changes; otherwise the device receives the all-off trace then the session's commands from the bootstrapped cache, the cache is the session's, and no other device receives anything |
| SelfTest.FlashThenOff | main.py:293-298 | two commands per table entry |
| SelfTest.FlashAt | main.py:295-297 | the commands for entry i are fast-flash at 2i and off at 2i + 1 |
| SelfTest.FlashSnoc | main.py:293-298 | handling one more entry appends its fast-flash and off commands |
| SelfTest.SelfTestCmds | main.py:290-298 | the self-test's commands, all-off then flash-and-off per table entry: three per LED |
| SelfTest.SelfTestTrace | main.py:284-298 | the self-test trace has 36 commands: bare `#000` for 10..21, then for each id from 10 up fast-flash followed by off |
| SelfTest.FlashEach | main.py:293-298 | the loop over the entries appends fast-flash then off for each, in order |
| SelfTest.SendSelfTest | main.py:290-298 | the found device receives exactly the self-test trace |
| SelfTest.PerformSelfTest | main.py:284-298 | the result is `get_fsmga`'s; on an error nothing is sent; otherwise the found device receives the self-test trace and no other device anything; the LED cache is never in its frame |

## Left out

- SimConnect and `AircraftRequests` (main.py:6, main.py:270-271) are an external transport. Each pass's telemetry is a snapshot map given as input, and a reading that comes back as None is the same as a missing one.
- The `while not sim.quit` condition (main.py:274) is an external stop signal. A session is the finite list of snapshots of the passes it lasts, so the model cannot describe a run that never stops.
- The vkb library is foreign code and is modelled only by the tags it is handed: `devices.find_all_vkb` (the device list is an input), the wire encoding inside `set_led`, and the `ColorMode`/`LEDMode` values. `PatternOf` records only which command blinks; `BareOff` stands for the library's default modes.
- The monkey-patched registry entry (main.py:86) is module set-up of the vkb library, not behaviour of the core.
- `time.sleep` (main.py:82, 276, 296, 298) and every `print` are timing and output with no effect on the commands or the cache.
- `main` and the argv dispatch (main.py:306-315) only choose between the two entry points, both of which are modelled.
- `RuntimeError` is modelled as the `Err` result of `GetFsmga`. An exception raised by a device write is not modelled: every command in the model succeeds, and the code has no handling for failed writes.
- Readings are integers. SimConnect can return floating point values; only their sign and zero-ness matter to the rules, and that is what integers keep.
- `AIRCRAFT_SYSTEM` (main.py:105-112) is an enumeration of names that the updaters do not use, so it is not part of this model.
- Engine.FirstPassRaised: states the pass's commands by their set (exactly "on" for the ten active LEDs) and strict id order, which fix the sequence, instead of as the literal list of ten commands.
