# Door controller core, modelled in Dafny

A verified model of the control core of an ESP32 coop-door controller.

- **Door handler.** This is the `DoorHandler` class. It keeps one configuration record: id, sensor position, top position, two light thresholds, opening-offset code, the automation, light, time and position-saved flags, move time, the closed flag, and the cached opening and closing minutes.
- **Persistent store.** The record is backed by an 11-byte store. It stands in for the EEPROM offsets 0..10.
- **Main-program layer.** Around the handler sits the layer of `main.cpp`: the command-packet parser and dispatcher, the automation-delay gate on door polling, the manual-move wrapper, and one iteration of the main loop with its 16-bit tick counter.

Everything is modelled as pure functions over immutable values. Hardware and clock readings are parameters:

- the light level is a byte;
- sunrise and sunset are minute counts;
- the clock is a `Clock`, which lists which hour reads succeed and gives the minute of day;
- `random(1, 254)` is a `freshId` in 1..253.

## Modules

| file | module | models |
|---|---|---|
| bytes.dfy | `Bytes` | `uint8_t` / `int8_t` / `uint16_t` conversions, bool bytes |
| settings.dfy | `Settings` | the configuration record, the 11-byte store, offsets, defaults |
| persistence.dfy | `Persistence` | `saveSettings`, `saveSetting`, `loadSettings`, `flash`, `factoryReset` |
| position.dfy | `Position` | `isClosed`/`isOpen`/`isMoving`/`getDoorState`, `moveDoor` end state, `forcedOpen`/`forcedClosed`, `setMotorSaved` |
| setters.dfy | `Setters` | the validating setters and `setAutomated` |
| schedule.dfy | `Schedule` | `calculateTimeToMove` bias, `checkTime` with its retry loop |
| automation.dfy | `Automation` | `poll` |
| decimal.dfy | `Decimal` | `%d` numerals and their values |
| status.dfy | `Status` | the `Response` status line, `getLength`, `getState`, and a reader for the line |
| commands.dfy | `Commands` | `ParameterBuffer`, with `atoi` |
| controller.dfy | `Controller` | `interpretPacketCommand`, `pollDoor`, the `moveDoor` wrapper, `loop` |

## Behaviour reproduced as written

- **Threshold setters.** Both save the field before assigning it, so the store keeps the previous threshold. Their gap is computed in an `int8_t`, so a gap above 127 wraps negative and is refused.
- **`setTimeEnabled`.** It compares the requested flag with the light flag, not the time flag.
- **Unpersisted setters.** `setMotorSaved`, `setMotorMoveSpeed`, `setDoorOpenTime` and `setAutomated` change memory only.
- **Bootstrap id.** `flash` writes the fresh id to the store but never to the handler's own id. A first boot therefore leaves 255 in memory. Any bulk save before the next boot writes 255 back to offset 0. Every door move and forced open/close does such a save. The next boot then flashes the defaults again, still keeps 255 in memory, and loses every field saved since.
- **Packet codes.** Code `'1'` sets the automation flag. Code `'f'` runs the factory reset and then falls into the help branch.
- **Flag-mode moves.** `moveDoor` in flag mode flips the closed flag whether or not the motor moved.
- **Code `'8'`.** It calls `setDoorCloseTime`, which `DoorHandler.h` does not declare. `setDoorOpenTime` is the only declared setter for the schedule offset, so the model dispatches `'8'` to it; this is the only departure beyond the abstractions listed under "Left out".
- **Clock unavailable.** When the hour cannot be read after six retries, `checkTime` returns the light flag for both day and night.
- **Door state 3.** The "unknown" code 3 of `getDoorState` is never produced. `DoorState` is proved to return only 0, 1 or 2.
- **Start-up schedule.** `setup` loads the settings and then runs `configureNTP`, which computes the day's opening and closing minutes.
- **Loop order.** In `loop`, the network is polled only if the counter is still a multiple of five after `pollDoor`. A re-arming move resets the counter to 1 first, which skips the network poll on that tick.

## Model

| member | source | states |
|---|---|---|
| Settings.Initial | lib/DoorHandler/DoorHandler.cpp:86-116 | before loading, the handler has both triggers off and the door flagged closed |
| Persistence.SaveSettings | lib/DoorHandler/DoorHandler.cpp:650-665 | the bulk save writes, at each offset 0..10, the same byte the per-field save writes for that tag |
| Persistence.SaveSetting | lib/DoorHandler/DoorHandler.cpp:667-716 | a field tag rewrites only its own offset and leaves memory alone; tag 99 re-flashes; any other tag changes nothing |
| Persistence.SaveEveryFieldIsSaveSettings | lib/DoorHandler/DoorHandler.cpp:650-716 | saving the eleven fields one by one yields exactly the bulk save |
| Persistence.SaveFieldsPrefix | lib/DoorHandler/DoorHandler.cpp:667-716 | saving fields 0..n-1 writes the bulk image on those offsets and leaves the others untouched |
| Persistence.Flash | lib/DoorHandler/DoorHandler.cpp:763-791 | memory takes exactly the defaults, keeping its old id, and satisfies the hysteresis band. The store receives the defaults in bulk-save order plus a fresh id that is never 255, so store and memory agree on every offset except the id |
| Persistence.FactoryReset | lib/DoorHandler/DoorHandler.cpp:364-367 | a factory reset resets memory to the defaults and the store to the defaults with a fresh id |
| Persistence.LoadSettings | lib/DoorHandler/DoorHandler.cpp:718-742 | the id is read from offset 0. On 255, the defaults are flashed, memory keeps 255 and the store gets the fresh id. Otherwise every field reads back its byte, with flag bytes read as non-zero, and runtime fields are kept |
| Persistence.LoadAfterSave | lib/DoorHandler/DoorHandler.cpp:718-742 | saving and then reloading a configuration whose id is not 255 changes nothing |
| Persistence.SaveAfterLoad | lib/DoorHandler/DoorHandler.cpp:650-742 | loading and then saving an initialised store whose flag bytes are 0 or 1 reproduces it |
| Persistence.BootstrapThenReboot | lib/DoorHandler/DoorHandler.cpp:721-728 | the first boot on an uninitialised store keeps 255 in memory and writes the fresh id; an immediate second boot, with no bulk save in between, loads the defaults with that id |
| Persistence.WithDefaults | lib/DoorHandler/DoorHandler.cpp:42-50 | the default settings satisfy the hysteresis band and leave id, closed flag and schedule alone |
| Position.IsOpen | lib/DoorHandler/DoorHandler.cpp:485-495 | "open" means position equals top in saved-position mode; in flag mode it is exactly "not closed" |
| Position.IsMoving | lib/DoorHandler/DoorHandler.cpp:497-507 | "moving" holds iff saved-position mode is on and the position is neither 0 nor top; a moving door is then neither closed nor open |
| Position.IsClosed | lib/DoorHandler/DoorHandler.cpp:473-483 | "closed" means position 0 in saved-position mode and the closed flag in flag mode; a door that reads as moving is neither closed nor open (stated on `Position.IsMoving`) |
| Position.DoorState | lib/DoorHandler/DoorHandler.cpp:509-515 | the state is always 0, 1 or 2. In flag mode it is never 2, and it is 0 iff the closed flag is set. In saved mode it is 0 iff position is 0, and 2 iff position is neither 0 nor top |
| Position.MoveDoor | lib/DoorHandler/DoorHandler.cpp:271-362 | if the door is already at the requested extreme, the call fails and changes nothing. Otherwise it succeeds, the door ends at that extreme, and all 11 bytes are saved. Saved mode sets position to top or 0; flag mode flips the closed flag; nothing else changes |
| Position.MoveDoorIdempotent | lib/DoorHandler/DoorHandler.cpp:274-283 | a second move in the same direction fails and changes nothing |
| Position.ForcedOpen | lib/DoorHandler/DoorHandler.cpp:253-259 | the door reads open in both modes, and every setting is saved |
| Position.ForcedClosed | lib/DoorHandler/DoorHandler.cpp:261-267 | the door reads closed (state 0) in both modes, and every setting is saved |
| Position.SetMotorSaved | lib/DoorHandler/DoorHandler.cpp:221-251 | the mode becomes the flag and nothing is persisted. Leaving saved mode records closed iff position is 0. Entering it sets position to 0 or top by the closed flag |
| Position.SetMotorSavedKeepsReading | lib/DoorHandler/DoorHandler.cpp:221-251 | switching modes preserves the closed reading, and with a non-zero top also the open reading when entering saved mode |
| Position.LeavingSavedModeReadsMovingAsOpen | lib/DoorHandler/DoorHandler.cpp:226-232 | a door between its extremes is recorded as open when saved mode is left |
| Setters.SetUpperThreshold | lib/DoorHandler/DoorHandler.cpp:127-145 | the value is accepted iff lower < v < 255 and 5 <= v - lower <= 127. When accepted, the store gets the old upper threshold; when refused, nothing changes |
| Setters.SetLowerThreshold | lib/DoorHandler/DoorHandler.cpp:147-164 | the value is accepted iff v < upper and 5 <= upper - v <= 127. When accepted, the store gets the old lower threshold; when refused, nothing changes |
| Setters.ThresholdSettersKeepBand | lib/DoorHandler/DoorHandler.cpp:127-164 | both setters preserve the hysteresis band upper - lower >= 5 |
| Setters.WideBandRefused | lib/DoorHandler/DoorHandler.cpp:136-138 | an upper threshold more than 127 above the lower one is refused (int8 wrap) |
| Setters.ThresholdStoreLags | lib/DoorHandler/DoorHandler.cpp:138-142 | after a changed upper threshold, the stored byte differs from the new value |
| Setters.SetTopPosition | lib/DoorHandler/DoorHandler.cpp:166-175 | the value is stored iff 1 <= v <= 254, and then only offset 2 is written; otherwise nothing changes |
| Setters.SetDoorId | lib/DoorHandler/DoorHandler.cpp:177-186 | the value is stored iff 1 <= v <= 254, and then only offset 0 is written, never with 255; otherwise nothing changes |
| Setters.SetMotorMoveSpeed | lib/DoorHandler/DoorHandler.cpp:188-193 | the move time is v, or 1 when v is 0, and is not persisted |
| Setters.SetDoorOpenTime | lib/DoorHandler/DoorHandler.cpp:195-201 | the offset code becomes v, because the clamps are dead on a byte; it is not persisted |
| Setters.SetLdrEnabled | lib/DoorHandler/DoorHandler.cpp:212-219 | the light flag ends equal to the request, and offset 7 is written only when it changed |
| Setters.SetTimeEnabled | lib/DoorHandler/DoorHandler.cpp:203-210 | the time flag becomes the request, and offset 10 is written, exactly when the request differs from the light flag |
| Setters.TimeCannotJoinLight | lib/DoorHandler/DoorHandler.cpp:203-210 | with light triggering on, time triggering cannot be switched on |
| Setters.SetAutomated | lib/DoorHandler/DoorHandler.h:77 | the automation flag becomes the request, with no validation and no store write |
| Setters.UnpersistedSetters | lib/DoorHandler/DoorHandler.cpp:188-201 | after the move-speed, open-time and automation setters, a reload gives the same handler as before the call |
| Schedule.Bias | lib/DoorHandler/DoorHandler.cpp:616-630 | code > 125 gives +(code-100)*2, code < 100 gives -code*2, and 100..125 gives 0 |
| Schedule.BiasRange | lib/DoorHandler/DoorHandler.cpp:616-630 | the bias lies in [-198, 310], no positive bias is below 52, and it is negative iff 0 < code < 100 |
| Schedule.CalculateTimeToMove | lib/DoorHandler/DoorHandler.cpp:607-648 | opening is sunrise plus the bias and closing is sunset, both modulo 2^16 and exact when in range; nothing else changes |
| Schedule.BiasExamples | lib/DoorHandler/DoorHandler.cpp:616-640 | code 150 gives +100, 40 gives -80, 110 gives 0, and closing is sunset |
| Schedule.ReadHour | lib/DoorHandler/DoorHandler.cpp:536-549 | the retry loop succeeds iff one of the first read and six retries succeeds, and it stops at the first success |
| Schedule.CheckTime | lib/DoorHandler/DoorHandler.cpp:530-566 | with no clock the result is the light flag. Otherwise day is open <= now <= close, inclusive, and night is now < open or now > close |
| Schedule.NightIsNotDay | lib/DoorHandler/DoorHandler.cpp:554-565 | with a clock, night is the exact complement of day; without one, both read as the light flag |
| Schedule.DayWindowExample | lib/DoorHandler/DoorHandler.cpp:554-565 | for the 420..1080 window, 420, 500 and 1080 are day and 1200 is night |
| Automation.Poll | lib/DoorHandler/DoorHandler.cpp:390-467 | state 2 forces a close and reports a move. Inactive automation recomputes the schedule only. An open door closes iff it is dark enough or light is off, and night or time is off; a closed door opens symmetrically |
| Automation.PollOutcome | lib/DoorHandler/DoorHandler.cpp:407-466 | after a move the door is not mid-travel and fully saved; without a move, position, flag and store are unchanged |
| Automation.PollKeepsSettings | lib/DoorHandler/DoorHandler.cpp:390-467 | a poll changes only position, closed flag and cached schedule |
| Automation.LightIgnoredWhenLdrOff | lib/DoorHandler/DoorHandler.cpp:437-453 | with light off and time on, the light level does not affect the poll |
| Automation.ClockIgnoredWhenTimeOff | lib/DoorHandler/DoorHandler.cpp:438-453 | with time off, the clock does not affect the poll |
| Automation.FlagModeLightOnlyClose | lib/DoorHandler/DoorHandler.cpp:435-448 | in flag mode with light-only automation, an open door closes iff light <= lower threshold |
| Status.ParseFormat | lib/DoorHandler/DoorHandler.h:38-41 | reading the formatted status line recovers all 15 values in order, including the offset code from the doubled MOFF |
| Status.FormatStartsWithId | lib/DoorHandler/DoorHandler.h:38 | the status line starts with `!ID=` |
| Status.AcceptedLineStartsWithId | lib/DoorHandler/DoorHandler.h:38 | every line the reader accepts starts with `!ID=` |
| Status.FormatFits | lib/DoorHandler/DoorHandler.h:38-41 | the line has at most 210 characters |
| Status.Length | lib/DoorHandler/DoorHandler.h:45-49 | the `uint8_t` length equals the formatted character count, and the text plus NUL fits the 250-char buffer |
| Status.StatusReportsHandler | lib/DoorHandler/DoorHandler.cpp:369-388 | the line of `getState` carries the id and state; CLOSE carries the closing minute, OPEN the opening minute, and MOFF the offset code |
| Status.GetState | lib/DoorHandler/DoorHandler.cpp:369-388 | the response carries the id, the derived door state, position, thresholds, the given light level, the four flags as 0 or 1 bytes that read back as the flags, move time and offset code, with the closing minute passed before the opening minute |
| Status.Format | lib/DoorHandler/DoorHandler.h:38-41 | the line is `!` followed by exactly the fifteen `KEY=value` fields in constructor order, separated by commas that no field contains, so splitting at commas gives the fields back |
| Commands.Parse | src/main.cpp:51-76 | the command is the first byte, or '`' when the packet is empty. There is a parameter iff more than one byte arrived. The length is min(len-1, 3), else 0. The argument is atoi of those characters modulo 256, else 0 |
| Commands.HasCommandIffLegalFirstByte | src/main.cpp:51-83 | hasCommand holds iff the packet is non-empty and its first byte is not '`' |
| Commands.ParsePacket | src/main.cpp:51-76 | a packet built from a code and a byte argument in decimal parses back to that code and argument |
| Commands.ArgumentClippedToThree | src/main.cpp:66-74 | only three argument characters are read ("1234" gives 123) |
| Commands.ArgumentWraps | src/main.cpp:74 | an argument above 255 wraps ("300" gives 44) |
| Controller.Start | src/main.cpp:132-144 | setup loads the settings and then computes the opening and closing minutes (`configureNTP` runs `calculateTimeToMove`). The id comes from the store, an initialised store is left untouched, the door stays flagged closed, the counter is 1 and the delay is armed |
| Controller.FirstBootMoveForgetsId | lib/DoorHandler/DoorHandler.cpp:650-665 | after a first boot, a door move saves the in-memory id 255 to offset 0, so the next boot flashes again and memory again holds 255 |
| Controller.FirstBootSettingLost | lib/DoorHandler/DoorHandler.cpp:718-728 | after a first boot, a lower threshold of 20 is accepted, but once the door has moved the next boot loads the default threshold again |
| Controller.ManualMove | src/main.cpp:215-230 | a successful move sets counter 1 and the delay; a refused move changes nothing |
| Controller.PollDoor | src/main.cpp:148-185 | while the delay is armed and counter % 900 != 0, nothing happens. Otherwise the delay is cleared and the door polled; a move re-arms the delay iff light is on and time is off |
| Controller.ApplyArgument | src/main.cpp:298-333 | argument-taking codes other than '2' never touch the counter or the delay |
| Controller.Dispatch | src/main.cpp:283-374 | a packet is accepted iff its code is listed, and a rejected one changes nothing. A missing argument means no effect. 'a' clears the delay. 'o'/'c' force the door and set counter 1 and the delay. 'f' resets to factory defaults |
| Controller.DispatchTimingFrame | src/main.cpp:298-372 | only '2', 'o', 'c' and 'a' can change the counter or the delay |
| Controller.LdrCodeSetsAutomation | src/main.cpp:300-305 | code '1' has the same effect as '0': it sets the automation flag |
| Controller.Receive | src/main.cpp:191-205 | an empty packet is not dispatched |
| Controller.NextCounter | src/main.cpp:278-280 | the counter step keeps [1, 65534], adding 1 below the limit and going to 1 at 65535 |
| Controller.LoopStep | src/main.cpp:233-281 | a failed store freezes the state, and the counter stays in range. When connected, off-period ticks only advance the counter; when disconnected with light off, likewise |
| Controller.CounterStaysInRange | src/main.cpp:278-280 | over any run of iterations, the counter stays in [1, 65534] |
| Controller.FailedStoreFreezes | src/main.cpp:238-244 | with a failed store, any number of iterations changes nothing |

## Left out

- WiFi connection and retry, UDP send and receive, the heartbeat (`acknowledge`), `update`, `morseFlash` and `ESP.restart`: these are network and hardware I/O. Code `'r'` is accepted and modelled as changing no state.
- The encoder busy-wait loops and stall detection inside `moveDoor`. They depend on a hardware counter and may not terminate, so only the end state is modelled. The encoder writes in `forcedOpen`, `forcedClosed` and `loadSettings` are left out too.
- GPIO writes, `delay`, and the analog sampling of `getLight`. The light level is one input byte per poll, even though the source samples it again for each comparison.
- `Dusk2Dawn` sunrise and sunset, NTP configuration, `getLocalTime` and `getTimeValue`: a foreign library, floating point and a clock. Sunrise and sunset are integer inputs. The clock is the list of hour-read outcomes plus the minute of day. A read failing between the hour check and the minute computation is not modelled.
- `random`, `randomSeed` and `generateUniqueID`: the fresh id is a parameter in 1..253.
- `EEPROM.begin` and `EEPROM.commit`: each write is treated as durable at once. Only offsets 0..10 of the 64-byte EEPROM are modelled.
- Controller.Start: it models the successful path of `setup`. A failed `EEPROM.begin` is the `eepromFailed` input of every loop tick instead. The `configTime` call of `configureNTP` is clock I/O; only the schedule computation that follows it is modelled, with sunrise and sunset as inputs.
- Commands.Parse: the source copies all argument bytes into a `tmpBuf` sized for at most three and passes it to `atoi` without a terminator, which is undefined behaviour. The model reads exactly the first ≤ 3 characters with `atoi`.
- Controller.ApplyArgument: code `'8'` calls `setDoorCloseTime`, which `DoorHandler.h` does not declare. The model uses `setDoorOpenTime`, the only declared setter for the schedule offset.
- Debug printing, `printLocalTime`, and the help text of code `'h'`.
