# A verified model of the DG-LAB Coyote driver

This project models the part of the toy interface that drives the DG-LAB Coyote, a two-channel
e-stim box reached over Bluetooth Low Energy. The model has three parts.

- **The wire codec** (`codec.dfy`, module `Codec`). This is `encode_power`, which packs two 11-bit
  channel powers into three bytes, and `encode_pattern`, which packs a pulse, a pause and an
  amplitude into three bytes. Decoders are written out next to them. The proofs cover both round
  trips, exactly which messages are valid, the masking of out-of-range inputs, and the documented
  golden vectors.
- **The pattern table** (`estim.dfy`, module `Estim`). This is `Estim.load_patterns`. The index
  file and the pattern files are abstract maps. Each pattern name gets its files' frames, in
  order, and the fixed `""` entry is installed afterwards.
- **The device session** (`coyote_rules.dfy`, module `CoyoteRules`; `coyote.dfy`, module `Coyote`).
  - `CoyoteInterface` is a class whose fields mirror the Python object:
    - the stored powers;
    - the connection, stop and switch flags;
    - the two pattern names;
    - the five characteristic slots;
    - the global `settings.can_update_power` gate.
  - Its coroutines are methods:
    - `set_pwm` (with its write and read-back as `Transmit`);
    - `connect` (the retry loop `Attempt`, the binding loops `BindCharacteristics`/`BindAll`/`Bind`,
      and the self-test `RunSelfTest`);
    - `disconnect`, `get_bettery_level`, `is_running`, `stop` and `search_for_device`;
    - `signal`, split along its structure: `Run` raises what set_pwm raised, `Start` stores the
      name and reads the clock (`ReadClock`), `Playback` and `Cycle` are the outer loop and one
      pass of it, `PlayNext` and `PlayPattern` read the name and play a round, `PlayRound`,
      `Passes` and `Step` are the inner loop and one pass of it, `Tick` and `Timed` make the
      pass's tests, `Skip` skips an item that came too early, `Due`, `PlayDue`, `SendFrame` and
      `Settle` play one due frame, and `Nap` and `Pause` are the 10 ms sleep;
    - the pattern switch of `POST /pattern` (`UpdatePattern`).
  - The decisions those methods make are stated once as functions in `CoyoteRules` and proved
    there:
    - the set_pwm plan;
    - the retry outcome;
    - the slot binding with the channel swap;
    - the vibration-to-power conversion and the pattern duration.

`host.dfy` holds the stand-ins for what the driver calls but does not contain.

- `Bleak.Client` replaces `bleak.BleakClient`.
  - Connection attempts and reads are answered from two fixed scripts, indexed by the number of
    calls made so far.
  - Every write is appended to a ghost trace.
- `Runtime.EventLoop` replaces `time.time()` and `asyncio.sleep`.
  - Time is in integer milliseconds.
  - Each clock reading lets a scripted, non-negative amount of time pass.
  - A sleep of `ms` lets at least `ms` pass.
  - While `signal` sleeps, another task may act: it may switch patterns (`POST /pattern`), stop
    (`stop()`) or stop and disconnect (`GET /stop`). Which one happens is also scripted.

What the playback proves. `signal` returns a ghost list of the frames it wrote and a ghost end
time: the second clock reading plus `duration`. `Played(sent, first, start, endTime, patterns)`
holds of that list, with `start` the second clock reading. It says:
- every frame written is the frame at its index of a pattern of the table, and in round 0 that
  pattern is the one requested;
- every write starts at or after the start time, before the end time, and at least 100 ms after
  the previous one ends;
- frames come round after round, and inside a round in increasing index;
- the pattern writes in the device trace are exactly these frames, encoded with `encode_pattern`
  and sent to `_pwm_b34` for channel `"b"` and to `_pwm_a34` otherwise.

Every frame also plays a name the channel may hold: the requested one, or one that a
POST /pattern served during the call asked for. If none was served, every frame plays the
requested pattern. When the outer loop is entered at all, an unknown requested name raises, and
a requested pattern with nothing in it hangs. The first frame is written at the fifth clock reading when that reading lies before the
end time and within a second of the first, unless the entry is not made of frames or the slot is
unbound.

`PlayedMeans` unpacks this into the quantified properties `WellSpaced`, `FromTable` and `InOrder`.

Each round also keeps a ghost log of its passes. A `Turn` records what a pass of the inner loop
found (the step count, switch_pattern, the clock reading, last_time, last_power_check,
stop_signal) and what it did: `Switched`, `Early`, `Late`, `Wrote` or `Ended`. `Decided` states
the order of the source's tests. `HandedAt` and `Handover` state how a pass that went on leaves
the state for the next: the 10 ms sleep served one request, so switch_pattern is raised exactly
by a pattern switch and stop_signal only by a stop. `Turns` ties the log to the frames written.
`TurnsStop` and `PlaysMeans` draw its consequences: a raised switch_pattern ends the round at
once; an item due too early is skipped and never written; once stop_signal is raised, nothing
more is written.

Where the code and its comments disagree, the model follows the code:
- The safe-mode cap is 768 (toys/estim/coyote/dg_interface.py:204), not the 900 that the comment
  at line 146 names.
- `set_pwm` stores the new powers and closes the gate before its range check, so a rejected
  request still becomes the stored state.
- A frame that comes due less than 100 ms after the last write is skipped, not delayed: its pass
  writes nothing (`Skip`, `Decided`), and by `PlaysMeans` that item is never written later in the
  round.
- `is_running` raises when its reconnect raises. It does not simply answer False.
- A pattern with no frames makes `signal` spin without ever awaiting. The model reports this as
  the outcome `Hang`.
- The `""` entry of the table holds two whole patterns rather than frames. `signal` on it
  therefore fails when it unpacks the first state; the model reports this as `Failed(NotAFrame)`.

## Model

| member | source | states |
|---|---|---|
| Codec.EncodePower | toys/estim/coyote/dg_encoding.py:25-28 | the power message is exactly three bytes and its last byte holds only 6 bits |
| Codec.EncodePattern | toys/estim/coyote/dg_encoding.py:48-59 | the pattern message is exactly three bytes and its last byte holds only the 4 upper amplitude bits |
| Codec.PatternWord | toys/estim/coyote/dg_encoding.py:49 | the amplitude bit, pause and pulse fields form a 16-bit word |
| Codec.EncodePowerRoundTrip | toys/estim/coyote/dg_encoding.py:18-28 | for powers in 0..2047, channel A is `out[2]` shifted left by 5 ORed with `out[1] >> 3`, and channel B is `out[1] & 7` shifted left by 8 ORed with `out[0]` |
| Codec.PowerMessageDecodes | toys/estim/coyote/dg_encoding.py:25-28 | every 3-byte message with last byte below 64 encodes exactly the decoded pair, which lies in 0..2047 (the encoder is onto the valid messages) |
| Codec.EncodePowerInjective | toys/estim/coyote/dg_encoding.py:25-28 | distinct valid power pairs give distinct messages |
| Codec.EncodePowerLow11Bits | toys/estim/coyote/dg_encoding.py:25-27 | only the low 11 bits of each power matter, for every integer input |
| Codec.EncodePowerGoldenVector | toys/estim/coyote/dg_encoding.py:86 | `encode_power(1721, 83) == [83, 200, 53]` |
| Codec.EncodePowerZero | toys/estim/coyote/dg_interface.py:407 | zero power on both channels is the all-zero message the self-test writes |
| Codec.EncodePowerFull | toys/estim/coyote/dg_encoding.py:25-28 | `encode_power(2047, 2047) == [255, 255, 63]` |
| Codec.EncodePatternRoundTrip | toys/estim/coyote/dg_encoding.py:36-59 | for in-range inputs, the pulse is the low 5 bits of the first byte, the pause is bits 5..14 of the little-endian word of the first two bytes, and the amplitude is the third byte shifted left by 1 ORed with the top bit of the second |
| Codec.PatternMessageDecodes | toys/estim/coyote/dg_encoding.py:48-59 | every 3-byte message with last byte below 16 encodes exactly its decoded in-range frame |
| Codec.EncodePatternMasksFields | toys/estim/coyote/dg_encoding.py:48-49 | each field is masked to its width, for every integer input |
| Codec.EncodePatternGoldenVector | toys/estim/coyote/dg_encoding.py:108 | `encode_pattern(8, 685, 26) == [168, 85, 13]` |
| Estim.Table | toys/estim/estim.py:8-23 | the table's keys are the index's keys plus `""`, and `""` holds the built-in entry |
| Estim.LoadPatterns | toys/estim/estim.py:8-23 | succeeds exactly when every referenced file is readable, and then returns `Table`; otherwise it reports a referenced file that cannot be read |
| Estim.LoadFiles | toys/estim/estim.py:12-15 | a name's frames are the in-order concatenation of its files' frames; it fails exactly when one of the files cannot be read, naming that file |
| Estim.ConcatSingle | toys/estim/estim.py:13-15 | a single file contributes exactly its own frames |
| Estim.ConcatAppend | toys/estim/estim.py:13-15 | the frames of files `a + b` are those of `a` followed by those of `b` |
| Estim.ConcatLength | toys/estim/estim.py:13-15 | a name has as many frames as its files together |
| Estim.TableEntry | toys/estim/estim.py:11-16 | each file's frames sit in the entry between those of the files listed before and after it |
| Estim.DefaultEntryShape | toys/estim/estim.py:17-22 | the `""` entry is two patterns, `[[10, 90, 10]]` and one of 20 frames, every frame within the encoder's ranges |
| CoyoteRules.PlanPwmHysteresis | toys/estim/coyote/dg_interface.py:188-198 | set_pwm does nothing exactly when neither resolved power moves by 10 or more, and otherwise adopts the resolved powers (a negative request keeps the current power) |
| CoyoteRules.StopPlan | toys/estim/coyote/dg_interface.py:188-198 | set_pwm(0, 0) does nothing exactly when both stored powers already lie within 10 of zero, and otherwise sends zero on both channels |
| CoyoteRules.PlanPwmKeepBoth | toys/estim/coyote/dg_interface.py:188-194 | two negative requests change nothing |
| CoyoteRules.PlanPwmSendsOnlyInRange | toys/estim/coyote/dg_interface.py:202-215 | a change is sent exactly when both powers lie within the cap, and the message sent decodes to those powers |
| CoyoteRules.SmallStepIsDropped | toys/estim/coyote/dg_interface.py:193-194 | after set_pwm(100, 100), set_pwm(105, 105) sends nothing |
| CoyoteRules.SafeModeRejects900 | toys/estim/coyote/dg_interface.py:203-206 | 900 is rejected in safe mode and sent otherwise |
| CoyoteRules.RetryStopsAtFirstSuccess | toys/estim/coyote/dg_interface.py:316-322 | at most `retries` attempts; connected exactly when one of them is accepted; the last attempt is the first acceptance and all before it failed |
| CoyoteRules.RetryRaisesLastFailure | toys/estim/coyote/dg_interface.py:315-336 | with no success all attempts are made and the last failure is raised, or ConnectionError when none was made |
| CoyoteRules.UuidsDistinct | toys/estim/coyote/dg_interface.py:350-388 | the UUIDs connect compares against are pairwise distinct |
| CoyoteRules.BindOneSlot | toys/estim/coyote/dg_interface.py:354-390 | one characteristic fills exactly the slot it is wanted for |
| CoyoteRules.BindServiceSlot | toys/estim/coyote/dg_interface.py:354-390 | after one service, a slot holds its characteristic exactly when the service offers it |
| CoyoteRules.BindServicesSlot | toys/estim/coyote/dg_interface.py:349-390 | after all services, each slot holds its characteristic exactly when some service of the right UUID offers it, and keeps its old value otherwise |
| CoyoteRules.ChannelSwap | toys/estim/coyote/dg_interface.py:368-386 | with the channels switched, …1506 lands in `_pwm_a34` and …1505 in `_pwm_b34` |
| CoyoteRules.BindingKeepsWellBound | toys/estim/coyote/dg_interface.py:349-390 | binding only ever puts the looked-for characteristics in the slots |
| CoyoteRules.VibrateInSafeRange | toys/estim/coyote/dg_interface.py:562-568 | strengths 0..100 map to `strength * 767 div 100 + 1`, inside 1..768 |
| CoyoteRules.VibrateMonotone | toys/estim/coyote/dg_interface.py:562-568 | the conversion never decreases, truncation toward zero included |
| CoyoteRules.PatternDurationAppend | toys/estim/coyote/dg_interface.py:229-236 | the duration of joined patterns is the sum of their durations |
| CoyoteRules.PatternDurationBounds | toys/estim/coyote/dg_interface.py:236 | encodable frames last 0..1054 ms each |
| CoyoteRules.SimplePatternDuration | toys/estim/estim.py:17 | the built-in one-frame pattern lasts 100 ms |
| CoyoteRules.ChosenUnique | toys/estim/coyote/dg_interface.py:278-302 | at most one device is the strongest, earliest-reported Coyote |
| Coyote.SelfTestPasses | toys/estim/coyote/dg_interface.py:392-421 | the self-test passes exactly when both slots are bound, the battery read is non-empty and the read-back succeeds; it then stores the big-endian level and has written zero power |
| Coyote.DataWritesOfData | toys/estim/coyote/dg_interface.py:530-533 | pattern writes to a data characteristic are never power writes |
| Coyote.RoundPlayedMeans | toys/estim/coyote/dg_interface.py:500-542 | a round's frames are spaced by 100 ms, taken from the table, in increasing index and all of one pattern |
| Coyote.PlayFrame | toys/estim/coyote/dg_interface.py:522-534 | writing the next due frame extends the round and appends its encoding to the writes |
| Coyote.PlayedMeans | toys/estim/coyote/dg_interface.py:495-542 | a playback is spaced by 100 ms and before the end time, taken from the table, in order, and plays the requested pattern in round 0 |
| Coyote.JoinRounds | toys/estim/coyote/dg_interface.py:495-500 | appending a later round keeps these properties |
| Coyote.RoundPlayedNames | toys/estim/coyote/dg_interface.py:500 | every frame of a round has that round's number and plays that round's pattern |
| Coyote.NoSwitchKeepsPattern | toys/estim/coyote/dg_interface.py:495-500 | when no POST /pattern is served, every frame written plays the pattern first asked for |
| Coyote.CoyoteInterface.constructor | toys/estim/coyote/dg_interface.py:87-144 | powers start at 1, the battery at -1, every slot empty, not connected, channels switched |
| Coyote.CoyoteInterface.Transmit | toys/estim/coyote/dg_interface.py:208-215 | writes `encode_power` to PWM_AB2 and reads it back; an unbound slot or failed read is raised |
| Coyote.CoyoteInterface.SetPwm | toys/estim/coyote/dg_interface.py:178-227 | follows `PlanPwm`: the stored powers and the gate change unless the hysteresis guard returns; the one write is `encode_power` of the stored powers, only within the cap |
| Coyote.CoyoteInterface.Attempt | toys/estim/coyote/dg_interface.py:315-331 | makes the attempts `Retry` describes, doubles the timeout per failure and keeps the last exception |
| Coyote.CoyoteInterface.Bind | toys/estim/coyote/dg_interface.py:350-390 | one characteristic updates the slots as `BindOne` says |
| Coyote.CoyoteInterface.BindAll | toys/estim/coyote/dg_interface.py:354-390 | one service's characteristics, in order, give `BindService` |
| Coyote.CoyoteInterface.BindCharacteristics | toys/estim/coyote/dg_interface.py:344-390 | all services, in order, give `BindServices` with the channel swap |
| Coyote.CoyoteInterface.Connect | toys/estim/coyote/dg_interface.py:306-421 | skips retrying when already connected; raises the saved exception with no other change if no attempt succeeds; otherwise binds and runs the self-test; whatever it raises is a connection error, a link fault, a missing characteristic or an empty battery answer |
| Coyote.CoyoteInterface.RunSelfTest | toys/estim/coyote/dg_interface.py:392-421 | does what `SelfTest` describes: battery read, zero-power write and read-back, with each raising point |
| Coyote.CoyoteInterface.Disconnect | toys/estim/coyote/dg_interface.py:426-437 | nothing when not connected; otherwise raises stop_signal and drops the link |
| Coyote.CoyoteInterface.GetBatteryLevel | toys/estim/coyote/dg_interface.py:439-450 | 0 when not connected; otherwise the big-endian reading, stored as the battery level, or the read's exception |
| Coyote.CoyoteInterface.IsRunning | toys/estim/coyote/dg_interface.py:544-560 | False with nothing changed when not connected; True exactly when the PWM_AB2 read succeeds, with nothing else changed; otherwise the result of reconnecting, whose exception is a connection fault; pattern data is never written |
| Coyote.CoyoteInterface.Stop | toys/estim/coyote/dg_interface.py:607-616 | nothing when not connected; otherwise raises stop_signal, and unless both powers already lie within 10 of zero stores zero power, closes the gate and writes `encode_power(0, 0)` to PWM_AB2 and reads it back, raising an unbound slot or a failed read |
| Coyote.CoyoteInterface.UpdatePattern | routers/coyote.py:306-318 | a name is taken only if the table has it; switch_pattern is always raised |
| Coyote.CoyoteInterface.Serve | routers/coyote.py:188-195 | a stop request raises stop_signal when connected; stop_signal stays raised, and only a stop raises it; only a pattern switch touches the names and the switch flag, and a name changes only to the one the request asked for; no request writes pattern data |
| Coyote.CoyoteInterface.Nap | toys/estim/coyote/dg_interface.py:505 | at least 10 ms pass and exactly one request, the next one, is served: a pattern switch raises switch_pattern, any other request leaves the flag and the channel's name alone; a stop or shutdown raises stop_signal when connected; stop_signal stays raised, and only such a request raises it; the channel's name still follows the requests served; no pattern data is written |
| Coyote.CoyoteInterface.SendFrame | toys/estim/coyote/dg_interface.py:512-536 | a raised stop_signal ends the playback (`Stopped`) with nothing changed, and only it does; the is_running check runs exactly when more than 1000 ms have passed since the last; a check that is not due reads nothing and leaves the connection, the slots and the battery alone; a due check ends the playback (`LinkDown` or a connection fault) exactly when PWM_AB2 cannot be read, and a check that passes stamps last_power_check with a clock reading taken after it and before the write; then an entry that is not a frame raises `NotAFrame` and no slot raises `NoCharacteristic`; otherwise exactly the frame's `encode_pattern` is written to the slot, last_time is the clock after the write and the gate opens; any end leaves the gate alone |
| Coyote.CoyoteInterface.PlayDue | toys/estim/coyote/dg_interface.py:512-542 | the playback ends with `Stopped` exactly when stop_signal was raised on entry; every end writes no frame and leaves the stop and switch flags alone; a frame not stopped or raised is written, recorded after the round's earlier frames at its reading, and followed by a 10 ms sleep after which the state is as `HandedAt` says for a pass that wrote; with no stop and no check due, a frame entry with a bound slot is always written, an entry of patterns raises `NotAFrame` and an unbound slot `NoCharacteristic` |
| Coyote.CoyoteInterface.Tick | toys/estim/coyote/dg_interface.py:500-542 | one pass of the inner loop, returned as a `Turn` of what it found (step count, switch flag, clock reading, last_time, last_power_check, stop flag) and decided in the order of the source's tests as `Decided` says: a raised switch_pattern breaks with nothing read or written; a reading under 100 ms after the last write skips the item with nothing written; a reading at the end time breaks; a raised stop_signal ends the playback; `brk` and `end` are exactly what the pass did; only a pass that wrote adds a frame, of item `i` at its reading; a pass that goes on leaves the state `HandedAt` describes; the round so far stays spaced, in order, from the table and exactly the new pattern writes |
| Coyote.CoyoteInterface.PlayRound | toys/estim/coyote/dg_interface.py:500-542 | the frames written form a spaced, in-order round of the named pattern and are exactly the new pattern writes; when the first reading finds the first frame due before the end time, with no stop and no check due, that frame is written at that reading, or an entry of patterns raises `NotAFrame`, or an unbound slot `NoCharacteristic`; its ghost log holds one `Turn` per pass, with `Turns` holding of the log and the frames: each pass decided as `Decided` says and handed over to the next as `Handover` says, every frame is the item of a pass that wrote at that pass's reading; the first pass starts from the round's state; the log stops short of the pattern's length only when its last pass broke or ended the playback, and `end` is what that last pass did |
| Coyote.CoyoteInterface.Passes | toys/estim/coyote/dg_interface.py:500-542 | the loop over a pattern's items stops after the last item or after a pass that broke or ended, and keeps the round's properties and its log throughout |
| Coyote.CoyoteInterface.Step | toys/estim/coyote/dg_interface.py:500-542 | one more pass, appended to the log, keeps `Turns` and the handover to the next pass |
| Coyote.CoyoteInterface.Timed | toys/estim/coyote/dg_interface.py:503-542 | after the clock is read: under 100 ms since the last write the pass is `Early`, at the end time `Late` (a break), otherwise it plays the item; the pass decides as `Decided` says and keeps the round's properties |
| Coyote.CoyoteInterface.Skip | toys/estim/coyote/dg_interface.py:504-506 | a reading less than 100 ms after the last write skips the item: nothing is written, last_time and last_power_check are kept, and after the 10 ms sleep the state is as `HandedAt` says for an `Early` pass |
| Coyote.CoyoteInterface.Due | toys/estim/coyote/dg_interface.py:509-542 | a reading at least 100 ms after the last write and before the end time: the pass decides as `Decided` says, ending exactly as it did, and only a write adds the frame of item `i` at that reading |
| Coyote.CoyoteInterface.Settle | toys/estim/coyote/dg_interface.py:522-542 | a written frame joins the round after its earlier frames and the pattern writes grow by exactly its encoding; the 10 ms sleep then hands over as `HandedAt` says |
| Coyote.CoyoteInterface.Pause | toys/estim/coyote/dg_interface.py:505 | the closing 10 ms sleep of a pass that goes on leaves the state `HandedAt` describes: switch_pattern raised exactly by a pattern switch, stop_signal kept and raised only by a stop, the clock 10 ms on |
| Coyote.TurnsAppend | toys/estim/coyote/dg_interface.py:500-542 | a pass that begins where the last one handed over, and decides as `Decided` says, extends the log and its frames |
| Coyote.PlaysMeans | toys/estim/coyote/dg_interface.py:504-534 | every frame of a round is the item of a pass that wrote, at that pass's reading, and every pass that wrote left its frame; an item skipped, or whose pass broke or raised, is never written |
| Coyote.TurnsStop | toys/estim/coyote/dg_interface.py:501-514 | every pass but the last went on; once a pass finds stop_signal raised, every later pass finds it raised and writes nothing; a pass that finds switch_pattern raised is the round's last and does nothing else |
| Coyote.CoyoteInterface.PlayPattern | toys/estim/coyote/dg_interface.py:500-542 | a round of the name just read, appended to the frames written so far, keeps `Played`, plays only that name in this round and extends the pattern writes by exactly its frames |
| Coyote.CoyoteInterface.PlayNext | toys/estim/coyote/dg_interface.py:495-542 | re-reads the channel's name `n` and lowers switch_pattern; raises `UnknownPattern(n)` exactly when the table lacks `n`; hangs exactly when `n` has nothing to iterate over, having written nothing; otherwise adds one round whose frames all play `n` in this round; the first frame is written at the first reading when due, as in PlayRound |
| Coyote.CoyoteInterface.Cycle | toys/estim/coyote/dg_interface.py:495-542 | one more pass of the outer loop keeps `Played`, the pattern writes, and every frame playing a name the requests served since the start allow; time moves on unless the playback ended |
| Coyote.CoyoteInterface.Playback | toys/estim/coyote/dg_interface.py:495-542 | rounds until the end time; what is written satisfies `Played`, every frame plays the requested name or one a served POST /pattern asked for, and is exactly the pattern writes; an unknown or empty requested pattern raises or hangs at once; the first frame is written at the first reading when due |
| Coyote.CoyoteInterface.ReadClock | toys/estim/coyote/dg_interface.py:489-493 | the four clock readings for last_power_check, the start time, cur_time and last_time are consecutive readings of the clock, in that order |
| Coyote.CoyoteInterface.Start | toys/estim/coyote/dg_interface.py:483-542 | stores the name, sets the end time to the second reading plus the duration and plays until it; the first frame of the requested pattern is written at the fifth reading when that lies before the end time and within a second of the first |
| Coyote.CoyoteInterface.Run | toys/estim/coyote/dg_interface.py:473-542 | raises what set_pwm raised with nothing played and nothing else changed, or goes on as Start |
| Coyote.CoyoteInterface.Signal | toys/estim/coyote/dg_interface.py:452-542 | when set_pwm raises, nothing is played and the state is the one set_pwm left; otherwise its message comes first, the end time is the second clock reading plus the duration, the writes are table frames 100 ms apart inside [start, end) to the channel's slot, each playing the requested name or one a served POST /pattern asked for (only the requested one when none was served), an unknown or empty requested pattern raises or hangs when the loop is entered, and the first frame is written at the fifth reading when due |
| Coyote.CoyoteInterface.SearchForDevice | toys/estim/coyote/dg_interface.py:262-304 | no devices and no Coyote are errors; otherwise the chosen address is that of the strongest Coyote, the earliest among equals |

## Left out

- The BLE transport (`bleak`): scanning, service discovery, the client object and its backend. The
  scripted `Bleak.Client` replaces them. Writes never fail in the model.
- The creation of the `BleakClient` in the constructor and in `search_for_device`. The
  `device_uid` None is modelled as the empty string.
- asyncio interleavings other than the ones at signal's sleeps. The OSC handlers, the front-end
  averaging (`get_avg` and the channel handlers), main.py and the other HTTP endpoints are not part
  of this model.
- Floating-point time. Seconds become integer milliseconds, and `time.time() - 0.1` becomes
  `- 100`.
- JSON parsing and file I/O in `load_patterns`. A file that cannot be opened or parsed is a name
  missing from the file map, and JSON errors in the index file are not modelled.
- Python dict order. `LoadPatterns` walks the index in an unspecified order, which only decides
  which missing file is reported.
- `shock`, `action`, `check_in`, `get_toys`, `_get_pwm`, `_truncate_pattern` and `_debug`. These
  are random choice, stubs that raise NotImplementedError, or debugging helpers.
- SearchForDevice: models the descending RSSI sort followed by the first match as one scan. It
  keeps the strongest candidate and the earliest among equals, which is what a stable sort yields.
- Logging and printing, including the comparison of the self-test read-back with the message
  written, which is only logged.
- The duration of the built-in 20-frame pattern (1815 ms) is not proved. Only the one-frame
  pattern's duration and the general bounds are.
- `stop_signal`, `pattern_name_a` and `pattern_name_b` are never set in the Python constructor, so
  reading one before it is written raises AttributeError. The model starts them at false and `""`.
- Signal: states the device trace only for pattern-data writes. Power writes, from the initial
  set_pwm or from stop requests served while it sleeps, are filtered out of that statement.
- Signal: states when a write is guaranteed only for the first frame, and only when the
  once-a-second check is not yet due at that reading. Later frames are stated to be well formed
  and well placed when written, but not to be written. SendFrame states when the check runs and
  what it decides; Signal does not carry that through the loop.
- Signal: the pass-by-pass log of a round (`Turns`) is proved by PlayRound but not carried through
  PlayPattern, PlayNext, Cycle, Playback, Start and Run. Signal's contract therefore does not
  state three things: that a raised switch_pattern breaks the round at once, that an item due
  too early is skipped and never written, and that nothing is written once stop_signal is raised.
- Signal: routers/coyote.py:161-162 runs the playbacks of channels a and b at the same time. The
  model has one playback. It does not model the sibling writing to the other data
  characteristic, calling set_pwm, or lowering the shared switch_pattern. Other tasks act only
  through the scripted requests served while `signal` sleeps.
- IsRunning: on a failed read it states only that the answer is not True and that the slots stay
  well bound. The reconnect's full effect is `Connect`'s contract, which is not restated.
- SetPwm, Stop: an unbound `_pwm_ab2` slot, an AttributeError on `None` in the source, is
  reported as the `NoCharacteristic` error.
