# Vespa board drivers, modelled in Dafny

This project models the five peripheral drivers of the RoboCore Vespa library
for the ESP32 (an Arduino library) and proves properties of them.

- **VespaMotors** drives two DC motors (sides A and B). Each side has two pins,
  and exactly one of them, the *active* pin, is bound to the side's fixed PWM
  channel (14 for A, 15 for B). Changing direction releases the old pin (detach,
  then drive LOW) and attaches the other one. Speeds in percent become 10-bit
  duty cycles through Arduino's `map`.
- **VespaServo** drives hobby servos on 50 Hz, 10-bit PWM. A static registry of
  four slots and a count tracks the live servos. `attach` accepts only the
  twelve servo-capable pins of the board and clamps the pulse range into
  [500, 2500] µs. `write` takes degrees (below 500) or microseconds, clamps the
  value into the pulse range and converts it into duty ticks.
- **VespaBattery** reads the battery through a 5.702 divider on ADC pin 34.
  For a LiPo battery it looks the voltage up in a 21-entry discharge table:
  one row for 2S packs, used below 9 V, and one for 3S packs. It interpolates
  inside a 5 % step. At 15 % or less it calls the critical handler.
- **VespaLED** switches an LED and makes it blink, driven by `update()` and the
  millisecond clock.
- **VespaButton** reads a push-button with a debounce interval and calls the
  change callback when the debounced state changes.

## How the model is built

- **Hardware calls are events.** Each driver object appends every call it makes
  into the Arduino core to its own `trace` (`Hal.Event`). This covers the calls
  to `pinMode`, `digitalWrite`, `digitalRead`, `delay`, `ledcAttachChannel`,
  `ledcAttach`, `ledcDetach`, `ledcWrite`, `analogSetPinAttenuation` and
  `analogReadMilliVolts`. Every callback the driver fires is an event too.
- **Hardware results are parameters.** An attach result (`ok`), a pin reading,
  an ADC reading or a `millis()` reading is a parameter of the method that
  receives it, and the event records it.
- **The trace has a meaning.** Functions in `Hal` replay a trace:
  - `ChannelHolder` gives the pin a fixed channel drives; `ChannelSafe` says a
    channel is never attached while it still drives a pin;
  - `AutoAttached` gives the pins holding an automatic channel; `WritesAttached`
    says every duty write goes to such a pin;
  - `LastLevel` gives the level a pin was last driven to.

  The class invariants (`Valid`) are stated over these replays.
- **C integer types are ranges.** `uint8_t`, `int8_t`, `uint16_t` and `uint32_t`
  are subset types of `int`, and the source's truncating conversions are
  written out (`ToInt8`, `ToUint16`, `ToUint32`, ...). Arduino's `map` is
  `(x - in_min) * (out_max - out_min) / (in_max - in_min) + out_min` with C's
  truncating division (`Hal.Map`).
- **Stateful drivers are classes.** Each driver is a class whose fields are the
  source's fields, with a method per operation. The servo registry is a class
  `ServoRegistry` holding the slot array. Beside each class are the pure
  functions the methods are proved against (duty, pulse, ticks, capacity,
  registry updates, event lists) and lemmas about those functions.
- **Pin mode values.** `INPUT`, `OUTPUT` and `INPUT_PULLUP` take the values of
  the ESP32 Arduino core (0x01, 0x03, 0x05).

Two behaviours of the code worth knowing:

- A failed channel attach in `_attachPin` still records the new pin as active
  (src/VespaMotors.cpp:216-218).
- Registry membership does not gate `attach`: a fifth servo, which gets no
  slot, can still attach (src/VespaServo.cpp:57-59, 105-139; see
  `Servo.FifthServo`).

## Model

| member | source | states |
|---|---|---|
| Hal.Map | src/VespaMotors.cpp:95 | Arduino `map` with truncating division: the input range's endpoints go to the output's endpoints, and an input inside the range lands inside the output range |
| Hal.MapMonotone | src/VespaServo.cpp:174 | over an ascending output range, `map` never decreases as its input grows |
| Motors.Duty | src/VespaMotors.cpp:87-95 | the duty of a speed is at most 1023, 0 for speed 0, and 1023 for every speed of 100 or more (the speed is clamped to 100) |
| Motors.DutyIsFloor | src/VespaMotors.cpp:87-95 | the duty is exactly floor(min(speed, 100) * 1023 / 100) |
| Motors.DutyMonotone | src/VespaMotors.cpp:95 | a higher speed never gives a lower duty |
| Motors.SignedDuty | src/VespaMotors.cpp:125-139 | the duty of a signed speed is at most 1023, and 1023 whenever the magnitude reaches 100 (corrected negation; see Findings) |
| Motors.SignedDutyAsWritten | src/VespaMotors.cpp:125-139 | the duty the code as written stores: the `int8_t` negation, the clamp to 100, `map` and the `uint16_t` store; `Motors.NegationWraps` and `Motors.AsWrittenAgreesElsewhere` state how it differs from the corrected duty |
| Motors.NegationWraps | src/VespaMotors.cpp:130-139 | as written, `setSpeedLeft(-128)` writes duty 64227; the corrected duty is 1023 |
| Motors.AsWrittenAgreesElsewhere | src/VespaMotors.cpp:125-139 | for every speed other than -128 the code as written and the corrected duty agree |
| Motors.SwitchKeepsChannelsSafe | src/VespaMotors.cpp:211-229 | switching a side to a new pin keeps every channel bound to at most one pin; the side's channel then drives the new pin if the attach succeeded and nothing otherwise; the other channel is untouched |
| Motors.ReleaseFreesPin | src/VespaMotors.cpp:213-214 | detaching a pin and driving it LOW frees exactly the channel that drove it |
| Motors.ConfigureBindsForwardPins | src/VespaMotors.cpp:244-264 | from unbound channels, `_configurePWM` binds 13 to channel 14 and 27 to channel 15 when both attaches succeed, and leaves both channels unbound otherwise (the pin whose attach succeeded is detached again) |
| Motors.AttachBothForwardPins | src/VespaMotors.cpp:249-251 | the two attaches bind each channel to its forward pin exactly when that attach succeeds |
| Motors.WriteKeepsChannels | src/VespaMotors.cpp:97-98 | a duty write, pin-mode or level change leaves every channel binding as it was |
| Motors.SwitchEvents | src/VespaMotors.cpp:210-229 | the hardware calls of a side switch: detach and LOW for the old pin when there is one, then the attach on the side's fixed channel; `Motors.SwitchKeepsChannelsSafe` states what they do to the channel bindings |
| Motors.SelectEvents | src/VespaMotors.cpp:195-229 | no call at all when the target is already the active pin, the switch otherwise (`Motors.RepeatedSwitchIsIgnored`) |
| Motors.SpeedLeftEvents | src/VespaMotors.cpp:125-140 | the calls of `setSpeedLeft`: the pin selection, then the duty write to the selected pin, corrected at -128 |
| Motors.SpeedRightEvents | src/VespaMotors.cpp:147-162 | the calls of `setSpeedRight`: the pin selection, then the duty write to the selected pin, corrected at -128 |
| Motors.PowerOnEvents | src/VespaMotors.cpp:46-56 | the constructor's calls: the four pins as outputs, then all four LOW |
| Motors.ConfigureEvents | src/VespaMotors.cpp:247-264 | the calls of `_configurePWM`: both forward attaches, then a detach of each pin whose attach succeeded unless both did; `Motors.ConfigureBindsForwardPins` states the bindings they leave |
| Motors.VespaMotors.constructor | src/VespaMotors.cpp:36-63 | the four pins become LOW outputs, the PWM is configured, both duties are 0 and written to pins 13 and 27; the invariant holds |
| Motors.VespaMotors.ConfigurePwm | src/VespaMotors.cpp:239-265 | max duty 1023, active pins 13 and 27, returns true iff both attaches succeed, emits attach 13, attach 27, then a detach of each pin whose attach succeeded on partial failure |
| Motors.VespaMotors.AttachPin | src/VespaMotors.cpp:195-232 | a pin already active on either side: false, no event, no change; otherwise only its side changes: detach and LOW for the old pin, then attach on the side's channel at 5000 Hz / 10 bit; the new pin is active even when the attach fails; the result is the attach result; the invariant is kept |
| Motors.VespaMotors.Drive | src/VespaMotors.cpp:92-98 | selects one pin per side, sets both duties to `Duty(speed)` and writes them to the newly active pins |
| Motors.VespaMotors.Backward | src/VespaMotors.cpp:85-99 | selects pins 14 and 4 and writes `Duty(speed)` to both |
| Motors.VespaMotors.Forward | src/VespaMotors.cpp:105-119 | selects pins 13 and 27 and writes `Duty(speed)` to both |
| Motors.VespaMotors.SetDirectionLeft | src/VespaMotors.cpp:271-277 | FORWARD selects pin 13, anything else pin 14; side B and the duties are unchanged |
| Motors.VespaMotors.SetDirectionRight | src/VespaMotors.cpp:283-289 | FORWARD selects pin 27, anything else pin 4; side A and the duties are unchanged |
| Motors.VespaMotors.SetSpeedLeft | src/VespaMotors.cpp:125-141 | a speed of 0 or more selects pin 13, a negative one pin 14; side A's duty becomes the clamped magnitude's duty and is written, corrected at -128; side B is unchanged |
| Motors.VespaMotors.SetSpeedRight | src/VespaMotors.cpp:147-163 | the same for side B with pins 27 and 4, corrected at -128; side A is unchanged |
| Motors.VespaMotors.Stop | src/VespaMotors.cpp:168-174 | both duties become 0 and are written to the current active pins, which do not change |
| Motors.VespaMotors.WritePwm | src/VespaMotors.cpp:172-173 | writes both stored duties to the active pins and changes nothing else |
| Motors.VespaMotors.Turn | src/VespaMotors.cpp:182-186 | exactly `SetSpeedLeft(a)` followed by `SetSpeedRight(b)`, corrected at -128 |
| Motors.VespaMotors.Destroy | src/VespaMotors.cpp:68-78 | detaches both active pins and makes all four pins inputs; afterwards neither channel drives a pin |
| Motors.ForwardStopBackward | src/VespaMotors.cpp:85-174 | forward(50), stop(), backward(30) emit duty 511 on 13 and 27, 0, the two pin switches, then duty 306 on 14 and 4 |
| Motors.RepeatedSwitchIsIgnored | src/VespaMotors.cpp:197-199 | selecting pin 14 twice switches once (detach 13, LOW, attach 14 with the attach result returned); the second call returns false and emits nothing |
| Servo.Pulse | src/VespaServo.cpp:173-183 | the pulse is never below the minimum, never above the maximum when min <= max, and is the minimum when min > max; `Servo.MicrosecondsPassThrough` and `Servo.MicrosecondsClamped` give its exact value for microsecond inputs |
| Servo.Ticks | src/VespaServo.cpp:186-191 | a pulse within the 20 ms period gives at most 1023 ticks |
| Servo.TicksAreShareOfPeriod | src/VespaServo.cpp:186-191 | ticks = floor(pulse * 1023 / 20000), the pulse's share of the period in duty units |
| Servo.TicksMonotone | src/VespaServo.cpp:186-188 | a longer pulse never gives fewer ticks |
| Servo.DegreesMapLinearly | src/VespaServo.cpp:173-174 | 0..180 degrees map onto [min, max] by `map`, with 0 at min and 180 at max |
| Servo.DegreesMonotone | src/VespaServo.cpp:174 | a larger angle never gives a shorter pulse |
| Servo.OvershootSaturates | src/VespaServo.cpp:173-180 | a "degree" value between 181 and 499 overshoots and is capped to the maximum pulse |
| Servo.MicrosecondsPassThrough | src/VespaServo.cpp:177-183 | a value of 500 or more inside [min, max] is taken as microseconds unchanged |
| Servo.MicrosecondsClamped | src/VespaServo.cpp:178-183 | a value of 500 or more above max gives exactly max, and below min exactly min |
| Servo.PositionExamples | src/VespaServo.cpp:136 | 90 degrees on the default range is 1500 µs and 76 ticks; 45 degrees on [1000, 2000] is 1250 µs; 500 µs is 25 ticks and 2500 µs is 127 |
| Servo.IsValidPin | src/VespaServo.cpp:112-124 | the whitelist search finds the pin iff it is one of the twelve servo pins |
| Servo.FirstFree | src/VespaServo.cpp:62-63 | the lowest null slot, or none when every slot is taken |
| Servo.IndexOf | src/VespaServo.cpp:79-80 | the lowest slot holding the servo, or none iff it holds no slot |
| Servo.Register | src/VespaServo.cpp:49-69 | the constructor's registration: slots cleared when the count is 0, nothing at a count of 4 or more, otherwise the first free slot is taken and the count goes up; `Servo.RegisterKeepsRegistryOk` states the invariant it keeps |
| Servo.Unregister | src/VespaServo.cpp:79-85 | the destructor's removal, corrected: the servo's slot is cleared and the count goes down only when it held one; `Servo.UnregisterKeepsRegistryOk` states the invariant it keeps |
| Servo.UnregisterAsWritten | src/VespaServo.cpp:79-85 | the destructor's removal as written: the slot is cleared when held, and the `uint8_t` count goes down in every case; `Servo.AsWrittenCountDrifts` and `Servo.AsWrittenCountWraps` show the invariant broken |
| Servo.OccupiedFill | src/VespaServo.cpp:64-65 | filling a null slot raises the number of taken slots by one |
| Servo.OccupiedClear | src/VespaServo.cpp:81 | clearing a taken slot lowers it by one |
| Servo.OccupiedFull | src/VespaServo.cpp:57-68 | at most four slots are taken; all four iff none is null; none iff all are null |
| Servo.RegisterKeepsRegistryOk | src/VespaServo.cpp:50-68 | registering keeps count = taken slots, at most 4, with no servo twice; the servo gets a slot iff the count was below 4, and the count rises by one exactly then; every taken slot keeps its servo, and the new servo takes the lowest free slot |
| Servo.UnregisterKeepsRegistryOk | src/VespaServo.cpp:79-85 | releasing (corrected) keeps the registry consistent; the servo holds no slot afterwards; the count drops by one iff it held one; every slot not holding it is unchanged |
| Servo.AsWrittenCountDrifts | src/VespaServo.cpp:85 | as written, destroying an unregistered fifth servo leaves four taken slots with count 3, breaking the registry invariant; the corrected release leaves the registry unchanged |
| Servo.AsWrittenCountWraps | src/VespaServo.cpp:49-85 | as written, releasing from an empty registry wraps the count to 255; registering any servo then leaves that registry exactly as it was; registration is refused until 252 more destructors have run |
| Servo.DrainSlotless | src/VespaServo.cpp:79-85 | as written, destructors of a servo holding no slot leave the slots alone and count the `uint8_t` counter down modulo 256 |
| Servo.RegistersAgain | src/VespaServo.cpp:57-69 | after the wrap to 255, fewer than 252 slotless destructors leave registration refused, and after exactly 252 the next servo registers |
| Servo.ServoRegistry.constructor | src/VespaServo.cpp:36-37 | four null slots, count 0 |
| Servo.ServoRegistry.Claim | src/VespaServo.cpp:50-68 | the slot loop does exactly `Register`: reset on count 0, refuse at 4, else the lowest null slot and count + 1 |
| Servo.ServoRegistry.Release | src/VespaServo.cpp:79-85 | the slot loop does exactly the corrected `Unregister`, and reports whether the servo held a slot |
| Servo.ServoRegistry.ReleaseAsWritten | src/VespaServo.cpp:79-85 | the slot loop with the unconditional decrement does exactly `UnregisterAsWritten` |
| Servo.AttachEvents | src/VespaServo.cpp:126-136 | the calls of `attach` past the pin check: the pin as an output, the automatic channel request, and the 90 degree write only when the request succeeded (`Servo.ChannelFromAttach` states the channel it leaves) |
| Servo.ChannelFromAttach | src/VespaServo.cpp:127-135 | after an attach from the detached state, the servo's pin holds an automatic channel iff the attach succeeded, and writes remain attached |
| Servo.VespaServo.constructor | src/VespaServo.cpp:43-69 | a detached servo with pin 0xFF, registered through `Register` |
| Servo.VespaServo.Attach | src/VespaServo.cpp:94-96 | `attach(pin)` is `attach(pin, 500, 2500)` |
| Servo.VespaServo.AttachWithRange | src/VespaServo.cpp:105-139 | already attached: true and no change; a pin off the whitelist: false and no change; otherwise pin mode OUTPUT, bounds clamped into [500, 2500], attach, and the 90-degree write when attached; returns the attach result |
| Servo.VespaServo.Configure | src/VespaServo.cpp:126-138 | the configuration part of `attach`, with the same events and state |
| Servo.VespaServo.Detach | src/VespaServo.cpp:152-160 | attached: detach, pin as input, pin 0xFF, not attached; detached: no change (idempotent) |
| Servo.VespaServo.Write | src/VespaServo.cpp:166-192 | detached: no event; attached: one duty write of `Ticks(Pulse(value, min, max))` to the pin |
| Servo.VespaServo.Destroy | src/VespaServo.cpp:74-86 | detaches, then releases the servo's slot with the corrected count |
| Servo.VespaServo.DestroyAsWritten | src/VespaServo.cpp:74-86 | detaches, then releases with the unconditional decrement |
| Servo.FifthServo | src/VespaServo.cpp:57-59 | with four servos registered, a fifth gets no slot and the count stays 4, yet it attaches |
| Servo.FillInOrder | src/VespaServo.cpp:62-68 | four registrations fill the slots in order 0, 1, 2, 3 |
| Servo.FourServos | src/VespaServo.cpp:43-69 | four constructed servos fill the registry, which stays consistent |
| Servo.FullRegistryOk | src/VespaServo.cpp:50-68 | a full registry of four distinct servos with count 4 is consistent |
| Servo.DestroyFifthAsWritten | src/VespaServo.cpp:85 | as written, destroying the fifth servo leaves count 3 with four slots taken |
| Servo.DestroyFifth | src/VespaServo.cpp:74-86 | with the corrected release, the count stays 4 with four slots taken |
| Battery.TableShape | src/VespaBattery.cpp:83-84 | both rows have 21 strictly decreasing entries; the 2S row lies below 9000 mV and the 3S row at or above it |
| Battery.StepsDownOrdered | src/VespaBattery.cpp:83-84 | in a row decreasing step by step, every earlier entry is above every later one |
| Battery.Voltage | src/VespaBattery.cpp:132-139 | without uint32 overflow, the voltage is floor(reading * 5702 / 1000) |
| Battery.VoltageOfAdcRange | src/VespaBattery.cpp:134-136 | every reading of the ADC's 0..3100 mV range scales without overflow, to at most 17676 mV |
| Battery.Cells | src/VespaBattery.cpp:88 | row 1 (3S) iff the voltage is at least 9000 mV |
| Battery.Leading | src/VespaBattery.cpp:95-102 | the length of the leading run of entries at or above the voltage |
| Battery.LastAtLeast | src/VespaBattery.cpp:95-102 | the search result is an index of the row |
| Battery.LeadingAntitone | src/VespaBattery.cpp:95-102 | a lower voltage has a leading run at least as long |
| Battery.LeadingBetween | src/VespaBattery.cpp:95-102 | in a decreasing row, a voltage at or below entry k and above entry k + 1 has a run of k + 1 |
| Battery.SearchIndex | src/VespaBattery.cpp:95-102 | the search loop returns the last index of the leading run, or 0 when it is empty |
| Battery.CorrectionBelowStep | src/VespaBattery.cpp:105-110 | the interpolated correction is 0..4 when the voltage lies above the step's lower entry |
| Battery.Clamp | src/VespaBattery.cpp:90-92 | the clamped voltage is at most the row's first entry, and is either the voltage or that entry |
| Battery.StepOf | src/VespaBattery.cpp:90-102 | the step a clamped voltage falls in is an index of the row |
| Battery.CapacityIn | src/VespaBattery.cpp:89-111 | the `readCapacity` arithmetic on one table row: clamp, search, 5 % per full step, less the interpolated correction; `Battery.StepBounds`, `Battery.CapacityAtEntry`, `Battery.CapacityEnds` and `Battery.CapacityMonotone` state its properties |
| Battery.StepBounds | src/VespaBattery.cpp:104-111 | the capacity lies within 96 - 5i .. 100 - 5i for step i, and is 0 at the last step |
| Battery.StepAntitone | src/VespaBattery.cpp:90-102 | a higher voltage never falls in a later step |
| Battery.StepBetween | src/VespaBattery.cpp:95-102 | a voltage at or below entry i and above entry i + 1 falls in step i |
| Battery.CapacityInStep | src/VespaBattery.cpp:104-111 | inside step i the capacity is 100 - 5i - floor(5 * (L[i] - v) / (L[i] - L[i + 1])) |
| Battery.CapacityAtEntry | src/VespaBattery.cpp:83-85 | every table entry reads exactly its percentage 100 - 5i |
| Battery.CapacityEnds | src/VespaBattery.cpp:90-111 | at or above the first entry 100 %; at or below the last entry 0 % |
| Battery.CapacityInsideStep | src/VespaBattery.cpp:104-111 | a voltage strictly inside step i reads more than 95 - 5i and at most 100 - 5i |
| Battery.CapacityMonotone | src/VespaBattery.cpp:88-111 | within a row, a higher voltage never reads a lower capacity |
| Battery.CapacityOf | src/VespaBattery.cpp:73-111 | the LiPo capacity is 0..100, 100 at or above the row's top and 0 at or below its bottom |
| Battery.CriticalEntry2S | src/VespaBattery.cpp:83-85 | 7410 mV reads 15 % |
| Battery.AboveCritical2S | src/VespaBattery.cpp:83-111 | 7411 mV reads 16 % |
| Battery.CriticalEntry3S | src/VespaBattery.cpp:83-85 | 11120 mV reads 15 % |
| Battery.AboveCritical3S | src/VespaBattery.cpp:83-111 | 11121 mV reads 16 % |
| Battery.CriticalThreshold | src/VespaBattery.cpp:114-118 | a 2S reading is critical (15 % or less) iff it is at most 7410 mV, a 3S reading iff at most 11120 mV |
| Battery.CapacityExample | src/VespaBattery.cpp:83-111 | 7300 mV on a 2S pack reads 8 % |
| Battery.CapacityJustBelowCritical | src/VespaBattery.cpp:83-111 | 7406 mV on a 2S pack reads 15 % |
| Battery.LookupCapacity | src/VespaBattery.cpp:90-111 | the clamp, search loop and interpolation compute exactly the row's capacity |
| Battery.LipoCapacity | src/VespaBattery.cpp:87-111 | the row selection and lookup compute exactly `CapacityOf` |
| Battery.VespaBattery.constructor | src/VespaBattery.cpp:40-59 | pin 34 as input with 11 dB attenuation; type undefined; no handler |
| Battery.VespaBattery.ReadVoltage | src/VespaBattery.cpp:132-139 | one ADC reading, scaled by `Voltage` |
| Battery.VespaBattery.ReadCapacity | src/VespaBattery.cpp:73-126 | a type other than LiPo reads 100 with no event; a LiPo reads `CapacityOf` of its voltage, and the critical handler is called once with the percentage iff it is at most 15 and set |
| Battery.VespaBattery.SetBatteryType | src/VespaBattery.cpp:146-153 | accepts and stores exactly the types 0 and 1; otherwise false and unchanged |
| Battery.CriticalLipo | src/VespaBattery.cpp:114-118 | an undefined battery reads 100; as a LiPo, a 1299 mV ADC reading reads 15 % and calls the handler with 15 |
| Led.Deadline | src/VespaLED.cpp:74 | `millis() + duration` in uint32: the plain sum, or the sum less 2^32 when it overflows |
| Led.DeadlineWraps | src/VespaLED.cpp:74 | a deadline is 0, the "not blinking" value, iff the sum is exactly 2^32; a wrapped deadline is before the clock, an unwrapped one after |
| Led.VespaLED.constructor | src/VespaLED.cpp:44-52 | the pin becomes an output driven LOW; state LOW; not blinking |
| Led.VespaLED.Blink | src/VespaLED.cpp:68-76 | stores the period; 0 stops blinking, anything else schedules now + duration; state and pin untouched |
| Led.VespaLED.Drive | src/VespaLED.cpp:84 | drives the pin to the level and makes it the state |
| Led.VespaLED.On | src/VespaLED.cpp:81-85 | stops blinking, state HIGH, HIGH written |
| Led.VespaLED.Off | src/VespaLED.cpp:90-94 | stops blinking, state LOW, LOW written |
| Led.VespaLED.Toggle | src/VespaLED.cpp:99-105 | flips the state and writes it, and, since it goes through on/off, stops blinking |
| Led.VespaLED.Update | src/VespaLED.cpp:110-120 | not blinking or before the stop time: no change; otherwise flips once and schedules the next stop time from the second clock reading; the last level written is always the state |
| Led.VespaLED.Destroy | src/VespaLED.cpp:57-60 | the pin goes back to an input |
| Led.BlinkPeriod | src/VespaLED.cpp:68-120 | a 500 ms blink started at 1000 ms turns on at 1500 ms and off at 2001 ms, then waits for 2502 ms |
| Led.BlinkLostAtWrap | src/VespaLED.cpp:72-75 | a blink whose stop time wraps to exactly 0 never toggles |
| Led.ToggleStopsBlinking | src/VespaLED.cpp:99-105 | a toggle while blinking stops the blinking |
| Button.InputMode | src/VespaButton.cpp:50-52 | the configured mode is INPUT or INPUT_PULLUP; the requested mode is kept iff it is one of them, else INPUT |
| Button.VespaButton.constructor | src/VespaButton.cpp:44-57 | the pin in the normalised mode, read once; active LOW; debounce 20; no callback; pressed iff the reading is LOW |
| Button.VespaButton.Pressed | src/VespaButton.cpp:70-86 | differing readings keep the state; equal readings set it to "reading is the active level"; the callback fires, once and with the new state, iff the state changes and a callback is set; returns the state |
| Button.VespaButton.SetActiveMode | src/VespaButton.cpp:93-101 | accepts only LOW and HIGH; otherwise false and unchanged |
| Button.VespaButton.SetDebounce | src/VespaButton.cpp:107-109 | stores the debounce and changes nothing else |
| Button.PressAndRelease | src/VespaButton.cpp:70-86 | press, hold, bounce and release give the states true, true, true, false and the whole 16-event trace, whose only callbacks are true after the press and false after the release |
| Button.ActiveHigh | src/VespaButton.cpp:93-101 | after `setActiveMode(HIGH)`, an invalid mode is refused and a HIGH reading is a press |

## Left out

- Hardware: the Arduino core's calls are recorded as events, not executed. The
  oracle parameters stand for their results; a real attach, ADC or pin read is
  not modelled.
- Timing: `millis()` readings are parameters (the LED's `update` reads it twice,
  hence two parameters), and `delay(debounce)` is an event. Elapsed time and
  bouncing contacts are not modelled.
- Floating point: `pow(2, 10) - 1` is the constant 1023. The servo's `double`
  tick computation is the exact floor(pulse * 1023 / 20000). That is the same
  value whenever the pulse is not a multiple of 20000; the model does not cover
  the one rounding-sensitive pulse, 60000 µs, reachable only with a minimum pulse
  above 2500 µs.
- Function pointers: `handler_critical` and `on_change` are the public flags
  `hasCriticalHandler` and `hasOnChange`; a call is the event
  `HandlerCritical(pct)` or `OnChange(state)`.
- Pointer identity: the motors' active pin pointers become `MotorPin` values
  (the four pins 13, 14, 27 and 4 are distinct). The servo registry's static
  members become a `ServoRegistry` object passed to the servo's constructor and
  destructor; the slot array is an `array` field of it.
- Destructors are `Destroy` methods. The empty destructors of `VespaButton` and
  `VespaBattery` are not modelled.
- The default constructors of `VespaLED` and `VespaButton` use the pin macros
  `VESPA_LED_PIN` and `VESPA_BUTTON_PIN`, which are not defined; they are not
  modelled.
- The header RoboCore_Vespa.h is used only for its constants. Its stale
  declarations are not modelled: `void _attachPin` and `void _configurePWM`
  where the code returns `bool`, `getChannel`, `VespaServo(uint8_t)` and
  `_pwm_channel`. The battery's ADC calibration fields and accessors are not
  modelled either.
- Uninitialised fields: the LED's `_delay` starts at 0 here. It is never read
  before `blink` sets it (`Led.VespaLED.Valid`: a pending stop time implies a
  non-zero period). The servo's `_min` and `_max` are unused until `attach`
  sets them; the model starts them at 0.
- The LED's `millis() + duration` wraps modulo 2^32 as in the source. A stop
  time that wraps to exactly 0 stops blinking (`Led.BlinkLostAtWrap`); one that
  wraps past 0 toggles at the next update. The model keeps this as written.
- The battery's `analogReadMilliVolts(...) * 5702` wraps in uint32 as written.
  No ADC reading can reach the overflow (`Battery.VoltageOfAdcRange`).
- The motor class methods use the corrected negation at -128 (see Findings);
  `Motors.SignedDutyAsWritten` keeps the wrapped duty of the code as written.

## Findings

| source | as written | input that shows it | evidently intended | confidence | as-written member | corrected member |
|---|---|---|---|---|---|---|
| src/VespaMotors.cpp:130, 152 | `speed *= -1` on `int8_t` leaves -128 unchanged, it passes the `> 100` clamp, `map` gives -1309 and `_pwmA` (uint16_t) stores 64227 | `setSpeedLeft(-128)` or `setSpeedRight(-128)` | full reverse speed, duty 1023 | high, not executed | Motors.SignedDutyAsWritten, Motors.NegationWraps | Motors.SignedDuty |
| src/VespaServo.cpp:85 | the destructor decrements `_servo_count` even when the servo held no slot | destroy a fifth servo while four are registered: count 3 with four slots taken; from an empty registry the count wraps to 255 and registration is refused until 252 more destructors have run | decrement only when a slot was cleared | high, not executed | Servo.UnregisterAsWritten, Servo.AsWrittenCountDrifts, Servo.DestroyFifthAsWritten | Servo.Unregister, Servo.UnregisterKeepsRegistryOk, Servo.DestroyFifth |
