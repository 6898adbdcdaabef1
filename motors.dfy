/** The motor pair of the Vespa board (class VespaMotors).

    Each side of the H-bridge has two inputs, one per direction, and exactly one of
    them is bound to the side's fixed PWM channel at a time: side A (left) uses
    channel 14 with pin 13 forward and pin 14 backward, side B (right) uses channel
    15 with pin 27 forward and pin 4 backward, both at 5 kHz and 10 bits. Changing
    direction detaches the old pin, drives it LOW and attaches the new one. The
    source tracks the active pin by pointer identity; here it is a `MotorPin`. */
module Motors {
  import opened Hal

  /** The four H-bridge inputs: MA1/MA2 drive side A, MB1/MB2 side B. */
  datatype MotorPin = MA1 | MA2 | MB1 | MB2

  /** The GPIO number of each input. */
  function Number(p: MotorPin): uint8
  {
    match p
    case MA1 => 13
    case MA2 => 14
    case MB1 => 27
    case MB2 => 4
  }

  predicate OnSideA(p: MotorPin)
  {
    p == MA1 || p == MA2
  }

  const CHANNEL_A: nat := 14
  const CHANNEL_B: nat := 15
  const FREQUENCY: nat := 5000   // [Hz]
  const RESOLUTION: nat := 10    // [bits]
  const MAX_DUTY: uint16 := 1023 // 2^10 - 1
  const FORWARD: uint8 := HIGH
  const BACKWARD: uint8 := LOW

  /** The fixed channel of a pin's side, and that of the opposite side. */
  function Channel(p: MotorPin): nat
  {
    if OnSideA(p) then CHANNEL_A else CHANNEL_B
  }

  function OtherChannel(p: MotorPin): nat
  {
    if OnSideA(p) then CHANNEL_B else CHANNEL_A
  }

  // ---------------------------------------------------------------------------
  // Speed to duty

  /** `map(speed, 0, 100, 0, 1023)` after the speed is clamped to 100. */
  function Duty(speed: nat): (d: uint16)
    ensures d <= MAX_DUTY
    ensures speed == 0 ==> d == 0
    ensures speed >= 100 ==> d == MAX_DUTY
  {
    var s := if speed > 100 then 100 else speed;
    var r := Map(s, 0, 100, 0, 1023);
    assert 0 <= r <= 1023;
    r
  }

  /** The duty is the floor of min(speed, 100) * 1023 / 100. */
  lemma DutyIsFloor(speed: nat)
    ensures var s := if speed > 100 then 100 else speed;
            Duty(speed) * 100 <= s * 1023 < (Duty(speed) + 1) * 100
  {
  }

  /** A faster command never gives a smaller duty. */
  lemma DutyMonotone(s: nat, t: nat)
    requires s <= t
    ensures Duty(s) <= Duty(t)
  {
    var s', t' := if s > 100 then 100 else s, if t > 100 then 100 else t;
    MapMonotone(s', t', 0, 100, 0, MAX_DUTY as int);
  }

  /** The pin a signed per-side speed selects: forward for speed >= 0. */
  function LeftPin(speed: int8): MotorPin
  {
    if speed >= 0 then MA1 else MA2
  }

  function RightPin(speed: int8): MotorPin
  {
    if speed >= 0 then MB1 else MB2
  }

  /** The duty for a signed per-side speed: that of its magnitude. */
  function SignedDuty(speed: int8): (d: uint16)
    ensures d <= MAX_DUTY
    ensures speed <= -100 || speed >= 100 ==> d == MAX_DUTY
  {
    Duty(if speed < 0 then -(speed as int) else speed)
  }

  /** setSpeedLeft/setSpeedRight as written: `speed *= -1` on an int8_t, then
      the clamp, then map, with the result stored in a uint16_t. */
  function SignedDutyAsWritten(speed: int8): uint16
  {
    var magnitude := if speed >= 0 then speed else ToInt8(-(speed as int));
    var clamped := if magnitude > 100 then 100 else magnitude;
    ToUint16(Map(clamped, 0, 100, 0, MAX_DUTY as int))
  }

  /** Full reverse, -128, negates to -128 in int8_t: the clamp does not fire and
      map gives -1309, stored as 64227, instead of the full duty 1023. */
  lemma NegationWraps()
    ensures SignedDutyAsWritten(-128) == 64227
    ensures SignedDuty(-128) == MAX_DUTY
  {
    assert ToInt8(128) == -128;
    assert Map(-128, 0, 100, 0, 1023) == -1309;
  }

  /** -128 is the only speed on which the written code and the corrected duty differ. */
  lemma AsWrittenAgreesElsewhere(speed: int8)
    requires speed != -128
    ensures SignedDutyAsWritten(speed) == SignedDuty(speed)
  {
  }

  // ---------------------------------------------------------------------------
  // Hardware events

  /** The events `_attachPin` emits when it switches a side from `active` to
      `target`: detach the old pin and drive it LOW (when there is one), then
      attach the target on its side's channel; `ok` is the attach result. */
  function SwitchEvents(active: Option<MotorPin>, target: MotorPin, ok: bool): seq<Event>
  {
    var attach := LedcAttachChannel(Number(target), FREQUENCY, RESOLUTION, Channel(target), ok);
    if active.Some? then
      [LedcDetach(Number(active.value)), DigitalWrite(Number(active.value), LOW), attach]
    else
      [attach]
  }

  /** Selecting `target` on a side: nothing when it is already the active pin. */
  function SelectEvents(active: Option<MotorPin>, target: MotorPin, ok: bool): seq<Event>
  {
    if active == Some(target) then [] else SwitchEvents(active, target, ok)
  }

  /** The events of setSpeedLeft(speed) on a side whose active pin is `active`. */
  function SpeedLeftEvents(active: Option<MotorPin>, speed: int8, ok: bool): seq<Event>
  {
    SelectEvents(active, LeftPin(speed), ok) + [LedcWrite(Number(LeftPin(speed)), SignedDuty(speed))]
  }

  function SpeedRightEvents(active: Option<MotorPin>, speed: int8, ok: bool): seq<Event>
  {
    SelectEvents(active, RightPin(speed), ok) + [LedcWrite(Number(RightPin(speed)), SignedDuty(speed))]
  }

  /** The constructor's pin set-up: all four pins outputs, all LOW. */
  function PowerOnEvents(): seq<Event>
  {
    [PinMode(13, OUTPUT), PinMode(14, OUTPUT), PinMode(27, OUTPUT), PinMode(4, OUTPUT),
     DigitalWrite(13, LOW), DigitalWrite(14, LOW), DigitalWrite(27, LOW), DigitalWrite(4, LOW)]
  }

  /** `_configurePWM`: attach both forward pins; unless both succeed, detach
      exactly the ones that did. */
  function ConfigureEvents(okA: bool, okB: bool): seq<Event>
  {
    var attaches := [LedcAttachChannel(13, FREQUENCY, RESOLUTION, CHANNEL_A, okA),
                     LedcAttachChannel(27, FREQUENCY, RESOLUTION, CHANNEL_B, okB)];
    if okA && okB then attaches
    else if okA then attaches + [LedcDetach(13)]
    else if okB then attaches + [LedcDetach(27)]
    else attaches
  }

  /** A side's channel drives nothing, or the side's active pin. */
  predicate HolderIsActive(t: seq<Event>, channel: nat, active: Option<MotorPin>)
  {
    ChannelHolder(t, channel) == None ||
    (active.Some? && ChannelHolder(t, channel) == Some(Number(active.value)))
  }

  /** A pin switch keeps every channel bound to at most one pin: afterwards the
      side's channel drives the new pin exactly when its attach succeeded, and the
      other side's channel is untouched. */
  lemma {:induction false} SwitchKeepsChannelsSafe(t: seq<Event>, active: Option<MotorPin>, other: Option<MotorPin>,
                                target: MotorPin, ok: bool)
    requires ChannelSafe(t)
    requires active.Some? ==> OnSideA(active.value) == OnSideA(target)
    requires other.Some? ==> OnSideA(other.value) != OnSideA(target)
    requires HolderIsActive(t, Channel(target), active)
    requires HolderIsActive(t, OtherChannel(target), other)
    ensures ChannelSafe(t + SwitchEvents(active, target, ok))
    ensures ChannelHolder(t + SwitchEvents(active, target, ok), Channel(target)) ==
              if ok then Some(Number(target)) else None
    ensures ChannelHolder(t + SwitchEvents(active, target, ok), OtherChannel(target)) ==
              ChannelHolder(t, OtherChannel(target))
  {
    var attach := LedcAttachChannel(Number(target), FREQUENCY, RESOLUTION, Channel(target), ok);
    var u := t;
    if active.Some? {
      var n := Number(active.value);
      ReleaseFreesPin(t, n);
      u := t + [LedcDetach(n), DigitalWrite(n, LOW)];
    }
    assert t + SwitchEvents(active, target, ok) == u + [attach];
    SnocChannels(u, attach);
  }

  /** Detaching a pin and driving it LOW frees exactly the channels bound to it. */
  lemma {:induction false} ReleaseFreesPin(t: seq<Event>, n: uint8)
    ensures ChannelSafe(t + [LedcDetach(n), DigitalWrite(n, LOW)]) == ChannelSafe(t)
    ensures forall c :: ChannelHolder(t + [LedcDetach(n), DigitalWrite(n, LOW)], c) ==
                          if ChannelHolder(t, c) == Some(n) then None else ChannelHolder(t, c)
  {
    SnocChannels(t, LedcDetach(n));
    SnocChannels(t + [LedcDetach(n)], DigitalWrite(n, LOW));
    assert t + [LedcDetach(n), DigitalWrite(n, LOW)] == t + [LedcDetach(n)] + [DigitalWrite(n, LOW)];
  }

  /** On unbound channels, `_configurePWM` leaves the forward pins bound when
      both attaches succeed and nothing bound otherwise. */
  lemma {:induction false} ConfigureBindsForwardPins(t: seq<Event>, okA: bool, okB: bool)
    requires ChannelSafe(t)
    requires ChannelHolder(t, CHANNEL_A) == None && ChannelHolder(t, CHANNEL_B) == None
    ensures ChannelSafe(t + ConfigureEvents(okA, okB))
    ensures ChannelHolder(t + ConfigureEvents(okA, okB), CHANNEL_A) == if okA && okB then Some(13) else None
    ensures ChannelHolder(t + ConfigureEvents(okA, okB), CHANNEL_B) == if okA && okB then Some(27) else None
  {
    var t2 := t + [LedcAttachChannel(13, FREQUENCY, RESOLUTION, CHANNEL_A, okA),
                   LedcAttachChannel(27, FREQUENCY, RESOLUTION, CHANNEL_B, okB)];
    AttachBothForwardPins(t, okA, okB);
    if okA && !okB {
      assert t + ConfigureEvents(okA, okB) == t2 + [LedcDetach(13)];
      SnocChannels(t2, LedcDetach(13));
    } else if okB && !okA {
      assert t + ConfigureEvents(okA, okB) == t2 + [LedcDetach(27)];
      SnocChannels(t2, LedcDetach(27));
    } else {
      assert t + ConfigureEvents(okA, okB) == t2;
    }
  }

  /** The two attaches of `_configurePWM` on unbound channels bind each forward
      pin whose attach succeeded. */
  lemma {:induction false} AttachBothForwardPins(t: seq<Event>, okA: bool, okB: bool)
    requires ChannelSafe(t)
    requires ChannelHolder(t, CHANNEL_A) == None && ChannelHolder(t, CHANNEL_B) == None
    ensures var u := t + [LedcAttachChannel(13, FREQUENCY, RESOLUTION, CHANNEL_A, okA),
                          LedcAttachChannel(27, FREQUENCY, RESOLUTION, CHANNEL_B, okB)];
            ChannelSafe(u) &&
            ChannelHolder(u, CHANNEL_A) == (if okA then Some(13) else None) &&
            ChannelHolder(u, CHANNEL_B) == (if okB then Some(27) else None)
  {
    var e1 := LedcAttachChannel(13, FREQUENCY, RESOLUTION, CHANNEL_A, okA);
    var e2 := LedcAttachChannel(27, FREQUENCY, RESOLUTION, CHANNEL_B, okB);
    SnocChannels(t, e1);
    SnocChannels(t + [e1], e2);
    assert t + [e1, e2] == t + [e1] + [e2];
  }

  /** Events that attach or detach nothing keep the channel bindings. */
  lemma {:induction false} WriteKeepsChannels(t: seq<Event>, e: Event)
    requires Quiet(e)
    ensures ChannelSafe(t + [e]) == ChannelSafe(t)
    ensures forall c :: ChannelHolder(t + [e], c) == ChannelHolder(t, c)
  {
    SnocChannels(t, e);
  }

  // ---------------------------------------------------------------------------
  // The driver

  class VespaMotors {
    var activeA: Option<MotorPin>   // the pin of side A bound to CHANNEL_A
    var activeB: Option<MotorPin>   // the pin of side B bound to CHANNEL_B
    var pwmA: uint16
    var pwmB: uint16
    var maxDuty: uint16
    var trace: seq<Event>

    /** Once configured: each side has an active pin of its own side, the duty
        range is 10 bits, and each channel drives nothing or its side's active pin. */
    ghost predicate Valid()
      reads this
    {
      activeA.Some? && OnSideA(activeA.value) &&
      activeB.Some? && !OnSideA(activeB.value) &&
      maxDuty == MAX_DUTY &&
      ChannelSafe(trace) &&
      HolderIsActive(trace, CHANNEL_A, activeA) &&
      HolderIsActive(trace, CHANNEL_B, activeB)
    }

    /** `okA` and `okB` are the results of the two channel attaches of the
        power-on configuration. */
    constructor (okA: bool, okB: bool)
      ensures Valid()
      ensures activeA == Some(MA1) && activeB == Some(MB1)
      ensures pwmA == 0 && pwmB == 0
      ensures trace == PowerOnEvents() + ConfigureEvents(okA, okB) + [LedcWrite(13, 0), LedcWrite(27, 0)]
    {
      activeA, activeB := None, None;
      pwmA, pwmB, maxDuty := 0, 0, 0;   // set by ConfigurePwm and Stop below
      trace := PowerOnEvents();
      new;
      QuietAppend([], PowerOnEvents());
      assert [] + PowerOnEvents() == PowerOnEvents();
      var _ := ConfigurePwm(okA, okB);
      Stop();
    }

    /** `_configurePWM`: returns true iff both attaches succeed; on a partial
        failure the pins that did attach are detached again. */
    method ConfigurePwm(okA: bool, okB: bool) returns (ok: bool)
      modifies this
      ensures maxDuty == MAX_DUTY && activeA == Some(MA1) && activeB == Some(MB1)
      ensures pwmA == old(pwmA) && pwmB == old(pwmB)
      ensures ok == (okA && okB)
      ensures trace == old(trace) + ConfigureEvents(okA, okB)
      ensures ChannelSafe(old(trace)) &&
              ChannelHolder(old(trace), CHANNEL_A) == None && ChannelHolder(old(trace), CHANNEL_B) == None ==>
                Valid() &&
                ChannelHolder(trace, CHANNEL_A) == (if ok then Some(13) else None) &&
                ChannelHolder(trace, CHANNEL_B) == (if ok then Some(27) else None)
    {
      maxDuty := MAX_DUTY;
      activeA, activeB := None, None;
      ghost var t0 := trace;
      var a := AttachPin(MA1, okA);
      var b := AttachPin(MB1, okB);
      ghost var t2 := trace;
      assert t2 == t0 + [LedcAttachChannel(13, FREQUENCY, RESOLUTION, CHANNEL_A, okA),
                         LedcAttachChannel(27, FREQUENCY, RESOLUTION, CHANNEL_B, okB)];
      if a && b {
        ok := true;
      } else {
        if a {
          trace := trace + [LedcDetach(Number(activeA.value))];
        }
        if b {
          trace := trace + [LedcDetach(Number(activeB.value))];
        }
        ok := false;
      }
      assert trace == t0 + ConfigureEvents(okA, okB);
      if ChannelSafe(t0) && ChannelHolder(t0, CHANNEL_A) == None && ChannelHolder(t0, CHANNEL_B) == None {
        ConfigureBindsForwardPins(t0, okA, okB);
      }
    }

    /** `_attachPin`: a pin that is already active on either side is ignored
        (false, no event). Otherwise the old pin of the target's side is detached
        and driven LOW, the target becomes active even if its attach fails, and the
        result is the attach result. */
    method AttachPin(pin: MotorPin, attachOk: bool) returns (res: bool)
      modifies this
      ensures pwmA == old(pwmA) && pwmB == old(pwmB) && maxDuty == old(maxDuty)
      ensures old(activeA) == Some(pin) || old(activeB) == Some(pin) ==>
                !res && activeA == old(activeA) && activeB == old(activeB) && trace == old(trace)
      ensures old(activeA) != Some(pin) && old(activeB) != Some(pin) && OnSideA(pin) ==>
                res == attachOk && activeA == Some(pin) && activeB == old(activeB) &&
                trace == old(trace) + SwitchEvents(old(activeA), pin, attachOk)
      ensures old(activeA) != Some(pin) && old(activeB) != Some(pin) && !OnSideA(pin) ==>
                res == attachOk && activeB == Some(pin) && activeA == old(activeA) &&
                trace == old(trace) + SwitchEvents(old(activeB), pin, attachOk)
      ensures old(Valid()) ==> Valid()
    {
      if activeA == Some(pin) || activeB == Some(pin) {
        return false;
      }
      res := false;
      if OnSideA(pin) {
        if activeA.Some? {
          trace := trace + [LedcDetach(Number(activeA.value))];
          trace := trace + [DigitalWrite(Number(activeA.value), LOW)];
        }
        activeA := Some(pin);
        res := attachOk;
        trace := trace + [LedcAttachChannel(Number(pin), FREQUENCY, RESOLUTION, CHANNEL_A, attachOk)];
        assert trace == old(trace) + SwitchEvents(old(activeA), pin, attachOk);
        if old(Valid()) {
          SwitchKeepsChannelsSafe(old(trace), old(activeA), activeB, pin, attachOk);
        }
      }
      if !OnSideA(pin) {
        if activeB.Some? {
          trace := trace + [LedcDetach(Number(activeB.value))];
          trace := trace + [DigitalWrite(Number(activeB.value), LOW)];
        }
        activeB := Some(pin);
        res := attachOk;
        trace := trace + [LedcAttachChannel(Number(pin), FREQUENCY, RESOLUTION, CHANNEL_B, attachOk)];
        assert trace == old(trace) + SwitchEvents(old(activeB), pin, attachOk);
        if old(Valid()) {
          SwitchKeepsChannelsSafe(old(trace), old(activeB), activeA, pin, attachOk);
        }
      }
    }

    /** forward and backward: clamp the speed, select `left` and `right`, and
        write the same duty to both newly active pins. */
    method Drive(left: MotorPin, right: MotorPin, speed: uint8, okA: bool, okB: bool)
      requires Valid() && OnSideA(left) && !OnSideA(right)
      modifies this
      ensures Valid()
      ensures activeA == Some(left) && activeB == Some(right)
      ensures pwmA == Duty(speed) && pwmB == Duty(speed)
      ensures trace == old(trace) + SelectEvents(old(activeA), left, okA) + SelectEvents(old(activeB), right, okB)
                       + [LedcWrite(Number(left), Duty(speed)), LedcWrite(Number(right), Duty(speed))]
    {
      var s := speed;
      if s > 100 {
        s := 100;
      }
      var _ := AttachPin(left, okA);
      ghost var t1 := trace;
      assert t1 == old(trace) + SelectEvents(old(activeA), left, okA);
      var _ := AttachPin(right, okB);
      assert trace == t1 + SelectEvents(old(activeB), right, okB);
      pwmA := ToUint16(Map(s, 0, 100, 0, maxDuty as int));
      assert pwmA == Duty(speed);
      pwmB := pwmA;
      WritePwm();
    }

    /** `backward(speed)`: both sides on their backward pins (14 and 4). */
    method Backward(speed: uint8, okA: bool, okB: bool)
      requires Valid()
      modifies this
      ensures Valid()
      ensures activeA == Some(MA2) && activeB == Some(MB2)
      ensures pwmA == Duty(speed) && pwmB == Duty(speed)
      ensures trace == old(trace) + SelectEvents(old(activeA), MA2, okA) + SelectEvents(old(activeB), MB2, okB)
                       + [LedcWrite(14, Duty(speed)), LedcWrite(4, Duty(speed))]
    {
      Drive(MA2, MB2, speed, okA, okB);
    }

    /** `forward(speed)`: both sides on their forward pins (13 and 27). */
    method Forward(speed: uint8, okA: bool, okB: bool)
      requires Valid()
      modifies this
      ensures Valid()
      ensures activeA == Some(MA1) && activeB == Some(MB1)
      ensures pwmA == Duty(speed) && pwmB == Duty(speed)
      ensures trace == old(trace) + SelectEvents(old(activeA), MA1, okA) + SelectEvents(old(activeB), MB1, okB)
                       + [LedcWrite(13, Duty(speed)), LedcWrite(27, Duty(speed))]
    {
      Drive(MA1, MB1, speed, okA, okB);
    }

    /** `_setDirectionLeft`: FORWARD selects pin 13, any other value pin 14. */
    method SetDirectionLeft(direction: uint8, ok: bool)
      requires Valid()
      modifies this
      ensures Valid()
      ensures activeA == Some(if direction == FORWARD then MA1 else MA2) && activeB == old(activeB)
      ensures pwmA == old(pwmA) && pwmB == old(pwmB)
      ensures trace == old(trace) + SelectEvents(old(activeA), if direction == FORWARD then MA1 else MA2, ok)
    {
      if direction == FORWARD {
        var _ := AttachPin(MA1, ok);
      } else {
        var _ := AttachPin(MA2, ok);
      }
    }

    /** `_setDirectionRight`: FORWARD selects pin 27, any other value pin 4. */
    method SetDirectionRight(direction: uint8, ok: bool)
      requires Valid()
      modifies this
      ensures Valid()
      ensures activeB == Some(if direction == FORWARD then MB1 else MB2) && activeA == old(activeA)
      ensures pwmA == old(pwmA) && pwmB == old(pwmB)
      ensures trace == old(trace) + SelectEvents(old(activeB), if direction == FORWARD then MB1 else MB2, ok)
    {
      if direction == FORWARD {
        var _ := AttachPin(MB1, ok);
      } else {
        var _ := AttachPin(MB2, ok);
      }
    }

    /** `setSpeedLeft(speed)`: the sign selects the pin, the clamped magnitude the
        duty; side B is untouched. The magnitude is taken in int, not int8_t
        (see SignedDutyAsWritten). */
    method SetSpeedLeft(speed: int8, ok: bool)
      requires Valid()
      modifies this
      ensures Valid()
      ensures activeA == Some(LeftPin(speed)) && activeB == old(activeB)
      ensures pwmA == SignedDuty(speed) && pwmB == old(pwmB)
      ensures trace == old(trace) + SpeedLeftEvents(old(activeA), speed, ok)
    {
      var magnitude: int := speed;
      if speed >= 0 {
        SetDirectionLeft(FORWARD, ok);
      } else {
        magnitude := -(speed as int);
        SetDirectionLeft(BACKWARD, ok);
      }
      assert trace == old(trace) + SelectEvents(old(activeA), LeftPin(speed), ok);
      if magnitude > 100 {
        magnitude := 100;
      }
      pwmA := ToUint16(Map(magnitude, 0, 100, 0, maxDuty as int));
      assert pwmA == SignedDuty(speed);
      WriteKeepsChannels(trace, LedcWrite(Number(activeA.value), pwmA));
      trace := trace + [LedcWrite(Number(activeA.value), pwmA)];
    }

    /** `setSpeedRight(speed)`: as SetSpeedLeft, on side B. */
    method SetSpeedRight(speed: int8, ok: bool)
      requires Valid()
      modifies this
      ensures Valid()
      ensures activeB == Some(RightPin(speed)) && activeA == old(activeA)
      ensures pwmB == SignedDuty(speed) && pwmA == old(pwmA)
      ensures trace == old(trace) + SpeedRightEvents(old(activeB), speed, ok)
    {
      var magnitude: int := speed;
      if speed >= 0 {
        SetDirectionRight(FORWARD, ok);
      } else {
        magnitude := -(speed as int);
        SetDirectionRight(BACKWARD, ok);
      }
      assert trace == old(trace) + SelectEvents(old(activeB), RightPin(speed), ok);
      if magnitude > 100 {
        magnitude := 100;
      }
      pwmB := ToUint16(Map(magnitude, 0, 100, 0, maxDuty as int));
      assert pwmB == SignedDuty(speed);
      WriteKeepsChannels(trace, LedcWrite(Number(activeB.value), pwmB));
      trace := trace + [LedcWrite(Number(activeB.value), pwmB)];
    }

    /** `stop()`: zero duty on both current pins; no pin changes. */
    method Stop()
      requires Valid()
      modifies this
      ensures Valid()
      ensures activeA == old(activeA) && activeB == old(activeB)
      ensures pwmA == 0 && pwmB == 0
      ensures trace == old(trace) + [LedcWrite(Number(activeA.value), 0), LedcWrite(Number(activeB.value), 0)]
    {
      pwmA := 0;
      pwmB := 0;
      WritePwm();
    }

    /** The two `ledcWrite` calls that end forward, backward and stop: the
        stored duties go to the active pins of both sides. */
    method WritePwm()
      requires Valid()
      modifies this
      ensures Valid()
      ensures activeA == old(activeA) && activeB == old(activeB)
      ensures pwmA == old(pwmA) && pwmB == old(pwmB) && maxDuty == old(maxDuty)
      ensures trace == old(trace) + [LedcWrite(Number(activeA.value), pwmA), LedcWrite(Number(activeB.value), pwmB)]
    {
      WriteKeepsChannels(trace, LedcWrite(Number(activeA.value), pwmA));
      trace := trace + [LedcWrite(Number(activeA.value), pwmA)];
      WriteKeepsChannels(trace, LedcWrite(Number(activeB.value), pwmB));
      trace := trace + [LedcWrite(Number(activeB.value), pwmB)];
    }

    /** `turn(a, b)`: exactly setSpeedLeft(a) followed by setSpeedRight(b). */
    method Turn(speedA: int8, speedB: int8, okA: bool, okB: bool)
      requires Valid()
      modifies this
      ensures Valid()
      ensures activeA == Some(LeftPin(speedA)) && activeB == Some(RightPin(speedB))
      ensures pwmA == SignedDuty(speedA) && pwmB == SignedDuty(speedB)
      ensures trace == old(trace) + SpeedLeftEvents(old(activeA), speedA, okA)
                                  + SpeedRightEvents(old(activeB), speedB, okB)
    {
      SetSpeedLeft(speedA, okA);
      SetSpeedRight(speedB, okB);
    }

    /** The destructor: detach both active pins and make all four pins inputs;
        afterwards neither channel drives a pin. */
    method Destroy()
      requires Valid()
      modifies this
      ensures activeA == old(activeA) && activeB == old(activeB)
      ensures trace == old(trace) +
                [LedcDetach(Number(activeA.value)), LedcDetach(Number(activeB.value)),
                 PinMode(13, INPUT), PinMode(14, INPUT), PinMode(27, INPUT), PinMode(4, INPUT)]
      ensures ChannelSafe(trace)
      ensures ChannelHolder(trace, CHANNEL_A) == None && ChannelHolder(trace, CHANNEL_B) == None
    {
      var t0 := trace;
      trace := trace + [LedcDetach(Number(activeA.value))];
      SnocChannels(t0, LedcDetach(Number(activeA.value)));
      var t1 := trace;
      trace := trace + [LedcDetach(Number(activeB.value))];
      SnocChannels(t1, LedcDetach(Number(activeB.value)));
      var t2 := trace;
      var inputs := [PinMode(13, INPUT), PinMode(14, INPUT), PinMode(27, INPUT), PinMode(4, INPUT)];
      trace := trace + inputs;
      QuietAppend(t2, inputs);
    }
  }

  // ---------------------------------------------------------------------------
  // Scenarios

  /** forward(50), stop(), backward(30) after power-on: duties 511, 0, 306 on
      both sides, and the one pin switch happens in backward, before its writes. */
  method ForwardStopBackward() returns (events: seq<Event>)
    ensures events ==
      [LedcWrite(13, 511), LedcWrite(27, 511),
       LedcWrite(13, 0), LedcWrite(27, 0),
       LedcDetach(13), DigitalWrite(13, LOW), LedcAttachChannel(14, 5000, 10, 14, true),
       LedcDetach(27), DigitalWrite(27, LOW), LedcAttachChannel(4, 5000, 10, 15, true),
       LedcWrite(14, 306), LedcWrite(4, 306)]
  {
    var motors := new VespaMotors(true, true);
    var start := |motors.trace|;
    motors.Forward(50, true, true);
    motors.Stop();
    motors.Backward(30, true, true);
    assert Duty(50) == 511 && Duty(30) == 306;
    events := motors.trace[start..];
  }

  /** Selecting the same pin twice: the second call is ignored and returns false. */
  method RepeatedSwitchIsIgnored(ok1: bool, ok2: bool) returns (first: bool, second: bool, events: seq<Event>)
    ensures first == ok1 && !second
    ensures events == [LedcDetach(13), DigitalWrite(13, LOW), LedcAttachChannel(14, 5000, 10, 14, ok1)]
  {
    var motors := new VespaMotors(true, true);
    var start := |motors.trace|;
    first := motors.AttachPin(MA2, ok1);
    second := motors.AttachPin(MA2, ok2);
    events := motors.trace[start..];
  }
}
