/** The LED driver of the Vespa board (class VespaLED).

    The LED is a digital output. Besides switching it on, off or over, the
    driver can make it blink: `blink(duration)` stores a stop time `millis() +
    duration`, and every `update()` that finds the clock at or past the stop
    time toggles the LED and schedules the next stop time. A stop time of 0
    means "not blinking". The clock is a parameter of the methods that read it. */
module Led {
  import opened Hal

  /** `millis() + duration` in the `uint32_t` arithmetic of the source: the sum
      wraps past 2^32 ms (about 49.7 days). */
  function Deadline(now: uint32, duration: uint32): (stop: uint32)
    ensures now + duration < 0x1_0000_0000 ==> stop == now + duration
    ensures now + duration >= 0x1_0000_0000 ==> stop == now + duration - 0x1_0000_0000
  {
    ToUint32(now + duration)
  }

  /** A wrapped deadline lies before the clock reading it was computed from, and
      exactly one wrap lands on 0, the value that means "not blinking". */
  lemma DeadlineWraps(now: uint32, duration: uint32)
    requires duration > 0
    ensures Deadline(now, duration) == 0 <==> now + duration == 0x1_0000_0000
    ensures now + duration >= 0x1_0000_0000 ==> Deadline(now, duration) < now
    ensures now + duration < 0x1_0000_0000 ==> Deadline(now, duration) > now
  {
  }

  class VespaLED {
    const pin: uint8
    var state: uint8
    var delay: uint32       // the blink period [ms]
    var stopTime: uint32    // the next toggle [ms], 0 when not blinking
    var trace: seq<Event>

    /** The state is a logic level and is what the pin was last driven to; a
        pending stop time always comes with the period that produced it. */
    ghost predicate Valid()
      reads this
    {
      (state == LOW || state == HIGH) &&
      LastLevel(trace, pin) == Some(state) &&
      (stopTime != 0 ==> delay != 0)
    }

    /** The pin as an output, driven LOW; not blinking. The source leaves the
        period uninitialised; it is 0 here, and unread until `blink` sets it. */
    constructor (pin: uint8)
      ensures Valid()
      ensures this.pin == pin && state == LOW && stopTime == 0 && delay == 0
      ensures trace == [PinMode(pin, OUTPUT), DigitalWrite(pin, LOW)]
    {
      this.pin := pin;
      state := LOW;
      stopTime := 0;
      delay := 0;
      trace := [PinMode(pin, OUTPUT), DigitalWrite(pin, LOW)];
      SnocLevel([PinMode(pin, OUTPUT)], DigitalWrite(pin, LOW));
    }

    /** `blink(duration)` with `millis()` reading `now`: a zero duration stops
        blinking, any other schedules the first toggle. The pin is not touched. */
    method Blink(duration: uint32, now: uint32)
      requires Valid()
      modifies this
      ensures Valid()
      ensures delay == duration && stopTime == (if duration == 0 then 0 else Deadline(now, duration))
      ensures state == old(state) && trace == old(trace)
    {
      delay := duration;
      if delay == 0 {
        stopTime := 0;
      } else {
        stopTime := Deadline(now, delay);
      }
    }

    /** Drives the pin to `level` and records it as the state. */
    method Drive(level: uint8)
      requires level == LOW || level == HIGH
      modifies this
      ensures state == level && delay == old(delay) && stopTime == old(stopTime)
      ensures trace == old(trace) + [DigitalWrite(pin, level)]
      ensures LastLevel(trace, pin) == Some(level)
    {
      state := level;
      SnocLevel(trace, DigitalWrite(pin, level));
      trace := trace + [DigitalWrite(pin, level)];
    }

    /** `on()`: stops blinking and drives the pin HIGH. */
    method On()
      requires Valid()
      modifies this
      ensures Valid()
      ensures state == HIGH && stopTime == 0 && delay == old(delay)
      ensures trace == old(trace) + [DigitalWrite(pin, HIGH)]
    {
      stopTime := 0;
      Drive(HIGH);
    }

    /** `off()`: stops blinking and drives the pin LOW. */
    method Off()
      requires Valid()
      modifies this
      ensures Valid()
      ensures state == LOW && stopTime == 0 && delay == old(delay)
      ensures trace == old(trace) + [DigitalWrite(pin, LOW)]
    {
      stopTime := 0;
      Drive(LOW);
    }

    /** `toggle()`: the other level, through `on()` or `off()`, so a toggle by
        the user also stops blinking. */
    method Toggle()
      requires Valid()
      modifies this
      ensures Valid()
      ensures state == 1 - old(state) && stopTime == 0 && delay == old(delay)
      ensures trace == old(trace) + [DigitalWrite(pin, state)]
    {
      if state == LOW {
        On();
      } else {
        Off();
      }
    }

    /** `update()`, where `now` and `later` are the two `millis()` readings of
        the source: when blinking and the first reading has reached the stop
        time, toggle and schedule the next stop time from the second reading. */
    method Update(now: uint32, later: uint32)
      requires Valid()
      modifies this
      ensures Valid()
      ensures delay == old(delay)
      ensures old(stopTime) == 0 || now < old(stopTime) ==>
                state == old(state) && stopTime == old(stopTime) && trace == old(trace)
      ensures old(stopTime) != 0 && now >= old(stopTime) ==>
                state == 1 - old(state) && stopTime == Deadline(later, delay) &&
                trace == old(trace) + [DigitalWrite(pin, state)]
    {
      if stopTime == 0 {
        return;
      }
      if now >= stopTime {
        Toggle();
        stopTime := Deadline(later, delay);
      }
    }

    /** The destructor: the pin goes back to an input. */
    method Destroy()
      modifies this
      ensures state == old(state) && delay == old(delay) && stopTime == old(stopTime)
      ensures trace == old(trace) + [PinMode(pin, INPUT)]
    {
      trace := trace + [PinMode(pin, INPUT)];
    }
  }

  // ---------------------------------------------------------------------------
  // Scenarios

  /** Blinking with a 500 ms period started at 1000 ms: nothing happens before
      1500 ms, the LED goes on at 1500 ms and off again once 500 ms have passed
      from the second clock reading. */
  method BlinkPeriod() returns (events: seq<Event>, stop: uint32)
    ensures events == [PinMode(2, OUTPUT), DigitalWrite(2, LOW), DigitalWrite(2, HIGH), DigitalWrite(2, LOW)]
    ensures stop == 2502
  {
    var led := new VespaLED(2);
    led.Blink(500, 1000);
    led.Update(1499, 1499);
    led.Update(1500, 1501);
    led.Update(2000, 2000);
    led.Update(2001, 2002);
    events, stop := led.trace, led.stopTime;
  }

  /** A blink whose stop time wraps exactly to 0 is taken for "not blinking":
      no later update ever toggles the LED. */
  method BlinkLostAtWrap(now: uint32, later: uint32) returns (events: seq<Event>, blinking: bool)
    ensures events == [PinMode(2, OUTPUT), DigitalWrite(2, LOW)]
    ensures !blinking
  {
    var led := new VespaLED(2);
    led.Blink(1000, 0xFFFF_FFFF - 999);
    led.Update(now, later);
    events, blinking := led.trace, led.stopTime != 0;
  }

  /** Toggling by hand while blinking stops the blinking. */
  method ToggleStopsBlinking(now: uint32, later: uint32) returns (events: seq<Event>)
    ensures events == [PinMode(2, OUTPUT), DigitalWrite(2, LOW), DigitalWrite(2, HIGH)]
  {
    var led := new VespaLED(2);
    led.Blink(250, 0);
    led.Toggle();
    led.Update(now, later);
    events := led.trace;
  }
}
