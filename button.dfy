/** The push-button driver of the Vespa board (class VespaButton).

    The button is a digital input, pressed when it reads the active level (LOW
    by default). `pressed()` reads the pin twice, `debounce` ms apart, and only
    accepts a reading that held over the interval; when the accepted state
    differs from the last one, the `on_change` callback, if set, is called with
    it. The pin readings are parameters of the methods that take them. */
module Button {
  import opened Hal

  const DEBOUNCE: uint16 := 20   // [ms], the default debounce

  /** The pin mode the constructor configures: INPUT or INPUT_PULLUP when asked
      for, INPUT for any other request. */
  function InputMode(mode: uint8): (m: uint8)
    ensures m == INPUT || m == INPUT_PULLUP
    ensures m == mode <==> mode == INPUT || mode == INPUT_PULLUP
    ensures m != mode ==> m == INPUT
  {
    if mode != INPUT && mode != INPUT_PULLUP then INPUT else mode
  }

  /** The events of one `pressed()` call: two readings around the debounce
      delay, then the change callback when it fires. */
  function PressEvents(pin: uint8, first: uint8, debounce: uint16, second: uint8, fired: Option<bool>): seq<Event>
  {
    var readings := [DigitalRead(pin, first), Delay(debounce), DigitalRead(pin, second)];
    match fired
    case None => readings
    case Some(res) => readings + [OnChange(res)]
  }

  class VespaButton {
    const pin: uint8
    var activeMode: uint8
    var debounce: uint16
    var hasOnChange: bool    // on_change != nullptr
    var lastState: bool
    var trace: seq<Event>

    ghost predicate Valid()
      reads this
    {
      activeMode == LOW || activeMode == HIGH
    }

    /** The pin is configured in `InputMode(mode)`, then read once (`reading`)
        to set the initial state; active LOW, 20 ms debounce, no callback. */
    constructor (pin: uint8, mode: uint8, reading: uint8)
      ensures Valid()
      ensures this.pin == pin && activeMode == LOW && debounce == DEBOUNCE && !hasOnChange
      ensures lastState <==> reading == LOW
      ensures trace == [PinMode(pin, InputMode(mode)), DigitalRead(pin, reading)]
    {
      this.pin := pin;
      activeMode := LOW;
      debounce := DEBOUNCE;
      hasOnChange := false;
      var m := InputMode(mode);
      trace := [PinMode(pin, m), DigitalRead(pin, reading)];
      lastState := reading == LOW;
    }

    /** `pressed()`, with `first` and `second` the two readings of the pin. Two
        equal readings set the state to "reads the active level"; the callback
        fires exactly when that changes the state and a callback is set. Two
        different readings leave the state as it was. */
    method Pressed(first: uint8, second: uint8) returns (res: bool)
      requires Valid()
      modifies this
      ensures Valid()
      ensures res == lastState
      ensures first == second ==> (lastState <==> first == activeMode)
      ensures first != second ==> lastState == old(lastState)
      ensures activeMode == old(activeMode) && debounce == old(debounce) && hasOnChange == old(hasOnChange)
      ensures trace == old(trace) + PressEvents(pin, first, debounce, second,
                                                if hasOnChange && lastState != old(lastState) then Some(lastState) else None)
    {
      var state := first;
      trace := trace + [DigitalRead(pin, first)];
      trace := trace + [Delay(debounce)];
      trace := trace + [DigitalRead(pin, second)];
      if state == second {
        var pressed := state == activeMode;
        if pressed != lastState {
          if hasOnChange {
            trace := trace + [OnChange(pressed)];
          }
        }
        lastState := pressed;
      }
      return lastState;
    }

    /** `setActiveMode(mode)`: only LOW and HIGH are accepted. */
    method SetActiveMode(mode: uint8) returns (ok: bool)
      requires Valid()
      modifies this
      ensures Valid()
      ensures ok <==> mode == LOW || mode == HIGH
      ensures activeMode == if ok then mode else old(activeMode)
      ensures debounce == old(debounce) && hasOnChange == old(hasOnChange) && lastState == old(lastState)
      ensures trace == old(trace)
    {
      if mode != LOW && mode != HIGH {
        return false;
      }
      activeMode := mode;
      return true;
    }

    /** `setDebounce(debounce)`. */
    method SetDebounce(debounce: uint16)
      modifies this
      ensures this.debounce == debounce
      ensures activeMode == old(activeMode) && hasOnChange == old(hasOnChange) && lastState == old(lastState)
      ensures trace == old(trace)
    {
      this.debounce := debounce;
    }
  }

  // ---------------------------------------------------------------------------
  // Scenarios

  /** A press held over two calls fires the callback once, with `true`; a
      bouncing reading in between changes nothing; the release fires it once
      more, with `false`. */
  method PressAndRelease() returns (states: seq<bool>, events: seq<Event>)
    ensures states == [true, true, true, false]
    ensures events == [PinMode(0, INPUT_PULLUP), DigitalRead(0, HIGH),
                       DigitalRead(0, LOW), Delay(20), DigitalRead(0, LOW), OnChange(true),
                       DigitalRead(0, LOW), Delay(20), DigitalRead(0, LOW),
                       DigitalRead(0, HIGH), Delay(20), DigitalRead(0, LOW),
                       DigitalRead(0, HIGH), Delay(20), DigitalRead(0, HIGH), OnChange(false)]
  {
    var button := new VespaButton(0, INPUT_PULLUP, HIGH);
    button.hasOnChange := true;
    var a := button.Pressed(LOW, LOW);
    var b := button.Pressed(LOW, LOW);
    var c := button.Pressed(HIGH, LOW);
    var d := button.Pressed(HIGH, HIGH);
    states := [a, b, c, d];
    events := button.trace;
  }

  /** With the active level set to HIGH, a pin reading HIGH is a press; an
      invalid mode is refused and leaves it HIGH. */
  method ActiveHigh() returns (accepted: bool, refused: bool, pressed: bool)
    ensures accepted && !refused && pressed
  {
    var button := new VespaButton(0, 0x42, LOW);
    accepted := button.SetActiveMode(HIGH);
    refused := button.SetActiveMode(2);
    pressed := button.Pressed(HIGH, HIGH);
  }
}
