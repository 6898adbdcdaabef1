/** The parts of the Arduino core for the ESP32 that the Vespa drivers call.

    The drivers never see the hardware directly: every call they make into the
    Arduino core (pinMode, digitalWrite, ledcAttach, ledcWrite, ...) and every
    callback they fire is recorded as an `Event`, in order, in a trace. Values the
    hardware returns (attach results, pin readings, ADC readings, the clock) are
    parameters of the driver methods, and the event records the value received.

    The replay functions at the end of this module give the trace a meaning: which
    pin a fixed PWM channel currently drives, which pins hold an automatically chosen
    channel, and which level a pin was last driven to. */
module Hal {

  datatype Option<T> = None | Some(value: T)

  // The C integer types of the source, as ranges of the unbounded integers.
  type uint8 = x: int | 0 <= x < 0x100
  type int8 = x: int | -0x80 <= x < 0x80
  type uint16 = x: int | 0 <= x < 0x1_0000
  type uint32 = x: int | 0 <= x < 0x1_0000_0000

  /** Conversion to `int8_t`, which wraps modulo 256 on the ESP32 compiler. */
  function ToInt8(x: int): (r: int8)
    ensures (x - r) % 0x100 == 0
    ensures -0x80 <= x < 0x80 ==> r == x
  {
    var m := x % 0x100;
    if m < 0x80 then m else m - 0x100
  }

  /** Conversion to `uint8_t` (wraps modulo 2^8). */
  function ToUint8(x: int): (r: uint8)
    ensures (x - r) % 0x100 == 0
    ensures 0 <= x < 0x100 ==> r == x
  {
    x % 0x100
  }

  /** Conversion to `uint16_t` (wraps modulo 2^16). */
  function ToUint16(x: int): (r: uint16)
    ensures (x - r) % 0x1_0000 == 0
    ensures 0 <= x < 0x1_0000 ==> r == x
  {
    x % 0x1_0000
  }

  /** Conversion to `uint32_t` (wraps modulo 2^32). */
  function ToUint32(x: int): (r: uint32)
    ensures (x - r) % 0x1_0000_0000 == 0
    ensures 0 <= x < 0x1_0000_0000 ==> r == x
  {
    x % 0x1_0000_0000
  }

  /** C integer division: the quotient is rounded toward zero, so the remainder
      has the sign of the dividend (Dafny's own `/` rounds toward minus infinity). */
  function TruncDiv(a: int, b: int): (q: int)
    requires b > 0
    ensures a >= 0 ==> 0 <= a - q * b < b
    ensures a < 0 ==> -b < a - q * b <= 0
  {
    if a >= 0 then a / b else -((-a) / b)
  }

  /** Arduino's `map`: re-maps `x` linearly from [inMin, inMax] onto [outMin, outMax],
      in `long` arithmetic with a truncating division. Every call site in the
      drivers uses an ascending input range. */
  function Map(x: int, inMin: int, inMax: int, outMin: int, outMax: int): (r: int)
    requires inMin < inMax
    ensures x == inMin ==> r == outMin
    ensures x == inMax ==> r == outMax
    ensures inMin <= x <= inMax && outMin <= outMax ==> outMin <= r <= outMax
  {
    MapStaysInRange(x - inMin, inMax - inMin, outMax - outMin);
    TruncDiv((x - inMin) * (outMax - outMin), inMax - inMin) + outMin
  }

  lemma MulLeft(a: int, b: int, c: int)
    requires a <= b && c >= 0
    ensures a * c <= b * c
  {
    assert b * c - a * c == (b - a) * c;
  }

  /** A non-negative quotient is bounded by any bound of the dividend. */
  lemma QuotientBound(a: int, run: int, bound: int)
    requires run > 0 && 0 <= a <= bound * run
    ensures 0 <= TruncDiv(a, run) <= bound
  {
    var q := TruncDiv(a, run);
    if q > bound {
      MulLeft(bound + 1, q, run);
    }
    if q < 0 {
      MulLeft(q, -1, run);
    }
  }

  lemma MapStaysInRange(delta: int, run: int, rise: int)
    requires run > 0
    ensures 0 <= delta <= run && rise >= 0 ==> 0 <= TruncDiv(delta * rise, run) <= rise
    ensures delta == run ==> TruncDiv(delta * rise, run) == rise
  {
    if 0 <= delta <= run && rise >= 0 {
      MulLeft(0, delta, rise);
      MulLeft(delta, run, rise);
      QuotientBound(delta * rise, run, rise);
    }
    if delta == run {
      var q := TruncDiv(delta * rise, run);
      assert delta * rise - q * run == (rise - q) * run;
      if q < rise {
        MulLeft(1, rise - q, run);
      } else if q > rise {
        MulLeft(1, q - rise, run);
      }
    }
  }

  lemma TruncDivMonotone(a: int, b: int, run: int)
    requires 0 <= a <= b && run > 0
    ensures TruncDiv(a, run) <= TruncDiv(b, run)
  {
    var qa, qb := TruncDiv(a, run), TruncDiv(b, run);
    if qa > qb {
      MulLeft(qb + 1, qa, run);
    }
  }

  /** Map is monotone in x over the input range when the output range ascends. */
  lemma MapMonotone(x: int, y: int, inMin: int, inMax: int, outMin: int, outMax: int)
    requires inMin < inMax && outMin <= outMax
    requires inMin <= x <= y
    ensures Map(x, inMin, inMax, outMin, outMax) <= Map(y, inMin, inMax, outMin, outMax)
  {
    var rise := outMax - outMin;
    MulLeft(0, x - inMin, rise);
    MulLeft(x - inMin, y - inMin, rise);
    TruncDivMonotone((x - inMin) * rise, (y - inMin) * rise, inMax - inMin);
  }

  // Logic levels.
  const LOW: uint8 := 0
  const HIGH: uint8 := 1

  // Pin modes, with the values of the Arduino core for the ESP32.
  const INPUT: uint8 := 0x01
  const OUTPUT: uint8 := 0x03
  const INPUT_PULLUP: uint8 := 0x05

  /** One call into the Arduino core, or one callback fired by a driver. */
  datatype Event =
    | PinMode(pin: uint8, mode: uint8)
    | DigitalWrite(pin: uint8, level: uint8)
    | DigitalRead(pin: uint8, level: uint8)                 // the level the pin returned
    | Delay(ms: nat)
    | LedcAttachChannel(pin: uint8, frequency: nat, resolution: nat, channel: nat, ok: bool)
    | LedcAttach(pin: uint8, frequency: nat, resolution: nat, ok: bool)   // channel chosen by the core
    | LedcDetach(pin: uint8)
    | LedcWrite(pin: uint8, duty: uint32)
    | AnalogSetPinAttenuation(pin: uint8, attenuation: nat)
    | AnalogReadMilliVolts(pin: uint8, millivolts: uint32)  // the reading the ADC returned
    | HandlerCritical(percentage: uint8)                    // battery critical callback
    | OnChange(pressed: bool)                               // button change callback

  // ---------------------------------------------------------------------------
  // Fixed channels (ledcAttachChannel)

  /** The pin a channel drives after event `e`, given it drove `h` before: a
      successful attach on the channel binds the pin, detaching that pin frees it. */
  function HolderAfter(h: Option<uint8>, e: Event, channel: nat): Option<uint8>
  {
    match e
    case LedcAttachChannel(p, _, _, c, ok) => if ok && c == channel then Some(p) else h
    case LedcDetach(p) => if h == Some(p) then None else h
    case _ => h
  }

  /** The pin a fixed PWM channel drives after the whole trace. */
  function ChannelHolder(t: seq<Event>, channel: nat): Option<uint8>
    decreases |t|
  {
    if t == [] then None
    else HolderAfter(ChannelHolder(t[..|t| - 1], channel), t[|t| - 1], channel)
  }

  /** No successful attach ever targets a channel that still drives another pin:
      at every moment each fixed channel drives at most one pin. */
  predicate ChannelSafe(t: seq<Event>)
    decreases |t|
  {
    t == [] ||
    (ChannelSafe(t[..|t| - 1]) &&
     (t[|t| - 1].LedcAttachChannel? && t[|t| - 1].ok ==>
        ChannelHolder(t[..|t| - 1], t[|t| - 1].channel) == None))
  }

  // ---------------------------------------------------------------------------
  // Automatic channels (ledcAttach), digital levels

  /** The pins holding an automatic channel after event `e`, given `pins` before. */
  function AutoAfter(pins: set<uint8>, e: Event): set<uint8>
  {
    match e
    case LedcAttach(p, _, _, ok) => if ok then pins + {p} else pins
    case LedcDetach(p) => pins - {p}
    case _ => pins
  }

  /** Pins holding an automatically chosen channel after the trace. */
  function AutoAttached(t: seq<Event>): set<uint8>
    decreases |t|
  {
    if t == [] then {} else AutoAfter(AutoAttached(t[..|t| - 1]), t[|t| - 1])
  }

  /** Every duty write goes to a pin that holds an automatically chosen channel. */
  predicate WritesAttached(t: seq<Event>)
    decreases |t|
  {
    t == [] ||
    (WritesAttached(t[..|t| - 1]) &&
     (t[|t| - 1].LedcWrite? ==> t[|t| - 1].pin in AutoAttached(t[..|t| - 1])))
  }

  /** The level `pin` was last driven to with digitalWrite, if any. */
  function LastLevel(t: seq<Event>, pin: uint8): Option<uint8>
    decreases |t|
  {
    if t == [] then None
    else if t[|t| - 1].DigitalWrite? && t[|t| - 1].pin == pin then Some(t[|t| - 1].level)
    else LastLevel(t[..|t| - 1], pin)
  }

  /** Appending one event updates the fixed channels by that event alone. */
  lemma {:induction false} SnocChannels(t: seq<Event>, e: Event)
    ensures forall c :: ChannelHolder(t + [e], c) == HolderAfter(ChannelHolder(t, c), e, c)
    ensures ChannelSafe(t + [e]) <==>
              ChannelSafe(t) && (e.LedcAttachChannel? && e.ok ==> ChannelHolder(t, e.channel) == None)
  {
    assert (t + [e])[..|t|] == t;
  }

  /** Appending one event updates the automatic channels by that event alone. */
  lemma {:induction false} SnocAuto(t: seq<Event>, e: Event)
    ensures AutoAttached(t + [e]) == AutoAfter(AutoAttached(t), e)
    ensures WritesAttached(t + [e]) <==> WritesAttached(t) && (e.LedcWrite? ==> e.pin in AutoAttached(t))
  {
    assert (t + [e])[..|t|] == t;
  }

  /** Appending one event updates the last levels by that event alone. */
  lemma {:induction false} SnocLevel(t: seq<Event>, e: Event)
    ensures forall p :: LastLevel(t + [e], p) ==
              if e.DigitalWrite? && e.pin == p then Some(e.level) else LastLevel(t, p)
  {
    assert (t + [e])[..|t|] == t;
  }

  /** An event that neither attaches nor detaches a PWM channel. */
  predicate Quiet(e: Event)
  {
    !e.LedcAttachChannel? && !e.LedcAttach? && !e.LedcDetach?
  }

  /** Quiet events (writes, pin modes, readings, callbacks) change no channel binding. */
  lemma {:induction false} QuietAppend(t: seq<Event>, u: seq<Event>)
    requires forall i :: 0 <= i < |u| ==> Quiet(u[i])
    ensures forall c :: ChannelHolder(t + u, c) == ChannelHolder(t, c)
    ensures ChannelSafe(t + u) == ChannelSafe(t)
    ensures AutoAttached(t + u) == AutoAttached(t)
    decreases |u|
  {
    if u != [] {
      var u', e := u[..|u| - 1], u[|u| - 1];
      assert u == u' + [e];
      assert t + u == (t + u') + [e];
      QuietAppend(t, u');
      SnocChannels(t + u', e);
      SnocAuto(t + u', e);
    } else {
      assert t + u == t;
    }
  }
}
