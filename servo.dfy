/** Hobby servos on the Vespa board (class VespaServo).

    A servo holds one pin of a fixed whitelist, attached to an automatically
    chosen PWM channel at 50 Hz and 10 bits. A position is given either in
    degrees (values below 500, mapped onto the servo's pulse range) or directly
    as a pulse width in microseconds, and is written as the fraction of the
    20 ms period. All servos share a registry of four slots and a counter, the
    static members `_servos` and `_servo_count` of the source; here the registry
    is an object handed to the constructor and the destructor. */
module Servo {
  import opened Hal

  /** The pins a servo may use on the Vespa board, in the order they are tried. */
  const PINS: seq<uint8> := [25, 26, 32, 33, 5, 16, 17, 18, 19, 21, 22, 23]

  const PULSE_MIN: uint16 := 500    // [us]
  const PULSE_MAX: uint16 := 2500   // [us]
  const QTY: nat := 4               // registry slots
  const FREQUENCY: nat := 50        // [Hz], a 20 ms period
  const RESOLUTION: nat := 10       // [bits]
  const MAX_DUTY: uint16 := 1023    // 2^10 - 1
  const NO_PIN: uint8 := 0xFF

  // ---------------------------------------------------------------------------
  // Position to pulse width to duty

  /** The pulse width `write(value)` commands: a value below 500 is in degrees
      and is mapped from [0, 180] onto [lo, hi] (and stored back in a uint16_t);
      the width is then clamped to `hi` first and to `lo` last. */
  function Pulse(value: uint16, lo: uint16, hi: uint16): (us: uint16)
    ensures us >= lo
    ensures lo <= hi ==> us <= hi
    ensures lo > hi ==> us == lo
  {
    var v := if value < PULSE_MIN then ToUint16(Map(value, 0, 180, lo, hi)) else value;
    var capped := if v > hi then hi else v;
    if capped < lo then lo else capped
  }

  /** `ticks = max_duty / ((1e6 / frequency) / us)`, truncated by the uint32_t
      cast; the double arithmetic is taken as exact. */
  function Ticks(us: uint16): (ticks: uint32)
    ensures us <= 20000 ==> ticks <= MAX_DUTY
  {
    (1023 * us * 50) / 1_000_000   // MAX_DUTY * us * FREQUENCY, over 1 s in [us]
  }

  /** The duty is the pulse's share of the 20 ms period, rounded down. */
  lemma TicksAreShareOfPeriod(us: uint16)
    ensures Ticks(us) * 20000 <= 1023 * us < (Ticks(us) + 1) * 20000
  {
  }

  /** A longer pulse never gives a smaller duty. */
  lemma TicksMonotone(u: uint16, v: uint16)
    requires u <= v
    ensures Ticks(u) <= Ticks(v)
  {
  }

  /** Within the pulse range a servo accepts, an angle of 0..180 degrees is
      mapped linearly onto [lo, hi]: 0 gives lo and 180 gives hi. */
  lemma DegreesMapLinearly(value: uint16, lo: uint16, hi: uint16)
    requires value <= 180 && PULSE_MIN <= lo <= hi <= PULSE_MAX
    ensures Pulse(value, lo, hi) == Map(value, 0, 180, lo, hi)
    ensures value == 0 ==> Pulse(value, lo, hi) == lo
    ensures value == 180 ==> Pulse(value, lo, hi) == hi
  {
  }

  /** A larger angle never gives a shorter pulse. */
  lemma DegreesMonotone(a: uint16, b: uint16, lo: uint16, hi: uint16)
    requires a <= b <= 180 && PULSE_MIN <= lo <= hi <= PULSE_MAX
    ensures Pulse(a, lo, hi) <= Pulse(b, lo, hi)
  {
    DegreesMapLinearly(a, lo, hi);
    DegreesMapLinearly(b, lo, hi);
    MapMonotone(a, b, 0, 180, lo, hi);
  }

  /** Angles past 180 that are still taken as degrees (181..499) saturate at hi. */
  lemma OvershootSaturates(value: uint16, lo: uint16, hi: uint16)
    requires 180 < value < PULSE_MIN && PULSE_MIN <= lo <= hi <= PULSE_MAX
    ensures Pulse(value, lo, hi) == hi
  {
    MapMonotone(180, value, 0, 180, lo, hi);
    var m := Map(value, 0, 180, lo, hi);
    var rise := hi - lo;
    MulLeft(value, 540, rise);
    QuotientBound(value * rise, 180, 3 * rise);
    assert hi <= m <= 3 * rise + lo < 0x1_0000;
    assert ToUint16(m) == m;
  }

  /** A value of 500 or more is a pulse width and passes unchanged inside [lo, hi]. */
  lemma MicrosecondsPassThrough(value: uint16, lo: uint16, hi: uint16)
    requires PULSE_MIN <= value && lo <= value <= hi
    ensures Pulse(value, lo, hi) == value
  {
  }

  /** A value of 500 or more outside [lo, hi] is a pulse width clamped to the
      nearer end of the range. */
  lemma MicrosecondsClamped(value: uint16, lo: uint16, hi: uint16)
    requires PULSE_MIN <= value && lo <= hi
    ensures value > hi ==> Pulse(value, lo, hi) == hi
    ensures value < lo ==> Pulse(value, lo, hi) == lo
  {
  }

  /** The default position, 90 degrees on the full range, is a 1.5 ms pulse and
      76 ticks; 45 degrees on [1000, 2000] is 1.25 ms. */
  lemma PositionExamples()
    ensures Pulse(90, PULSE_MIN, PULSE_MAX) == 1500 && Ticks(1500) == 76
    ensures Pulse(45, 1000, 2000) == 1250
    ensures Ticks(PULSE_MIN) == 25 && Ticks(PULSE_MAX) == 127
  {
    assert Map(90, 0, 180, 500, 2500) == 1500;
    assert Map(45, 0, 180, 1000, 2000) == 1250;
  }

  /** The whitelist scan of `attach`: true iff `pin` is one of the Vespa servo pins. */
  method IsValidPin(pin: uint8) returns (valid: bool)
    ensures valid <==> pin in PINS
  {
    valid := false;
    var i := 0;
    while i < |PINS|
      invariant 0 <= i <= |PINS|
      invariant !valid && pin !in PINS[..i]
    {
      if PINS[i] == pin {
        valid := true;
        break;
      }
      i := i + 1;
    }
  }

  // ---------------------------------------------------------------------------
  // The registry of servos, as values

  /** The number of taken slots. */
  function Occupied(s: seq<VespaServo?>): nat
    decreases |s|
  {
    if s == [] then 0 else Occupied(s[..|s| - 1]) + (if s[|s| - 1] != null then 1 else 0)
  }

  /** The first free slot, if any. */
  function FirstFree(s: seq<VespaServo?>): (r: Option<nat>)
    ensures r.Some? ==> r.value < |s| && s[r.value] == null && forall j :: 0 <= j < r.value ==> s[j] != null
    ensures r.None? ==> forall j :: 0 <= j < |s| ==> s[j] != null
    decreases |s|
  {
    if s == [] then None
    else if s[0] == null then Some(0)
    else match FirstFree(s[1..])
      case None => None
      case Some(k) => Some(k + 1)
  }

  /** The first slot holding `x`, if any. */
  function IndexOf(s: seq<VespaServo?>, x: VespaServo): (r: Option<nat>)
    ensures r.Some? ==> r.value < |s| && s[r.value] == x && forall j :: 0 <= j < r.value ==> s[j] != x
    ensures r.None? <==> x !in s
    decreases |s|
  {
    if s == [] then None
    else if s[0] == x then Some(0)
    else match IndexOf(s[1..], x)
      case None => None
      case Some(k) => Some(k + 1)
  }

  function EmptySlots(): seq<VespaServo?>
  {
    [null, null, null, null]
  }

  /** A registry state, slots and counter. */
  datatype Registry = Registry(slots: seq<VespaServo?>, count: uint8)

  /** The registry is consistent: four slots, the counter counts the taken
      slots, and no servo sits in two slots. */
  ghost predicate RegistryOk(r: Registry)
  {
    |r.slots| == QTY && r.count == Occupied(r.slots) &&
    forall i, j :: 0 <= i < j < |r.slots| && r.slots[i] != null ==> r.slots[i] != r.slots[j]
  }

  /** The constructor's registration of `x`: if the counter is 0 all slots are
      cleared first; if it is 4 or more nothing happens; otherwise `x` takes the
      first free slot and the counter goes up - when there is no free slot,
      nothing happens either. */
  function Register(r: Registry, x: VespaServo): Registry
  {
    var base := if r.count == 0 then EmptySlots() else r.slots;
    if r.count as nat >= QTY then Registry(base, r.count)
    else match FirstFree(base)
      case None => Registry(base, r.count)
      case Some(k) => Registry(base[k := x], r.count + 1)
  }

  /** The destructor's removal of `x`, corrected: the counter goes down only
      when `x` held a slot. */
  function Unregister(r: Registry, x: VespaServo): Registry
  {
    match IndexOf(r.slots, x)
    case None => r
    case Some(k) => Registry(r.slots[k := null], ToUint8(r.count - 1))
  }

  /** The destructor's removal of `x` as written: the slot is cleared if `x`
      holds one, and the uint8_t counter goes down in every case. */
  function UnregisterAsWritten(r: Registry, x: VespaServo): Registry
  {
    var slots := match IndexOf(r.slots, x)
      case None => r.slots
      case Some(k) => r.slots[k := null];
    Registry(slots, ToUint8(r.count - 1))
  }

  /** Filling a free slot adds one to the count of taken slots. */
  lemma {:induction false} OccupiedFill(s: seq<VespaServo?>, k: nat, x: VespaServo)
    requires k < |s| && s[k] == null
    ensures Occupied(s[k := x]) == Occupied(s) + 1
    decreases |s|
  {
    var n := |s| - 1;
    assert s[k := x][..n] == if k < n then s[..n][k := x] else s[..n];
    if k < n {
      OccupiedFill(s[..n], k, x);
    }
  }

  /** Clearing a taken slot removes one from the count of taken slots. */
  lemma {:induction false} OccupiedClear(s: seq<VespaServo?>, k: nat)
    requires k < |s| && s[k] != null
    ensures Occupied(s[k := null]) + 1 == Occupied(s)
    decreases |s|
  {
    var n := |s| - 1;
    assert s[k := null][..n] == if k < n then s[..n][k := null] else s[..n];
    if k < n {
      OccupiedClear(s[..n], k);
    }
  }

  /** All slots are taken exactly when the count of taken slots is the
      length, and all are free exactly when it is 0. */
  lemma {:induction false} OccupiedFull(s: seq<VespaServo?>)
    ensures Occupied(s) <= |s|
    ensures Occupied(s) == |s| <==> forall j :: 0 <= j < |s| ==> s[j] != null
    ensures Occupied(s) == 0 <==> forall j :: 0 <= j < |s| ==> s[j] == null
    decreases |s|
  {
    if s != [] {
      var n := |s| - 1;
      OccupiedFull(s[..n]);
      assert forall j :: 0 <= j < n ==> s[..n][j] == s[j];
    }
  }

  /** A consistent registry stays consistent when a servo not yet in it is
      constructed; the servo is registered exactly when fewer than four servos
      are, and then the counter goes up by one. */
  lemma RegisterKeepsRegistryOk(r: Registry, x: VespaServo)
    requires RegistryOk(r) && x !in r.slots
    ensures RegistryOk(Register(r, x))
    ensures x in Register(r, x).slots <==> r.count < 4
    ensures Register(r, x).count == if r.count < 4 then r.count + 1 else r.count
    ensures forall j :: 0 <= j < QTY && r.slots[j] != null ==> Register(r, x).slots[j] == r.slots[j]
    ensures forall j :: 0 <= j < QTY && r.slots[j] == null && Register(r, x).slots[j] != x ==> Register(r, x).slots[j] == null
    ensures r.count < 4 ==> exists k :: 0 <= k < QTY && r.slots[k] == null && Register(r, x).slots[k] == x &&
                                     forall j :: 0 <= j < k ==> r.slots[j] != null
  {
    OccupiedFull(r.slots);
    if r.count == 0 {
      assert r.slots == EmptySlots();
    }
    if r.count < 4 {
      var k := FirstFree(r.slots).value;
      OccupiedFill(r.slots, k, x);
      assert Register(r, x).slots[k] == x;
    }
  }

  /** A consistent registry stays consistent when a servo is destroyed, and no
      longer refers to it. */
  lemma UnregisterKeepsRegistryOk(r: Registry, x: VespaServo)
    requires RegistryOk(r)
    ensures RegistryOk(Unregister(r, x))
    ensures x !in Unregister(r, x).slots
    ensures Unregister(r, x).count == if x in r.slots then r.count - 1 else r.count
    ensures forall j :: 0 <= j < QTY && r.slots[j] != x ==> Unregister(r, x).slots[j] == r.slots[j]
  {
    if x in r.slots {
      var k := IndexOf(r.slots, x).value;
      OccupiedClear(r.slots, k);
      var s := r.slots[k := null];
      forall j | 0 <= j < |s| ensures s[j] != x {
        if j > k {
          assert r.slots[k] != r.slots[j];
        }
      }
    }
  }

  /** Destroying a fifth servo, which never got a slot, as written: the counter
      drops to 3 while all four slots stay taken. */
  lemma AsWrittenCountDrifts(a: VespaServo, b: VespaServo, c: VespaServo, d: VespaServo, e: VespaServo)
    requires RegistryOk(Registry([a, b, c, d], 4)) && e !in [a, b, c, d]
    ensures UnregisterAsWritten(Registry([a, b, c, d], 4), e) == Registry([a, b, c, d], 3)
    ensures !RegistryOk(UnregisterAsWritten(Registry([a, b, c, d], 4), e))
    ensures Unregister(Registry([a, b, c, d], 4), e) == Registry([a, b, c, d], 4)
  {
    OccupiedFull([a, b, c, d]);
  }

  /** As written, a destructor on a registry whose counter already is 0 wraps
      the uint8_t counter to 255; a registration then changes nothing, and
      registration stays refused until 252 more destructors have run
      (`RegistersAgain`). */
  lemma AsWrittenCountWraps(x: VespaServo, y: VespaServo)
    ensures UnregisterAsWritten(Registry(EmptySlots(), 0), x).count == 255
    ensures Register(UnregisterAsWritten(Registry(EmptySlots(), 0), x), y).slots == EmptySlots()
    ensures Register(UnregisterAsWritten(Registry(EmptySlots(), 0), x), y) == UnregisterAsWritten(Registry(EmptySlots(), 0), x)
  {
  }

  /** `n` as-written destructors of the servo `y`. */
  function Drain(r: Registry, y: VespaServo, n: nat): Registry
    decreases n
  {
    if n == 0 then r else Drain(UnregisterAsWritten(r, y), y, n - 1)
  }

  /** Destructors of a servo that holds no slot only count the counter down,
      modulo 256. */
  lemma {:induction false} DrainSlotless(r: Registry, y: VespaServo, n: nat)
    requires y !in r.slots
    ensures Drain(r, y, n) == Registry(r.slots, ToUint8(r.count - n))
    decreases n
  {
    if n > 0 {
      DrainSlotless(UnregisterAsWritten(r, y), y, n - 1);
    }
  }

  /** After the wrap to 255, registration is refused while the counter is 4 or
      more; 252 destructors of slotless servos bring it to 3, and the next
      servo registers again. */
  lemma RegistersAgain(x: VespaServo, y: VespaServo, n: nat)
    requires n <= 252
    ensures var r := Drain(Registry(EmptySlots(), 255), y, n);
            (n < 252 ==> Register(r, x) == r) && (n == 252 ==> x in Register(r, x).slots)
  {
    DrainSlotless(Registry(EmptySlots(), 255), y, n);
    if n == 252 {
      var r := Registry(EmptySlots(), 3);
      assert Register(r, x).slots == [x, null, null, null];
    }
  }

  // ---------------------------------------------------------------------------
  // The registry and the servo as objects

  class ServoRegistry {
    var slots: array<VespaServo?>   // _servos
    var count: uint8                // _servo_count

    function State(): Registry
      reads this, slots
    {
      Registry(slots[..], count)
    }

    /** Static storage: no servo, all slots null. */
    constructor ()
      ensures slots.Length == QTY && State() == Registry(EmptySlots(), 0)
      ensures fresh(slots)
    {
      slots := new VespaServo?[QTY](_ => null);
      count := 0;
      new;
      assert slots[..] == EmptySlots();
    }

    /** The registration part of the servo constructor. */
    method Claim(x: VespaServo)
      requires slots.Length == QTY
      modifies this, slots
      ensures slots == old(slots)
      ensures State() == Register(old(State()), x)
    {
      if count == 0 {
        for i := 0 to QTY
          invariant slots == old(slots) && count == old(count)
          invariant forall j :: 0 <= j < i ==> slots[j] == null
        {
          slots[i] := null;
        }
        assert slots[..] == EmptySlots();
      }
      if count as nat >= QTY {
        return;
      }
      ghost var base := slots[..];
      var i := 0;
      while i < QTY
        invariant 0 <= i <= QTY
        invariant slots[..] == base && count == old(count)
        invariant forall j :: 0 <= j < i ==> base[j] != null
      {
        if slots[i] == null {
          slots[i] := x;
          count := count + 1;
          assert FirstFree(base) == Some(i);
          break;
        }
        i := i + 1;
      }
    }

    /** The removal part of the destructor, corrected: the counter goes down only
        when `x` was found. */
    method Release(x: VespaServo) returns (found: bool)
      requires slots.Length == QTY
      modifies this, slots
      ensures slots == old(slots)
      ensures found == (x in old(slots[..]))
      ensures State() == Unregister(old(State()), x)
    {
      found := false;
      var i := 0;
      while i < QTY
        invariant 0 <= i <= QTY
        invariant slots[..] == old(slots[..]) && count == old(count)
        invariant forall j :: 0 <= j < i ==> slots[j] != x
      {
        if slots[i] == x {
          slots[i] := null;
          found := true;
          assert IndexOf(old(slots[..]), x) == Some(i);
          break;
        }
        i := i + 1;
      }
      if found {
        count := ToUint8(count as int - 1);
      }
    }

    /** The removal part of the destructor as written: `_servo_count--` runs
        whether or not `x` was found. */
    method ReleaseAsWritten(x: VespaServo)
      requires slots.Length == QTY
      modifies this, slots
      ensures slots == old(slots)
      ensures State() == UnregisterAsWritten(old(State()), x)
    {
      var i := 0;
      while i < QTY
        invariant 0 <= i <= QTY
        invariant slots[..] == old(slots[..]) && count == old(count)
        invariant forall j :: 0 <= j < i ==> slots[j] != x
      {
        if slots[i] == x {
          slots[i] := null;
          assert IndexOf(old(slots[..]), x) == Some(i);
          break;
        }
        i := i + 1;
      }
      count := ToUint8(count as int - 1);
    }
  }

  /** The events of a successful whitelist check in `attach(pin, lo, hi)`:
      the pin becomes an output, gets an automatic channel and, when that
      succeeds, is written the 90 degree position. */
  function AttachEvents(pin: uint8, lo: uint16, hi: uint16, ok: bool): seq<Event>
  {
    if ok then
      [PinMode(pin, OUTPUT), LedcAttach(pin, FREQUENCY, RESOLUTION, true), LedcWrite(pin, Ticks(Pulse(90, lo, hi)))]
    else
      [PinMode(pin, OUTPUT), LedcAttach(pin, FREQUENCY, RESOLUTION, false)]
  }

  /** Making a pin an output and asking for a channel leaves exactly that pin
      holding an automatic channel when the request succeeds, none otherwise. */
  lemma {:induction false} ChannelFromAttach(t: seq<Event>, pin: uint8, ok: bool)
    requires AutoAttached(t) == {} && WritesAttached(t)
    ensures var u := t + [PinMode(pin, OUTPUT)] + [LedcAttach(pin, FREQUENCY, RESOLUTION, ok)];
            AutoAttached(u) == (if ok then {pin} else {}) && WritesAttached(u)
  {
    SnocAuto(t, PinMode(pin, OUTPUT));
    SnocAuto(t + [PinMode(pin, OUTPUT)], LedcAttach(pin, FREQUENCY, RESOLUTION, ok));
  }

  class VespaServo {
    var pin: uint8
    var minPulse: uint16    // [us]
    var maxPulse: uint16    // [us]
    var attached: bool
    var maxDuty: uint16
    var trace: seq<Event>

    /** The servo holds an automatic channel exactly when it is attached, and
        then on its own whitelisted pin, with a pulse range inside [500, 2500]
        at the low end and the top end; every duty it wrote went to an attached pin. */
    ghost predicate Valid()
      reads this
    {
      AutoAttached(trace) == (if attached then {pin} else {}) &&
      WritesAttached(trace) &&
      (attached ==> pin in PINS && PULSE_MIN <= minPulse && maxPulse <= PULSE_MAX && maxDuty == MAX_DUTY)
    }

    /** Construction registers the servo in `registry`; no pin yet. */
    constructor (registry: ServoRegistry)
      requires registry.slots.Length == QTY
      modifies registry, registry.slots
      ensures Valid() && !attached && pin == NO_PIN && trace == []
      ensures registry.slots == old(registry.slots)
      ensures registry.State() == Register(old(registry.State()), this)
    {
      attached := false;
      pin := NO_PIN;
      minPulse, maxPulse, maxDuty := 0, 0, 0;   // read only once attached
      trace := [];
      new;
      registry.Claim(this);
    }

    /** `attached()`. */
    function IsAttached(): bool
      reads this
    {
      attached
    }

    /** `attach(pin)`: the full pulse range 500..2500. */
    method Attach(newPin: uint8, ok: bool) returns (res: bool)
      requires Valid()
      modifies this
      ensures Valid()
      ensures old(attached) ==> res && unchanged(this)
      ensures !old(attached) && newPin !in PINS ==> !res && unchanged(this)
      ensures !old(attached) && newPin in PINS ==>
                res == ok && attached == ok && pin == newPin &&
                minPulse == PULSE_MIN && maxPulse == PULSE_MAX &&
                trace == old(trace) + AttachEvents(newPin, PULSE_MIN, PULSE_MAX, ok)
    {
      res := AttachWithRange(newPin, PULSE_MIN, PULSE_MAX, ok);
    }

    /** `attach(pin, min, max)`: an attached servo answers true and changes
        nothing; a pin off the whitelist is refused with no event; otherwise
        the range is narrowed to [500, 2500] at each end, the pin gets a
        channel (`ok`) and, if it did, the 90 degree position is written. */
    method AttachWithRange(newPin: uint8, lo: uint16, hi: uint16, ok: bool) returns (res: bool)
      requires Valid()
      modifies this
      ensures Valid()
      ensures old(attached) ==> res && unchanged(this)
      ensures !old(attached) && newPin !in PINS ==> !res && unchanged(this)
      ensures !old(attached) && newPin in PINS ==>
                res == ok && attached == ok && pin == newPin &&
                minPulse == (if lo < PULSE_MIN then PULSE_MIN else lo) &&
                maxPulse == (if hi > PULSE_MAX then PULSE_MAX else hi) &&
                maxDuty == MAX_DUTY &&
                trace == old(trace) + AttachEvents(newPin, minPulse, maxPulse, ok)
    {
      if IsAttached() {
        return true;
      }
      var valid := IsValidPin(newPin);
      if !valid {
        return false;
      }
      res := Configure(newPin, lo, hi, ok);
    }

    /** The second half of `attach(pin, min, max)`, once the pin is known to be
        on the whitelist: configure the pin, narrow and store the range, attach
        a channel and write the 90 degree position. */
    method Configure(newPin: uint8, lo: uint16, hi: uint16, ok: bool) returns (res: bool)
      requires Valid() && !attached && newPin in PINS
      modifies this
      ensures Valid()
      ensures res == ok && attached == ok && pin == newPin
      ensures minPulse == (if lo < PULSE_MIN then PULSE_MIN else lo)
      ensures maxPulse == (if hi > PULSE_MAX then PULSE_MAX else hi)
      ensures maxDuty == MAX_DUTY
      ensures trace == old(trace) + AttachEvents(newPin, minPulse, maxPulse, ok)
    {
      ghost var t0 := trace;
      pin := newPin;
      trace := trace + [PinMode(pin, OUTPUT)];
      minPulse := if lo < PULSE_MIN then PULSE_MIN else lo;
      maxPulse := if hi > PULSE_MAX then PULSE_MAX else hi;
      maxDuty := MAX_DUTY;
      trace := trace + [LedcAttach(pin, FREQUENCY, RESOLUTION, ok)];
      attached := ok;
      ChannelFromAttach(t0, newPin, ok);
      ghost var t1 := trace;
      assert t1 == t0 + [PinMode(newPin, OUTPUT), LedcAttach(newPin, FREQUENCY, RESOLUTION, ok)];
      Write(90);
      if ok {
        assert trace == t0 + [PinMode(newPin, OUTPUT), LedcAttach(newPin, FREQUENCY, RESOLUTION, true),
                              LedcWrite(newPin, Ticks(Pulse(90, minPulse, maxPulse)))];
      }
      res := attached;
    }

    /** `detach()`: an attached servo gives up its channel, its pin becomes an
        input and is forgotten; a detached servo does nothing. */
    method Detach()
      requires Valid()
      modifies this
      ensures Valid() && !attached
      ensures old(attached) ==>
                pin == NO_PIN && trace == old(trace) + [LedcDetach(old(pin)), PinMode(old(pin), INPUT)]
      ensures !old(attached) ==> unchanged(this)
      ensures minPulse == old(minPulse) && maxPulse == old(maxPulse) && maxDuty == old(maxDuty)
    {
      if IsAttached() {
        SnocAuto(trace, LedcDetach(pin));
        trace := trace + [LedcDetach(pin)];
        SnocAuto(trace, PinMode(pin, INPUT));
        trace := trace + [PinMode(pin, INPUT)];
        pin := NO_PIN;
        attached := false;
      }
    }

    /** `write(value)`: when attached, the duty of the commanded pulse width
        goes to the servo's pin; otherwise nothing happens. */
    method Write(value: uint16)
      requires Valid()
      modifies this
      ensures Valid()
      ensures pin == old(pin) && attached == old(attached)
      ensures minPulse == old(minPulse) && maxPulse == old(maxPulse) && maxDuty == old(maxDuty)
      ensures attached ==> trace == old(trace) + [LedcWrite(pin, Ticks(Pulse(value, minPulse, maxPulse)))]
      ensures !attached ==> trace == old(trace)
    {
      if !IsAttached() {
        return;
      }
      var v := value;
      if v < PULSE_MIN {
        v := ToUint16(Map(v, 0, 180, minPulse, maxPulse));
      }
      if v > maxPulse {
        v := maxPulse;
      }
      if v < minPulse {
        v := minPulse;
      }
      assert v == Pulse(value, minPulse, maxPulse);
      // max_duty / ((1e6 / frequency) / v), with exact division before the cast
      var ticks := (maxDuty * v * FREQUENCY) / 1_000_000;
      assert ticks == Ticks(v);
      SnocAuto(trace, LedcWrite(pin, ticks));
      trace := trace + [LedcWrite(pin, ticks)];
    }

    /** The destructor, corrected: detach, then leave the registry; the counter
        goes down only if the servo held a slot. */
    method Destroy(registry: ServoRegistry)
      requires Valid() && registry.slots.Length == QTY
      modifies this, registry, registry.slots
      ensures !attached
      ensures old(attached) ==> trace == old(trace) + [LedcDetach(old(pin)), PinMode(old(pin), INPUT)]
      ensures !old(attached) ==> trace == old(trace)
      ensures registry.slots == old(registry.slots)
      ensures registry.State() == Unregister(old(registry.State()), this)
    {
      Detach();
      var _ := registry.Release(this);
    }

    /** The destructor as written: the counter goes down unconditionally. */
    method DestroyAsWritten(registry: ServoRegistry)
      requires Valid() && registry.slots.Length == QTY
      modifies this, registry, registry.slots
      ensures !attached
      ensures old(attached) ==> trace == old(trace) + [LedcDetach(old(pin)), PinMode(old(pin), INPUT)]
      ensures !old(attached) ==> trace == old(trace)
      ensures registry.slots == old(registry.slots)
      ensures registry.State() == UnregisterAsWritten(old(registry.State()), this)
    {
      Detach();
      registry.ReleaseAsWritten(this);
    }
  }

  // ---------------------------------------------------------------------------
  // Scenarios

  /** Four servos fill the registry; a fifth is constructed but gets no slot,
      the counter stays 4, and the fifth can still attach a pin. */
  method FifthServo() returns (count: uint8, fifthRegistered: bool, fifthAttached: bool)
    ensures count == 4 && !fifthRegistered && fifthAttached
  {
    var registry, a, b, c, d := FourServos();
    var e := new VespaServo(registry);
    count := registry.count;
    fifthRegistered := e in registry.slots[..];
    fifthAttached := e.Attach(25, true);
  }

  /** Four servos registered one after another on a cleared registry take the
      slots in order. */
  lemma FillInOrder(a: VespaServo, b: VespaServo, c: VespaServo, d: VespaServo)
    ensures Register(Registry(EmptySlots(), 0), a) == Registry([a, null, null, null], 1)
    ensures Register(Registry([a, null, null, null], 1), b) == Registry([a, b, null, null], 2)
    ensures Register(Registry([a, b, null, null], 2), c) == Registry([a, b, c, null], 3)
    ensures Register(Registry([a, b, c, null], 3), d) == Registry([a, b, c, d], 4)
  {
    assert FirstFree(EmptySlots()) == Some(0);
    assert FirstFree([a, null, null, null]) == Some(1);
    assert FirstFree([a, b, null, null]) == Some(2);
    var s3: seq<VespaServo?> := [a, b, c, null];
    assert s3[0] != null && s3[1] != null && s3[2] != null && s3[3] == null;
    assert FirstFree(s3) == Some(3);
  }

  /** A fresh registry and four servos constructed on it, in slot order. */
  method FourServos() returns (registry: ServoRegistry, a: VespaServo, b: VespaServo, c: VespaServo, d: VespaServo)
    ensures fresh(registry) && fresh(registry.slots) && registry.slots.Length == QTY
    ensures registry.State() == Registry([a, b, c, d], 4)
    ensures RegistryOk(registry.State())
  {
    registry := new ServoRegistry();
    ghost var r0 := registry.State();
    a := new VespaServo(registry);
    ghost var r1 := registry.State();
    b := new VespaServo(registry);
    ghost var r2 := registry.State();
    c := new VespaServo(registry);
    ghost var r3 := registry.State();
    d := new VespaServo(registry);
    FillInOrder(a, b, c, d);
    assert r1 == Registry([a, null, null, null], 1);
    assert r2 == Registry([a, b, null, null], 2);
    assert r3 == Registry([a, b, c, null], 3);
    FullRegistryOk(a, b, c, d);
  }

  /** Four distinct servos in the four slots with the counter at 4 are a
      consistent registry. */
  lemma FullRegistryOk(a: VespaServo, b: VespaServo, c: VespaServo, d: VespaServo)
    requires a != b && a != c && a != d && b != c && b != d && c != d
    ensures RegistryOk(Registry([a, b, c, d], 4))
  {
    OccupiedFull([a, b, c, d]);
  }

  /** Destroying that fifth servo as written: the counter drifts to 3 while all
      four slots stay taken. */
  method DestroyFifthAsWritten() returns (count: uint8, taken: nat)
    ensures count == 3 && taken == 4
  {
    var registry, a, b, c, d := FourServos();
    var e := new VespaServo(registry);
    e.DestroyAsWritten(registry);
    assert registry.slots[..] == [a, b, c, d];
    OccupiedFull(registry.slots[..]);
    count, taken := registry.count, Occupied(registry.slots[..]);
  }

  /** Destroying that fifth servo, corrected: the counter stays 4. */
  method DestroyFifth() returns (count: uint8, taken: nat)
    ensures count == 4 && taken == 4
  {
    var registry, a, b, c, d := FourServos();
    var e := new VespaServo(registry);
    e.Destroy(registry);
    assert registry.slots[..] == [a, b, c, d];
    OccupiedFull(registry.slots[..]);
    count, taken := registry.count, Occupied(registry.slots[..]);
  }
}
