/** The battery monitor of the Vespa board (class VespaBattery).

    The battery voltage reaches the ADC on pin 34 through a divider of ratio
    5.702. For a LiPo battery the remaining capacity is looked up in a discharge
    table with one row for 2S packs (below 9 V) and one for 3S packs, in steps of
    5 %, with linear interpolation inside a step; at or below 15 % the critical
    handler is called. A battery of undefined type always reads 100 %. */
module Battery {
  import opened Hal

  const PIN: uint8 := 34
  const VOLTAGE_CONVERSION: nat := 5702   // Vin = Vout * (R1 + R2) / R2, in thousandths
  const ADC_ATTEN_DB_11: nat := 3         // the ESP-IDF attenuation for a 150..3100 mV input
  const BATTERY_UNDEFINED: uint8 := 0
  const BATTERY_LIPO: uint8 := 1
  const CRITICAL: nat := 15               // [%]
  const LOOKUP_SIZE: nat := 21
  const THREE_CELLS: nat := 9000          // [mV], from here on the 3S row is used

  /** The discharge table [mV], from 100 % down to 0 % in steps of 5 %. */
  const LOOKUP: seq<seq<uint32>> :=
    [[ 8400,  8300,  8220,  8160,  8050,  7970,  7910,  7830,  7750,  7710,  7670,
       7630,  7590,  7570,  7530,  7490,  7450,  7410,  7370,  7220,  6550],
     [12600, 12450, 12330, 12250, 12070, 11950, 11860, 11740, 11620, 11560, 11510,
      11450, 11390, 11360, 11300, 11240, 11180, 11120, 11060, 10830,  9820]]

  /** Each entry is above the next one. */
  ghost predicate StepsDown(row: seq<int>)
  {
    forall i :: 0 <= i < |row| - 1 ==> row[i] > row[i + 1]
  }

  /** The table has the shape of a discharge curve: two rows of 21 decreasing
      entries, the whole 2S row below 9 V and the whole 3S row from 9 V. */
  lemma TableShape()
    ensures |LOOKUP| == 2
    ensures Discharge(LOOKUP[0]) && Discharge(LOOKUP[1])
    ensures LOOKUP[0][0] < THREE_CELLS <= LOOKUP[1][LOOKUP_SIZE - 1]
  {
  }

  /** Strictly decreasing from one entry to the next means decreasing overall. */
  lemma {:induction false} StepsDownOrdered(row: seq<int>, i: nat, j: nat)
    requires StepsDown(row) && i <= j < |row|
    ensures row[i] >= row[j]
    ensures i < j ==> row[i] > row[j]
    decreases j - i
  {
    if i < j {
      StepsDownOrdered(row, i + 1, j);
    }
  }

  // ---------------------------------------------------------------------------
  // Voltage and table search

  /** `readVoltage()`: the ADC reading in mV times 5702, in uint32_t, over 1000. */
  function Voltage(raw: uint32): (v: uint32)
    ensures raw * VOLTAGE_CONVERSION < 0x1_0000_0000 ==> v * 1000 <= raw * VOLTAGE_CONVERSION < (v + 1) * 1000
  {
    ToUint32(raw * VOLTAGE_CONVERSION) / 1000
  }

  /** Any reading the 11 dB ADC range can give (up to 3.1 V) is scaled without overflow. */
  lemma VoltageOfAdcRange(raw: uint32)
    requires raw <= 3100
    ensures Voltage(raw) == raw * VOLTAGE_CONVERSION / 1000
    ensures Voltage(raw) <= 17676
  {
  }

  /** The table row for a voltage: 0 (2S) below 9 V, 1 (3S) from 9 V. */
  function Cells(v: uint32): (cells: nat)
    ensures cells < 2
    ensures cells == 1 <==> v >= THREE_CELLS
  {
    if v < THREE_CELLS then 0 else 1
  }

  /** The length of the leading run of entries at or above `v`. */
  function Leading(row: seq<uint32>, v: int): (n: nat)
    ensures n <= |row|
    ensures forall j :: 0 <= j < n ==> row[j] >= v
    ensures n < |row| ==> row[n] < v
    decreases |row|
  {
    if row == [] || row[0] < v then 0 else 1 + Leading(row[1..], v)
  }

  /** The index the search settles on: the last entry of the leading run (or 0). */
  function LastAtLeast(row: seq<uint32>, v: int): (index: nat)
    ensures row != [] ==> index < |row|
  {
    var n := Leading(row, v);
    if n == 0 then 0 else n - 1
  }

  /** A lower voltage has a leading run at least as long. */
  lemma LeadingAntitone(row: seq<uint32>, v: int, w: int)
    requires v <= w
    ensures Leading(row, w) <= Leading(row, v)
  {
  }

  /** In a decreasing row, a voltage between entries k and k + 1 (inclusive at
      k) has a run of k + 1 entries. */
  lemma LeadingBetween(row: seq<uint32>, k: nat, v: int)
    requires StepsDown(row) && k < |row|
    requires row[k] >= v && (k + 1 < |row| ==> row[k + 1] < v)
    ensures Leading(row, v) == k + 1
  {
    var n := Leading(row, v);
    if n < k + 1 {
      StepsDownOrdered(row, n, k);
    }
  }

  /** The table search of `readCapacity`: walk the row while entries are at or
      above `v`, keeping the last such index, and stop at the first one below. */
  method SearchIndex(row: seq<uint32>, v: uint32) returns (index: nat)
    ensures index == LastAtLeast(row, v)
  {
    index := 0;
    var i := 0;
    while i < |row|
      invariant 0 <= i <= |row|
      invariant forall j :: 0 <= j < i ==> row[j] >= v
      invariant index == if i == 0 then 0 else i - 1
    {
      if row[i] >= v {
        index := i;
      } else {
        break;
      }
      i := i + 1;
    }
  }

  // ---------------------------------------------------------------------------
  // Capacity

  /** The correction inside a 5 % step, `map(diff2, 0, diff1, 0, 5)`, is 0..4
      when the reading lies above the step's lower entry. */
  lemma CorrectionBelowStep(diff2: int, diff1: int)
    requires 0 <= diff2 < diff1
    ensures 0 <= Map(diff2, 0, diff1, 0, 5) <= 4
  {
    var q := TruncDiv(diff2 * 5, diff1);
    if q >= 5 {
      MulLeft(5, q, diff1);
    }
  }

  /** A row of the discharge table: 21 entries, each above the next. */
  ghost predicate Discharge(row: seq<uint32>)
  {
    |row| == LOOKUP_SIZE && StepsDown(row)
  }

  /** The reading, clamped to the row's top entry. */
  function Clamp(row: seq<uint32>, v: uint32): (c: uint32)
    requires row != []
    ensures c <= row[0] && (c == v || c == row[0])
  {
    if v > row[0] then row[0] else v
  }

  /** The step of the row a (clamped) reading falls in: step i covers the
      readings from entry i down to, but not including, entry i + 1. */
  function StepOf(row: seq<uint32>, v: uint32): (i: nat)
    requires row != []
    ensures i < |row|
  {
    LastAtLeast(row, Clamp(row, v))
  }

  /** The capacity `readCapacity()` computes from one row of the table for the
      scaled reading `v`: 5 % per full step, less the interpolated correction
      inside the step. */
  function CapacityIn(row: seq<uint32>, v: uint32): (pct: nat)
    requires |row| == LOOKUP_SIZE
  {
    var c := Clamp(row, v);
    var index := StepOf(row, v);
    var base := 100 - index * 5;
    if index < LOOKUP_SIZE - 1 then
      var diff1 := row[index] - row[index + 1];
      var diff2 := row[index] - c;
      CorrectionBelowStep(diff2, diff1);
      base - Map(diff2, 0, diff1, 0, 5)
    else
      base
  }

  /** The capacity lies within the percentage band of its step. */
  lemma StepBounds(row: seq<uint32>, v: uint32)
    requires |row| == LOOKUP_SIZE
    ensures 96 - 5 * StepOf(row, v) <= CapacityIn(row, v) <= 100 - 5 * StepOf(row, v)
    ensures StepOf(row, v) == LOOKUP_SIZE - 1 ==> CapacityIn(row, v) == 0
  {
    var c, i := Clamp(row, v), StepOf(row, v);
    if i < LOOKUP_SIZE - 1 {
      CorrectionBelowStep(row[i] - c, row[i] - row[i + 1]);
    }
  }

  /** A higher reading never falls in a later step. */
  lemma StepAntitone(row: seq<uint32>, v: uint32, w: uint32)
    requires row != [] && v <= w
    ensures StepOf(row, w) <= StepOf(row, v)
  {
    LeadingAntitone(row, Clamp(row, v), Clamp(row, w));
  }

  /** In a decreasing row, a reading between entries i (inclusive) and i + 1
      lies in step i. */
  lemma StepBetween(row: seq<uint32>, v: uint32, i: nat)
    requires Discharge(row) && i < LOOKUP_SIZE
    requires row[i] >= v && (i < LOOKUP_SIZE - 1 ==> row[i + 1] < v)
    ensures StepOf(row, v) == i
  {
    StepsDownOrdered(row, 0, i);
    LeadingBetween(row, i, v);
  }

  /** Inside step i the capacity is 100 - 5 i less the interpolated share of
      the 5 % the reading lies below entry i. */
  lemma CapacityInStep(row: seq<uint32>, v: uint32, i: nat)
    requires Discharge(row) && i < LOOKUP_SIZE - 1
    requires row[i] >= v > row[i + 1]
    ensures CapacityIn(row, v) == 100 - 5 * i - Map(row[i] - v, 0, row[i] - row[i + 1], 0, 5)
  {
    StepsDownOrdered(row, 0, i);
    assert Clamp(row, v) == v;
    StepBetween(row, v, i);
  }

  /** Every entry of a row reads exactly its own percentage. */
  lemma CapacityAtEntry(row: seq<uint32>, i: nat)
    requires Discharge(row) && i < LOOKUP_SIZE
    ensures CapacityIn(row, row[i]) == 100 - 5 * i
  {
    StepsDownOrdered(row, 0, i);
    assert Clamp(row, row[i]) == row[i];
    StepBetween(row, row[i], i);
    StepBounds(row, row[i]);
  }

  /** At or above the top entry the battery is full; at or below the last one
      it is empty. */
  lemma CapacityEnds(row: seq<uint32>, v: uint32)
    requires Discharge(row)
    ensures v >= row[0] ==> CapacityIn(row, v) == 100
    ensures v <= row[LOOKUP_SIZE - 1] ==> CapacityIn(row, v) == 0
  {
    if v >= row[0] {
      StepBetween(row, row[0], 0);
    }
    if v <= row[LOOKUP_SIZE - 1] {
      StepBetween(row, v, LOOKUP_SIZE - 1);
      StepBounds(row, v);
    }
  }

  /** A reading strictly inside step i reads more than the step below and at
      most the step's own percentage. */
  lemma CapacityInsideStep(row: seq<uint32>, v: uint32, i: nat)
    requires Discharge(row) && i < LOOKUP_SIZE - 1
    requires row[i] >= v > row[i + 1]
    ensures 100 - 5 * (i + 1) < CapacityIn(row, v) <= 100 - 5 * i
  {
    CapacityInStep(row, v, i);
    CorrectionBelowStep(row[i] - v, row[i] - row[i + 1]);
  }

  /** A higher voltage never reads a lower capacity. */
  lemma CapacityMonotone(row: seq<uint32>, v: uint32, w: uint32)
    requires |row| == LOOKUP_SIZE && v <= w
    ensures CapacityIn(row, v) <= CapacityIn(row, w)
  {
    StepAntitone(row, v, w);
    var iv, iw := StepOf(row, v), StepOf(row, w);
    if iv == iw {
      if iv < LOOKUP_SIZE - 1 {
        var cv, cw := Clamp(row, v), Clamp(row, w);
        MapMonotone(row[iw] - cw, row[iv] - cv, 0, row[iv] - row[iv + 1], 0, 5);
      }
    } else {
      StepBounds(row, v);
      StepBounds(row, w);
    }
  }

  /** `readCapacity()` of a LiPo battery whose scaled reading is `v`, on the row
      of its pack size. */
  function CapacityOf(v: uint32): (pct: nat)
    ensures pct <= 100
    ensures v >= LOOKUP[Cells(v)][0] ==> pct == 100
    ensures v <= LOOKUP[Cells(v)][LOOKUP_SIZE - 1] ==> pct == 0
  {
    TableShape();
    StepBounds(LOOKUP[Cells(v)], v);
    CapacityEnds(LOOKUP[Cells(v)], v);
    CapacityIn(LOOKUP[Cells(v)], v)
  }

  /** The 15 % entry of the 2S row reads 15 %. */
  lemma CriticalEntry2S()
    ensures CapacityOf(7410) == 15
  {
    TableShape();
    CapacityAtEntry(LOOKUP[0], 17);
  }

  /** One millivolt above the 15 % entry of the 2S row reads 16 %. */
  lemma AboveCritical2S()
    ensures CapacityOf(7411) == 16
  {
    TableShape();
    CapacityInStep(LOOKUP[0], 7411, 16);
    assert TruncDiv(195, 40) == 4;
  }

  /** The 15 % entry of the 3S row reads 15 %. */
  lemma CriticalEntry3S()
    ensures CapacityOf(11120) == 15
  {
    TableShape();
    CapacityAtEntry(LOOKUP[1], 17);
  }

  /** One millivolt above the 15 % entry of the 3S row reads 16 %. */
  lemma AboveCritical3S()
    ensures CapacityOf(11121) == 16
  {
    TableShape();
    CapacityInStep(LOOKUP[1], 11121, 16);
    assert TruncDiv(295, 60) == 4;
  }

  /** A LiPo reading is critical (15 % or less) exactly at or below 7.41 V for a
      2S pack and at or below 11.12 V for a 3S pack. */
  lemma CriticalThreshold(v: uint32)
    ensures v < THREE_CELLS ==> (CapacityOf(v) <= CRITICAL <==> v <= 7410)
    ensures v >= THREE_CELLS ==> (CapacityOf(v) <= CRITICAL <==> v <= 11120)
  {
    CriticalEntry2S();
    AboveCritical2S();
    CriticalEntry3S();
    AboveCritical3S();
    if v < THREE_CELLS {
      if v <= 7410 {
        CapacityMonotone(LOOKUP[0], v, 7410);
      } else {
        CapacityMonotone(LOOKUP[0], 7411, v);
      }
    } else {
      if v <= 11120 {
        CapacityMonotone(LOOKUP[1], v, 11120);
      } else {
        CapacityMonotone(LOOKUP[1], 11121, v);
      }
    }
  }

  /** 7.30 V on a 2S pack lies 70 mV into the 150 mV step below 10 % and reads
      8 %. */
  lemma CapacityExample()
    ensures CapacityOf(7300) == 8
  {
    TableShape();
    CapacityInStep(LOOKUP[0], 7300, 18);
    assert TruncDiv(350, 150) == 2;
  }

  /** 7.406 V on a 2S pack lies 4 mV into the 40 mV step below 15 % and still
      reads 15 %. */
  lemma CapacityJustBelowCritical()
    ensures CapacityOf(7406) == 15
  {
    TableShape();
    CapacityInStep(LOOKUP[0], 7406, 17);
    assert TruncDiv(20, 40) == 0;
  }

  /** The capacity computation of `readCapacity()` as the source writes it:
      clamp, search the row with the loop, interpolate inside the step. */
  method LookupCapacity(row: seq<uint32>, v: uint32) returns (pct: uint8)
    requires |row| == LOOKUP_SIZE
    ensures pct == CapacityIn(row, v)
  {
    var voltage := v;
    if voltage > row[0] {
      voltage := row[0];
    }
    var index := SearchIndex(row, voltage);
    var percentage := 100 - index * 5;
    if index < LOOKUP_SIZE - 1 {
      var diff1 := row[index] - row[index + 1];
      var diff2 := row[index] - voltage;
      CorrectionBelowStep(diff2, diff1);
      var correction := Map(diff2, 0, diff1, 0, 5);
      percentage := percentage - correction;
    }
    return percentage;
  }

  /** The LiPo branch of `readCapacity()` once the voltage is read: pick the
      row by pack size, then look the capacity up in it. */
  method LipoCapacity(voltage: uint32) returns (pct: uint8)
    ensures pct == CapacityOf(voltage)
  {
    var cells := if voltage < THREE_CELLS then 0 else 1;
    assert |LOOKUP[cells]| == LOOKUP_SIZE;
    pct := LookupCapacity(LOOKUP[cells], voltage);
  }

  // ---------------------------------------------------------------------------
  // The driver

  class VespaBattery {
    var batteryType: uint8
    var hasCriticalHandler: bool   // handler_critical != nullptr
    var trace: seq<Event>

    ghost predicate Valid()
      reads this
    {
      batteryType <= BATTERY_LIPO
    }

    /** Pin 34 as an input with 11 dB attenuation; type undefined, no handler. */
    constructor ()
      ensures Valid()
      ensures batteryType == BATTERY_UNDEFINED && !hasCriticalHandler
      ensures trace == [PinMode(PIN, INPUT), AnalogSetPinAttenuation(PIN, ADC_ATTEN_DB_11)]
    {
      batteryType := BATTERY_UNDEFINED;
      hasCriticalHandler := false;
      trace := [PinMode(PIN, INPUT), AnalogSetPinAttenuation(PIN, ADC_ATTEN_DB_11)];
    }

    /** `readVoltage()`, where `raw` is what analogReadMilliVolts returns. */
    method ReadVoltage(raw: uint32) returns (v: uint32)
      modifies this
      ensures v == Voltage(raw)
      ensures batteryType == old(batteryType) && hasCriticalHandler == old(hasCriticalHandler)
      ensures trace == old(trace) + [AnalogReadMilliVolts(PIN, raw)]
    {
      trace := trace + [AnalogReadMilliVolts(PIN, raw)];
      v := ToUint32(raw * VOLTAGE_CONVERSION);
      v := v / 1000;
    }

    /** `readCapacity()`: an undefined battery reads 100 % without touching the
        ADC; a LiPo reads the table capacity of its voltage, and a reading of
        15 % or less calls the critical handler, when one is set, with it. */
    method ReadCapacity(raw: uint32) returns (pct: uint8)
      requires Valid()
      modifies this
      ensures Valid()
      ensures batteryType == old(batteryType) && hasCriticalHandler == old(hasCriticalHandler)
      ensures batteryType != BATTERY_LIPO ==> pct == 100 && trace == old(trace)
      ensures batteryType == BATTERY_LIPO ==> pct == CapacityOf(Voltage(raw))
      ensures batteryType == BATTERY_LIPO && pct as nat <= CRITICAL && hasCriticalHandler ==>
                trace == old(trace) + [AnalogReadMilliVolts(PIN, raw), HandlerCritical(pct)]
      ensures batteryType == BATTERY_LIPO && !(pct as nat <= CRITICAL && hasCriticalHandler) ==>
                trace == old(trace) + [AnalogReadMilliVolts(PIN, raw)]
    {
      if batteryType == BATTERY_LIPO {
        var voltage := ReadVoltage(raw);
        var percentage := LipoCapacity(voltage);
        if percentage <= CRITICAL {
          if hasCriticalHandler {
            trace := trace + [HandlerCritical(percentage)];
          }
        }
        return percentage;
      }
      return 100;
    }

    /** `setBatteryType(type)`: only UNDEFINED (0) and LIPO (1) are accepted. */
    method SetBatteryType(t: uint8) returns (ok: bool)
      requires Valid()
      modifies this
      ensures Valid()
      ensures ok <==> t <= BATTERY_LIPO
      ensures batteryType == if ok then t else old(batteryType)
      ensures hasCriticalHandler == old(hasCriticalHandler) && trace == old(trace)
    {
      if t >= BATTERY_UNDEFINED && t <= BATTERY_LIPO {
        batteryType := t;
        return true;
      }
      return false;
    }
  }

  // ---------------------------------------------------------------------------
  // Scenario

  /** A 2S LiPo whose ADC reads 1299 mV (7.406 V at the pack) is critical: the
      handler is called with 15 %. Before its type is set the same battery reads
      100 % and calls nothing. */
  method CriticalLipo() returns (before: uint8, after: uint8, events: seq<Event>)
    ensures before == 100 && after == 15
    ensures events == [AnalogReadMilliVolts(PIN, 1299), HandlerCritical(15)]
  {
    var battery := new VespaBattery();
    battery.hasCriticalHandler := true;
    before := battery.ReadCapacity(1299);
    var _ := battery.SetBatteryType(BATTERY_LIPO);
    var start := |battery.trace|;
    assert Voltage(1299) == 7406;
    CapacityJustBelowCritical();
    after := battery.ReadCapacity(1299);
    events := battery.trace[start..];
  }
}
