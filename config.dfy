/**
 * `LoadConfiguration`: reloads every runtime global from the EEPROM,
 * repairs an out-of-range beacon frequency and an illegal WSPR power level
 * (in the runtime and in the store), and asks the drivers for a retune
 * only when the frequency really changed.
 */
module Config {
  import opened CLib
  import opened Store
  import opened AddressMap
  import opened Globals

  const SafeFrequency: real := 28555000.0
  const SafePower := 13

  /** The range of beacon frequencies the reconciler keeps. */
  predicate FrequencyOutOfRange(f: real)
  {
    f < 100000.0 || f > 298765432.0
  }

  /** The reconciler's test for a power level WSPR does not allow, with C's `%`. */
  predicate PowerIllegal(p: int)
  {
    p < 0 || p > 60 || (Rem(p, 10) != 0 && Rem(p - 3, 10) != 0 && Rem(p - 7, 10) != 0)
  }

  predicate IntervalOutOfRange(v: int)
  {
    v < 2 || v > 59
  }

  /** The legal WSPR power levels: 0 to 60 dBm in the steps 0, 3 and 7 of each decade. */
  lemma PowerLegalSteps(p: int)
    ensures !PowerIllegal(p) <==> 0 <= p <= 60 && p % 10 in {0, 3, 7}
  {
    RemTenDivides(p);
    RemTenDivides(p - 3);
    RemTenDivides(p - 7);
  }

  /** The beacon frequency as read back, and the store after a repair. */
  function LoadFrequency(cells: Cells): (real, Cells)
  {
    var stored := ReadDouble(cells, BEACON_Frequency, SafeFrequency);
    if FrequencyOutOfRange(stored) then (SafeFrequency, cells[BEACON_Frequency := DoubleCell(SafeFrequency)])
    else (stored, cells)
  }

  /** The WSPR power as read back, and the store after a repair. */
  function LoadPower(cells: Cells): (int, Cells)
  {
    var stored := ReadByte(cells, BEACON_WSPRPower, SafePower);
    if PowerIllegal(stored) then (SafePower, cells[BEACON_WSPRPower := ByteCell(SafePower)])
    else (stored, cells)
  }

  /** The driver calls that follow a frequency change. */
  function Retune(oldFrequency: real, frequency: real): seq<Event>
  {
    if oldFrequency != frequency then [CalculateTones(frequency), SetCWCarrierTone(true)] else []
  }

  /** New runtime values, new store contents and the driver calls made, in order. */
  datatype Reconciled = Reconciled(rt: RuntimeConfig, cells: Cells, events: seq<Event>)

  /** What `LoadConfiguration` does to runtime globals `rt` and store `cells`. */
  function Reconcile(rt: RuntimeConfig, cells: Cells): (r: Reconciled)
    ensures !FrequencyOutOfRange(r.rt.frequency)
    ensures !PowerIllegal(r.rt.wsprPower)
    ensures |r.rt.call| == CallSize && r.rt.call[CallSize - 1] == 0
    ensures |r.rt.locator| == LocatorSize && r.rt.locator[LocatorSize - 1] == 0
  {
    var t1 := ReadByte(cells, HW_T1, 0);
    var locator := ReadText(cells, COMMON_Locator, LocatorSize, 0x2e)[LocatorSize - 1 := 0];
    var (frequency, cells1) := LoadFrequency(cells);
    var calibInterval := ReadByte(cells1, BEACON_CalibInterval, 5);
    var call := ReadText(cells1, BEACON_Call, CallSize, 0x2e)[CallSize - 1 := 0];
    var storedInterval := ReadByte(cells1, BEACON_Interval, 4);
    var (power, cells2) := LoadPower(cells1);
    Reconciled(
      RuntimeConfig(
        displayMode := ReadByte(cells, HW_DisplayMode, 1),
        warmUp := ReadByte(cells, HW_WarmUp, 0),
        gpsEcho := ReadByte(cells, GPS_Echo, 0),
        frequency := frequency,
        calibInterval := calibInterval,
        calibIntervalCounter := if calibInterval != rt.calibInterval then 2 else rt.calibIntervalCounter,
        call := call,
        locator := locator,
        wsprPower := power,
        interval := if storedInterval != rt.interval && IntervalOutOfRange(storedInterval) then 2 else storedInterval),
      cells2,
      [RfOutputT1(t1), SetupWspr(call, locator, power)] + Retune(rt.frequency, frequency))
  }

  /**
   * Fills a text buffer byte by byte from the store (default `'.'` for a
   * byte never written) and forces the last byte to the NUL terminator.
   */
  method LoadText(buf: array<byte>, cells: Cells, base: int)
    requires buf.Length > 0
    modifies buf
    ensures buf[..] == ReadText(cells, base, buf.Length, 0x2e)[buf.Length - 1 := 0]
  {
    for i := 0 to buf.Length
      invariant buf[..i] == ReadText(cells, base, buf.Length, 0x2e)[..i]
    {
      buf[i] := ReadByte(cells, base + i, 0x2e);
    }
    buf[buf.Length - 1] := 0;
  }

  /** `LoadConfiguration()` on the runtime globals `rt` and the EEPROM `ee`. */
  method LoadConfiguration(rt: Runtime, ee: Eeprom)
    requires rt.Valid()
    modifies rt, rt.call, rt.locator, ee
    ensures rt.Valid()
    ensures var r := Reconcile(old(rt.Config()), old(ee.cells));
      rt.Config() == r.rt && ee.cells == r.cells && rt.log == old(rt.log) + r.events
  {
    // Existing values
    var oldCalibInterval := rt.calibInterval;
    var oldFrequency := rt.frequency;
    var oldInterval := rt.interval;

    // Hardware
    var t1Hardware := ReadByte(ee.cells, HW_T1, 0);
    rt.log := rt.log + [RfOutputT1(t1Hardware)];
    rt.displayMode := ReadByte(ee.cells, HW_DisplayMode, 1);
    rt.warmUp := ReadByte(ee.cells, HW_WarmUp, 0);

    // GPS
    rt.gpsEcho := ReadByte(ee.cells, GPS_Echo, 0);

    // Common
    LoadText(rt.locator, ee.cells, COMMON_Locator);

    // Beacon
    LoadBeacon(rt, ee, oldCalibInterval, oldInterval);

    // WSPR
    LoadPowerLevel(rt, ee);
    var setup := SetupWspr(rt.call[..], rt.locator[..], rt.wsprPower);
    rt.log := rt.log + [setup];

    // Recalculate the PLL registers only if the frequency changed
    if oldFrequency != rt.frequency {
      rt.log := rt.log + [CalculateTones(rt.frequency), SetCWCarrierTone(true)];
    }
    ghost var r := Reconcile(old(rt.Config()), old(ee.cells));
    assert r.events == [RfOutputT1(t1Hardware), setup] + Retune(oldFrequency, rt.frequency);
    assert rt.log == old(rt.log) + r.events;
  }

  /**
   * The beacon section of `LoadConfiguration`: frequency (repaired and
   * persisted when out of range), calibration interval and counter, call
   * sign, and the TX interval (forced to 2 only when it changed).
   */
  method LoadBeacon(rt: Runtime, ee: Eeprom, oldCalibInterval: int, oldInterval: int)
    requires rt.Valid()
    modifies rt`frequency, rt`calibInterval, rt`calibIntervalCounter, rt`interval, rt.call, ee
    ensures var (f, cells1) := LoadFrequency(old(ee.cells));
      var calib := ReadByte(cells1, BEACON_CalibInterval, 5);
      var stored := ReadByte(cells1, BEACON_Interval, 4);
      && ee.cells == cells1
      && rt.frequency == f
      && rt.calibInterval == calib
      && rt.calibIntervalCounter == (if calib != oldCalibInterval then 2 else old(rt.calibIntervalCounter))
      && rt.call[..] == ReadText(cells1, BEACON_Call, CallSize, 0x2e)[CallSize - 1 := 0]
      && rt.interval == (if stored != oldInterval && IntervalOutOfRange(stored) then 2 else stored)
  {
    rt.frequency := ReadDouble(ee.cells, BEACON_Frequency, SafeFrequency);
    if FrequencyOutOfRange(rt.frequency) {
      rt.frequency := SafeFrequency;
      ee.WriteDouble(BEACON_Frequency, rt.frequency);
    }
    rt.calibInterval := ReadByte(ee.cells, BEACON_CalibInterval, 5);
    if rt.calibInterval != oldCalibInterval {
      rt.calibIntervalCounter := 2;
    }
    LoadText(rt.call, ee.cells, BEACON_Call);
    rt.interval := ReadByte(ee.cells, BEACON_Interval, 4);
    if rt.interval != oldInterval {
      if IntervalOutOfRange(rt.interval) {
        rt.interval := 2;
      }
    }
  }

  /** The WSPR section of `LoadConfiguration`: the power level, repaired and persisted when illegal. */
  method LoadPowerLevel(rt: Runtime, ee: Eeprom)
    modifies rt`wsprPower, ee
    ensures (rt.wsprPower, ee.cells) == LoadPower(old(ee.cells))
  {
    rt.wsprPower := ReadByte(ee.cells, BEACON_WSPRPower, SafePower);
    if PowerIllegal(rt.wsprPower) {
      rt.wsprPower := SafePower;
      ee.WriteByte(BEACON_WSPRPower, SafePower);
    }
  }

  // Properties of the reconciler

  /** A stored frequency outside [100 kHz, 298.765432 MHz] becomes 28.555 MHz in the runtime and in the store. */
  lemma ReconcileFrequency(rt: RuntimeConfig, cells: Cells)
    ensures var r := Reconcile(rt, cells);
      var stored := ReadDouble(cells, BEACON_Frequency, SafeFrequency);
      && (FrequencyOutOfRange(stored) ==>
            r.rt.frequency == SafeFrequency && ReadDouble(r.cells, BEACON_Frequency, 0.0) == SafeFrequency)
      && (!FrequencyOutOfRange(stored) ==>
            r.rt.frequency == stored && Agree(r.cells, cells, BEACON_Frequency))
  {
  }

  /** The calibration counter is forced to 2 exactly when the calibration interval changed. */
  lemma ReconcileCalibration(rt: RuntimeConfig, cells: Cells)
    ensures var r := Reconcile(rt, cells);
      && r.rt.calibInterval == ReadByte(cells, BEACON_CalibInterval, 5)
      && (r.rt.calibInterval != rt.calibInterval ==> r.rt.calibIntervalCounter == 2)
      && (r.rt.calibInterval == rt.calibInterval ==> r.rt.calibIntervalCounter == rt.calibIntervalCounter)
  {
  }

  /**
   * The TX interval is forced to 2 only when it changed and lies outside
   * [2, 59]; an unchanged value is kept even when out of range, and the
   * interval is never written back.
   */
  lemma ReconcileInterval(rt: RuntimeConfig, cells: Cells)
    ensures var r := Reconcile(rt, cells);
      var stored := ReadByte(cells, BEACON_Interval, 4);
      && (stored != rt.interval && IntervalOutOfRange(stored) ==> r.rt.interval == 2)
      && (stored == rt.interval || !IntervalOutOfRange(stored) ==> r.rt.interval == stored)
      && Agree(r.cells, cells, BEACON_Interval)
  {
  }

  /** An illegal stored power level becomes 13 dBm in the runtime and in the store; a legal one is kept. */
  lemma ReconcilePower(rt: RuntimeConfig, cells: Cells)
    ensures var r := Reconcile(rt, cells);
      var stored := ReadByte(cells, BEACON_WSPRPower, SafePower);
      && (PowerIllegal(stored) ==>
            r.rt.wsprPower == SafePower && ReadByte(r.cells, BEACON_WSPRPower, 0) == SafePower)
      && (!PowerIllegal(stored) ==>
            r.rt.wsprPower == stored && Agree(r.cells, cells, BEACON_WSPRPower))
  {
  }

  /** Call sign and locator are copied byte by byte (default `'.'`), with the last byte forced to NUL. */
  lemma ReconcileText(rt: RuntimeConfig, cells: Cells)
    ensures var r := Reconcile(rt, cells);
      && (forall i :: 0 <= i < CallSize - 1 ==> r.rt.call[i] == ReadByte(cells, BEACON_Call + i, 0x2e))
      && (forall i :: 0 <= i < LocatorSize - 1 ==> r.rt.locator[i] == ReadByte(cells, COMMON_Locator + i, 0x2e))
  {
  }

  /** Display mode, warm-up and GPS echo are taken from the store as they are, with defaults 1, 0 and 0. */
  lemma ReconcilePlainFields(rt: RuntimeConfig, cells: Cells)
    ensures var r := Reconcile(rt, cells);
      && r.rt.displayMode == ReadByte(cells, HW_DisplayMode, 1)
      && r.rt.warmUp == ReadByte(cells, HW_WarmUp, 0)
      && r.rt.gpsEcho == ReadByte(cells, GPS_Echo, 0)
  {
  }

  /**
   * The modulation set-up is called once, with the final call, locator and
   * power; tones are recalculated and the carrier recentred exactly when
   * the frequency differs from the one before the call.
   */
  lemma ReconcileEvents(rt: RuntimeConfig, cells: Cells)
    ensures var r := Reconcile(rt, cells);
      && r.events[..2] == [RfOutputT1(ReadByte(cells, HW_T1, 0)), SetupWspr(r.rt.call, r.rt.locator, r.rt.wsprPower)]
      && (forall i :: 0 <= i < |r.events| && r.events[i].SetupWspr? ==> i == 1)
      && (CalculateTones(r.rt.frequency) in r.events <==> r.rt.frequency != rt.frequency)
      && (SetCWCarrierTone(true) in r.events <==> r.rt.frequency != rt.frequency)
  {
  }

  /** The only cells the reconciler writes are the two it repairs. */
  lemma ReconcileWritesOnlyRepairs(rt: RuntimeConfig, cells: Cells)
    ensures SameOutside(Reconcile(rt, cells).cells, cells, {BEACON_Frequency, BEACON_WSPRPower})
  {
  }

  /** After reconciling, the store holds a frequency and a power level the reconciler itself accepts. */
  lemma ReconcileLeavesStoreValid(rt: RuntimeConfig, cells: Cells)
    ensures var r := Reconcile(rt, cells);
      && !FrequencyOutOfRange(ReadDouble(r.cells, BEACON_Frequency, SafeFrequency))
      && !PowerIllegal(ReadByte(r.cells, BEACON_WSPRPower, SafePower))
  {
  }

  /**
   * Reconciling twice with no store change in between changes nothing the
   * second time: same runtime values, same store, no retune and no counter
   * reset, because both repairs were persisted.
   */
  lemma ReconcileIdempotent(rt: RuntimeConfig, cells: Cells)
    ensures var r := Reconcile(rt, cells);
      var again := Reconcile(r.rt, r.cells);
      again.rt == r.rt && again.cells == r.cells && again.events == r.events[..2]
  {
  }

  /** The power-on calibration interval -1 is no byte, so the first load always forces a recalibration. */
  lemma FirstLoadForcesRecalibration(interval: int, cells: Cells)
    ensures Reconcile(Initial(interval), cells).rt.calibIntervalCounter == 2
  {
  }

  /** The power-on frequency 0.0 is below the accepted range, so the first load always retunes. */
  lemma FirstLoadRetunes(interval: int, cells: Cells)
    ensures var r := Reconcile(Initial(interval), cells);
      r.events[2..] == [CalculateTones(r.rt.frequency), SetCWCarrierTone(true)]
  {
  }

  /** A store holding 50 Hz is repaired to 28.555 MHz, and a second pass leaves everything as it is. */
  lemma LowFrequencyRepaired(rt: RuntimeConfig, cells: Cells)
    requires ReadDouble(cells, BEACON_Frequency, SafeFrequency) == 50.0
    ensures var r := Reconcile(rt, cells);
      && r.rt.frequency == SafeFrequency
      && ReadDouble(r.cells, BEACON_Frequency, 0.0) == SafeFrequency
      && Reconcile(r.rt, r.cells).rt == r.rt
  {
    ReconcileIdempotent(rt, cells);
  }
}
