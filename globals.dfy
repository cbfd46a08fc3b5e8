/**
 * The firmware's runtime globals: the live beacon parameters that the
 * reconciler loads from the EEPROM, and a log of the calls made to the
 * oscillator and modulation drivers, which are not part of this model.
 */
module Globals {
  import opened CLib

  /** Capacity of `call` and `locator`, terminator included. */
  const CallSize := 16
  const LocatorSize := 9

  /** A call into a driver: `si5351a.rfOutputT1`, `Modes.setupWSPR`, `Modes.calculateTones`, `Modes.setCWCarrierTone`. */
  datatype Event =
    | RfOutputT1(t1: int)
    | SetupWspr(call: seq<byte>, locator: seq<byte>, power: int)
    | CalculateTones(frequency: real)
    | SetCWCarrierTone(recenter: bool)

  /** The values of the runtime globals. */
  datatype RuntimeConfig = RuntimeConfig(
    displayMode: int,
    warmUp: int,
    gpsEcho: int,
    frequency: real,
    calibInterval: int,
    calibIntervalCounter: int,
    call: seq<byte>,
    locator: seq<byte>,
    wsprPower: int,
    interval: int)

  /** `n` spaces followed by the terminating NUL. */
  function Blank(n: nat): (s: seq<byte>)
    ensures |s| == n + 1 && s[n] == 0
    ensures forall i :: 0 <= i < n ==> s[i] == ' ' as int
  {
    seq<byte>(n + 1, i requires 0 <= i <= n => if i < n then ' ' as int else 0)
  }

  /**
   * The globals at power-on. `interval` (the TX interval global) is defined
   * outside the files modelled here, so its initial value is a parameter.
   * `calibIntervalCounter` has no initialiser and is therefore zero.
   */
  function Initial(interval: int): RuntimeConfig
  {
    RuntimeConfig(
      displayMode := 0,
      warmUp := 0,
      gpsEcho := 0,
      frequency := 0.0,
      calibInterval := -1,
      calibIntervalCounter := 0,
      call := Blank(CallSize - 1),
      locator := Blank(LocatorSize - 1),
      wsprPower := 13,
      interval := interval)
  }

  lemma InitialValues(interval: int)
    ensures var rt := Initial(interval);
      && rt.displayMode == 0 && rt.warmUp == 0 && rt.gpsEcho == 0
      && rt.frequency == 0.0 && rt.calibInterval == -1 && rt.wsprPower == 13
      && |rt.call| == CallSize && rt.call[CallSize - 1] == 0
      && (forall i :: 0 <= i < CallSize - 1 ==> rt.call[i] == ' ' as int)
      && |rt.locator| == LocatorSize && rt.locator[LocatorSize - 1] == 0
      && (forall i :: 0 <= i < LocatorSize - 1 ==> rt.locator[i] == ' ' as int)
  {
  }

  class Runtime {
    var displayMode: int
    var warmUp: int
    var gpsEcho: int
    var frequency: real
    var calibInterval: int
    var calibIntervalCounter: int
    const call: array<byte>
    const locator: array<byte>
    var wsprPower: int
    var interval: int

    /** Every driver call made so far, oldest first. */
    ghost var log: seq<Event>

    ghost predicate Valid()
    {
      call.Length == CallSize && locator.Length == LocatorSize && call != locator
    }

    function Config(): RuntimeConfig
      reads this, call, locator
    {
      RuntimeConfig(displayMode, warmUp, gpsEcho, frequency, calibInterval,
                    calibIntervalCounter, call[..], locator[..], wsprPower, interval)
    }

    constructor (interval: int)
      ensures Valid() && fresh(call) && fresh(locator)
      ensures Config() == Initial(interval) && log == []
    {
      displayMode, warmUp, gpsEcho := 0, 0, 0;
      frequency := 0.0;
      calibInterval, calibIntervalCounter := -1, 0;
      call := new byte[CallSize](i => if i < CallSize - 1 then ' ' as int else 0);
      locator := new byte[LocatorSize](i => if i < LocatorSize - 1 then ' ' as int else 0);
      wsprPower := 13;
      this.interval := interval;
      log := [];
    }
  }
}
