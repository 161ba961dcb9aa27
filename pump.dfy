/**
 * The syringe pump's own bookkeeping around the vendor SDK: the volume and flow clamps of
 * loading and dispensing, the stop flag, and the three bounded wait loops that poll the
 * device every half second. SDK readings are inputs (a fill level per poll, a calibration
 * answer per poll); SDK commands are recorded in order; the sleeps are the half-second
 * steps of the timer.
 */
module PumpDevice {
  import opened Wrappers

  /** An SDK command, with its arguments. */
  datatype Command = Aspirate(volume: real, flow: real) | Dispense(volume: real, flow: real) | StopPumping | Calibrate

  /**
   * What the device and the other threads do during a wait: the fill level read when the wait
   * starts, the fill level read at each poll, and the poll before whose check `stop_pump`
   * sets the stop flag from another thread, if it does.
   */
  datatype Sensor = Sensor(fill0: real, fill: nat -> real, stopAt: Option<nat>)

  function Abs(x: real): real
  {
    if x < 0.0 then -x else x
  }

  function Max(a: real, b: real): real
  {
    if a >= b then a else b
  }

  /** Python's truthiness of an optional number: None and 0 are false. */
  predicate Truthy(x: Option<real>)
  {
    x.Some? && x.value != 0.0
  }

  /** Whether the stop flag is seen set at the check before poll `k`. */
  predicate StopSeen(flag0: bool, stopAt: Option<nat>, k: nat)
  {
    flag0 || (stopAt.Some? && stopAt.value <= k)
  }

  /** A bound on the number of half-second polls a time limit allows. */
  function PollBound(limit: real): int
  {
    if limit < 0.0 then 0 else (2.0 * limit).Floor + 1
  }

  /**
   * The wait loops from poll `k` on, with the timer at `k`/2 seconds: a poll runs while nothing
   * is done yet, the timer has not passed `limit` and the stop flag is not seen. The result is
   * whether a poll found `done`, and how many polls ran in all.
   */
  function Poll(done: nat -> bool, limit: real, flag0: bool, stopAt: Option<nat>, k: nat): (bool, nat)
    decreases PollBound(limit) - k
  {
    if !(k as real / 2.0 <= limit) || StopSeen(flag0, stopAt, k) then (false, k)
    else if done(k) then (true, k + 1)
    else Poll(done, limit, flag0, stopAt, k + 1)
  }

  /**
   * What a wait promises: it succeeds exactly at the first poll that finds `done`, and no poll
   * before it does; it fails only when the timer has passed the limit or the stop flag is seen;
   * it never polls after the timer has passed the limit; a flag already set means no poll at all.
   */
  lemma {:induction false} PollFacts(done: nat -> bool, limit: real, flag0: bool, stopAt: Option<nat>, k: nat)
    ensures var (ok, n) := Poll(done, limit, flag0, stopAt, k);
            && k <= n
            && (ok ==> n > k && done(n - 1))
            && (forall j :: k <= j < n && (j < n - 1 || !ok) ==> !done(j))
            && (!ok ==> (n as real / 2.0 > limit || StopSeen(flag0, stopAt, n)))
            && (n == k || (n - 1) as real / 2.0 <= limit)
            && (flag0 ==> n == k && !ok)
    decreases PollBound(limit) - k
  {
    if !(k as real / 2.0 <= limit) || StopSeen(flag0, stopAt, k) {
    } else if done(k) {
    } else {
      PollFacts(done, limit, flag0, stopAt, k + 1);
    }
  }

  /** Every poll runs at a timer of at most `limit`, so at most 2·`limit` + 1 polls run. */
  lemma PollCount(done: nat -> bool, limit: real, flag0: bool, stopAt: Option<nat>)
    ensures Poll(done, limit, flag0, stopAt, 0).1 <= PollBound(limit)
  {
    PollFacts(done, limit, flag0, stopAt, 0);
  }

  /** The fill-level test of the fluid waits: within 5 of the target. */
  function NearTarget(fill: nat -> real, target: real): nat -> bool
  {
    (k: nat) => Abs(fill(k) - target) <= 5.0
  }

  /** `load_fluid`'s volume: at most the syringe volume, then at most the space left above the cached fill level. */
  function LoadVolume(volume: real, maxVolume: real, fill: real): real
  {
    var v := if volume >= maxVolume then maxVolume else volume;
    if v >= maxVolume - fill then maxVolume - fill else v
  }

  /**
   * The volume loaded is the least of the request, the syringe volume and the space left, so
   * the cached fill level plus the volume never exceeds the syringe volume.
   */
  lemma LoadVolumeFacts(volume: real, maxVolume: real, fill: real)
    ensures var v := LoadVolume(volume, maxVolume, fill);
            && v <= volume && v <= maxVolume && v <= maxVolume - fill
            && (v == volume || v == maxVolume || v == maxVolume - fill)
            && fill + v <= maxVolume
            && (volume < maxVolume && volume < maxVolume - fill ==> v == volume)
  {
  }

  /** `unload_fluid`'s flow and volume: at most the pump's maximum flow and at most what the syringe holds. */
  function UnloadArgs(volume: real, flow: real, maxFlow: real, deviceFill: real): (real, real)
  {
    (if volume >= deviceFill then deviceFill else volume, if flow >= maxFlow then maxFlow else flow)
  }

  /** Dispensing never asks for more than the syringe holds nor faster than the pump can go, and an admissible request is passed unchanged. */
  lemma UnloadArgsFacts(volume: real, flow: real, maxFlow: real, deviceFill: real)
    ensures var (v, f) := UnloadArgs(volume, flow, maxFlow, deviceFill);
            && v <= deviceFill && v <= volume && (v == volume || v == deviceFill)
            && f <= maxFlow && f <= flow && (f == flow || f == maxFlow)
            && deviceFill - v >= 0.0
            && (volume < deviceFill && flow < maxFlow ==> v == volume && f == flow)
  {
  }

  /** The fill level a dispense waits for: what was there less the volume, never below zero. */
  function DispenseTarget(fill0: real, volume: real): (r: real)
    ensures r >= 0.0 && r >= fill0 - volume
    ensures r == 0.0 || r == fill0 - volume
  {
    Max(0.0, fill0 - volume)
  }

  /** The connected pump. */
  class Pump {
    /** `max_volume` and `max_flowrate` as read from the SDK at connection. */
    var maxVolume: real
    var maxFlow: real
    /** The cached `_fill_level`, refreshed by each poll. */
    var fillLevel: real
    var stoppedFlag: bool
    /** The SDK commands issued, in order. */
    var commands: seq<Command>
    var warnings: nat
    var errors: nat

    constructor(maxVolume: real, maxFlow: real, fillLevel: real)
      ensures this.maxVolume == maxVolume && this.maxFlow == maxFlow && this.fillLevel == fillLevel
      ensures !stoppedFlag && commands == [] && warnings == 0 && errors == 0
    {
      this.maxVolume := maxVolume;
      this.maxFlow := maxFlow;
      this.fillLevel := fillLevel;
      stoppedFlag := false;
      commands := [];
      warnings := 0;
      errors := 0;
    }

    /**
     * The polling loop shared by the waits: poll `k` reads the fill level into the cache and
     * checks `done(k)`; the timer advances half a second per poll.
     */
    method PollLoop(done: nat -> bool, fill: nat -> real, limit: real, stopAt: Option<nat>) returns (result: bool)
      modifies this
      ensures result == Poll(done, limit, old(stoppedFlag), stopAt, 0).0
      ensures var n := Poll(done, limit, old(stoppedFlag), stopAt, 0).1;
              fillLevel == (if n == 0 then old(fillLevel) else fill(n - 1))
      ensures stoppedFlag == old(stoppedFlag)
      ensures maxVolume == old(maxVolume) && maxFlow == old(maxFlow) && commands == old(commands)
      ensures warnings == old(warnings) && errors == old(errors)
    {
      result := false;
      var k: nat := 0;
      while !result && k as real / 2.0 <= limit && !StopSeen(stoppedFlag, stopAt, k)
        invariant stoppedFlag == old(stoppedFlag)
        invariant !result ==> Poll(done, limit, stoppedFlag, stopAt, 0) == Poll(done, limit, stoppedFlag, stopAt, k)
        invariant result ==> Poll(done, limit, stoppedFlag, stopAt, 0) == (true, k)
        invariant fillLevel == (if k == 0 then old(fillLevel) else fill(k - 1))
        invariant maxVolume == old(maxVolume) && maxFlow == old(maxFlow) && commands == old(commands)
        invariant warnings == old(warnings) && errors == old(errors)
        decreases PollBound(limit) - k
      {
        fillLevel := fill(k);
        if done(k) {
          result := true;
        }
        k := k + 1;
      }
    }

    /**
     * `_wait_load_fluid`: for a truthy volume and flow, poll until the fill level is within 5 of
     * the starting level plus the volume, for at most volume/flow + 1 seconds, then clear the
     * stop flag; otherwise only warn and return None.
     */
    method WaitLoadFluid(volume: Option<real>, flow: Option<real>, sensor: Sensor) returns (r: Option<bool>)
      modifies this
      ensures !Truthy(volume) || !Truthy(flow) ==>
                r.None? && warnings == old(warnings) + 1 && stoppedFlag == old(stoppedFlag) && fillLevel == old(fillLevel)
      ensures Truthy(volume) && Truthy(flow) ==>
                var p := Poll(NearTarget(sensor.fill, sensor.fill0 + volume.value), volume.value / flow.value + 1.0, old(stoppedFlag), sensor.stopAt, 0);
                && r == Some(p.0) && !stoppedFlag && warnings == old(warnings)
                && fillLevel == (if p.1 == 0 then old(fillLevel) else sensor.fill(p.1 - 1))
      ensures maxVolume == old(maxVolume) && maxFlow == old(maxFlow) && commands == old(commands) && errors == old(errors)
    {
      if Truthy(volume) && Truthy(flow) {
        var target := sensor.fill0 + volume.value;
        var timeframe := volume.value / flow.value + 1.0;
        var result := PollLoop(NearTarget(sensor.fill, target), sensor.fill, timeframe, sensor.stopAt);
        stoppedFlag := false;
        return Some(result);
      } else {
        warnings := warnings + 1;
        return None;
      }
    }

    /**
     * `_wait_dipsense_fluid`: as the load wait, with the target the starting level less the
     * volume, never below zero.
     */
    method WaitDispenseFluid(volume: Option<real>, flow: Option<real>, sensor: Sensor) returns (r: Option<bool>)
      modifies this
      ensures !Truthy(volume) || !Truthy(flow) ==>
                r.None? && warnings == old(warnings) + 1 && stoppedFlag == old(stoppedFlag) && fillLevel == old(fillLevel)
      ensures Truthy(volume) && Truthy(flow) ==>
                var p := Poll(NearTarget(sensor.fill, DispenseTarget(sensor.fill0, volume.value)), volume.value / flow.value + 1.0, old(stoppedFlag), sensor.stopAt, 0);
                && r == Some(p.0) && !stoppedFlag && warnings == old(warnings)
                && fillLevel == (if p.1 == 0 then old(fillLevel) else sensor.fill(p.1 - 1))
      ensures maxVolume == old(maxVolume) && maxFlow == old(maxFlow) && commands == old(commands) && errors == old(errors)
    {
      if Truthy(volume) && Truthy(flow) {
        var target := DispenseTarget(sensor.fill0, volume.value);
        var timeframe := volume.value / flow.value + 1.0;
        var result := PollLoop(NearTarget(sensor.fill, target), sensor.fill, timeframe, sensor.stopAt);
        stoppedFlag := false;
        return Some(result);
      } else {
        warnings := warnings + 1;
        return None;
      }
    }

    /** `_wait_calibration_finished` with its default timeout of 30 seconds; the stop flag is cleared on exit. */
    method WaitCalibrationFinished(finished: nat -> bool, sensor: Sensor) returns (result: bool)
      modifies this
      ensures var p := Poll(finished, 30.0, old(stoppedFlag), sensor.stopAt, 0);
              && result == p.0 && !stoppedFlag
              && fillLevel == (if p.1 == 0 then old(fillLevel) else sensor.fill(p.1 - 1))
      ensures maxVolume == old(maxVolume) && maxFlow == old(maxFlow) && commands == old(commands)
      ensures warnings == old(warnings) && errors == old(errors)
    {
      result := PollLoop(finished, sensor.fill, 30.0, sensor.stopAt);
      stoppedFlag := false;
    }

    /**
     * `load_fluid`: clamp the volume, aspirate at the maximum flow, and wait for the level to
     * rise; the wait's answer is discarded and nothing is returned.
     */
    method LoadFluid(volume: real, sensor: Sensor)
      modifies this
      ensures var v := LoadVolume(volume, old(maxVolume), old(fillLevel));
              && commands == old(commands) + [Aspirate(v, old(maxFlow))]
              && (Truthy(Some(v)) && Truthy(Some(old(maxFlow))) ==>
                    var p := Poll(NearTarget(sensor.fill, sensor.fill0 + v), v / old(maxFlow) + 1.0, old(stoppedFlag), sensor.stopAt, 0);
                    && !stoppedFlag && warnings == old(warnings)
                    && fillLevel == (if p.1 == 0 then old(fillLevel) else sensor.fill(p.1 - 1)))
              && (!Truthy(Some(v)) || !Truthy(Some(old(maxFlow))) ==>
                    warnings == old(warnings) + 1 && stoppedFlag == old(stoppedFlag) && fillLevel == old(fillLevel))
      ensures maxVolume == old(maxVolume) && maxFlow == old(maxFlow) && errors == old(errors)
    {
      var v := LoadVolume(volume, maxVolume, fillLevel);
      commands := commands + [Aspirate(v, maxFlow)];
      var _ := WaitLoadFluid(Some(v), Some(maxFlow), sensor);
    }

    /**
     * `unload_fluid`: clamp the flow and the volume (against the fill level the device reports),
     * dispense, and wait for the level to fall; the wait's answer is discarded and nothing is
     * returned. `deviceFill` is what `get_fill_level()` reports; the method reads it twice, for
     * the test and for the clamp, and both readings are taken to be this one value.
     */
    method UnloadFluid(volume: real, flow: real, deviceFill: real, sensor: Sensor)
      modifies this
      ensures var (v, f) := UnloadArgs(volume, flow, old(maxFlow), deviceFill);
              && commands == old(commands) + [Dispense(v, f)]
              && (Truthy(Some(v)) && Truthy(Some(f)) ==>
                    var p := Poll(NearTarget(sensor.fill, DispenseTarget(sensor.fill0, v)), v / f + 1.0, old(stoppedFlag), sensor.stopAt, 0);
                    && !stoppedFlag && warnings == old(warnings)
                    && fillLevel == (if p.1 == 0 then old(fillLevel) else sensor.fill(p.1 - 1)))
              && (!Truthy(Some(v)) || !Truthy(Some(f)) ==>
                    warnings == old(warnings) + 1 && stoppedFlag == old(stoppedFlag) && fillLevel == old(fillLevel))
      ensures maxVolume == old(maxVolume) && maxFlow == old(maxFlow) && errors == old(errors)
    {
      var (v, f) := UnloadArgs(volume, flow, maxFlow, deviceFill);
      commands := commands + [Dispense(v, f)];
      var _ := WaitDispenseFluid(Some(v), Some(f), sensor);
    }

    /** `stop_pump`: the flag is set before the SDK is asked to stop, so it is set even when that call fails (which is logged). */
    method StopPump(sdkFails: bool)
      modifies this
      ensures stoppedFlag
      ensures commands == old(commands) + [StopPumping]
      ensures errors == old(errors) + (if sdkFails then 1 else 0)
      ensures fillLevel == old(fillLevel) && warnings == old(warnings)
      ensures maxVolume == old(maxVolume) && maxFlow == old(maxFlow)
    {
      stoppedFlag := true;
      commands := commands + [StopPumping];
      if sdkFails {
        errors := errors + 1;
      }
    }

    /**
     * `start_calibration`: start the calibration and wait for it; the wait's answer is discarded.
     * When the SDK's `calibrate` raises, the exception is logged as an error and no wait runs, so
     * the stop flag and the cached fill level stay as they were.
     */
    method StartCalibration(sdkFails: bool, finished: nat -> bool, sensor: Sensor)
      modifies this
      ensures commands == old(commands) + [Calibrate]
      ensures sdkFails ==>
                errors == old(errors) + 1 && stoppedFlag == old(stoppedFlag) && fillLevel == old(fillLevel)
      ensures !sdkFails ==>
                var p := Poll(finished, 30.0, old(stoppedFlag), sensor.stopAt, 0);
                && errors == old(errors) && !stoppedFlag
                && fillLevel == (if p.1 == 0 then old(fillLevel) else sensor.fill(p.1 - 1))
      ensures maxVolume == old(maxVolume) && maxFlow == old(maxFlow) && warnings == old(warnings)
    {
      commands := commands + [Calibrate];
      if sdkFails {
        errors := errors + 1;
        return;
      }
      var _ := WaitCalibrationFinished(finished, sensor);
    }
  }
}
