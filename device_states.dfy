/**
 * The device-side state templates: the device handler's state (which clears the handler's
 * current state when it ends) and its health check, and the camera, pump and Arduino state
 * templates (which free their device when they end), with the Arduino's response matching.
 */
module DeviceStates {
  import opened Wrappers
  import opened Text

  /** A state's outcome of `run_logic`. */
  datatype Outcome = Returned | Raised

  /** The devices named by the handler, with the truthiness of each one's stored status. */
  function ConnectedOf(devices: seq<string>, status: map<string, bool>): seq<string>
  {
    if devices == [] then []
    else
      var d := devices[|devices| - 1];
      ConnectedOf(devices[..|devices| - 1], status) + (if d in status && status[d] then [d] else [])
  }

  /** The devices that get a health-check task: those whose status is missing or falsy. */
  function RecheckOf(devices: seq<string>, status: map<string, bool>): seq<string>
  {
    if devices == [] then []
    else
      var d := devices[|devices| - 1];
      RecheckOf(devices[..|devices| - 1], status) + (if d in status && status[d] then [] else [d])
  }

  /** Every device is either listed as connected or re-checked, never both, and nothing else appears. */
  lemma {:induction false} HealthSplit(devices: seq<string>, status: map<string, bool>)
    ensures |ConnectedOf(devices, status)| + |RecheckOf(devices, status)| == |devices|
    ensures forall d :: d in ConnectedOf(devices, status) <==> d in devices && d in status && status[d]
    ensures forall d :: d in RecheckOf(devices, status) <==> d in devices && !(d in status && status[d])
  {
    if devices != [] {
      var init := devices[..|devices| - 1];
      HealthSplit(init, status);
      assert devices == init + [devices[|devices| - 1]];
    }
  }

  /** `health_check`'s loop over the handler's devices in dict order. */
  method HealthLoop(devices: seq<string>, status: map<string, bool>) returns (connected: seq<string>, recheck: seq<string>)
    ensures connected == ConnectedOf(devices, status)
    ensures recheck == RecheckOf(devices, status)
  {
    connected, recheck := [], [];
    var i := 0;
    while i < |devices|
      invariant 0 <= i <= |devices|
      invariant connected == ConnectedOf(devices[..i], status)
      invariant recheck == RecheckOf(devices[..i], status)
    {
      assert devices[..i + 1][..i] == devices[..i];
      if devices[i] in status && status[devices[i]] {
        connected := connected + [devices[i]];
      } else {
        recheck := recheck + [devices[i]];
      }
      i := i + 1;
    }
    assert devices[..i] == devices;
  }

  /** One `(HEALTH_CHECK_STATE, 0)` task per device. */
  function HealthTasks(ds: seq<string>): (r: seq<(string, int)>)
    ensures |r| == |ds|
    ensures forall i :: 0 <= i < |ds| ==> r[i] == (ds[i], 0)
  {
    if ds == [] then [] else [(ds[0], 0)] + HealthTasks(ds[1..])
  }

  /** The device handler, as far as its states see it. */
  class DeviceHandler {
    var currentState: HandlerState?
    /** The device names, in the order of the handler's devices dict. */
    var devices: seq<string>
    /** Health-check tasks handed to the devices, and the lists written to CONNECTED_DEVICES. */
    var healthTasks: seq<(string, int)>
    var connectedWrites: seq<seq<string>>

    constructor (ds: seq<string>)
      ensures currentState == null && devices == ds && healthTasks == [] && connectedWrites == []
    {
      currentState := null;
      devices := ds;
      healthTasks := [];
      connectedWrites := [];
    }
  }

  /** The device handler's state template. */
  class HandlerState {
    const handler: DeviceHandler
    const runtimeTarget: int
    var terminated: bool
    var failures: nat

    /** Lines 11-18: the handler, creation plus runtime, not terminated. */
    constructor (h: DeviceHandler, now: int, runtime: int)
      ensures handler == h && runtimeTarget == now + runtime && !terminated && failures == 0
    {
      handler := h;
      runtimeTarget := now + runtime;
      terminated := false;
      failures := 0;
    }

    /** `run`: an exception of the logic is only logged; the handler's current state is always reset. */
    method Run(o: Outcome)
      modifies this, handler
      ensures handler.currentState == null
      ensures failures == old(failures) + (if o == Raised then 1 else 0) && terminated == old(terminated)
      ensures handler.devices == old(handler.devices) && handler.healthTasks == old(handler.healthTasks)
      ensures handler.connectedWrites == old(handler.connectedWrites)
    {
      if o == Raised {
        failures := failures + 1;
      }
      handler.currentState := null;
    }

    /**
     * `HealthCheckState.run`: while a measurement is running nothing is checked; otherwise the
     * connected devices are written in dict order and every other device gets one health-check
     * task with runtime 0. The handler's current state is reset afterwards.
     */
    method RunHealthCheck(measurementRunning: bool, status: map<string, bool>)
      modifies handler
      ensures handler.currentState == null && handler.devices == old(handler.devices)
      ensures measurementRunning ==> handler.healthTasks == old(handler.healthTasks) && handler.connectedWrites == old(handler.connectedWrites)
      ensures !measurementRunning ==>
                && handler.connectedWrites == old(handler.connectedWrites) + [ConnectedOf(old(handler.devices), status)]
                && handler.healthTasks == old(handler.healthTasks) + HealthTasks(RecheckOf(old(handler.devices), status))
    {
      if !measurementRunning {
        var connected, recheck := HealthLoop(handler.devices, status);
        handler.healthTasks := handler.healthTasks + HealthTasks(recheck);
        handler.connectedWrites := handler.connectedWrites + [connected];
      }
      handler.currentState := null;
    }

    /** `terminate`: only the flag. */
    method Terminate()
      modifies this
      ensures terminated && failures == old(failures)
    {
      terminated := true;
    }
  }

  /** A camera, pump or Arduino device, as far as its states see it: the `task_free` event. */
  class Device {
    var taskFree: bool

    constructor ()
      ensures !taskFree
    {
      taskFree := false;
    }
  }

  /** The camera state template. */
  class CameraState {
    const device: Device
    const runtimeTarget: int
    var terminated: bool
    var failures: nat

    /** Lines 13-23. */
    constructor (d: Device, now: int, runtime: int)
      ensures device == d && runtimeTarget == now + runtime && !terminated && failures == 0
    {
      device := d;
      runtimeTarget := now + runtime;
      terminated := false;
      failures := 0;
    }

    /** `run`: an exception of the logic is only logged; the device is always freed. */
    method Run(o: Outcome)
      modifies this, device
      ensures device.taskFree
      ensures failures == old(failures) + (if o == Raised then 1 else 0) && terminated == old(terminated)
    {
      if o == Raised {
        failures := failures + 1;
      }
      device.taskFree := true;
    }

    method Terminate()
      modifies this
      ensures terminated && failures == old(failures)
    {
      terminated := true;
    }
  }

  /** The pump state template. */
  class PumpState {
    const device: Device
    const runtimeTarget: int
    var terminated: bool
    var failures: nat

    /** Lines 13-20. */
    constructor (d: Device, now: int, runtime: int)
      ensures device == d && runtimeTarget == now + runtime && !terminated && failures == 0
    {
      device := d;
      runtimeTarget := now + runtime;
      terminated := false;
      failures := 0;
    }

    /** `run`: an exception of the logic is only logged; the device is always freed. */
    method Run(o: Outcome)
      modifies this, device
      ensures device.taskFree
      ensures failures == old(failures) + (if o == Raised then 1 else 0) && terminated == old(terminated)
    {
      if o == Raised {
        failures := failures + 1;
      }
      device.taskFree := true;
    }

    method Terminate()
      modifies this
      ensures terminated && failures == old(failures)
    {
      terminated := true;
    }
  }

  /** The value `_wait_for_response` expects; its type decides how the line is converted. */
  datatype Expected = ExpectText(s: string) | ExpectInt(i: int)

  /** What the conversion raises: `int(None)` is a TypeError, `int("abc")` a ValueError. */
  datatype ConvError = TypeError | ValueError

  /**
   * The matching rule of `_wait_for_response` given the first stripped line read before the
   * timeout (None when none arrived): with an expected value the line is converted to its type
   * and compared; without one only "Y" matches.
   */
  function MatchResponse(line: Option<string>, expected: Option<Expected>): (r: Result<bool, ConvError>)
    ensures expected.None? ==> r == Ok(line == Some("Y"))
    ensures expected.Some? && expected.value.ExpectText? && line.Some? ==> r == Ok(line.value == expected.value.s)
    ensures expected.Some? && expected.value.ExpectInt? && line.None? ==> r == Err(TypeError)
  {
    match expected
    case None => Ok(line == Some("Y"))
    case Some(ExpectText(s)) => Ok(s == (if line.Some? then line.value else "None"))
    case Some(ExpectInt(i)) =>
      if line.None? then Err(TypeError)
      else match ParseInt(line.value)
        case None => Err(ValueError)
        case Some(n) => Ok(n == i)
  }

  /** The Arduino echoing `str(i)` for an expected int `i` is a match. */
  lemma EchoMatches(i: int)
    ensures MatchResponse(Some(IntToString(i)), Some(ExpectInt(i))) == Ok(true)
  {
    ParseIntOfIntToString(i);
  }

  /** A digit text names only its own value: any other expected int does not match. */
  lemma OtherIntDoesNotMatch(i: int, j: int)
    requires i != j
    ensures MatchResponse(Some(IntToString(i)), Some(ExpectInt(j))) == Ok(false)
  {
    ParseIntOfIntToString(i);
  }

  /** With no line before the timeout, an expected text matches only if it is the text "None". */
  lemma SilenceAsText(s: string)
    ensures MatchResponse(None, Some(ExpectText(s))) == Ok(s == "None")
    ensures MatchResponse(None, None) == Ok(false)
  {
  }

  /** The Arduino state template. */
  class ArduinoState {
    const device: Device
    const runtimeTarget: int
    var liveRecording: bool
    var valveState: bool
    var terminated: bool
    var failures: nat

    /** Lines 14-30: live recording and valve off, not terminated. */
    constructor (d: Device, now: int, runtime: int)
      ensures device == d && runtimeTarget == now + runtime
      ensures !liveRecording && !valveState && !terminated && failures == 0
    {
      device := d;
      runtimeTarget := now + runtime;
      liveRecording := false;
      valveState := false;
      terminated := false;
      failures := 0;
    }

    /** `run`: an exception of the logic is only logged; the device is always freed. */
    method Run(o: Outcome)
      modifies this, device
      ensures device.taskFree
      ensures failures == old(failures) + (if o == Raised then 1 else 0)
      ensures terminated == old(terminated) && liveRecording == old(liveRecording) && valveState == old(valveState)
    {
      if o == Raised {
        failures := failures + 1;
      }
      device.taskFree := true;
    }

    method Terminate()
      modifies this
      ensures terminated && failures == old(failures)
      ensures liveRecording == old(liveRecording) && valveState == old(valveState)
    {
      terminated := true;
    }
  }
}
