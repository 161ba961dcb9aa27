/**
 * The measurement runner: it consumes a copy of a routine's slots from the front, sets each
 * slot up (progress space, store paths, endpoint flags and tasks from the settings), starts the
 * endpoints, ticks once per second until the slot's deadline, optionally stops and waits for
 * the operator, resets the endpoints, and at the end purges the progress and reports the end.
 * Time is a simulated clock in whole seconds; the endpoints are task logs and gate booleans.
 */
module Runner {
  import opened Wrappers
  import opened Text
  import opened Routines
  import opened PyDict
  import opened Resources
  import opened ProgressLog
  import Dispatch

  /** `stop_flag`: a threading.Event, or the `True` that line 207 puts in its place. */
  datatype StopFlag = Cleared | IsSet | ReplacedByTrue

  /** What ends the runner's thread with an exception. */
  datatype Crash = NameError | AttributeError | KeyError | UnpackError

  datatype Outcome = Ended | Crashed(error: Crash) | Hangs

  datatype ArduinoMode = SensorPolling | SettingSetter | LightSwitch

  datatype RunnerEvent = MsProgressSlot(routine: string, slot: string) | MsStoppedForWaiting | MsEnded

  /** The endpoints the reset stops, in the order `device_resetter` stops them. */
  datatype Endpoint = CameraEnd | ArduinoEnd | MfcEnd | AlgManEnd

  datatype StoreVal = VPath(p: string) | VFlag(b: bool) | VUid(u: nat) | VArg(a: Arg) | VArgs(args: seq<Arg>)

  /** One `add_data` call: the key's name and the value written. */
  datatype StoreWrite = StoreWrite(key: string, value: StoreVal)

  /** What the outside world does meanwhile: from which second the stop is set, and from which second the operator's go-ahead is in the store. */
  datatype Env = Env(stopAt: Option<int>, ackAt: Option<int>)

  /** The endpoint-facing part of the runner's state that the settings change. */
  datatype Ends = Ends(
    algFlag: bool, arduinoFlag: bool, camFlag: bool,
    arduinoTasks: seq<(ArduinoMode, int)>, algTasks: seq<(Dispatch.Kind, int)>,
    writes: seq<StoreWrite>)

  /** `arduino_settings_setter`: the temperature and the live-recording switch go to the store, and one setter task with runtime 0. */
  function PushTemperature(e: Ends, temperature: Arg, live: bool): Ends
  {
    e.(writes := e.writes + [StoreWrite("TEMPERATURE_SETTING", VArg(temperature)), StoreWrite("LIVE_RECORDING", VFlag(live))],
       arduinoTasks := e.arduinoTasks + [(SettingSetter, 0)])
  }

  /** `lightmode_setter`. */
  function SetLightMode(e: Ends, mode: Light): Ends
  {
    match mode
    case AlwaysOff => e.(writes := e.writes + [StoreWrite("LIGHTMODE", VFlag(false))], arduinoTasks := e.arduinoTasks + [(LightSwitch, 0)])
    case OnWhenNeeded => e.(writes := e.writes + [StoreWrite("CAMERA_LIGHTSWITCHING", VFlag(true))])
    case AlwaysOn => e.(writes := e.writes + [StoreWrite("LIGHTMODE", VFlag(true))], arduinoTasks := e.arduinoTasks + [(LightSwitch, 0)])
  }

  /**
   * One iteration of the settings loop of `setup_slot_scenario` (lines 223-258). `camset` is the
   * camera list built up over the slot. A setting whose value lacks the attribute read raises;
   * an MFC setting always raises, because `Keys.CAMERA_MASSFLOW_INTERRUPT` does not exist.
   */
  function ApplySetting(e: Ends, camset: seq<Arg>, s: Setting, cond: Option<Condition>, conditionFlag: bool, runtime: int): Result<(Ends, seq<Arg>), Crash>
  {
    match s.name
    case Temperature =>
      if !s.setting.TemperatureSetting? then Err(Crash.AttributeError)
      else
        var e1 := e.(arduinoFlag := true);
        if conditionFlag then
          if cond.None? then Err(Crash.AttributeError)
          else if cond.value.parameter == Temperature then Ok((PushTemperature(e1, s.setting.target, true), camset))
          else Ok((e1, camset))
        else Ok((PushTemperature(e1, s.setting.target, false), camset))
    case Algorithms =>
      if !s.setting.AlgorithmSetting? then Err(Crash.AttributeError)
      else Ok((e.(algFlag := true, algTasks := e.algTasks + (if s.setting.algorithm == BubbleSize then [(Dispatch.BubbleSizer, runtime)] else [])), camset))
    case Camera =>
      if !s.setting.CameraSetting? then Err(Crash.AttributeError)
      else
        var cs := camset + [s.setting.imgCount, s.setting.cameraInterval];
        Ok((e.(camFlag := true, writes := e.writes + [StoreWrite("CAMERA_SETTINGS", VArgs(cs))]), cs))
    case Mfc => Err(Crash.AttributeError)
    case LightMode =>
      if !s.setting.LightSetting? then Err(Crash.AttributeError)
      else Ok((SetLightMode(e, s.setting.mode), camset))
    case Pump => Ok((e, camset))
    case ResultNumber => Ok((e, camset))
  }

  /** The settings loop over the first settings; the first raise ends it. */
  function ApplySettings(e: Ends, camset: seq<Arg>, ss: seq<Setting>, cond: Option<Condition>, conditionFlag: bool, runtime: int): Result<(Ends, seq<Arg>), Crash>
  {
    if ss == [] then Ok((e, camset))
    else
      var pre := ApplySettings(e, camset, ss[..|ss| - 1], cond, conditionFlag, runtime);
      if pre.Err? then pre
      else ApplySetting(pre.value.0, pre.value.1, ss[|ss| - 1], cond, conditionFlag, runtime)
  }

  /** The settings loop of `setup_slot_scenario`. */
  method SettingsLoop(e: Ends, ss: seq<Setting>, cond: Option<Condition>, conditionFlag: bool, runtime: int) returns (r: Result<(Ends, seq<Arg>), Crash>)
    ensures r == ApplySettings(e, [], ss, cond, conditionFlag, runtime)
  {
    var cur := e;
    var camset: seq<Arg> := [];
    var i := 0;
    while i < |ss|
      invariant 0 <= i <= |ss|
      invariant ApplySettings(e, [], ss[..i], cond, conditionFlag, runtime) == Ok((cur, camset))
    {
      assert ss[..i + 1][..i] == ss[..i];
      var step := ApplySetting(cur, camset, ss[i], cond, conditionFlag, runtime);
      if step.Err? {
        ApplySettingsErrSticks(e, [], ss, cond, conditionFlag, runtime, i + 1);
        return step;
      }
      cur, camset := step.value.0, step.value.1;
      i := i + 1;
    }
    assert ss[..i] == ss;
    return Ok((cur, camset));
  }

  /** Once the loop has raised, the rest of the settings are never looked at. */
  lemma {:induction false} ApplySettingsErrSticks(e: Ends, camset: seq<Arg>, ss: seq<Setting>, cond: Option<Condition>, cf: bool, rt: int, n: nat)
    requires n <= |ss| && ApplySettings(e, camset, ss[..n], cond, cf, rt).Err?
    ensures ApplySettings(e, camset, ss, cond, cf, rt) == ApplySettings(e, camset, ss[..n], cond, cf, rt)
    decreases |ss| - n
  {
    if n < |ss| {
      assert ss[..n + 1][..n] == ss[..n];
      ApplySettingsErrSticks(e, camset, ss, cond, cf, rt, n + 1);
    } else {
      assert ss[..n] == ss;
    }
  }

  /** As written, any slot with an MFC setting makes the setup raise. */
  lemma {:induction false} MfcSettingRaises(e: Ends, camset: seq<Arg>, ss: seq<Setting>, cond: Option<Condition>, cf: bool, rt: int, i: nat)
    requires i < |ss| && ss[i].name == Mfc
    ensures ApplySettings(e, camset, ss, cond, cf, rt).Err?
    decreases |ss|
  {
    var k := |ss| - 1;
    if i < k {
      assert ss[..k][i] == ss[i];
      MfcSettingRaises(e, camset, ss[..k], cond, cf, rt, i);
    }
  }

  /** The number of settings asking for the bubble sizer. */
  function BubbleCount(ss: seq<Setting>): nat
  {
    if ss == [] then 0
    else BubbleCount(ss[..|ss| - 1]) + (if ss[|ss| - 1].name == Algorithms && ss[|ss| - 1].setting == AlgorithmSetting(BubbleSize) then 1 else 0)
  }

  /** One setting's effect on the flags and the algorithm tasks, when it does not raise. */
  lemma StepFlags(e: Ends, camset: seq<Arg>, s: Setting, cond: Option<Condition>, cf: bool, rt: int)
    requires ApplySetting(e, camset, s, cond, cf, rt).Ok?
    ensures var r := ApplySetting(e, camset, s, cond, cf, rt).value.0;
            && (r.camFlag <==> e.camFlag || s.name == Camera)
            && (r.algFlag <==> e.algFlag || s.name == Algorithms)
            && r.algTasks == e.algTasks + (if s.name == Algorithms && s.setting == AlgorithmSetting(BubbleSize) then [(Dispatch.BubbleSizer, rt)] else [])
  {
  }

  /**
   * A setup that does not raise: the camera flag is set exactly when some setting is CAMERA,
   * the algorithm flag exactly when some setting is ALGORITHMS, and one BUBBLE_SIZER task with
   * the slot's runtime is queued per BUBBLE_SIZE setting (PELLET_SIZE queues nothing).
   */
  lemma {:induction false} SettingsFlags(e: Ends, camset: seq<Arg>, ss: seq<Setting>, cond: Option<Condition>, cf: bool, rt: int)
    requires ApplySettings(e, camset, ss, cond, cf, rt).Ok?
    ensures var r := ApplySettings(e, camset, ss, cond, cf, rt).value.0;
            && (r.camFlag <==> e.camFlag || exists i :: 0 <= i < |ss| && ss[i].name == Camera)
            && (r.algFlag <==> e.algFlag || exists i :: 0 <= i < |ss| && ss[i].name == Algorithms)
            && |r.algTasks| == |e.algTasks| + BubbleCount(ss)
            && r.algTasks[..|e.algTasks|] == e.algTasks
            && (forall j :: |e.algTasks| <= j < |r.algTasks| ==> r.algTasks[j] == (Dispatch.BubbleSizer, rt))
  {
    if ss != [] {
      var k := |ss| - 1;
      var init := ss[..k];
      var pre := ApplySettings(e, camset, init, cond, cf, rt);
      assert pre.Ok?;
      SettingsFlags(e, camset, init, cond, cf, rt);
      StepFlags(pre.value.0, pre.value.1, ss[k], cond, cf, rt);
      assert forall i :: 0 <= i < k ==> ss[i] == init[i];
    }
  }

  /**
   * The TEMPERATURE rule (lines 225-234): the temperature is pushed with live recording on only
   * when the slot's condition is on temperature, with live recording off only when no
   * condition was ever set, and otherwise not at all; a condition flag left over from an earlier
   * slot on a slot without condition raises.
   */
  lemma TemperatureRule(e: Ends, camset: seq<Arg>, s: Setting, cond: Option<Condition>, cf: bool, rt: int)
    requires s.name == Temperature && s.setting.TemperatureSetting?
    ensures var r := ApplySetting(e, camset, s, cond, cf, rt);
            && (cf && cond.None? <==> r.Err?)
            && (r.Ok? ==> r.value.0.arduinoFlag && r.value.1 == camset)
            && (cf && cond.Some? && cond.value.parameter == Temperature ==>
                  r.value.0.writes == e.writes + [StoreWrite("TEMPERATURE_SETTING", VArg(s.setting.target)), StoreWrite("LIVE_RECORDING", VFlag(true))]
                  && r.value.0.arduinoTasks == e.arduinoTasks + [(SettingSetter, 0)])
            && (cf && cond.Some? && cond.value.parameter != Temperature ==>
                  r.value.0.writes == e.writes && r.value.0.arduinoTasks == e.arduinoTasks)
            && (!cf ==>
                  r.value.0.writes == e.writes + [StoreWrite("TEMPERATURE_SETTING", VArg(s.setting.target)), StoreWrite("LIVE_RECORDING", VFlag(false))]
                  && r.value.0.arduinoTasks == e.arduinoTasks + [(SettingSetter, 0)])
  {
  }

  /** The slot folders after the slot's own, with the store key each is written under. */
  const FolderKeys: seq<(string, string)> := [("CURRENT_SLOT_FOLDER_CALIBRATION", "Calibration"), ("CURRENT_SLOT_FOLDER_RESULT", "Result"),
                                              ("CURRENT_SLOT_FOLDER_IMAGES", "Images"), ("CURRENT_SLOT_RESULT_DB", "DB")]

  /** Lines 201-204 on the first keys: each path written in turn; a missing name raises KeyError, with the earlier writes done. */
  function FolderWrites(paths: ResSpace, keys: seq<(string, string)>): Result<seq<StoreWrite>, seq<StoreWrite>>
  {
    if keys == [] then Ok([])
    else
      var pre := FolderWrites(paths, keys[..|keys| - 1]);
      if pre.Err? then pre
      else
        var k := keys[|keys| - 1];
        match Get(paths, k.1)
        case None => Err(pre.value)
        case Some(p) => Ok(pre.value + [StoreWrite(k.0, VPath(p))])
  }

  /** All folders are written exactly when every name is registered, and then in order with their registered paths. */
  lemma {:induction false} FolderWritesAll(paths: ResSpace, keys: seq<(string, string)>)
    ensures FolderWrites(paths, keys).Ok? <==> forall i :: 0 <= i < |keys| ==> Get(paths, keys[i].1).Some?
    ensures FolderWrites(paths, keys).Ok? ==>
              && |FolderWrites(paths, keys).value| == |keys|
              && forall i :: 0 <= i < |keys| ==> FolderWrites(paths, keys).value[i] == StoreWrite(keys[i].0, VPath(Get(paths, keys[i].1).value))
  {
    if keys != [] {
      var init := keys[..|keys| - 1];
      FolderWritesAll(paths, init);
      assert forall i :: 0 <= i < |init| ==> init[i] == keys[i];
    }
  }

  /** What lines 197-208 make of the slot's registered paths. */
  datatype Folders = NoFolders | MissingFolder(done: seq<StoreWrite>) | AllFolders(written: seq<StoreWrite>)

  /**
   * The slot's paths are looked up by the slot's name: no listing or an empty one means no
   * folders; otherwise the slot's own folder and the four subfolders are written in order
   * until one is missing.
   */
  function SlotFolders(register: map<string, ResSpace>, name: string): (r: Folders)
  {
    var listing := Listed(register, name, true, true);
    if listing.None? || !listing.value.NamesAndPaths? || listing.value.entries == [] then NoFolders
    else
      var paths := listing.value.entries;
      match Get(paths, name)
      case None => MissingFolder([])
      case Some(p) =>
        var rest := FolderWrites(paths, FolderKeys);
        if rest.Err? then MissingFolder([StoreWrite("CURRENT_SLOT_FOLDER", VPath(p))] + rest.error)
        else AllFolders([StoreWrite("CURRENT_SLOT_FOLDER", VPath(p))] + rest.value)
  }

  /** A slot's folders are all written exactly when its space is registered with a path for its own name and each of the four subfolders. */
  lemma SlotFoldersAll(register: map<string, ResSpace>, name: string)
    ensures SlotFolders(register, name).AllFolders? <==>
              && name in register && register[name] != []
              && Get(register[name], name).Some?
              && (forall i :: 0 <= i < |FolderKeys| ==> Get(register[name], FolderKeys[i].1).Some?)
    ensures SlotFolders(register, name).AllFolders? ==>
              SlotFolders(register, name).written[0] == StoreWrite("CURRENT_SLOT_FOLDER", VPath(Get(register[name], name).value))
              && |SlotFolders(register, name).written| == 5
  {
    FolderWritesAll(if name in register then register[name] else [], FolderKeys);
  }

  /** `_condition_checker`: with `setter` the condition only binds a local; without it the unbound `condition` raises NameError. */
  function ConditionChecker(slotCondition: Option<Condition>, setter: bool): (r: Option<Crash>)
  {
    if setter then None else Some(NameError)
  }

  /** The checker never reports the condition reached: a set-up only binds, a check only raises. */
  lemma ConditionNeverReached(c: Option<Condition>, setter: bool)
    ensures setter <==> ConditionChecker(c, setter).None?
  {
  }

  /** The number of MS_ENDED events. */
  function EndedCount(es: seq<RunnerEvent>): nat
  {
    if es == [] then 0 else EndedCount(es[..|es| - 1]) + (if es[|es| - 1] == MsEnded then 1 else 0)
  }

  lemma EndedCountSnoc(es: seq<RunnerEvent>, e: RunnerEvent)
    ensures EndedCount(es + [e]) == EndedCount(es) + (if e == MsEnded then 1 else 0)
  {
    assert (es + [e])[..|es|] == es;
  }

  /** A stamp standing for the wall-clock time of a simulated second. */
  function StampAt(clock: int): Stamp
  {
    IntToString(clock)
  }

  /** How one pass of the run loop ends. */
  datatype Step = Next | Done | Exit(outcome: Outcome)

  /** The start gates of the Arduino's polling, the camera's capture and the algorithm manager's measurement. */
  datatype Gates = Gates(arduino: bool, camera: bool, alg: bool)

  class MeasurementRunner {
    const routineName: string
    const progress: ProgressLogger
    /** The runner's own copy of the routine's slots, consumed from the front. */
    var slots: seq<Slot>
    var stop: StopFlag
    var conditionReached: bool
    var stopwaitFlag: bool
    var conditionFlag: bool
    var ends: Ends
    var gates: Gates
    /** The camera's IMAGE_CAPTURE tasks (their runtimes). */
    var cameraTasks: seq<int>
    /** Unset until the first slot is set up. */
    var slotname: Option<string>
    var runtimeSeconds: int
    var deadline: int
    var clock: int
    var events: seq<RunnerEvent>
    var stops: seq<Endpoint>

    ghost predicate Valid()
      reads this, progress
    {
      progress.Valid()
    }

    /** `__init__`: a copy of the routine's slots, every flag off, the stop event cleared. */
    constructor (routine: RoutineSystem, p: ProgressLogger, now: int)
      requires p.Valid()
      ensures Valid()
      ensures routineName == routine.name && progress == p && slots == routine.slots
      ensures stop == Cleared && !conditionReached && !stopwaitFlag && !conditionFlag
      ensures ends == Ends(false, false, false, [], [], []) && gates == Gates(false, false, false)
      ensures slotname.None? && clock == now && events == [] && stops == [] && cameraTasks == []
    {
      routineName := routine.name;
      progress := p;
      slots := routine.slots;
      stop := Cleared;
      conditionReached := false;
      stopwaitFlag := false;
      conditionFlag := false;
      ends := Ends(false, false, false, [], [], []);
      gates := Gates(false, false, false);
      cameraTasks := [];
      slotname := None;
      runtimeSeconds := 0;
      deadline := now;
      clock := now;
      events := [];
      stops := [];
    }

    /** `stop_flag.is_set()` at the current second: the outside stop lands first; the `True` replacement raises. */
    method PollStop(env: Env) returns (r: Result<bool, Crash>)
      modifies this`stop
      ensures r.Err? <==> old(stop) == ReplacedByTrue
      ensures r.Err? ==> r.error == Crash.AttributeError
      ensures stop == (if old(stop) == Cleared && env.stopAt.Some? && clock >= env.stopAt.value then IsSet else old(stop))
      ensures r.Ok? ==> (r.value <==> stop == IsSet)
    {
      if stop == ReplacedByTrue {
        return Err(Crash.AttributeError);
      }
      if stop == Cleared && env.stopAt.Some? && clock >= env.stopAt.value {
        stop := IsSet;
      }
      return Ok(stop == IsSet);
    }

    /**
     * Lines 211-264, once the folders are written: the stop-and-wait flag, the resource space's
     * uid, the condition flag (never cleared), the settings, and the deadline one second past
     * the runtime.
     */
    method PrepareSlot(slot: Slot) returns (crash: Option<Crash>)
      modifies this`ends, this`stopwaitFlag, this`conditionFlag, this`deadline
      ensures stopwaitFlag == slot.interaction.Some?
      ensures conditionFlag == (old(conditionFlag) || slot.condition.Some?)
      ensures var r := ApplySettings(old(ends).(writes := old(ends).writes + [StoreWrite("CURRENT_RESOURCE_SPACE", VUid(slot.uid))]),
                                     [], slot.settings, slot.condition, conditionFlag, slot.runtime);
              && (crash.None? <==> r.Ok?)
              && (r.Err? ==> crash == Some(r.error))
              && (r.Ok? ==> ends == r.value.0 && deadline == clock + slot.runtime + 1)
    {
      stopwaitFlag := slot.interaction.Some?;
      ends := ends.(writes := ends.writes + [StoreWrite("CURRENT_RESOURCE_SPACE", VUid(slot.uid))]);
      if slot.condition.Some? {
        conditionFlag := true;
        var c := ConditionChecker(slot.condition, true);
      }
      if slot.settings != [] {
        var r := SettingsLoop(ends, slot.settings, slot.condition, conditionFlag, slot.runtime);
        if r.Err? {
          return Some(r.error);
        }
        ends := r.value.0;
      }
      deadline := clock + slot.runtime + 1;
      return None;
    }

    /**
     * `setup_slot_scenario`: with no slot left the stop is set. Otherwise the first slot is
     * popped and gets a progress space with its runtime as target; without registered folders
     * the stop event is replaced by `True`, a missing folder raises KeyError, and otherwise the
     * slot is prepared.
     */
    method SetupSlotScenario(register: map<string, ResSpace>) returns (crash: Option<Crash>)
      requires Valid() && stop == Cleared
      modifies progress, this`stop, this`slots, this`slotname, this`runtimeSeconds, this`ends
      modifies this`stopwaitFlag, this`conditionFlag, this`deadline
      ensures Valid()
      ensures old(progress.Bounded()) ==> progress.Bounded()
      ensures old(slots) == [] ==> stop == IsSet && crash.None? && slots == [] && slotname == old(slotname)
      ensures old(slots) == [] ==>
                progress.spaces == old(progress.spaces) && progress.spaceLogger == old(progress.spaceLogger) && progress.metadata == old(progress.metadata)
      ensures old(slots) != [] ==>
                && slots == old(slots)[1..] && slotname == Some(old(slots)[0].name) && runtimeSeconds == old(slots)[0].runtime
                && (progress.spaces, progress.spaceLogger, progress.metadata)
                   == Opened(old(progress.spaces), old(progress.spaceLogger), old(progress.metadata), old(slots)[0].name, old(slots)[0].runtime, StampAt(clock))
                && (stop == ReplacedByTrue <==> SlotFolders(register, old(slots)[0].name).NoFolders?)
                && (SlotFolders(register, old(slots)[0].name).MissingFolder? ==> crash == Some(KeyError))
                && (stop != ReplacedByTrue ==> stop == Cleared)
      ensures old(slots) != [] && SlotFolders(register, old(slots)[0].name).AllFolders? ==>
                var slot := old(slots)[0];
                var r := ApplySettings(old(ends).(writes := old(ends).writes + SlotFolders(register, slot.name).written
                                                               + [StoreWrite("CURRENT_RESOURCE_SPACE", VUid(slot.uid))]),
                                       [], slot.settings, slot.condition, conditionFlag, slot.runtime);
                && stopwaitFlag == slot.interaction.Some?
                && conditionFlag == (old(conditionFlag) || slot.condition.Some?)
                && (crash.None? <==> r.Ok?)
                && (r.Ok? ==> ends == r.value.0 && deadline == clock + slot.runtime + 1)
    {
      if slots == [] {
        stop := IsSet;
        return None;
      }
      var slot := slots[0];
      // The score space lives in the progress logger alone, so adding it first changes nothing.
      progress.AddScorespace(slot.name, slot.runtime, StampAt(clock));
      ghost var added := (progress.spaces, progress.spaceLogger, progress.metadata);
      slots := slots[1..];
      slotname := Some(slot.name);
      runtimeSeconds := slot.runtime;
      crash := ApplyFolders(slot, SlotFolders(register, slot.name));
      assert (progress.spaces, progress.spaceLogger, progress.metadata) == added;
    }

    /** Lines 199-264 given what the slot's folders turned out to be. */
    method ApplyFolders(slot: Slot, folders: Folders) returns (crash: Option<Crash>)
      requires stop == Cleared
      modifies this`stop, this`ends, this`stopwaitFlag, this`conditionFlag, this`deadline
      ensures stop == ReplacedByTrue <==> folders.NoFolders?
      ensures stop != ReplacedByTrue ==> stop == Cleared
      ensures folders.NoFolders? ==> crash.None?
      ensures folders.MissingFolder? ==> crash == Some(KeyError)
      ensures folders.AllFolders? ==>
                var r := ApplySettings(old(ends).(writes := old(ends).writes + folders.written
                                                               + [StoreWrite("CURRENT_RESOURCE_SPACE", VUid(slot.uid))]),
                                       [], slot.settings, slot.condition, conditionFlag, slot.runtime);
                && stopwaitFlag == slot.interaction.Some?
                && conditionFlag == (old(conditionFlag) || slot.condition.Some?)
                && (crash.None? <==> r.Ok?)
                && (r.Ok? ==> ends == r.value.0 && deadline == clock + slot.runtime + 1)
    {
      if folders.NoFolders? {
        stop := ReplacedByTrue;
        return None;
      }
      if folders.MissingFolder? {
        ends := ends.(writes := ends.writes + folders.done);
        return Some(KeyError);
      }
      ends := ends.(writes := ends.writes + folders.written);
      crash := PrepareSlot(slot);
    }

    /** Lines 94-106: each flagged endpoint gets its timed task and its start gate, then the slot is announced. */
    method StartEndpoints()
      requires slotname.Some?
      modifies this`ends, this`gates, this`cameraTasks, this`events
      ensures ends == old(ends).(arduinoTasks := old(ends).arduinoTasks + (if old(ends).arduinoFlag then [(SensorPolling, runtimeSeconds)] else []))
      ensures cameraTasks == old(cameraTasks) + (if ends.camFlag then [runtimeSeconds] else [])
      ensures gates == Gates(old(gates).arduino || ends.arduinoFlag, old(gates).camera || ends.camFlag, old(gates).alg || ends.algFlag)
      ensures events == old(events) + [MsProgressSlot(routineName, slotname.value)]
      ensures EndedCount(events) == EndedCount(old(events))
    {
      var e := ends;
      ends := e.(arduinoTasks := e.arduinoTasks + (if e.arduinoFlag then [(SensorPolling, runtimeSeconds)] else []));
      cameraTasks := cameraTasks + (if e.camFlag then [runtimeSeconds] else []);
      gates := Gates(gates.arduino || e.arduinoFlag, gates.camera || e.camFlag, gates.alg || e.algFlag);
      EndedCountSnoc(events, MsProgressSlot(routineName, slotname.value));
      events := events + [MsProgressSlot(routineName, slotname.value)];
    }

    /**
     * The per-second loop (lines 109-123): until the deadline, a stop, or (never, as written)
     * the condition. With a condition flag the checker raises NameError at the first tick;
     * otherwise each tick sets the slot's space to the seconds elapsed since the setup.
     */
    method Ticks(env: Env) returns (crash: Option<Crash>)
      requires Valid() && slotname.Some? && stop != ReplacedByTrue
      modifies progress, this`stop, this`clock
      ensures Valid() && stop != ReplacedByTrue
      ensures old(progress.Bounded()) ==> progress.Bounded()
      ensures progress.spaces == old(progress.spaces)
      ensures crash.Some? ==> crash.value == NameError && conditionFlag && old(clock) < deadline && !conditionReached
      ensures crash.None? ==> clock >= deadline || stop == IsSet || conditionReached
      ensures env.stopAt.None? ==> stop == old(stop)
      ensures crash.None? && old(clock) < clock && slotname.value in progress.spaces && runtimeSeconds - deadline + clock >= 0 ==>
                progress.spaceLogger[slotname.value] == Min(runtimeSeconds - deadline + clock, progress.spaces[slotname.value])
    {
      var start := clock;
      while clock < deadline && !conditionReached
        invariant Valid() && stop != ReplacedByTrue && clock >= start
        invariant old(progress.Bounded()) ==> progress.Bounded()
        invariant progress.spaces == old(progress.spaces)
        invariant env.stopAt.None? ==> stop == old(stop)
        invariant start < clock && slotname.value in progress.spaces && runtimeSeconds - deadline + clock >= 0 ==>
                    progress.spaceLogger[slotname.value] == Min(runtimeSeconds - deadline + clock, progress.spaces[slotname.value])
        decreases deadline - clock
      {
        var s := PollStop(env);
        if s.value {
          return None;
        }
        if conditionFlag {
          return ConditionChecker(None, false);
        }
        Tick();
      }
      return None;
    }

    /** One tick's progress (lines 117-123): the space is set to the seconds elapsed since the setup, then a second passes. */
    method Tick()
      requires Valid() && slotname.Some?
      modifies progress, this`clock
      ensures Valid()
      ensures clock == old(clock) + 1
      ensures old(progress.Bounded()) ==> progress.Bounded()
      ensures progress.spaces == old(progress.spaces)
      ensures slotname.value in progress.spaces && runtimeSeconds - deadline + clock >= 0 ==>
                progress.spaceLogger[slotname.value] == Min(runtimeSeconds - deadline + clock, progress.spaces[slotname.value])
    {
      var diff := runtimeSeconds - (deadline - clock) + 1;
      if diff >= 0 {
        progress.SetSpaceValue(slotname.value, diff);
      }
      clock := clock + 1;
    }

    /**
     * The stop-and-wait checkpoint (lines 135-141): MS_STOPPED_FOR_WAITING, one second, then one
     * poll per second until the operator's go-ahead or a stop. With neither ever coming the
     * runner polls forever.
     */
    method StopAndWait(env: Env) returns (hangs: bool)
      requires stop != ReplacedByTrue
      modifies this`stop, this`clock, this`events
      ensures stop != ReplacedByTrue
      ensures events == old(events) + [MsStoppedForWaiting]
      ensures hangs <==> env.ackAt.None? && env.stopAt.None? && old(stop) == Cleared
      ensures env.stopAt.None? ==> stop == old(stop)
      ensures !hangs ==> clock > old(clock) && ((env.ackAt.Some? && clock >= env.ackAt.value) || stop == IsSet)
    {
      events := events + [MsStoppedForWaiting];
      clock := clock + 1;
      if env.ackAt.None? && env.stopAt.None? && stop == Cleared {
        return true;
      }
      var bound := if env.ackAt.Some? then env.ackAt.value else if env.stopAt.Some? then env.stopAt.value else clock;
      while !(env.ackAt.Some? && clock >= env.ackAt.value)
        invariant stop != ReplacedByTrue && clock > old(clock)
        invariant env.ackAt.None? && env.stopAt.None? ==> stop == IsSet
        invariant events == old(events) + [MsStoppedForWaiting]
        invariant env.stopAt.None? ==> stop == old(stop)
        decreases bound - clock
      {
        var s := PollStop(env);
        if s.value {
          return false;
        }
        clock := clock + 1;
      }
      return false;
    }

    /**
     * `reset_flags_and_devices`: the algorithm, Arduino and camera flags and the three gates go
     * off, CAMERA_LIGHTSWITCHING is written False, and camera, Arduino, MFC and algorithm manager
     * are stopped in that order. The condition and stop-and-wait flags are left as they are.
     */
    method ResetFlagsAndDevices()
      modifies this`ends, this`gates, this`stops
      ensures ends == old(ends).(algFlag := false, arduinoFlag := false, camFlag := false,
                                 writes := old(ends).writes + [StoreWrite("CAMERA_LIGHTSWITCHING", VFlag(false))])
      ensures gates == Gates(false, false, false)
      ensures stops == old(stops) + [CameraEnd, ArduinoEnd, MfcEnd, AlgManEnd]
    {
      ends := ends.(algFlag := false, arduinoFlag := false, camFlag := false);
      gates := Gates(false, false, false);
      ends := ends.(writes := ends.writes + [StoreWrite("CAMERA_LIGHTSWITCHING", VFlag(false))]);
      stops := stops + [CameraEnd, ArduinoEnd, MfcEnd, AlgManEnd];
    }

    /** Lines 146-147: the slot's space is forced to its target; a slot without a space cannot be unpacked. */
    method FinishSlot() returns (crash: Option<Crash>)
      requires Valid() && slotname.Some?
      modifies progress
      ensures Valid()
      ensures crash.Some? <==> slotname.value !in old(progress.spaces)
      ensures crash.Some? ==> crash.value == UnpackError
      ensures progress.spaces == old(progress.spaces)
      ensures crash.None? ==> progress.spaceLogger == old(progress.spaceLogger)[slotname.value := progress.spaces[slotname.value]]
      ensures old(progress.Bounded()) ==> progress.Bounded()
    {
      var p := progress.SpaceProgress(slotname.value);
      if p.None? {
        return Some(UnpackError);
      }
      progress.SetSpaceValue(slotname.value, p.value.1);
      return None;
    }

    /** Lines 151-157: reset, purge every progress space, then MS_ENDED; with no slot ever set up, `self.slotname` raises first. */
    method EndMeasurement() returns (crash: Option<Crash>)
      requires Valid()
      modifies progress, this`ends, this`gates, this`stops, this`events
      ensures Valid()
      ensures crash.Some? <==> slotname.None?
      ensures crash.Some? ==> crash.value == Crash.AttributeError && events == old(events)
      ensures crash.None? ==> progress.spaces == map[] && events == old(events) + [MsEnded]
                              && EndedCount(events) == EndedCount(old(events)) + 1
      ensures !ends.algFlag && !ends.arduinoFlag && !ends.camFlag && gates == Gates(false, false, false)
      ensures stops == old(stops) + [CameraEnd, ArduinoEnd, MfcEnd, AlgManEnd]
    {
      ResetFlagsAndDevices();
      if slotname.None? {
        return Some(Crash.AttributeError);
      }
      progress.DelScorespace(slotname.value, true);
      EndedCountSnoc(events, MsEnded);
      events := events + [MsEnded];
      return None;
    }

    /**
     * One pass of the loop of `run` (lines 85-149), entered with the stop cleared: the slot is
     * set up, run and finished (`Next`), or the stop is found set (`Done`), or the thread
     * raises or hangs (`Exit`).
     */
    method RunSlot(register: map<string, ResSpace>, env: Env) returns (step: Step)
      requires Valid() && stop == Cleared
      modifies this, progress
      ensures Valid()
      ensures EndedCount(events) == EndedCount(old(events))
      ensures |slots| <= |old(slots)|
      ensures step.Next? ==> stop != ReplacedByTrue && |slots| < |old(slots)| && (env.stopAt.None? ==> stop == Cleared)
      ensures step.Done? ==> stop == IsSet && (env.stopAt.None? ==> slots == [])
      ensures step.Exit? ==> !step.outcome.Ended?
    {
      var c := SetupSlotScenario(register);
      if c.Some? {
        return Exit(Crashed(c.value));
      }
      step := EnterSlot(env);
    }

    /** Lines 87-147 once the slot is set up: the stop is polled, then the slot is played. */
    method EnterSlot(env: Env) returns (step: Step)
      requires Valid() && (stop != IsSet ==> slotname.Some?)
      modifies this`conditionReached, this`stop, this`clock, this`events, this`ends, this`gates, this`stops, this`cameraTasks, progress
      ensures Valid()
      ensures EndedCount(events) == EndedCount(old(events))
      ensures slots == old(slots)
      ensures step.Next? ==> old(stop) == Cleared && stop != ReplacedByTrue && (env.stopAt.None? ==> stop == Cleared)
      ensures step.Done? ==> stop == IsSet && (env.stopAt.None? ==> old(stop) == IsSet)
      ensures step.Exit? ==> !step.outcome.Ended?
    {
      var s := PollStop(env);
      if s.Err? {
        return Exit(Crashed(s.error));
      }
      if s.value {
        ResetFlagsAndDevices();
        return Done;
      }
      step := PlaySlot(env);
    }

    /** Lines 94-147 for a slot that is set up: start the endpoints, tick, close the slot. */
    method PlaySlot(env: Env) returns (step: Step)
      requires Valid() && slotname.Some? && stop == Cleared
      modifies this`conditionReached, this`stop, this`clock, this`events, this`ends, this`gates, this`stops, this`cameraTasks, progress
      ensures Valid()
      ensures EndedCount(events) == EndedCount(old(events))
      ensures slots == old(slots)
      ensures step.Next? ==> stop != ReplacedByTrue
      ensures step.Done? ==> stop == IsSet
      ensures step.Exit? ==> !step.outcome.Ended?
      ensures env.stopAt.None? ==> stop == old(stop)
    {
      StartEndpoints();
      var c := Ticks(env);
      if c.Some? {
        return Exit(Crashed(c.value));
      }
      step := CloseSlot(env);
    }

    /**
     * Lines 125-147, after the ticks: the condition flag is cleared, a stop ends the pass, a
     * stop-and-wait slot waits, the endpoints are reset and the slot's space is completed.
     */
    method CloseSlot(env: Env) returns (step: Step)
      requires Valid() && slotname.Some? && stop != ReplacedByTrue
      modifies this`conditionReached, this`stop, this`clock, this`events, this`ends, this`gates, this`stops, progress
      ensures Valid()
      ensures EndedCount(events) == EndedCount(old(events))
      ensures slots == old(slots)
      ensures step.Next? ==> stop != ReplacedByTrue
      ensures step.Done? ==> stop == IsSet
      ensures step.Exit? ==> !step.outcome.Ended?
      ensures env.stopAt.None? ==> stop == old(stop)
    {
      if conditionReached {
        conditionReached := false;
      }
      var s := PollStop(env);
      if s.value {
        ResetFlagsAndDevices();
        return Done;
      }
      var hangs := WaitIfFlagged(env);
      if hangs {
        return Exit(Hangs);
      }
      ResetFlagsAndDevices();
      var c := FinishSlot();
      if c.Some? {
        return Exit(Crashed(c.value));
      }
      return Next;
    }

    /** Lines 135-141: a stop-and-wait slot waits for the acknowledgement or the stop. */
    method WaitIfFlagged(env: Env) returns (hangs: bool)
      requires stop != ReplacedByTrue
      modifies this`stop, this`clock, this`events
      ensures stop != ReplacedByTrue
      ensures EndedCount(events) == EndedCount(old(events))
      ensures events == if stopwaitFlag then old(events) + [MsStoppedForWaiting] else old(events)
      ensures hangs <==> stopwaitFlag && env.ackAt.None? && env.stopAt.None? && old(stop) == Cleared
      ensures env.stopAt.None? ==> stop == old(stop)
    {
      hangs := false;
      if stopwaitFlag {
        EndedCountSnoc(events, MsStoppedForWaiting);
        hangs := StopAndWait(env);
      }
    }

    /**
     * `run`: slot after slot until the stop is set. It ends with reset, purge and one MS_ENDED,
     * or dies with the first exception, or polls forever at a stop-and-wait nobody answers.
     * Without an outside stop, an ended run has consumed every slot.
     */
    method Run(register: map<string, ResSpace>, env: Env) returns (outcome: Outcome)
      requires Valid() && stop == Cleared
      modifies this, progress
      ensures Valid()
      ensures outcome.Ended? ==>
                && EndedCount(events) == EndedCount(old(events)) + 1 && events[|events| - 1] == MsEnded
                && progress.spaces == map[]
                && !ends.algFlag && !ends.arduinoFlag && !ends.camFlag && gates == Gates(false, false, false)
                && |stops| >= 4 && stops[|stops| - 4..] == [CameraEnd, ArduinoEnd, MfcEnd, AlgManEnd]
                && stop == IsSet
                && (env.stopAt.None? ==> slots == [])
      ensures !outcome.Ended? ==> EndedCount(events) == EndedCount(old(events))
      ensures |slots| <= |old(slots)|
    {
      while true
        invariant Valid() && (stop == Cleared || stop == IsSet)
        invariant env.stopAt.None? && stop == IsSet ==> slots == []
        invariant EndedCount(events) == EndedCount(old(events))
        invariant |slots| <= |old(slots)|
        decreases |slots|
      {
        var s := PollStop(env);
        if s.value {
          break;
        }
        var step := RunSlot(register, env);
        if step.Exit? {
          return step.outcome;
        }
        if step.Done? {
          break;
        }
      }
      var c := EndMeasurement();
      if c.Some? {
        return Crashed(c.value);
      }
      return Ended;
    }
  }
}
