/**
 * The configuration manager: per device a map of setting -> value, the standard settings
 * filled in on construction, validated single-setting changes that trigger a save, and the
 * JSON-side form (device value -> setting name -> value) with its inverse used on load.
 */
module Configuration {
  import opened Wrappers

  datatype Device = Camera | Mfc

  datatype CamSetting = AutoWhite | ExposureTime | Gain | Saturation
  datatype MfcSetting = MassFlow

  /** A setting key: members of two different Enum classes, never equal to each other. */
  datatype Setting = Cam(c: CamSetting) | Flow(m: MfcSetting)

  /** The values a caller can pass; `isinstance(v, (int, float))` also accepts bool. */
  datatype Val = VInt(i: int) | VFloat(r: real) | VBool(b: bool) | VStr(s: string) | VNone

  type Config = map<Setting, Val>

  /** The JSON-side form of the configurations. */
  type Json = map<string, map<string, Val>>

  /** `isinstance(value, (int, float))`. */
  predicate IsNumber(v: Val)
  {
    v.VInt? || v.VFloat? || v.VBool?
  }

  /** `Devices.value`. */
  function DeviceValue(d: Device): string
  {
    match d
    case Camera => "Camera"
    case Mfc => "MFC"
  }

  /** `Enum.name` of a setting. */
  function SettingName(s: Setting): string
  {
    match s
    case Cam(AutoWhite) => "AUTOWHITE"
    case Cam(ExposureTime) => "EXPOSURETIME"
    case Cam(Gain) => "GAIN"
    case Cam(Saturation) => "SATURATION"
    case Flow(MassFlow) => "MASSFLOW"
  }

  /** `Devices(value)`: None where the source raises ValueError. */
  function ParseDevice(s: string): (r: Option<Device>)
    ensures r.Some? <==> s in DeviceValues
    ensures r.Some? ==> DeviceValue(r.value) == s
  {
    if s == "Camera" then Some(Camera)
    else if s == "MFC" then Some(Mfc)
    else None
  }

  /** A CameraSettings member by name if there is one, else an MFCSettings member; None where `getattr` raises. */
  function ParseSetting(s: string): (r: Option<Setting>)
    ensures r.Some? <==> s in SettingNames
    ensures r.Some? ==> SettingName(r.value) == s
  {
    if s == "AUTOWHITE" then Some(Cam(AutoWhite))
    else if s == "EXPOSURETIME" then Some(Cam(ExposureTime))
    else if s == "GAIN" then Some(Cam(Gain))
    else if s == "SATURATION" then Some(Cam(Saturation))
    else if s == "MASSFLOW" then Some(Flow(MassFlow))
    else None
  }

  const DeviceValues: set<string> := {"Camera", "MFC"}
  const AllDevices: set<Device> := {Camera, Mfc}
  const SettingNames: set<string> := {"AUTOWHITE", "EXPOSURETIME", "GAIN", "SATURATION", "MASSFLOW"}
  const AllSettings: set<Setting> := {Cam(AutoWhite), Cam(ExposureTime), Cam(Gain), Cam(Saturation), Flow(MassFlow)}

  lemma ParseDeviceValue(d: Device)
    ensures ParseDevice(DeviceValue(d)) == Some(d)
    ensures d in AllDevices && DeviceValue(d) in DeviceValues
  {
  }

  lemma ParseSettingName(s: Setting)
    ensures ParseSetting(SettingName(s)) == Some(s)
    ensures s in AllSettings && SettingName(s) in SettingNames
  {
    match s
    case Cam(AutoWhite) =>
    case Cam(ExposureTime) => assert |SettingName(s)| == 12;
    case Cam(Gain) => assert |SettingName(s)| == 4;
    case Cam(Saturation) => assert |SettingName(s)| == 10;
    case Flow(MassFlow) => assert |SettingName(s)| == 8;
  }

  /** The standard camera settings (lines 48-53). */
  const CameraStandard: Config := map[Cam(AutoWhite) := VInt(1), Cam(ExposureTime) := VInt(150), Cam(Gain) := VInt(20), Cam(Saturation) := VInt(0)]

  /** The standard MFC settings (line 56). */
  const MfcStandard: Config := map[Flow(MassFlow) := VInt(10)]

  /** The inner comprehension of `_save_configuration`: setting name -> value. */
  function SerializeConfig(c: Config): map<string, Val>
  {
    map n | n in SettingNames && ParseSetting(n).value in c :: c[ParseSetting(n).value]
  }

  /** `_save_configuration`'s comprehension (lines 116-119): device value -> setting name -> value. */
  function Serialize(cs: map<Device, Config>): Json
  {
    map n | n in DeviceValues && ParseDevice(n).value in cs :: SerializeConfig(cs[ParseDevice(n).value])
  }

  /** The inner comprehension of `load_configuration`; None when a name is no setting. */
  function DeserializeConfig(m: map<string, Val>): (r: Option<Config>)
    ensures r.Some? <==> forall n :: n in m ==> ParseSetting(n).Some?
  {
    if forall n :: n in m ==> n in SettingNames then
      Some(map s | s in AllSettings && SettingName(s) in m :: m[SettingName(s)])
    else None
  }

  /** `load_configuration`'s comprehension (lines 140-147); None when any key fails to parse (the load then logs and stops). */
  function Deserialize(j: Json): (r: Option<map<Device, Config>>)
    ensures r.Some? <==> forall n :: n in j ==> ParseDevice(n).Some? && DeserializeConfig(j[n]).Some?
  {
    if forall n :: n in j ==> n in DeviceValues && DeserializeConfig(j[n]).Some? then
      Some(map d | d in AllDevices && DeviceValue(d) in j :: DeserializeConfig(j[DeviceValue(d)]).value)
    else None
  }

  /** Saving then loading gives back one device's settings. */
  lemma ConfigRoundTrip(c: Config)
    ensures DeserializeConfig(SerializeConfig(c)) == Some(c)
  {
    var m := SerializeConfig(c);
    assert forall n :: n in m ==> n in SettingNames;
    var r := DeserializeConfig(m).value;
    forall s ensures s in r <==> s in c {
      ParseSettingName(s);
    }
    forall s | s in c ensures r[s] == c[s] {
      ParseSettingName(s);
    }
    assert r == c;
  }

  /** Saving then loading gives back the configurations. */
  lemma {:induction false} RoundTrip(cs: map<Device, Config>)
    ensures Deserialize(Serialize(cs)) == Some(cs)
  {
    var j := Serialize(cs);
    forall n | n in j ensures n in DeviceValues && DeserializeConfig(j[n]).Some? {
      ConfigRoundTrip(cs[ParseDevice(n).value]);
    }
    var r := Deserialize(j).value;
    forall d ensures d in r <==> d in cs {
      ParseDeviceValue(d);
    }
    forall d | d in cs ensures r[d] == cs[d] {
      ParseDeviceValue(d);
      ConfigRoundTrip(cs[d]);
    }
    assert r == cs;
  }

  /** Loading then saving gives back one device's entry of the file. */
  lemma ConfigBack(m: map<string, Val>)
    requires DeserializeConfig(m).Some?
    ensures SerializeConfig(DeserializeConfig(m).value) == m
  {
    var c := DeserializeConfig(m).value;
    var k := SerializeConfig(c);
    forall n | n in SettingNames ensures n in k <==> n in m {
      ParseSettingName(ParseSetting(n).value);
    }
    forall n | n in m ensures n in k && k[n] == m[n] {
      ParseSettingName(ParseSetting(n).value);
    }
  }

  /** Loading then saving gives back the file's contents, for any file that loads. */
  lemma {:induction false} RoundTripBack(j: Json)
    requires Deserialize(j).Some?
    ensures Serialize(Deserialize(j).value) == j
  {
    var cs := Deserialize(j).value;
    var k := Serialize(cs);
    forall n | n in DeviceValues ensures n in k <==> n in j {
      ParseDeviceValue(ParseDevice(n).value);
    }
    forall n | n in j ensures n in k && k[n] == j[n] {
      ParseDeviceValue(ParseDevice(n).value);
      ConfigBack(j[n]);
    }
  }

  class ConfigurationManager {
    /** None until the standard settings fill it in. */
    var configurations: map<Device, Option<Config>>
    /** What each automatic save wrote, oldest first (the file write itself is I/O). */
    var saves: seq<Json>

    ghost predicate Valid()
      reads this
    {
      && Camera in configurations && Mfc in configurations
      && forall d :: d in configurations ==> configurations[d].Some?
    }

    /** The configurations as loaded maps (every entry is filled once valid). */
    function Current(): (r: map<Device, Config>)
      reads this
      requires Valid()
      ensures r.Keys == configurations.Keys
      ensures forall d :: d in r ==> configurations[d] == Some(r[d])
    {
      map d | d in configurations :: configurations[d].value
    }

    /** `__new__` (line 35) followed by `__init__`'s `_create_standard_settings`. */
    constructor ()
      ensures Valid()
      ensures configurations == map[Camera := Some(CameraStandard), Mfc := Some(MfcStandard)] && saves == []
    {
      configurations := map[Camera := None, Mfc := None];
      saves := [];
      new;
      CreateStandardSettings();
    }

    /** `_create_standard_settings`: fills only entries that are still None. */
    method CreateStandardSettings()
      modifies this
      ensures configurations.Keys == old(configurations).Keys + {Camera, Mfc}
      ensures Camera in old(configurations) && old(configurations)[Camera].Some? ==> configurations[Camera] == old(configurations)[Camera]
      ensures !(Camera in old(configurations) && old(configurations)[Camera].Some?) ==> configurations[Camera] == Some(CameraStandard)
      ensures Mfc in old(configurations) && old(configurations)[Mfc].Some? ==> configurations[Mfc] == old(configurations)[Mfc]
      ensures !(Mfc in old(configurations) && old(configurations)[Mfc].Some?) ==> configurations[Mfc] == Some(MfcStandard)
      ensures forall d :: d in old(configurations) && old(configurations)[d].Some? ==> configurations[d] == old(configurations)[d]
      ensures saves == old(saves)
    {
      if Camera !in configurations || configurations[Camera].None? {
        configurations := configurations[Camera := Some(CameraStandard)];
      }
      if Mfc !in configurations || configurations[Mfc].None? {
        configurations := configurations[Mfc := Some(MfcStandard)];
      }
    }

    /** `get_configuration`: a copy of the device's settings, None for a device not in the map. */
    function GetConfiguration(d: Device): (r: Option<Config>)
      reads this
      requires Valid()
      ensures r.None? <==> d !in configurations
      ensures r.Some? ==> Some(r.value) == configurations[d]
    {
      if d in configurations then configurations[d] else None
    }

    /**
     * `change_configuration`: only an existing setting of a known device, and only to an int or
     * float (bool included); a change saves the configurations. Anything else only warns.
     */
    method ChangeConfiguration(d: Device, s: Setting, v: Val) returns (warned: bool)
      requires Valid()
      modifies this
      ensures Valid()
      ensures warned <==> !(d in old(configurations) && s in old(configurations)[d].value && IsNumber(v))
      ensures warned ==> configurations == old(configurations) && saves == old(saves)
      ensures !warned ==> configurations == old(configurations)[d := Some(old(configurations)[d].value[s := v])]
                          && saves == old(saves) + [Serialize(Current())]
    {
      if d in configurations && s in configurations[d].value && IsNumber(v) {
        configurations := configurations[d := Some(configurations[d].value[s := v])];
        saves := saves + [Serialize(Current())];
        return false;
      }
      return true;
    }

    /**
     * `load_configuration` given the file's first JSON object (None when the file is missing):
     * the loaded devices replace the current ones, the others stay; a key that does not parse
     * aborts the whole load, which is only logged.
     */
    method LoadConfiguration(file: Option<Json>) returns (failed: bool)
      requires Valid()
      modifies this
      ensures Valid()
      ensures failed <==> file.None? || Deserialize(file.value).None?
      ensures failed ==> configurations == old(configurations)
      ensures !failed ==> Current() == old(Current()) + Deserialize(file.value).value
      ensures saves == old(saves)
    {
      if file.None? {
        return true;
      }
      var loaded := Deserialize(file.value);
      if loaded.None? {
        return true;
      }
      var m := loaded.value;
      MergeLoaded(configurations, m);
      configurations := configurations + map d | d in m :: Some(m[d]);
      return false;
    }
  }

  /** Merging loaded settings into filled entries leaves every entry filled, and the filled map is the old one updated by the loaded one. */
  lemma MergeLoaded(cs: map<Device, Option<Config>>, m: map<Device, Config>)
    requires forall d :: d in cs ==> cs[d].Some?
    ensures var cs' := cs + map d | d in m :: Some(m[d]);
            && (forall d :: d in cs' ==> cs'[d].Some?)
            && (map d | d in cs' :: cs'[d].value) == (map d | d in cs :: cs[d].value) + m
  {
    var cs' := cs + map d | d in m :: Some(m[d]);
    var left, right := map d | d in cs' :: cs'[d].value, (map d | d in cs :: cs[d].value) + m;
    assert left.Keys == right.Keys;
    forall d | d in left
      ensures left[d] == right[d]
    {
      if d in m {
        assert cs'[d] == Some(m[d]);
      }
    }
  }

  /** The singleton: `__new__` builds the entries once, while `__init__` runs on every construction and refills only None entries. */
  class ConfigurationRegistry {
    var instance: ConfigurationManager?

    constructor ()
      ensures instance == null
    {
      instance := null;
    }

    method Get() returns (c: ConfigurationManager)
      requires instance != null ==> instance.Valid()
      modifies this, instance
      ensures old(instance) != null ==> c == old(instance) && c.configurations == old(instance.configurations) && c.saves == old(instance.saves)
      ensures old(instance) == null ==> fresh(c) && c.configurations == map[Camera := Some(CameraStandard), Mfc := Some(MfcStandard)]
      ensures instance == c && c.Valid()
    {
      if instance == null {
        instance := new ConfigurationManager();
      } else {
        instance.CreateStandardSettings();
        assert instance.configurations == old(instance.configurations);
      }
      c := instance;
    }
  }
}
