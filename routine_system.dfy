/**
 * The routine system: an ordered list of slots, each with a runtime, a list of parameter
 * settings (each with its subroutines), an optional start condition and interaction; lookups
 * by uid and by parameter; condition evaluation; and the parameter-setting factory.
 */
module Routines {
  import opened Wrappers

  datatype Parameter = Mfc | Pump | Camera | Algorithms | LightMode | Temperature | ResultNumber

  datatype ConditionType = GreaterThan | LessThan | EqualTo

  datatype Light = AlwaysOn | OnWhenNeeded | AlwaysOff

  datatype Interaction = StopAndWait

  datatype AlgorithmType = BubbleSize | PelletSize

  /** A keyword-argument value; the dataclasses do not check their fields' types. */
  datatype Arg = AReal(r: real) | AInt(i: int) | ABool(b: bool) | ANone

  /** The per-parameter dataclasses. */
  datatype SettingValue =
    | MaFlCo(massflow: Arg, interrupt: Arg)
    | PumpSetting(volume: Arg, pumpInterval: Arg)
    | CameraSetting(imgCount: Arg, cameraInterval: Arg)
    | TemperatureSetting(target: Arg)
    | LightSetting(mode: Light)
    | AlgorithmSetting(algorithm: AlgorithmType)

  datatype Condition = Condition(parameter: Parameter, conditionType: ConditionType, targetValue: real)

  datatype Subroutine = Subroutine(interval: real, duration: real, setting: SettingValue)

  datatype Setting = Setting(name: Parameter, setting: SettingValue, subroutines: seq<Subroutine>)

  /** A slot's uid stands for its uuid4 string: fresh for every slot created. */
  type Uid = nat

  datatype Slot = Slot(name: string, runtime: int, settings: seq<Setting>,
                       condition: Option<Condition>, interaction: Option<Interaction>, uid: Uid)

  /**
   * What the source raises: `raise self.logger.warning(...)` re-raises the logger's None result
   * (a TypeError); a dataclass given a wrong keyword (TypeError); `None.parameter` (AttributeError).
   */
  datatype Error = TypeError | AttributeError

  /** `ParameterCondition.evaluate`: strict comparisons and exact equality against the target. */
  function Evaluate(c: Condition, v: real): (r: bool)
    ensures c.conditionType == GreaterThan ==> (r <==> v > c.targetValue)
    ensures c.conditionType == LessThan ==> (r <==> v < c.targetValue)
    ensures c.conditionType == EqualTo ==> (r <==> v == c.targetValue)
  {
    match c.conditionType
    case GreaterThan => v > c.targetValue
    case LessThan => v < c.targetValue
    case EqualTo => v == c.targetValue
  }

  /** For one value and target, exactly one of the three condition types holds. */
  lemma EvaluateExactlyOne(p: Parameter, target: real, v: real)
    ensures var g := Evaluate(Condition(p, GreaterThan, target), v);
            var l := Evaluate(Condition(p, LessThan, target), v);
            var e := Evaluate(Condition(p, EqualTo, target), v);
            (g || l || e) && !(g && l) && !(g && e) && !(l && e)
  {
  }

  /** `getattr` on a setting dataclass: the field of that name, if it has one. */
  function Field(v: SettingValue, f: string): Option<Arg>
  {
    match v
    case MaFlCo(m, i) => if f == "massflow" then Some(m) else if f == "interrupt" then Some(i) else None
    case PumpSetting(vol, iv) => if f == "volume" then Some(vol) else if f == "interval" then Some(iv) else None
    case CameraSetting(c, iv) => if f == "img_count" then Some(c) else if f == "interval" then Some(iv) else None
    case TemperatureSetting(t) => if f == "target" then Some(t) else None
    case LightSetting(_) => None
    case AlgorithmSetting(_) => None
  }

  /** The parameter a setting dataclass belongs to. */
  function KindOf(v: SettingValue): Parameter
  {
    match v
    case MaFlCo(_, _) => Mfc
    case PumpSetting(_, _) => Pump
    case CameraSetting(_, _) => Camera
    case TemperatureSetting(_) => Temperature
    case LightSetting(_) => LightMode
    case AlgorithmSetting(_) => Algorithms
  }

  /** The parameters `create_parameter_setting` has a dataclass for. */
  const Factory: set<Parameter> := {Mfc, Pump, Camera, Temperature}

  /** The fields a dataclass requires. */
  function Required(p: Parameter): set<string>
  {
    match p
    case Mfc => {"massflow"}
    case Pump => {"volume"}
    case Camera => {"img_count", "interval"}
    case Temperature => {"target"}
    case _ => {}
  }

  /** The fields a dataclass accepts. */
  function Accepted(p: Parameter): set<string>
  {
    match p
    case Mfc => {"massflow", "interrupt"}
    case Pump => {"volume", "interval"}
    case Camera => {"img_count", "interval"}
    case Temperature => {"target"}
    case _ => {}
  }

  /**
   * `create_parameter_setting(param, **kwargs)`: MFC, PUMP, CAMERA and TEMPERATURE build their
   * dataclass (with its defaults); any other parameter, an unknown keyword or a missing
   * required one raises.
   */
  function CreateParameterSetting(p: Parameter, kwargs: map<string, Arg>): (r: Result<SettingValue, Error>)
    ensures r.Ok? <==> p in Factory && Required(p) <= kwargs.Keys <= Accepted(p)
    ensures r.Err? ==> r.error == TypeError
  {
    if p in Factory && Required(p) <= kwargs.Keys <= Accepted(p) then
      if p == Mfc then Ok(MaFlCo(kwargs["massflow"], if "interrupt" in kwargs then kwargs["interrupt"] else ABool(false)))
      else if p == Pump then Ok(PumpSetting(kwargs["volume"], if "interval" in kwargs then kwargs["interval"] else ANone))
      else if p == Camera then Ok(CameraSetting(kwargs["img_count"], kwargs["interval"]))
      else Ok(TemperatureSetting(kwargs["target"]))
    else Err(TypeError)
  }

  /** A built setting is of the requested kind, every keyword reads back, and the defaults fill the rest. */
  lemma CreateThenRead(p: Parameter, kwargs: map<string, Arg>, f: string)
    requires CreateParameterSetting(p, kwargs).Ok?
    ensures var v := CreateParameterSetting(p, kwargs).value;
            && KindOf(v) == p
            && (f in kwargs ==> Field(v, f) == Some(kwargs[f]))
            && (Field(v, f).Some? <==> f in Accepted(p))
            && (p == Mfc && f !in kwargs ==> f == "interrupt" ==> Field(v, f) == Some(ABool(false)))
            && (p == Pump && f !in kwargs ==> f == "interval" ==> Field(v, f) == Some(ANone))
  {
  }

  /** `_find_slot_by_uid`'s search: the first slot with that uid. */
  function SlotIndex(slots: seq<Slot>, uid: Uid): (r: Option<nat>)
    ensures r.Some? ==> r.value < |slots|
  {
    if slots == [] then None
    else if slots[|slots| - 1].uid == uid && SlotIndex(slots[..|slots| - 1], uid).None? then Some(|slots| - 1)
    else SlotIndex(slots[..|slots| - 1], uid)
  }

  /** The search finds the first match, and finds nothing only when no slot has the uid. */
  lemma {:induction false} SlotIndexFacts(slots: seq<Slot>, uid: Uid)
    ensures var r := SlotIndex(slots, uid);
            && (r.None? <==> forall j :: 0 <= j < |slots| ==> slots[j].uid != uid)
            && (r.Some? ==> r.value < |slots| && slots[r.value].uid == uid
                            && forall j :: 0 <= j < r.value ==> slots[j].uid != uid)
  {
    if slots != [] {
      SlotIndexFacts(slots[..|slots| - 1], uid);
    }
  }

  /** `_find_setting_in_slot`'s search: the first setting of that parameter. */
  function SettingIndex(settings: seq<Setting>, p: Parameter): (r: Option<nat>)
    ensures r.Some? ==> r.value < |settings|
  {
    if settings == [] then None
    else if settings[|settings| - 1].name == p && SettingIndex(settings[..|settings| - 1], p).None? then Some(|settings| - 1)
    else SettingIndex(settings[..|settings| - 1], p)
  }

  lemma {:induction false} SettingIndexFacts(settings: seq<Setting>, p: Parameter)
    ensures var r := SettingIndex(settings, p);
            && (r.None? <==> forall j :: 0 <= j < |settings| ==> settings[j].name != p)
            && (r.Some? ==> r.value < |settings| && settings[r.value].name == p
                            && forall j :: 0 <= j < r.value ==> settings[j].name != p)
  {
    if settings != [] {
      SettingIndexFacts(settings[..|settings| - 1], p);
    }
  }

  /** `_find_slot_by_uid`: the loop over the slots, returning at the first match; no match raises. */
  method FindSlot(slots: seq<Slot>, uid: Uid) returns (r: Result<nat, Error>)
    ensures r == (if SlotIndex(slots, uid).Some? then Ok(SlotIndex(slots, uid).value) else Err(TypeError))
  {
    var i := 0;
    while i < |slots|
      invariant 0 <= i <= |slots|
      invariant forall j :: 0 <= j < i ==> slots[j].uid != uid
    {
      if slots[i].uid == uid {
        SlotIndexFacts(slots, uid);
        return Ok(i);
      }
      i := i + 1;
    }
    SlotIndexFacts(slots, uid);
    return Err(TypeError);
  }

  /** `_find_setting_in_slot`: the loop over a slot's settings; no match raises. */
  method FindSetting(settings: seq<Setting>, p: Parameter) returns (r: Result<nat, Error>)
    ensures r == (if SettingIndex(settings, p).Some? then Ok(SettingIndex(settings, p).value) else Err(TypeError))
  {
    var i := 0;
    while i < |settings|
      invariant 0 <= i <= |settings|
      invariant forall j :: 0 <= j < i ==> settings[j].name != p
    {
      if settings[i].name == p {
        SettingIndexFacts(settings, p);
        return Ok(i);
      }
      i := i + 1;
    }
    SettingIndexFacts(settings, p);
    return Err(TypeError);
  }

  /** `delete_slot`'s comprehension: the slots whose uid differs, in order. */
  function WithoutSlot(slots: seq<Slot>, uid: Uid): seq<Slot>
  {
    if slots == [] then []
    else WithoutSlot(slots[..|slots| - 1], uid) + (if slots[|slots| - 1].uid != uid then [slots[|slots| - 1]] else [])
  }

  /** Deleting keeps exactly the other slots, never adds one, and leaves no slot with that uid. */
  lemma {:induction false} WithoutSlotFacts(slots: seq<Slot>, uid: Uid)
    ensures var r := WithoutSlot(slots, uid);
            && |r| <= |slots|
            && (forall s :: s in r <==> s in slots && s.uid != uid)
            && SlotIndex(r, uid).None?
  {
    if slots != [] {
      var init := slots[..|slots| - 1];
      WithoutSlotFacts(init, uid);
      assert slots == init + [slots[|slots| - 1]];
      var r := WithoutSlot(slots, uid);
      SlotIndexFacts(r, uid);
      assert forall j :: 0 <= j < |r| ==> r[j] in r;
    }
  }

  /**
   * Deleting works element by element in order: the result over a concatenation is the two
   * results concatenated, and a single slot stays exactly when its uid differs.
   */
  lemma {:induction false} WithoutSlotAppend(a: seq<Slot>, b: seq<Slot>, uid: Uid)
    ensures WithoutSlot(a + b, uid) == WithoutSlot(a, uid) + WithoutSlot(b, uid)
    ensures |b| == 1 ==> WithoutSlot(b, uid) == (if b[0].uid != uid then b else [])
    decreases |b|
  {
    if b != [] {
      var init := b[..|b| - 1];
      WithoutSlotAppend(a, init, uid);
      assert (a + b)[..|a + b| - 1] == a + init;
      assert (a + b)[|a + b| - 1] == b[|b| - 1];
    } else {
      assert a + b == a;
    }
  }

  /** `delete_setting_from_slot`'s comprehension: the settings of other parameters, in order. */
  function WithoutSetting(settings: seq<Setting>, p: Parameter): seq<Setting>
  {
    if settings == [] then []
    else WithoutSetting(settings[..|settings| - 1], p) + (if settings[|settings| - 1].name != p then [settings[|settings| - 1]] else [])
  }

  lemma {:induction false} WithoutSettingFacts(settings: seq<Setting>, p: Parameter)
    ensures var r := WithoutSetting(settings, p);
            && |r| <= |settings|
            && (forall s :: s in r <==> s in settings && s.name != p)
  {
    if settings != [] {
      var init := settings[..|settings| - 1];
      WithoutSettingFacts(init, p);
      assert settings == init + [settings[|settings| - 1]];
    }
  }

  /** Deleting settings works element by element in order, as `WithoutSlotAppend` states for slots. */
  lemma {:induction false} WithoutSettingAppend(a: seq<Setting>, b: seq<Setting>, p: Parameter)
    ensures WithoutSetting(a + b, p) == WithoutSetting(a, p) + WithoutSetting(b, p)
    ensures |b| == 1 ==> WithoutSetting(b, p) == (if b[0].name != p then b else [])
    decreases |b|
  {
    if b != [] {
      var init := b[..|b| - 1];
      WithoutSettingAppend(a, init, p);
      assert (a + b)[..|a + b| - 1] == a + init;
      assert (a + b)[|a + b| - 1] == b[|b| - 1];
    } else {
      assert a + b == a;
    }
  }

  /** `delete_subroutine_from_setting`'s comprehension: the subroutines not equal to the given one. */
  function WithoutSubroutine(subs: seq<Subroutine>, sub: Subroutine): seq<Subroutine>
  {
    if subs == [] then []
    else WithoutSubroutine(subs[..|subs| - 1], sub) + (if subs[|subs| - 1] != sub then [subs[|subs| - 1]] else [])
  }

  lemma {:induction false} WithoutSubroutineFacts(subs: seq<Subroutine>, sub: Subroutine)
    ensures var r := WithoutSubroutine(subs, sub);
            && |r| <= |subs|
            && (forall s :: s in r <==> s in subs && s != sub)
  {
    if subs != [] {
      var init := subs[..|subs| - 1];
      WithoutSubroutineFacts(init, sub);
      assert subs == init + [subs[|subs| - 1]];
    }
  }

  /** Deleting subroutines works element by element in order, as `WithoutSlotAppend` states for slots. */
  lemma {:induction false} WithoutSubroutineAppend(a: seq<Subroutine>, b: seq<Subroutine>, sub: Subroutine)
    ensures WithoutSubroutine(a + b, sub) == WithoutSubroutine(a, sub) + WithoutSubroutine(b, sub)
    ensures |b| == 1 ==> WithoutSubroutine(b, sub) == (if b[0] != sub then b else [])
    decreases |b|
  {
    if b != [] {
      var init := b[..|b| - 1];
      WithoutSubroutineAppend(a, init, sub);
      assert (a + b)[..|a + b| - 1] == a + init;
      assert (a + b)[|a + b| - 1] == b[|b| - 1];
    } else {
      assert a + b == a;
    }
  }

  /** One slot of `evaluate_conditions`: a missing condition raises, an absent value is skipped. */
  function Satisfied(slot: Slot, current: map<Parameter, real>): Result<bool, Error>
  {
    if slot.condition.None? then Err(AttributeError)
    else Ok(slot.condition.value.parameter in current && Evaluate(slot.condition.value, current[slot.condition.value.parameter]))
  }

  /** `evaluate_conditions` on the first slots: the names of the satisfied ones, in order. */
  function SatisfiedNames(slots: seq<Slot>, current: map<Parameter, real>): Result<seq<string>, Error>
  {
    if slots == [] then Ok([])
    else
      var prefix := SatisfiedNames(slots[..|slots| - 1], current);
      if prefix.Err? then prefix
      else
        var last := Satisfied(slots[|slots| - 1], current);
        if last.Err? then Err(last.error)
        else Ok(prefix.value + (if last.value then [slots[|slots| - 1].name] else []))
  }

  /**
   * The evaluation fails exactly when some slot has no condition; otherwise a slot's name is
   * listed exactly when some slot of that name has its parameter's value satisfy its condition.
   */
  lemma {:induction false} SatisfiedNamesFacts(slots: seq<Slot>, current: map<Parameter, real>)
    ensures var r := SatisfiedNames(slots, current);
            && (r.Err? <==> exists j :: 0 <= j < |slots| && slots[j].condition.None?)
            && (r.Ok? ==> |r.value| <= |slots|)
            && (r.Ok? ==> forall n :: n in r.value <==>
                  exists j :: 0 <= j < |slots| && slots[j].name == n && Satisfied(slots[j], current) == Ok(true))
  {
    if slots != [] {
      var init := slots[..|slots| - 1];
      var k := |slots| - 1;
      SatisfiedNamesFacts(init, current);
      assert forall j :: 0 <= j < k ==> slots[j] == init[j];
      var r := SatisfiedNames(slots, current);
      if r.Ok? {
        forall n ensures n in r.value <==> exists j :: 0 <= j < |slots| && slots[j].name == n && Satisfied(slots[j], current) == Ok(true) {
          if n in r.value && n !in SatisfiedNames(init, current).value {
            assert slots[k].name == n && Satisfied(slots[k], current) == Ok(true);
          }
        }
      }
    }
  }

  /**
   * The evaluation works slot by slot in order: over a concatenation it fails with the first
   * part's failure, else the second's, else it lists the first part's names followed by the
   * second's; a single slot gives its failure, or its name exactly when it is satisfied.
   */
  lemma {:induction false} SatisfiedNamesAppend(a: seq<Slot>, b: seq<Slot>, current: map<Parameter, real>)
    ensures SatisfiedNames(a + b, current) ==
              if SatisfiedNames(a, current).Err? then SatisfiedNames(a, current)
              else if SatisfiedNames(b, current).Err? then SatisfiedNames(b, current)
              else Ok(SatisfiedNames(a, current).value + SatisfiedNames(b, current).value)
    ensures |b| == 1 ==>
              SatisfiedNames(b, current) ==
                match Satisfied(b[0], current)
                case Err(e) => Err(e)
                case Ok(v) => Ok(if v then [b[0].name] else [])
    decreases |b|
  {
    if b != [] {
      var init := b[..|b| - 1];
      var x := b[|b| - 1];
      SatisfiedNamesAppend(a, init, current);
      assert (a + b)[..|a + b| - 1] == a + init;
      assert (a + b)[|a + b| - 1] == x;
      var ra, ri := SatisfiedNames(a, current), SatisfiedNames(init, current);
      if |b| == 1 {
        assert ri == Ok([]);
        assert SatisfiedNames(b, current) ==
                 match Satisfied(x, current)
                 case Err(e) => Err(e)
                 case Ok(v) => Ok([] + if v then [x.name] else []);
        assert forall t: seq<string> :: [] + t == t;
      }
      if ra.Ok? && ri.Ok? && Satisfied(x, current).Ok? {
        var tail := if Satisfied(x, current).value then [x.name] else [];
        assert SatisfiedNames(b, current) == Ok(ri.value + tail);
        assert ra.value + ri.value + tail == ra.value + (ri.value + tail);
      } else if ra.Err? {
        assert SatisfiedNames(a + b, current) == ra;
      } else if ri.Err? {
        assert SatisfiedNames(b, current) == ri;
        assert SatisfiedNames(a + b, current) == ri;
      } else {
        assert SatisfiedNames(b, current) == Err(Satisfied(x, current).error);
        assert SatisfiedNames(a + b, current) == Err(Satisfied(x, current).error);
      }
    } else {
      assert a + b == a;
      var ra := SatisfiedNames(a, current);
      if ra.Ok? {
        assert ra.value + [] == ra.value;
      }
    }
  }

  /** `evaluate_conditions`: the loop over the slots. */
  method EvaluateConditions(slots: seq<Slot>, current: map<Parameter, real>) returns (r: Result<seq<string>, Error>)
    ensures r == SatisfiedNames(slots, current)
  {
    var names: seq<string> := [];
    var i := 0;
    while i < |slots|
      invariant 0 <= i <= |slots|
      invariant SatisfiedNames(slots[..i], current) == Ok(names)
    {
      assert slots[..i + 1][..i] == slots[..i];
      if slots[i].condition.None? {
        assert SatisfiedNames(slots[..i + 1], current) == Err(AttributeError);
        SatisfiedPrefixErr(slots, current, i + 1);
        return Err(AttributeError);
      }
      var c := slots[i].condition.value;
      if c.parameter in current && Evaluate(c, current[c.parameter]) {
        assert SatisfiedNames(slots[..i + 1], current) == Ok(names + [slots[i].name]);
        names := names + [slots[i].name];
      } else {
        assert SatisfiedNames(slots[..i + 1], current) == Ok(names + []);
        assert names + [] == names;
      }
      i := i + 1;
    }
    assert slots[..i] == slots;
    return Ok(names);
  }

  /** Once a prefix fails, the whole evaluation fails with the same error. */
  lemma {:induction false} SatisfiedPrefixErr(slots: seq<Slot>, current: map<Parameter, real>, n: nat)
    requires n <= |slots| && SatisfiedNames(slots[..n], current).Err?
    ensures SatisfiedNames(slots, current) == SatisfiedNames(slots[..n], current)
    decreases |slots| - n
  {
    if n < |slots| {
      assert slots[..n + 1][..n] == slots[..n];
      SatisfiedPrefixErr(slots, current, n + 1);
    } else {
      assert slots[..n] == slots;
    }
  }

  /** Every slot uid is below the next one to hand out, and no two slots share a uid. */
  ghost predicate SlotsOk(slots: seq<Slot>, nextUid: Uid)
  {
    && (forall j :: 0 <= j < |slots| ==> slots[j].uid < nextUid)
    && (forall j, k :: 0 <= j < k < |slots| ==> slots[j].uid != slots[k].uid)
  }

  /** Replacing a slot by one with the same uid keeps the uids in order. */
  lemma ReplaceKeepsOk(slots: seq<Slot>, nextUid: Uid, i: nat, s: Slot)
    requires SlotsOk(slots, nextUid) && i < |slots| && s.uid == slots[i].uid
    ensures SlotsOk(slots[i := s], nextUid)
  {
  }

  /** Appending a slot whose uid is new and below the bound keeps the uids in order. */
  lemma AppendKeepsOk(t: seq<Slot>, last: Slot, nextUid: Uid)
    requires SlotsOk(t, nextUid) && last.uid < nextUid
    requires forall j :: 0 <= j < |t| ==> t[j].uid != last.uid
    ensures SlotsOk(t + [last], nextUid)
  {
  }

  /** Filtering keeps the uids in order. */
  lemma {:induction false} WithoutKeepsOk(slots: seq<Slot>, nextUid: Uid, uid: Uid)
    requires SlotsOk(slots, nextUid)
    ensures SlotsOk(WithoutSlot(slots, uid), nextUid)
  {
    if slots != [] {
      var last := slots[|slots| - 1];
      var init := slots[..|slots| - 1];
      assert SlotsOk(init, nextUid);
      WithoutKeepsOk(init, nextUid, uid);
      var t := WithoutSlot(init, uid);
      if last.uid != uid {
        forall j | 0 <= j < |t| ensures t[j].uid != last.uid {
          WithoutSlotFacts(init, uid);
          assert t[j] in t;
          var m :| 0 <= m < |init| && init[m] == t[j];
          assert slots[m] == init[m];
        }
        AppendKeepsOk(t, last, nextUid);
      }
    }
  }

  class RoutineSystem {
    var name: string
    /** The slots in execution order. */
    var slots: seq<Slot>
    /** The next uid to hand out (the uuid4 source). */
    var nextUid: Uid

    ghost predicate Valid()
      reads this
    {
      SlotsOk(slots, nextUid)
    }

    /** `__init__`: the name and an empty slot list. */
    constructor (n: string)
      ensures Valid() && name == n && slots == [] && nextUid == 0
    {
      name := n;
      slots := [];
      nextUid := 0;
    }

    /** `__init__` run again on an existing instance: the slots are reset. */
    method Reinit(n: string)
      modifies this
      ensures Valid() && name == n && slots == [] && nextUid == old(nextUid)
    {
      name := n;
      slots := [];
    }

    /** `create_slot`: a new slot with no settings, condition or interaction and a fresh uid, appended last. */
    method CreateSlot(n: string, runtime: int) returns (slot: Slot)
      requires Valid()
      modifies this
      ensures Valid()
      ensures slot == Slot(n, runtime, [], None, None, old(nextUid))
      ensures slots == old(slots) + [slot]
      ensures SlotIndex(slots, slot.uid) == Some(|old(slots)|)
      ensures name == old(name)
    {
      slot := Slot(n, runtime, [], None, None, nextUid);
      SlotIndexFacts(slots + [slot], slot.uid);
      slots := slots + [slot];
      nextUid := nextUid + 1;
    }

    /** `add_setting_to_slot`: appends, without a uniqueness check; an unknown uid raises. */
    method AddSettingToSlot(uid: Uid, setting: Setting) returns (err: Option<Error>)
      requires Valid()
      modifies this
      ensures Valid() && name == old(name) && nextUid == old(nextUid)
      ensures SlotIndex(old(slots), uid).None? ==> err == Some(TypeError) && slots == old(slots)
      ensures SlotIndex(old(slots), uid).Some? ==>
                var i := SlotIndex(old(slots), uid).value;
                err.None? && slots == old(slots)[i := old(slots)[i].(settings := old(slots)[i].settings + [setting])]
    {
      var found := FindSlot(slots, uid);
      if found.Err? {
        return Some(found.error);
      }
      var i := found.value;
      SlotIndexFacts(slots, uid);
      ReplaceKeepsOk(slots, nextUid, i, slots[i].(settings := slots[i].settings + [setting]));
      slots := slots[i := slots[i].(settings := slots[i].settings + [setting])];
      return None;
    }

    /** `add_subroutine_to_setting`: appends to the first setting of that parameter; an unknown uid or parameter raises. */
    method AddSubroutineToSetting(uid: Uid, p: Parameter, sub: Subroutine) returns (err: Option<Error>)
      requires Valid()
      modifies this
      ensures Valid() && name == old(name) && nextUid == old(nextUid)
      ensures SlotIndex(old(slots), uid).None? ==> err == Some(TypeError) && slots == old(slots)
      ensures SlotIndex(old(slots), uid).Some? ==>
                var i := SlotIndex(old(slots), uid).value;
                var ss := old(slots)[i].settings;
                && (SettingIndex(ss, p).None? ==> err == Some(TypeError) && slots == old(slots))
                && (SettingIndex(ss, p).Some? ==>
                      var k := SettingIndex(ss, p).value;
                      err.None? && slots == old(slots)[i := old(slots)[i].(settings := ss[k := ss[k].(subroutines := ss[k].subroutines + [sub])])])
    {
      var found := FindSlot(slots, uid);
      if found.Err? {
        return Some(found.error);
      }
      var i := found.value;
      SlotIndexFacts(slots, uid);
      var ss := slots[i].settings;
      var at := FindSetting(ss, p);
      if at.Err? {
        return Some(at.error);
      }
      var k := at.value;
      SettingIndexFacts(ss, p);
      var s := slots[i].(settings := ss[k := ss[k].(subroutines := ss[k].subroutines + [sub])]);
      ReplaceKeepsOk(slots, nextUid, i, s);
      slots := slots[i := s];
      return None;
    }

    /** `delete_slot`: every slot with that uid goes, the rest keep their order; an unknown uid is no error. */
    method DeleteSlot(uid: Uid)
      requires Valid()
      modifies this
      ensures Valid() && name == old(name) && nextUid == old(nextUid)
      ensures slots == WithoutSlot(old(slots), uid)
    {
      WithoutKeepsOk(slots, nextUid, uid);
      slots := WithoutSlot(slots, uid);
    }

    /** `delete_setting_from_slot`: every setting of that parameter goes from the slot; an unknown uid raises. */
    method DeleteSettingFromSlot(uid: Uid, p: Parameter) returns (err: Option<Error>)
      requires Valid()
      modifies this
      ensures Valid() && name == old(name) && nextUid == old(nextUid)
      ensures SlotIndex(old(slots), uid).None? ==> err == Some(TypeError) && slots == old(slots)
      ensures SlotIndex(old(slots), uid).Some? ==>
                var i := SlotIndex(old(slots), uid).value;
                err.None? && slots == old(slots)[i := old(slots)[i].(settings := WithoutSetting(old(slots)[i].settings, p))]
    {
      var found := FindSlot(slots, uid);
      if found.Err? {
        return Some(found.error);
      }
      var i := found.value;
      SlotIndexFacts(slots, uid);
      ReplaceKeepsOk(slots, nextUid, i, slots[i].(settings := WithoutSetting(slots[i].settings, p)));
      slots := slots[i := slots[i].(settings := WithoutSetting(slots[i].settings, p))];
      return None;
    }

    /** `delete_subroutine_from_setting`: drops every equal subroutine of the first setting of that parameter. */
    method DeleteSubroutineFromSetting(uid: Uid, p: Parameter, sub: Subroutine) returns (err: Option<Error>)
      requires Valid()
      modifies this
      ensures Valid() && name == old(name) && nextUid == old(nextUid)
      ensures SlotIndex(old(slots), uid).None? ==> err == Some(TypeError) && slots == old(slots)
      ensures SlotIndex(old(slots), uid).Some? ==>
                var i := SlotIndex(old(slots), uid).value;
                var ss := old(slots)[i].settings;
                && (SettingIndex(ss, p).None? ==> err == Some(TypeError) && slots == old(slots))
                && (SettingIndex(ss, p).Some? ==>
                      var k := SettingIndex(ss, p).value;
                      err.None? && slots == old(slots)[i := old(slots)[i].(settings := ss[k := ss[k].(subroutines := WithoutSubroutine(ss[k].subroutines, sub))])])
    {
      var found := FindSlot(slots, uid);
      if found.Err? {
        return Some(found.error);
      }
      var i := found.value;
      SlotIndexFacts(slots, uid);
      var ss := slots[i].settings;
      var at := FindSetting(ss, p);
      if at.Err? {
        return Some(at.error);
      }
      var k := at.value;
      SettingIndexFacts(ss, p);
      var s := slots[i].(settings := ss[k := ss[k].(subroutines := WithoutSubroutine(ss[k].subroutines, sub))]);
      ReplaceKeepsOk(slots, nextUid, i, s);
      slots := slots[i := s];
      return None;
    }
  }

  /**
   * The per-name singletons: `__new__` returns the instance already registered under the name,
   * but `__init__` then runs again and resets its slots.
   */
  class RoutineRegistry {
    var instances: map<string, RoutineSystem>

    constructor ()
      ensures instances == map[]
    {
      instances := map[];
    }

    /** `RoutineSystem(name)`. */
    method Get(n: string) returns (r: RoutineSystem)
      modifies this, if n in instances then {instances[n]} else {}
      ensures n in old(instances) ==> r == old(instances)[n] && instances == old(instances)
      ensures n !in old(instances) ==> fresh(r) && instances == old(instances)[n := r] && r.nextUid == 0
      ensures r.Valid() && r.name == n && r.slots == []
    {
      if n in instances {
        r := instances[n];
        r.Reinit(n);
      } else {
        r := new RoutineSystem(n);
        instances := instances[n := r];
      }
    }

    /** `get_instance`: the registered instance, or None. */
    function GetInstance(n: string): (r: Option<RoutineSystem>)
      reads this
      ensures r.Some? <==> n in instances
      ensures r.Some? ==> r.value == instances[n]
    {
      if n in instances then Some(instances[n]) else None
    }
  }
}
