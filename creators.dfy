/**
 * The folder bookkeeping of the measurement creator, the mixing-time creator and the
 * new-project dialog: which names the folders get, which resources each slot folder registers,
 * and which store keys are bound to which paths. Directory creation itself is not modelled;
 * a folder's listing is given as the sequence of names in it.
 */
module Creators {
  import opened Wrappers
  import opened PyDict
  import opened Naming
  import opened Resources
  import Runner
  import Sql

  /** The four resources registered in a slot's space besides the slot folder itself. */
  const SlotResources: seq<string> := ["Result", "Calibration", "Images", "DB"]

  /** A slot's space after lines 79-97: the folder under its own name, then Result, Calibration, Images and DB. */
  function SlotSpace(d: ResSpace, slotFolder: string, f: string): ResSpace
  {
    var result := PathJoin(slotFolder, "Result");
    Put(Put(Put(Put(Put(d, f, slotFolder), "Result", result), "Calibration", PathJoin(slotFolder, "Calibration")),
        "Images", PathJoin(slotFolder, "Images")), "DB", PathJoin(result, "results.db"))
  }

  /** Whether the space `f` has an entry for its own name and for each of the four subfolder resources. */
  predicate SlotListed(register: map<string, ResSpace>, f: string)
  {
    && f in register
    && Get(register[f], f).Some?
    && Get(register[f], "Result").Some?
    && Get(register[f], "Calibration").Some?
    && Get(register[f], "Images").Some?
    && Get(register[f], "DB").Some?
  }

  /** Whether the space `f` holds a slot folder `folder/f` with its four subfolder resources. */
  predicate SlotRegistered(register: map<string, ResSpace>, folder: string, f: string)
  {
    var slotFolder := PathJoin(folder, f);
    && SlotListed(register, f)
    && (f !in SlotResources ==> Get(register[f], f) == Some(slotFolder))
    && Get(register[f], "Result") == Some(PathJoin(slotFolder, "Result"))
    && Get(register[f], "Calibration") == Some(PathJoin(slotFolder, "Calibration"))
    && Get(register[f], "Images") == Some(PathJoin(slotFolder, "Images"))
    && Get(register[f], "DB") == Some(PathJoin(PathJoin(slotFolder, "Result"), "results.db"))
  }

  /**
   * Whatever the space held before, afterwards it has the five entries; the folder entry is the
   * slot folder unless the slot is itself named like one of the four resources.
   */
  lemma SlotSpaceRegistered(register: map<string, ResSpace>, folder: string, f: string)
    ensures SlotRegistered(register[f := SlotSpace(SpaceOr(register, f), PathJoin(folder, f), f)], folder, f)
  {
    var d := SpaceOr(register, f);
    var slotFolder := PathJoin(folder, f);
    var result := PathJoin(slotFolder, "Result");
    var e := SlotSpace(d, slotFolder, f);
    var vs := [slotFolder, result, PathJoin(slotFolder, "Calibration"), PathJoin(slotFolder, "Images"), PathJoin(result, "results.db")];
    GetPutFive(d, f, vs[0], "Result", vs[1], "Calibration", vs[2], "Images", vs[3], "DB", vs[4], f);
    GetPutFive(d, f, vs[0], "Result", vs[1], "Calibration", vs[2], "Images", vs[3], "DB", vs[4], "Result");
    GetPutFive(d, f, vs[0], "Result", vs[1], "Calibration", vs[2], "Images", vs[3], "DB", vs[4], "Calibration");
    GetPutFive(d, f, vs[0], "Result", vs[1], "Calibration", vs[2], "Images", vs[3], "DB", vs[4], "Images");
    GetPutFive(d, f, vs[0], "Result", vs[1], "Calibration", vs[2], "Images", vs[3], "DB", vs[4], "DB");
  }

  /** Five assignments in a row: a key reads the last value assigned to it. */
  lemma GetPutFive<V>(d: Dict<string, V>, k1: string, v1: V, k2: string, v2: V, k3: string, v3: V, k4: string, v4: V, k5: string, v5: V, k: string)
    ensures Get(Put(Put(Put(Put(Put(d, k1, v1), k2, v2), k3, v3), k4, v4), k5, v5), k) ==
            if k == k5 then Some(v5) else if k == k4 then Some(v4) else if k == k3 then Some(v3)
            else if k == k2 then Some(v2) else if k == k1 then Some(v1) else Get(d, k)
  {
    var d1 := Put(d, k1, v1);
    var d2 := Put(d1, k2, v2);
    var d3 := Put(d2, k3, v3);
    var d4 := Put(d3, k4, v4);
    GetPut(d4, k5, v5, k);
    GetPut(d3, k4, v4, k);
    GetPut(d2, k3, v3, k);
    GetPut(d1, k2, v2, k);
    GetPut(d, k1, v1, k);
  }

  /** A registered slot is what the measurement runner looks for: all five folder paths are found. */
  lemma RegisteredSlotFound(register: map<string, ResSpace>, f: string)
    requires SlotListed(register, f)
    ensures Runner.SlotFolders(register, f).AllFolders?
  {
    var d := register[f];
    assert d != [];
    forall i | 0 <= i < |Runner.FolderKeys|
      ensures Get(d, Runner.FolderKeys[i].1).Some?
    {
      var n := Runner.FolderKeys[i].1;
      assert n == "Calibration" || n == "Result" || n == "Images" || n == "DB";
    }
    Runner.SlotFoldersAll(register, f);
  }

  /** The runner then makes the registered slot folder its current slot folder. */
  lemma RegisteredSlotFolderPath(register: map<string, ResSpace>, folder: string, f: string)
    requires SlotRegistered(register, folder, f) && f !in SlotResources
    ensures Runner.SlotFolders(register, f).AllFolders?
    ensures Runner.SlotFolders(register, f).written[0] == Runner.StoreWrite("CURRENT_SLOT_FOLDER", Runner.VPath(PathJoin(folder, f)))
  {
    RegisteredSlotFound(register, f);
    Runner.SlotFoldersAll(register, f);
  }

  /** The folder names the slots get in a folder that already lists `existing`: one per named slot, in order. */
  function SlotDirNames(names: seq<string>, existing: seq<string>): seq<string>
  {
    if names == [] then []
    else
      var picks := SlotDirNames(names[..|names| - 1], existing);
      var n := names[|names| - 1];
      if n == "" then picks else picks + [NextName(ReplaceInvalid(n), "", existing + picks)]
  }

  /** One more slot name: an empty one adds no folder, any other adds the next free name for it. */
  lemma SlotDirNamesSnoc(names: seq<string>, i: nat, existing: seq<string>)
    requires i < |names|
    ensures var picks := SlotDirNames(names[..i], existing);
            SlotDirNames(names[..i + 1], existing)
            == if names[i] == "" then picks else picks + [NextName(ReplaceInvalid(names[i]), "", existing + picks)]
  {
    assert names[..i + 1][..i] == names[..i];
  }

  /** The slot folders are new to the folder and pairwise distinct, and there is one per non-empty slot name. */
  lemma {:induction false} SlotDirNamesFresh(names: seq<string>, existing: seq<string>)
    ensures var picks := SlotDirNames(names, existing);
            && |picks| <= |names|
            && ("" !in names ==> |picks| == |names|)
            && (forall i, j :: 0 <= i < j < |picks| ==> picks[i] != picks[j])
            && (forall i :: 0 <= i < |picks| ==> picks[i] !in existing)
  {
    if names != [] {
      var init := names[..|names| - 1];
      SlotDirNamesFresh(init, existing);
      var picks := SlotDirNames(init, existing);
      var n := names[|names| - 1];
      assert "" !in names ==> "" !in init;
      if n != "" {
        NextNameFresh(ReplaceInvalid(n), "", existing + picks);
      }
    }
  }

  /**
   * The runner looks a slot's folders up under the slot's own name. That is the name the
   * folder was registered under exactly when sanitising left the name as it was (every character
   * valid or '_') and no earlier folder forced a number onto it.
   */
  lemma SlotNameLookup(n: string, existing: seq<string>)
    ensures NextName(ReplaceInvalid(n), "", existing) == n <==>
              (forall i :: 0 <= i < |n| ==> !Invalid(n[i]) || n[i] == '_') && MaxSuffix(ReplaceInvalid(n), "", existing) == 0
  {
    ReplaceFacts(n);
    UnderscoreIsInvalid();
    var s := ReplaceInvalid(n);
    if MaxSuffix(s, "", existing) == 0 {
      assert s + "" == s;
      if s == n {
        forall i | 0 <= i < |n| ensures !Invalid(n[i]) || n[i] == '_' {
          assert s[i] == n[i];
        }
      }
    }
  }

  /** A slot called "a b" gets the folder "a_b", which is not the space the runner asks for. */
  lemma SpacedSlotNameNotFound()
    ensures SlotDirNames(["a b"], []) == ["a_b"]
  {
    SpaceReplaced();
    OneSlotDirName("a b", []);
    assert NextName("a_b", "", []) == "a_b";
  }

  /** The space of "a b" is replaced by an underscore. */
  lemma SpaceReplaced()
    ensures ReplaceInvalid("a b") == "a_b"
  {
    LetterValid('a');
    LetterValid('b');
    assert Invalid(' ');
  }

  /** A letter of the slot name that the sanitiser keeps. */
  lemma LetterValid(c: char)
    requires c == 'a' || c == 'b'
    ensures !Invalid(c)
  {
  }

  /** The folder name picked for a single slot name. */
  lemma OneSlotDirName(n: string, existing: seq<string>)
    ensures SlotDirNames([n], existing) == if n == "" then [] else [NextName(ReplaceInvalid(n), "", existing)]
  {
    var names := [n];
    assert names[..0] == [];
    assert existing + [] == existing;
  }

  /** A space of the register, or the empty space `register_resource` creates. */
  function SpaceOr(register: map<string, ResSpace>, space: string): ResSpace
  {
    if space in register then register[space] else []
  }

  /** Two registrations in one space. */
  method RegisterTwo(rm: ResourceManager, space: string, k1: string, v1: string, k2: string, v2: string, now: Stamp)
    requires rm.Valid()
    modifies rm
    ensures rm.Valid()
    ensures rm.register == old(rm.register)[space := Put(Put(SpaceOr(old(rm.register), space), k1, v1), k2, v2)]
    ensures rm.deletion == old(rm.deletion) && rm.safe == old(rm.safe)
  {
    rm.RegisterResource(k1, v1, space, now);
    rm.RegisterResource(k2, v2, space, now);
  }

  /** Five registrations in one space, in order. */
  method RegisterFive(rm: ResourceManager, space: string, k1: string, v1: string, k2: string, v2: string,
                      k3: string, v3: string, k4: string, v4: string, k5: string, v5: string, now: Stamp)
    requires rm.Valid()
    modifies rm
    ensures rm.Valid()
    ensures rm.register == old(rm.register)[space := Put(Put(Put(Put(Put(SpaceOr(old(rm.register), space), k1, v1), k2, v2), k3, v3), k4, v4), k5, v5)]
    ensures rm.deletion == old(rm.deletion) && rm.safe == old(rm.safe)
  {
    ghost var s0 := SpaceOr(rm.register, space);
    RegisterTwo(rm, space, k1, v1, k2, v2, now);
    assert SpaceOr(rm.register, space) == Put(Put(s0, k1, v1), k2, v2);
    ghost var r1 := rm.register;
    RegisterTwo(rm, space, k3, v3, k4, v4, now);
    assert rm.register == r1[space := Put(Put(Put(Put(s0, k1, v1), k2, v2), k3, v3), k4, v4)];
    assert SpaceOr(rm.register, space) == Put(Put(Put(Put(s0, k1, v1), k2, v2), k3, v3), k4, v4);
    rm.RegisterResource(k5, v5, space, now);
  }

  /** Lines 79-97 for one slot folder: five registrations in the slot's space. */
  method RegisterSlot(rm: ResourceManager, f: string, slotFolder: string, now: Stamp)
    requires rm.Valid()
    modifies rm
    ensures rm.Valid()
    ensures rm.register == old(rm.register)[f := SlotSpace(SpaceOr(old(rm.register), f), slotFolder, f)]
    ensures rm.deletion == old(rm.deletion) && rm.safe == old(rm.safe)
  {
    var result := PathJoin(slotFolder, "Result");
    RegisterFive(rm, f, f, slotFolder, "Result", result, "Calibration", PathJoin(slotFolder, "Calibration"),
                 "Images", PathJoin(slotFolder, "Images"), "DB", PathJoin(result, "results.db"), now);
  }

  /** The last path component. */
  function Basename(p: string): string
  {
    if p == [] || p[|p| - 1] == '/' then [] else Basename(p[..|p| - 1]) + [p[|p| - 1]]
  }

  lemma {:induction false} BasenameJoin(parent: string, x: string)
    requires '/' !in x
    ensures Basename(PathJoin(parent, x)) == x
  {
    if x != [] {
      var p := PathJoin(parent, x);
      var init := x[..|x| - 1];
      BasenameJoin(parent, init);
      assert p[..|p| - 1] == PathJoin(parent, init);
      assert x == init + [x[|x| - 1]];
    } else {
      assert PathJoin(parent, x)[|PathJoin(parent, x)| - 1] == '/';
    }
  }

  /** A sanitised name, numbered or not, has no '/' in it. */
  lemma NoSlashInSlotName(n: string, existing: seq<string>)
    ensures '/' !in NextName(ReplaceInvalid(n), "", existing)
  {
    ReplaceFacts(n);
    assert Invalid('/') by { assert Punctuation[14] == '/'; }
    var m := MaxSuffix(ReplaceInvalid(n), "", existing);
    if m > 0 {
      var d := Text.NatToString(m + 1);
      assert forall c :: c in d ==> Text.IsDigit(c);
    }
  }

  /** One pass of the loop of lines 61-97 for a named slot. */
  method CreateSlotDir(rm: ResourceManager, folder: string, n: string, taken: seq<string>, now: Stamp) returns (f: string)
    requires rm.Valid() && n != ""
    modifies rm
    ensures rm.Valid()
    ensures f == NextName(ReplaceInvalid(n), "", taken)
    ensures rm.register == old(rm.register)[f := SlotSpace(SpaceOr(old(rm.register), f), PathJoin(folder, f), f)]
    ensures rm.deletion == old(rm.deletion) && rm.safe == old(rm.safe)
  {
    var slotname := ReplaceInvalid(n);
    var slotfolder := GetNextDirectoryName(folder, slotname, taken);
    NoSlashInSlotName(n, taken);
    BasenameJoin(folder, NextName(slotname, "", taken));
    f := Basename(slotfolder);
    RegisterSlot(rm, f, slotfolder, now);
  }

  /** Every slot in `picks` is registered in `folder`, and every other space is as in `base`. */
  ghost predicate SlotsKept(register: map<string, ResSpace>, base: map<string, ResSpace>, folder: string, picks: seq<string>)
  {
    && (forall j :: 0 <= j < |picks| ==> SlotRegistered(register, folder, picks[j]))
    && (forall s :: s !in picks ==> (s in register <==> s in base) && (s in register ==> register[s] == base[s]))
  }

  /** `SlotRegistered` depends only on the space of the slot itself. */
  lemma SlotRegisteredFrame(register: map<string, ResSpace>, register': map<string, ResSpace>, folder: string, p: string)
    requires SlotRegistered(register, folder, p)
    requires p in register' && register'[p] == register[p]
    ensures SlotRegistered(register', folder, p)
  {
  }

  /** Registering one more slot folder keeps `SlotsKept`, even when the name is already among `picks`. */
  lemma SlotsKeptStep(register: map<string, ResSpace>, base: map<string, ResSpace>, folder: string, picks: seq<string>, f: string)
    requires SlotsKept(register, base, folder, picks)
    ensures SlotsKept(register[f := SlotSpace(SpaceOr(register, f), PathJoin(folder, f), f)], base, folder, picks + [f])
  {
    SlotSpaceRegistered(register, folder, f);
    SlotsKeptReplace(register, base, folder, picks, f, SlotSpace(SpaceOr(register, f), PathJoin(folder, f), f));
  }

  /** `SlotsKept` survives replacing the space `f` by any space where `f` is registered. */
  lemma SlotsKeptReplace(register: map<string, ResSpace>, base: map<string, ResSpace>, folder: string, picks: seq<string>, f: string, e: ResSpace)
    requires SlotsKept(register, base, folder, picks)
    requires SlotRegistered(register[f := e], folder, f)
    ensures SlotsKept(register[f := e], base, folder, picks + [f])
  {
    PicksRegisteredStep(register, folder, picks, f, e);
    OthersKeptStep(register, base, picks, f, e);
  }

  /** The slots registered before stay registered when the space `f` is replaced by one where `f` is registered. */
  lemma PicksRegisteredStep(register: map<string, ResSpace>, folder: string, picks: seq<string>, f: string, e: ResSpace)
    requires forall j :: 0 <= j < |picks| ==> SlotRegistered(register, folder, picks[j])
    requires SlotRegistered(register[f := e], folder, f)
    ensures forall j :: 0 <= j < |picks + [f]| ==> SlotRegistered(register[f := e], folder, (picks + [f])[j])
  {
    var reg', picks' := register[f := e], picks + [f];
    forall j | 0 <= j < |picks'|
      ensures SlotRegistered(reg', folder, picks'[j])
    {
      if picks'[j] != f {
        assert picks'[j] == picks[j];
        SlotRegisteredFrame(register, reg', folder, picks[j]);
      }
    }
  }

  /** Spaces outside `picks + [f]` are untouched by replacing the space `f`. */
  lemma OthersKeptStep(register: map<string, ResSpace>, base: map<string, ResSpace>, picks: seq<string>, f: string, e: ResSpace)
    requires forall s :: s !in picks ==> (s in register <==> s in base) && (s in register ==> register[s] == base[s])
    ensures forall s :: s !in picks + [f] ==> (s in register[f := e] <==> s in base) && (s in register[f := e] ==> register[f := e][s] == base[s])
  {
    forall s | s !in picks + [f]
      ensures (s in register[f := e] <==> s in base) && (s in register[f := e] ==> register[f := e][s] == base[s])
    {
      assert s !in picks;
    }
  }

  /** One pass of the loop of `create_slot_dirs`: the i-th slot name gets its folder unless it is empty. */
  method SlotDirStep(rm: ResourceManager, folder: string, names: seq<string>, i: nat, existing: seq<string>, picks: seq<string>, now: Stamp,
                     ghost base: map<string, ResSpace>)
    returns (picks': seq<string>)
    requires rm.Valid() && i < |names| && picks == SlotDirNames(names[..i], existing)
    requires SlotsKept(rm.register, base, folder, picks)
    modifies rm
    ensures rm.Valid()
    ensures picks' == SlotDirNames(names[..i + 1], existing)
    ensures SlotsKept(rm.register, base, folder, picks')
    ensures rm.deletion == old(rm.deletion) && rm.safe == old(rm.safe)
  {
    SlotDirNamesSnoc(names, i, existing);
    picks' := picks;
    if names[i] != "" {
      ghost var reg := rm.register;
      var f := CreateSlotDir(rm, folder, names[i], existing + picks, now);
      SlotsKeptStep(reg, base, folder, picks, f);
      picks' := picks + [f];
    }
  }

  /**
   * `create_slot_dirs` over the slot names, in a folder listing `existing`: every named slot
   * gets a fresh folder registered as its own space; no other space changes.
   */
  method CreateSlotDirs(rm: ResourceManager, folder: string, names: seq<string>, existing: seq<string>, now: Stamp) returns (picks: seq<string>)
    requires rm.Valid()
    modifies rm
    ensures rm.Valid()
    ensures picks == SlotDirNames(names, existing)
    ensures SlotsKept(rm.register, old(rm.register), folder, picks)
    ensures rm.deletion == old(rm.deletion) && rm.safe == old(rm.safe)
  {
    picks := [];
    var i := 0;
    while i < |names|
      invariant 0 <= i <= |names|
      invariant rm.Valid()
      invariant picks == SlotDirNames(names[..i], existing)
      invariant SlotsKept(rm.register, old(rm.register), folder, picks)
      invariant rm.deletion == old(rm.deletion) && rm.safe == old(rm.safe)
    {
      picks := SlotDirStep(rm, folder, names, i, existing, picks, now, old(rm.register));
      i := i + 1;
    }
    assert names[..i] == names;
  }

  /** A path joined onto `parent` is `parent` itself (with its separator) exactly for the empty name. */
  lemma JoinEmptyOnly(parent: string, x: string)
    ensures PathJoin(parent, x) == PathJoin(parent, "") <==> x == ""
  {
    if PathJoin(parent, x) == PathJoin(parent, "") {
      assert |PathJoin(parent, x)| == |parent| + 1 + |x|;
    }
  }

  /** What the creators raise: `os.makedirs` on a folder that exists, or a member the store's key enum lacks. */
  datatype CreateError = FileExistsError(path: string) | AttributeError(member: string)

  /**
   * Lines 29-42 of `create_dir`: a non-empty name is sanitised, the folder de-duplicated among
   * `existing` in the measurement directory and stored as the current measurement folder. An
   * empty name with nothing to number leaves the measurement directory itself, which exists,
   * so `os.makedirs` raises; otherwise the slot folders are made inside the new, empty folder.
   */
  method MakeMeasurementFolders(rm: ResourceManager, measureDir: string, existing: seq<string>, name: string, slotNames: seq<string>, now: Stamp)
    returns (folderPath: string, writes: seq<(string, string)>, picks: seq<string>, err: Option<CreateError>)
    requires rm.Valid()
    modifies rm
    ensures rm.Valid()
    ensures folderPath == PathJoin(measureDir, NextName(ReplaceInvalid(name), "", existing))
    ensures writes == [("CurrentMeasurementFolder", folderPath)]
    ensures NextName(ReplaceInvalid(name), "", existing) == "" ==>
              err == Some(FileExistsError(folderPath)) && picks == [] && rm.register == old(rm.register)
    ensures NextName(ReplaceInvalid(name), "", existing) != "" ==>
              err.None? && picks == SlotDirNames(slotNames, []) && SlotsKept(rm.register, old(rm.register), folderPath, picks)
    ensures rm.deletion == old(rm.deletion) && rm.safe == old(rm.safe)
  {
    var n := name;
    if n != "" {
      n := ReplaceInvalid(n);
    }
    folderPath := GetNextDirectoryName(measureDir, n, existing);
    writes := [("CurrentMeasurementFolder", folderPath)];
    // The only folder of the measurement directory that exists already is the directory itself.
    JoinEmptyOnly(measureDir, NextName(n, "", existing));
    if folderPath == PathJoin(measureDir, "") {
      return folderPath, writes, [], Some(FileExistsError(folderPath));
    }
    picks := CreateSlotDirs(rm, folderPath, slotNames, [], now);
    err := None;
  }

  /**
   * `create_dir` as written: after the folders, `_create_registry` reads
   * `Keys.MEASUREMENT_REGISTRY_SQL`, which the key enum does not define, so the call never
   * returns normally. What was bound and registered before the raise stays.
   */
  method CreateDir(rm: ResourceManager, measureDir: string, existing: seq<string>, name: string, slotNames: seq<string>, now: Stamp)
    returns (folderPath: string, writes: seq<(string, string)>, picks: seq<string>, err: CreateError)
    requires rm.Valid()
    modifies rm
    ensures rm.Valid()
    ensures folderPath == PathJoin(measureDir, NextName(ReplaceInvalid(name), "", existing))
    ensures writes == [("CurrentMeasurementFolder", folderPath)]
    ensures NextName(ReplaceInvalid(name), "", existing) == "" ==>
              err == FileExistsError(folderPath) && picks == [] && rm.register == old(rm.register)
    ensures NextName(ReplaceInvalid(name), "", existing) != "" ==>
              err == AttributeError("MEASUREMENT_REGISTRY_SQL") && picks == SlotDirNames(slotNames, [])
              && SlotsKept(rm.register, old(rm.register), folderPath, picks)
    ensures rm.deletion == old(rm.deletion) && rm.safe == old(rm.safe)
  {
    var e;
    folderPath, writes, picks, e := MakeMeasurementFolders(rm, measureDir, existing, name, slotNames, now);
    if e.Some? {
      return folderPath, writes, picks, e.value;
    }
    err := AttributeError("MEASUREMENT_REGISTRY_SQL");
  }

  /** The row `_create_registry` enters in the MeasurementRegistry table. */
  function RegistryRow(name: string, startTime: string): Sql.Row
  {
    [("Name", Sql.PStr(name)), ("StartTime", Sql.PStr(startTime))]
  }

  /**
   * The evidently intended `_create_registry`, reading the register path the new-project dialog
   * writes: nothing (a warning) when the register file does not exist, else its CREATE and
   * INSERT statements.
   */
  function RegistryStatements(registerExists: bool, name: string, startTime: string): seq<string>
  {
    if !registerExists then []
    else
      match Sql.Generate("MeasurementRegistry", RegistryRow(name, startTime))
      case Err(_) => []
      case Ok(pair) => [pair.0, pair.1]
  }

  /**
   * With the register present the measurement is always entered: both values are texts, so the
   * statements exist, and the INSERT carries the name and the start time as quoted literals.
   */
  lemma RegistryFacts(registerExists: bool, name: string, startTime: string)
    ensures RegistryStatements(registerExists, name, startTime) == [] <==> !registerExists
    ensures registerExists ==>
              && RegistryStatements(registerExists, name, startTime)[1] == Sql.InsertStatement("MeasurementRegistry", RegistryRow(name, startTime))
              && Sql.Literals(Values(RegistryRow(name, startTime))) == [Sql.SqlLiteral(Sql.PStr(name)), Sql.SqlLiteral(Sql.PStr(startTime))]
  {
    var row := RegistryRow(name, startTime);
    assert Sql.Generate("MeasurementRegistry", row).Ok? by {
      Sql.GenerateFacts("MeasurementRegistry", row);
    }
    assert Values(row) == [Sql.PStr(name), Sql.PStr(startTime)];
  }

  /**
   * The evidently intended `create_dir`: the same folders, then the measurement entered in the
   * register, and a normal return whenever the folder could be made.
   */
  method CreateDirIntended(rm: ResourceManager, measureDir: string, existing: seq<string>, name: string, slotNames: seq<string>,
                           now: Stamp, registerExists: bool, startTime: string)
    returns (folderPath: string, writes: seq<(string, string)>, picks: seq<string>, registry: seq<string>, err: Option<CreateError>)
    requires rm.Valid()
    modifies rm
    ensures rm.Valid()
    ensures folderPath == PathJoin(measureDir, NextName(ReplaceInvalid(name), "", existing))
    ensures writes == [("CurrentMeasurementFolder", folderPath)]
    ensures NextName(ReplaceInvalid(name), "", existing) == "" ==>
              err == Some(FileExistsError(folderPath)) && picks == [] && registry == [] && rm.register == old(rm.register)
    ensures NextName(ReplaceInvalid(name), "", existing) != "" ==>
              && err.None? && picks == SlotDirNames(slotNames, [])
              && SlotsKept(rm.register, old(rm.register), folderPath, picks)
              && registry == RegistryStatements(registerExists, if name == "" then name else ReplaceInvalid(name), startTime)
    ensures rm.deletion == old(rm.deletion) && rm.safe == old(rm.safe)
  {
    folderPath, writes, picks, err := MakeMeasurementFolders(rm, measureDir, existing, name, slotNames, now);
    if err.Some? {
      return folderPath, writes, picks, [], err;
    }
    var n := if name == "" then name else ReplaceInvalid(name);
    registry := [];
    if registerExists {
      var r := Sql.GenerateSqlStatements("MeasurementRegistry", RegistryRow(n, startTime));
      if r.Ok? {
        registry := [r.value.0, r.value.1];
      }
    }
  }

  /** The store bindings of a subfolder table: each key gets `folder/subfolder`, in table order. */
  function SubfolderWrites(folder: string, links: seq<(string, string)>): (r: seq<(string, string)>)
  {
    seq(|links|, i requires 0 <= i < |links| => (links[i].1, PathJoin(folder, links[i].0)))
  }

  /** The loop of `create_subfolders` / `create_folders`. */
  method BindSubfolders(folder: string, links: seq<(string, string)>) returns (writes: seq<(string, string)>)
    ensures writes == SubfolderWrites(folder, links)
  {
    writes := [];
    var i := 0;
    while i < |links|
      invariant 0 <= i <= |links|
      invariant writes == SubfolderWrites(folder, links[..i])
    {
      writes := writes + [(links[i].1, PathJoin(folder, links[i].0))];
      i := i + 1;
    }
    assert links[..i] == links;
  }

  const MixingTimeSubfolders: seq<(string, string)> :=
    [("Calibration", "CurrentMixingTimeFolderCalibration"), ("Images", "CurrentMixingTimeFolderImages"), ("Data", "CurrentMixingTimeFolderData")]

  const ProjectSubfolders: seq<(string, string)> :=
    [("Measurement", "ProjectFolderMeasurement"), ("Config", "ProjectFolderConfig"), ("UserData", "ProjectFolderUserData")]

  /** The mixing-time folder name: "MT_" and the sanitised name, or the empty name left empty. */
  function MixingTimeName(name: string): string
  {
    if name == "" then "" else "MT_" + ReplaceInvalid(name)
  }

  /**
   * What `create_file_structures` binds in the MIXING_TIME namespace, in order: the folder, then
   * its subfolders, unless the picked name is empty. That folder is the measurement directory
   * itself, which exists, so `os.makedirs` raises after the first binding.
   */
  function MixingTimeWrites(measureDir: string, existing: seq<string>, name: string): seq<(string, string)>
  {
    var picked := NextName(MixingTimeName(name), "", existing);
    var folder := PathJoin(measureDir, picked);
    [("CurrentMixingTimeFolder", folder)] + if picked == "" then [] else SubfolderWrites(folder, MixingTimeSubfolders)
  }

  /** `create_file_structures` and `create_subfolders`; the caller does not check for an empty name. */
  method CreateFileStructures(measureDir: string, existing: seq<string>, name: string) returns (writes: seq<(string, string)>, err: Option<CreateError>)
    ensures writes == MixingTimeWrites(measureDir, existing, name)
    ensures err.Some? <==> NextName(MixingTimeName(name), "", existing) == ""
    ensures err.Some? ==> err.value == FileExistsError(PathJoin(measureDir, ""))
  {
    var n := name;
    if n != "" {
      n := "MT_" + ReplaceInvalid(n);
    }
    var folder := GetNextDirectoryName(measureDir, n, existing);
    writes := [("CurrentMixingTimeFolder", folder)];
    // The only folder of the measurement directory that exists already is the directory itself.
    JoinEmptyOnly(measureDir, NextName(n, "", existing));
    if folder == PathJoin(measureDir, "") {
      return writes, Some(FileExistsError(folder));
    }
    var sub := BindSubfolders(folder, MixingTimeSubfolders);
    writes := writes + sub;
    err := None;
  }

  /**
   * The folder is bound first, under a name new to the measurement directory that starts with
   * "MT_" for a non-empty name; then its Calibration, Images and Data subfolders, inside it. Only
   * the empty name with nothing to number stops after the first binding.
   */
  lemma MixingTimeWritesFacts(measureDir: string, existing: seq<string>, name: string)
    ensures var w := MixingTimeWrites(measureDir, existing, name);
            var picked := NextName(MixingTimeName(name), "", existing);
            && w[0] == ("CurrentMixingTimeFolder", PathJoin(measureDir, picked))
            && (picked == "" <==> name == "" && MaxSuffix("", "", existing) == 0)
            && (picked == "" ==> |w| == 1)
            && (picked != "" ==>
                  && |w| == 4
                  && w[1] == ("CurrentMixingTimeFolderCalibration", PathJoin(w[0].1, "Calibration"))
                  && w[2] == ("CurrentMixingTimeFolderImages", PathJoin(w[0].1, "Images"))
                  && w[3] == ("CurrentMixingTimeFolderData", PathJoin(w[0].1, "Data")))
    ensures NextName(MixingTimeName(name), "", existing) !in existing
    ensures name != "" ==> NextName(MixingTimeName(name), "", existing)[..3] == "MT_"
  {
    NextNameFresh(MixingTimeName(name), "", existing);
  }

  /**
   * `project_name_getter` and `create_folders`: nothing for a cancelled or empty input;
   * otherwise the sanitised, de-duplicated project path, then its three subfolders. When
   * sanitising removes every character and nothing is numbered, the path is the projects folder
   * itself: `os.makedirs` raises, `create_folders` catches it, and no subfolder is bound.
   */
  function ProjectWrites(ok: bool, input: string, tempDir: string, existing: seq<string>): Option<seq<(string, string)>>
  {
    if !ok || input == "" then None
    else
      var picked := NextName(DeleteInvalid(input), "", existing);
      var path := PathJoin(tempDir, picked);
      Some([("ProjectPath", path)] + if picked == "" then [] else SubfolderWrites(path, ProjectSubfolders))
  }

  method NewProjectFolders(ok: bool, input: string, tempDir: string, existing: seq<string>) returns (writes: Option<seq<(string, string)>>)
    ensures writes == ProjectWrites(ok, input, tempDir, existing)
  {
    if !(ok && input != "") {
      return None;
    }
    var name := DeleteInvalid(input);
    var path := GetNextDirectoryName(tempDir, name, existing);
    // The only folder of the projects folder that exists already is the folder itself.
    JoinEmptyOnly(tempDir, NextName(name, "", existing));
    if path == PathJoin(tempDir, "") {
      assert [("ProjectPath", path)] + [] == [("ProjectPath", path)];
      return Some([("ProjectPath", path)]);
    }
    var sub := BindSubfolders(path, ProjectSubfolders);
    return Some([("ProjectPath", path)] + sub);
  }

  /**
   * The project path is bound exactly for a confirmed non-empty input. Its folder name has no
   * invalid character and is new among `existing`; Measurement, Config and UserData are bound
   * inside it unless that name is empty, which happens only when sanitising removes every
   * character and nothing is numbered.
   */
  lemma ProjectWritesFacts(ok: bool, input: string, tempDir: string, existing: seq<string>)
    ensures ProjectWrites(ok, input, tempDir, existing).Some? <==> ok && input != ""
    ensures ProjectWrites(ok, input, tempDir, existing).Some? ==>
              var w := ProjectWrites(ok, input, tempDir, existing).value;
              var picked := NextName(DeleteInvalid(input), "", existing);
              && w[0] == ("ProjectPath", PathJoin(tempDir, picked))
              && (picked == "" <==> DeleteInvalid(input) == "" && MaxSuffix("", "", existing) == 0)
              && (picked == "" ==> |w| == 1)
              && (picked != "" ==>
                    && |w| == 4
                    && w[1] == ("ProjectFolderMeasurement", PathJoin(w[0].1, "Measurement"))
                    && w[2] == ("ProjectFolderConfig", PathJoin(w[0].1, "Config"))
                    && w[3] == ("ProjectFolderUserData", PathJoin(w[0].1, "UserData")))
    ensures NextName(DeleteInvalid(input), "", existing) !in existing
    ensures forall c :: c in DeleteInvalid(input) ==> !Invalid(c)
  {
    NextNameFresh(DeleteInvalid(input), "", existing);
    DeleteFacts(input);
  }
}
