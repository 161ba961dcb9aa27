/**
 * The resource manager: named spaces of resource name -> path, a per-space register count,
 * first-seen creation and deletion stamps keyed by resource name, and a key -> item safe.
 */
module Resources {
  import opened Wrappers
  import opened PyDict

  /** A wall-clock "%H:%M:%S" stamp, opaque here. */
  type Stamp = string

  /** One space: resource name -> path, in insertion order. */
  type ResSpace = Dict<string, string>

  /** What `get_registered_resources` returns for a known space. */
  datatype Listing =
    | NamesAndPaths(entries: ResSpace)
    | NameList(names: seq<string>)
    | PathList(paths: seq<string>)

  /** `get_registered_resources(space, names, paths)` (lines 50-62) on a register. */
  function Listed(register: map<string, ResSpace>, space: string, names: bool, paths: bool): (r: Option<Listing>)
    ensures r.None? <==> space !in register || (!names && !paths)
    ensures r.Some? && names && paths ==> r.value == NamesAndPaths(register[space])
    ensures r.Some? && names && !paths ==> r.value.NameList? && r.value.names == Keys(register[space])
    ensures r.Some? && !names ==> r.value.PathList? && r.value.paths == Values(register[space])
  {
    if space !in register then None
    else if names && paths then Some(NamesAndPaths(register[space]))
    else if names then Some(NameList(Keys(register[space])))
    else if paths then Some(PathList(Values(register[space])))
    else None
  }

  /** A missing counter reads as 0 (lines 120-121). */
  function CountOf(counts: map<string, int>, space: string): int
  {
    if space in counts then counts[space] else 0
  }

  /** `_update_resource_creation_time` / `_update_resource_deletion_time`: only the first stamp is kept. */
  function StampFirst(stamps: map<string, Stamp>, name: string, now: Stamp): (r: map<string, Stamp>)
    ensures r.Keys == stamps.Keys + {name}
    ensures forall n :: n in stamps ==> r[n] == stamps[n]
    ensures name !in stamps ==> r[name] == now
  {
    if name in stamps then stamps else stamps[name := now]
  }

  /** The deletion stamps of `delete_resource_space` (lines 83-85): every name in turn. */
  function StampAll(stamps: map<string, Stamp>, names: seq<string>, now: Stamp): map<string, Stamp>
    decreases |names|
  {
    if names == [] then stamps
    else StampFirst(StampAll(stamps, names[..|names| - 1], now), names[|names| - 1], now)
  }

  /** Every name of the space gets a stamp, earlier stamps are kept, and the new ones are all `now`. */
  lemma {:induction false} StampAllFacts(stamps: map<string, Stamp>, names: seq<string>, now: Stamp)
    ensures var r := StampAll(stamps, names, now);
            && r.Keys == stamps.Keys + (set n | n in names)
            && (forall n :: n in stamps ==> r[n] == stamps[n])
            && (forall n :: n in r && n !in stamps ==> r[n] == now)
    decreases |names|
  {
    if names != [] {
      StampAllFacts(stamps, names[..|names| - 1], now);
      assert forall n :: n in names <==> n in names[..|names| - 1] || n == names[|names| - 1];
    }
  }

  /** The register keeps, in each space, one entry per name. */
  ghost predicate RegisterOk(register: map<string, ResSpace>)
  {
    forall s :: s in register ==> Distinct(register[s])
  }

  lemma PutKeepsOk(register: map<string, ResSpace>, space: string, name: string, path: string)
    requires RegisterOk(register)
    ensures RegisterOk(register[space := Put(if space in register then register[space] else [], name, path)])
  {
    PutDistinct(if space in register then register[space] else [], name, path);
  }

  lemma RemoveKeepsOk(register: map<string, ResSpace>, space: string, name: string)
    requires RegisterOk(register)
    ensures RegisterOk(register[space := Remove(if space in register then register[space] else [], name)])
  {
    RemoveDistinct(if space in register then register[space] else [], name);
  }

  /** After registering, the name is listed under the space with the new path, and other names keep theirs. */
  lemma {:induction false} RegisterThenList(register: map<string, ResSpace>, space: string, name: string, path: string, other: string)
    requires RegisterOk(register)
    ensures var d := Put(if space in register then register[space] else [], name, path);
            var r := register[space := d];
            && RegisterOk(r)
            && Listed(r, space, true, true).Some?
            && Get(d, name) == Some(path)
            && name in Listed(r, space, true, false).value.names
            && (other != name ==> Get(d, other) == Get(if space in register then register[space] else [], other))
  {
    var d0: ResSpace := if space in register then register[space] else [];
    assert Distinct(d0);
    PutDistinct(d0, name, path);
    GetPut(d0, name, path, name);
    GetPut(d0, name, path, other);
    var d := Put(d0, name, path);
    assert HasKey(d, name);
  }

  /** After deregistering, the name is gone from the space and every other name keeps its path. */
  lemma {:induction false} DeregisterThenGet(d: ResSpace, name: string, other: string)
    requires Distinct(d)
    ensures Distinct(Remove(d, name))
    ensures Get(Remove(d, name), name).None?
    ensures other != name ==> Get(Remove(d, name), other) == Get(d, other)
  {
    RemoveDistinct(d, name);
    GetRemove(d, name, name);
    GetRemove(d, name, other);
  }

  /** The count records register calls, not entries: registering one name twice counts 2 for one entry. */
  lemma CountIsNotSize()
    ensures var d := Put(Put([], "a", "p"), "a", "q");
            |d| == 1 && CountOf(map["s" := CountOf(map["s" := 1], "s") + 1], "s") == 2
  {
  }

  /** The loop of `delete_resource_space` (lines 83-85): per name one decrement of the space's count and its first deletion stamp. */
  method CountDownAndStamp(counts0: map<string, int>, deletion0: map<string, Stamp>, space: string, names: seq<string>, now: Stamp)
    returns (counts: map<string, int>, deletion: map<string, Stamp>)
    ensures counts == if names == [] then counts0 else counts0[space := CountOf(counts0, space) - |names|]
    ensures deletion == StampAll(deletion0, names, now)
  {
    counts, deletion := counts0, deletion0;
    var i := 0;
    while i < |names|
      invariant 0 <= i <= |names|
      invariant counts == if i == 0 then counts0 else counts0[space := CountOf(counts0, space) - i]
      invariant deletion == StampAll(deletion0, names[..i], now)
    {
      assert names[..i + 1][..i] == names[..i];
      counts := counts[space := CountOf(counts, space) - 1];
      if names[i] !in deletion {
        deletion := deletion[names[i] := now];
      }
      i := i + 1;
    }
    assert names[..i] == names;
  }

  class ResourceManager {
    var register: map<string, ResSpace>
    /** `resource_metadata["ResourceCount"]`. */
    var counts: map<string, int>
    /** `resource_metadata["ResourceCreation"]`. */
    var creation: map<string, Stamp>
    /** `resource_metadata["ResourceDeletion"]`. */
    var deletion: map<string, Stamp>
    /** `resource_safe`; items are opaque strings here. */
    var safe: map<string, string>

    ghost predicate Valid()
      reads this
    {
      RegisterOk(register)
    }

    /** `__init__` on first use (lines 27-29): the "default" and "SaveLocations" spaces, everything else empty. */
    constructor ()
      ensures Valid()
      ensures register == map["default" := [], "SaveLocations" := []]
      ensures counts == map[] && creation == map[] && deletion == map[] && safe == map[]
    {
      register := map["default" := [], "SaveLocations" := []];
      counts := map[];
      creation := map[];
      deletion := map[];
      safe := map[];
    }

    /** `get_registered_resources`. */
    function RegisteredResources(space: string, names: bool, paths: bool): (r: Option<Listing>)
      reads this
      ensures r == Listed(register, space, names, paths)
    {
      Listed(register, space, names, paths)
    }

    /** `register_resource`: creates the space, maps name -> path (overwriting), counts one more, stamps creation once. */
    method RegisterResource(name: string, path: string, space: string, now: Stamp)
      requires Valid()
      modifies this
      ensures Valid()
      ensures register == old(register)[space := Put(if space in old(register) then old(register)[space] else [], name, path)]
      ensures counts == old(counts)[space := CountOf(old(counts), space) + 1]
      ensures creation == StampFirst(old(creation), name, now)
      ensures deletion == old(deletion) && safe == old(safe)
    {
      var d := if space in register then register[space] else [];
      PutKeepsOk(register, space, name, path);
      register := register[space := Put(d, name, path)];
      counts := counts[space := CountOf(counts, space) + 1];
      if name !in creation {
        creation := creation[name := now];
      }
    }

    /** `deregister_resource`: creates the space, removes the name if present, counts one less regardless, stamps deletion once. */
    method DeregisterResource(name: string, space: string, now: Stamp)
      requires Valid()
      modifies this
      ensures Valid()
      ensures register == old(register)[space := Remove(if space in old(register) then old(register)[space] else [], name)]
      ensures counts == old(counts)[space := CountOf(old(counts), space) - 1]
      ensures deletion == StampFirst(old(deletion), name, now)
      ensures creation == old(creation) && safe == old(safe)
    {
      var d := if space in register then register[space] else [];
      RemoveKeepsOk(register, space, name);
      register := register[space := Remove(d, name)];
      counts := counts[space := CountOf(counts, space) - 1];
      if name !in deletion {
        deletion := deletion[name := now];
      }
    }

    /** `delete_resource_space`: one decrement and one deletion stamp per name, then the space goes; an unknown space only warns. */
    method DeleteResourceSpace(space: string, now: Stamp) returns (warned: bool)
      requires Valid()
      modifies this
      ensures Valid()
      ensures warned <==> space !in old(register)
      ensures warned ==> register == old(register) && counts == old(counts) && deletion == old(deletion)
      ensures !warned ==> register == old(register) - {space}
                          && counts == (if old(register)[space] == [] then old(counts)
                                        else old(counts)[space := CountOf(old(counts), space) - |old(register)[space]|])
                          && deletion == StampAll(old(deletion), Keys(old(register)[space]), now)
      ensures creation == old(creation) && safe == old(safe)
    {
      if space !in register {
        return true;
      }
      var names := Keys(register[space]);
      counts, deletion := CountDownAndStamp(counts, deletion, space, names, now);
      register := register - {space};
      return false;
    }

    /** `save_resource`. */
    method SaveResource(item: string, key: string)
      modifies this
      ensures safe == old(safe)[key := item]
      ensures register == old(register) && counts == old(counts) && creation == old(creation) && deletion == old(deletion)
    {
      safe := safe[key := item];
    }

    /** `get_resource`: the saved item or None; with `delete` the item is also removed. */
    method GetResource(key: string, delete: bool) returns (r: Option<string>)
      modifies this
      ensures r == if key in old(safe) then Some(old(safe)[key]) else None
      ensures safe == if key in old(safe) && delete then old(safe) - {key} else old(safe)
      ensures register == old(register) && counts == old(counts) && creation == old(creation) && deletion == old(deletion)
    {
      if key in safe {
        r := Some(safe[key]);
        if delete {
          safe := safe - {key};
        }
      } else {
        r := None;
      }
    }

    /** `delete_resource`: removes the item if present. */
    method DeleteResource(key: string)
      modifies this
      ensures safe == old(safe) - {key}
      ensures register == old(register) && counts == old(counts) && creation == old(creation) && deletion == old(deletion)
    {
      if key in safe {
        safe := safe - {key};
      }
    }
  }

  /** The singleton: `__init__` returns early once initialised, so later constructions keep every registry. */
  class ResourceManagerRegistry {
    var instance: ResourceManager?

    constructor ()
      ensures instance == null
    {
      instance := null;
    }

    method Get() returns (r: ResourceManager)
      modifies this
      ensures old(instance) != null ==> r == old(instance)
      ensures old(instance) == null ==> fresh(r) && r.Valid() && r.register == map["default" := [], "SaveLocations" := []]
      ensures instance == r
    {
      if instance == null {
        instance := new ResourceManager();
      }
      r := instance;
    }
  }
}
