/**
 * The in-memory store: namespaces of key -> uid -> value with a reference count per uid,
 * equal values shared between keys of one `add_data` call, and tags naming (uid, namespace) pairs.
 */
module InMemoryStore {
  import opened Wrappers

  /** A dict key: an Enum member and its string value are different keys in Python. */
  datatype Name = Text(s: string) | Member(value: string)

  /** Generated uids (uuid4 in the store); only their identity matters. */
  type Uid = nat

  /** The stored Python values the model distinguishes (dict keys are strings). */
  datatype Value =
    | VNone
    | VBool(b: bool)
    | VInt(i: int)
    | VFloat(r: real)
    | VStr(s: string)
    | VList(items: seq<Value>)
    | VDict(entries: map<string, Value>)

  /** bool, int and float compare numerically with each other under Python's `==`. */
  function Numeric(v: Value): Option<real>
  {
    match v
    case VBool(b) => Some(if b then 1.0 else 0.0)
    case VInt(i) => Some(i as real)
    case VFloat(r) => Some(r)
    case _ => None
  }

  /** `_values_equal`: element-wise on two dicts or two lists, Python `==` on anything else. */
  predicate ValuesEqual(a: Value, b: Value)
    decreases a
  {
    match (a, b)
    case (VDict(m), VDict(n)) => |m| == |n| && forall k :: k in m ==> k in n && ValuesEqual(m[k], n[k])
    case (VList(xs), VList(ys)) => |xs| == |ys| && forall i :: 0 <= i < |xs| ==> ValuesEqual(xs[i], ys[i])
    case _ => if Numeric(a).Some? && Numeric(b).Some? then Numeric(a) == Numeric(b) else a == b
  }

  lemma {:induction false} ValuesEqualReflexive(a: Value)
    ensures ValuesEqual(a, a)
  {
    match a
    case VDict(m) =>
      forall k | k in m ensures ValuesEqual(m[k], m[k]) { ValuesEqualReflexive(m[k]); }
    case VList(xs) =>
      forall i | 0 <= i < |xs| ensures ValuesEqual(xs[i], xs[i]) { ValuesEqualReflexive(xs[i]); }
    case _ =>
  }

  /** Equal is not identical: `True`, `1` and `1.0` are equal to each other under `==`, while the string "1" is not. */
  lemma TrueEqualsOne()
    ensures ValuesEqual(VInt(1), VBool(true)) && VInt(1) != VBool(true)
    ensures ValuesEqual(VFloat(1.0), VInt(1)) && ValuesEqual(VFloat(1.0), VBool(true))
    ensures !ValuesEqual(VStr("1"), VInt(1))
  {
  }

  /** One namespace: `data`, `key_to_uid` and `uid_ref_count`. */
  datatype Space = Space(data: map<Uid, Value>, keyToUid: map<Name, Uid>, refCount: map<Uid, int>)

  const EmptySpace := Space(map[], map[], map[])

  /** The keys bound to `u`. */
  ghost function KeysOf(m: map<Name, Uid>, u: Uid): set<Name>
  {
    set k | k in m && m[k] == u
  }

  /** Every bound uid has a value. */
  ghost predicate Bound(sp: Space)
  {
    forall k :: k in sp.keyToUid ==> sp.keyToUid[k] in sp.data
  }

  /** The reference-count invariant: every bound uid has a value and a counter, and each counter is the number of keys bound to its uid. */
  ghost predicate RefsOk(sp: Space)
  {
    && Bound(sp)
    && (forall k :: k in sp.keyToUid ==> sp.keyToUid[k] in sp.refCount)
    && (forall u :: u in sp.refCount ==> u in sp.data && sp.refCount[u] == |KeysOf(sp.keyToUid, u)|)
  }

  /** `w` has a positive count, so some key refers to it. */
  ghost predicate Live(sp: Space, w: Uid)
  {
    w in sp.refCount && sp.refCount[w] > 0
  }

  /** A stored value that no key refers to: it can never be read back by key or freed. */
  ghost predicate Orphan(sp: Space, w: Uid)
  {
    w in sp.data && !Live(sp, w)
  }

  /** Every stored value is reachable from some key. */
  ghost predicate NoOrphans(sp: Space)
  {
    forall w :: w in sp.data ==> Live(sp, w)
  }

  lemma KeysOfRebind(m: map<Name, Uid>, key: Name, u: Uid, w: Uid)
    ensures KeysOf(m[key := u], w) == if w == u then KeysOf(m, w) + {key} else KeysOf(m, w) - {key}
  {
  }

  lemma KeysOfRemove(m: map<Name, Uid>, key: Name, w: Uid)
    ensures KeysOf(m - {key}, w) == KeysOf(m, w) - {key}
  {
  }

  /** `get_data(key)`: the bound value, or None. */
  function Lookup(sp: Space, key: Name): Value
  {
    if key in sp.keyToUid && sp.keyToUid[key] in sp.data then sp.data[sp.keyToUid[key]] else VNone
  }

  /** The search loop of `add_data` (lines 258-264): the uid of the first given key whose value equals `v`. */
  function FirstEqual(sp: Space, keys: seq<Name>, v: Value): Option<Uid>
    requires Bound(sp)
  {
    if keys == [] then None
    else if keys[0] in sp.keyToUid && ValuesEqual(sp.data[sp.keyToUid[keys[0]]], v) then Some(sp.keyToUid[keys[0]])
    else FirstEqual(sp, keys[1..], v)
  }

  /** What the search finds is stored and equal to `v`. */
  lemma {:induction false} FirstEqualFound(sp: Space, keys: seq<Name>, v: Value)
    requires Bound(sp)
    ensures FirstEqual(sp, keys, v).Some? ==> FirstEqual(sp, keys, v).value in sp.data && ValuesEqual(sp.data[FirstEqual(sp, keys, v).value], v)
  {
    if keys != [] {
      FirstEqualFound(sp, keys[1..], v);
    }
  }

  /**
   * The search finds the uid of one of the keys, and finds nothing exactly when no key's value
   * equals `v`.
   */
  lemma {:induction false} FirstEqualFacts(sp: Space, keys: seq<Name>, v: Value)
    requires Bound(sp)
    ensures var r := FirstEqual(sp, keys, v);
            && (r.Some? ==> exists i :: 0 <= i < |keys| && keys[i] in sp.keyToUid && sp.keyToUid[keys[i]] == r.value)
            && (r.None? <==> forall i :: 0 <= i < |keys| && keys[i] in sp.keyToUid ==> !ValuesEqual(sp.data[sp.keyToUid[keys[i]]], v))
  {
    if keys != [] {
      FirstEqualFacts(sp, keys[1..], v);
      assert forall i :: 1 <= i < |keys| ==> keys[i] == keys[1..][i - 1];
      if FirstEqual(sp, keys, v) != FirstEqual(sp, keys[1..], v) {
        assert keys[0] in sp.keyToUid;
      } else if FirstEqual(sp, keys, v).Some? {
        var j :| 0 <= j < |keys[1..]| && keys[1..][j] in sp.keyToUid && sp.keyToUid[keys[1..][j]] == FirstEqual(sp, keys, v).value;
        assert keys[j + 1] == keys[1..][j];
      }
    }
  }

  /** The search over `a + b` finds what the search over `a` finds, else what the search over `b` finds. */
  lemma {:induction false} FirstEqualSplit(sp: Space, a: seq<Name>, b: seq<Name>, v: Value)
    requires Bound(sp)
    ensures FirstEqual(sp, a + b, v) == if FirstEqual(sp, a, v).Some? then FirstEqual(sp, a, v) else FirstEqual(sp, b, v)
  {
    if a == [] {
      assert a + b == b;
    } else {
      assert (a + b)[0] == a[0] && (a + b)[1..] == a[1..] + b;
      FirstEqualSplit(sp, a[1..], b, v);
    }
  }

  /** One pass of the rebinding loop of `add_data` (lines 275-283), as written: the old uid is decremented and tested while `key` still points to it. */
  function RebindOne(sp: Space, key: Name, u: Uid): Space
  {
    var sp1 :=
      if key in sp.keyToUid then
        var was := sp.keyToUid[key];
        var c := CountOf(sp.refCount, was) - 1;
        if c == 0 && was !in sp.keyToUid.Values then
          Space(sp.data - {was}, sp.keyToUid, sp.refCount - {was})
        else
          Space(sp.data, sp.keyToUid, sp.refCount[was := c])
      else sp;
    Space(sp1.data, sp1.keyToUid[key := u], sp1.refCount[u := (if u in sp1.refCount then sp1.refCount[u] else 0) + 1])
  }

  /** The rebinding pass never frees anything, and it keeps the reference-count invariant. */
  lemma RebindOneFacts(sp: Space, key: Name, u: Uid)
    requires RefsOk(sp) && u in sp.data
    ensures RebindOne(sp, key, u).data == sp.data
    ensures RefsOk(RebindOne(sp, key, u))
    ensures RebindOne(sp, key, u).keyToUid == sp.keyToUid[key := u]
  {
    var m, rc := sp.keyToUid, sp.refCount;
    UnboundWithoutCounter(sp, u);
    var r := RebindOne(sp, key, u);
    if key in m {
      var rc1 := rc[m[key] := rc[m[key]] - 1];
      assert r == Space(sp.data, m[key := u], rc1[u := (if u in rc1 then rc1[u] else 0) + 1]) by {
        assert m[key] in m.Values;
      }
      RebindBoundKey(sp, key, u);
    } else {
      assert r == Space(sp.data, m[key := u], rc[u := (if u in rc then rc[u] else 0) + 1]);
      CountsAfterBind(m, rc, key, u);
      RefsOkIntro(r);
    }
  }

  /** Rebinding a bound key: one off the old uid's count, one onto the new uid's. */
  lemma RebindBoundKey(sp: Space, key: Name, u: Uid)
    requires RefsOk(sp) && u in sp.data && key in sp.keyToUid
    requires u !in sp.refCount ==> KeysOf(sp.keyToUid, u) == {}
    ensures var rc1 := sp.refCount[sp.keyToUid[key] := sp.refCount[sp.keyToUid[key]] - 1];
            RefsOk(Space(sp.data, sp.keyToUid[key := u], rc1[u := (if u in rc1 then rc1[u] else 0) + 1]))
  {
    var m, rc := sp.keyToUid, sp.refCount;
    var rc1 := rc[m[key] := rc[m[key]] - 1];
    var r := Space(sp.data, m[key := u], rc1[u := (if u in rc1 then rc1[u] else 0) + 1]);
    CountsAfterRebind(m, rc, key, u);
    RefsOkIntro(r);
  }

  /** The counts stay exact when a bound key moves to `u`. */
  lemma CountsAfterRebind(m: map<Name, Uid>, rc: map<Uid, int>, key: Name, u: Uid)
    requires CountsExact(m, rc) && key in m && m[key] in rc
    requires u !in rc ==> KeysOf(m, u) == {}
    ensures var rc1 := rc[m[key] := rc[m[key]] - 1];
            CountsExact(m[key := u], rc1[u := (if u in rc1 then rc1[u] else 0) + 1])
  {
    var m1, rc1 := m - {key}, rc[m[key] := rc[m[key]] - 1];
    CountsAfterUnbind(m, rc, key);
    KeysOfRemove(m, key, u);
    CountsAfterBind(m1, rc1, key, u);
    assert m1[key := u] == m[key := u];
  }

  /** The count invariant, conjunct by conjunct. */
  lemma RefsOkIntro(sp: Space)
    requires forall k :: k in sp.keyToUid ==> sp.keyToUid[k] in sp.refCount
    requires sp.refCount.Keys <= sp.data.Keys
    requires CountsExact(sp.keyToUid, sp.refCount)
    ensures RefsOk(sp)
  {
  }

  ghost predicate CountsExact(m: map<Name, Uid>, rc: map<Uid, int>)
  {
    forall w :: w in rc ==> rc[w] == |KeysOf(m, w)|
  }

  /** Unbinding a key takes exactly one off its uid's count. */
  lemma CountsAfterUnbind(m: map<Name, Uid>, rc: map<Uid, int>, key: Name)
    requires CountsExact(m, rc) && key in m && m[key] in rc
    ensures CountsExact(m - {key}, rc[m[key] := rc[m[key]] - 1])
    ensures rc[m[key]] >= 1
  {
    assert key in KeysOf(m, m[key]);
    forall w | w in rc
      ensures rc[m[key] := rc[m[key]] - 1][w] == |KeysOf(m - {key}, w)|
    {
      KeysOfRemove(m, key, w);
    }
  }

  /** Binding a free key adds exactly one to its uid's count (a missing counter counts as 0). */
  lemma CountsAfterBind(m: map<Name, Uid>, rc: map<Uid, int>, key: Name, u: Uid)
    requires CountsExact(m, rc) && key !in m
    requires u !in rc ==> KeysOf(m, u) == {}
    ensures CountsExact(m[key := u], rc[u := (if u in rc then rc[u] else 0) + 1])
  {
    var rc2 := rc[u := (if u in rc then rc[u] else 0) + 1];
    forall w | w in rc2
      ensures rc2[w] == |KeysOf(m[key := u], w)|
    {
      KeysOfRebind(m, key, u, w);
      assert key !in KeysOf(m, w);
    }
  }

  /** Under the invariant a uid without a counter has no keys. */
  lemma UnboundWithoutCounter(sp: Space, u: Uid)
    requires RefsOk(sp)
    ensures u !in sp.refCount ==> KeysOf(sp.keyToUid, u) == {}
  {
    if u !in sp.refCount {
      assert forall k :: k in sp.keyToUid ==> sp.keyToUid[k] != u;
    }
  }

  /** A uid with no keys is the target of none. */
  lemma NoKeysUnbound(m: map<Name, Uid>, u: Uid)
    requires |KeysOf(m, u)| == 0
    ensures forall k :: k in m ==> m[k] != u
  {
    forall k | k in m ensures m[k] != u {
      assert m[k] == u ==> k in KeysOf(m, u);
    }
  }

  /** After `add_data(keys, v)`, `get_data(k)` returns a value equal to `v` for every given key. */
  lemma AddThenGet(sp: Space, keys: seq<Name>, v: Value, newUid: Uid, k: Name)
    requires RefsOk(sp) && newUid !in sp.data && k in keys
    ensures ValuesEqual(Lookup(AddToSpace(sp, keys, v, newUid).0, k), v)
  {
    AddToSpaceFacts(sp, keys, v, newUid);
  }

  /** A uid's counter; under the count invariant every bound uid has one. */
  function CountOf(rc: map<Uid, int>, u: Uid): int
  {
    if u in rc then rc[u] else 0
  }

  /** One pass of the loop of `delete_data` (lines 306-312): unbind, decrement, free at zero. */
  function DeleteOne(sp: Space, key: Name): Space
  {
    if key in sp.keyToUid then
      var u := sp.keyToUid[key];
      var c := CountOf(sp.refCount, u) - 1;
      if c == 0 then Space(sp.data - {u}, sp.keyToUid - {key}, sp.refCount - {u})
      else Space(sp.data, sp.keyToUid - {key}, sp.refCount[u := c])
    else sp
  }

  lemma DeleteOneFacts(sp: Space, key: Name)
    requires RefsOk(sp)
    ensures RefsOk(DeleteOne(sp, key))
    ensures DeleteOne(sp, key).keyToUid == sp.keyToUid - {key}
    ensures NoOrphans(sp) ==> NoOrphans(DeleteOne(sp, key))
    ensures DeleteOne(sp, key).data.Keys <= sp.data.Keys
  {
    var m, rc := sp.keyToUid, sp.refCount;
    if key in m {
      var u := m[key];
      CountsAfterUnbind(m, rc, key);
      if rc[u] - 1 == 0 {
        NoKeysUnbound(m - {key}, u);
      }
    } else {
      assert m - {key} == m;
    }
  }

  /** The loop of `delete_data`: every key in turn. */
  function DeleteAll(sp: Space, keys: seq<Name>): Space
  {
    if keys == [] then sp else DeleteOne(DeleteAll(sp, keys[..|keys| - 1]), keys[|keys| - 1])
  }

  /** After deleting, none of the keys is bound, other keys read as before, the counts stay exact, no orphan appears and nothing is stored anew. */
  lemma {:induction false} DeleteAllFacts(sp: Space, keys: seq<Name>)
    requires RefsOk(sp)
    ensures var r := DeleteAll(sp, keys);
            && RefsOk(r)
            && (forall k :: k in keys ==> k !in r.keyToUid)
            && (forall k :: k !in keys ==> Lookup(r, k) == Lookup(sp, k))
            && (NoOrphans(sp) ==> NoOrphans(r))
            && r.data.Keys <= sp.data.Keys
  {
    if keys != [] {
      var pre := DeleteAll(sp, keys[..|keys| - 1]);
      DeleteAllFacts(sp, keys[..|keys| - 1]);
      DeleteOneFacts(pre, keys[|keys| - 1]);
      assert forall k :: k in keys ==> k in keys[..|keys| - 1] || k == keys[|keys| - 1];
    }
  }

  /**
   * The rebinding pass with the free check made after the key is moved: the old value
   * is dropped exactly when no key refers to it any more.
   */
  function RebindOneFreeing(sp: Space, key: Name, u: Uid): Space
  {
    var r := RebindOne(sp, key, u);
    if key in sp.keyToUid && sp.keyToUid[key] in r.refCount && r.refCount[sp.keyToUid[key]] == 0 then
      Drop(r, sp.keyToUid[key])
    else
      r
  }

  /** Removes a uid's value and counter. */
  function Drop(sp: Space, w: Uid): Space
  {
    Space(sp.data - {w}, sp.keyToUid, sp.refCount - {w})
  }

  /**
   * With the corrected check, rebinding keeps the count invariant, keeps every surviving
   * value unchanged, makes `u` live, and creates no orphan (the old value is freed instead).
   */
  lemma RebindOneFreeingFacts(sp: Space, key: Name, u: Uid)
    requires RefsOk(sp) && u in sp.data
    ensures var r := RebindOneFreeing(sp, key, u);
            && RefsOk(r) && r.keyToUid == sp.keyToUid[key := u] && u in r.data && Live(r, u)
            && (forall w :: w in r.data ==> w in sp.data && r.data[w] == sp.data[w])
            && (forall w :: Orphan(r, w) ==> Orphan(sp, w))
  {
    RebindOneFacts(sp, key, u);
    var r := RebindOne(sp, key, u);
    var m := sp.keyToUid;
    assert key in KeysOf(r.keyToUid, u);
    var dropped := key in m && m[key] in r.refCount && r.refCount[m[key]] == 0;
    if dropped {
      DropFreed(r, m[key]);
    }
  }

  /** Dropping a uid whose count is 0 keeps the count invariant. */
  lemma DropFreed(r: Space, w: Uid)
    requires RefsOk(r) && w in r.refCount && r.refCount[w] == 0
    ensures RefsOk(Drop(r, w))
  {
    NoKeysUnbound(r.keyToUid, w);
    CountsDrop(r.keyToUid, r.refCount, w);
    PartsGiveInvariants(r.data - {w}, r.keyToUid, r.refCount - {w});
  }

  /** The rebinding loop of `add_data` with the corrected free check: every key in turn. */
  function RebindAll(sp: Space, keys: seq<Name>, u: Uid): Space
  {
    if keys == [] then sp else RebindOneFreeing(RebindAll(sp, keys[..|keys| - 1], u), keys[|keys| - 1], u)
  }

  /**
   * After the loop every given key is bound to `u`, which is live; other keys keep their
   * uids; surviving values are unchanged; the counts stay exact; and no new orphan appears.
   */
  lemma {:induction false} RebindAllFacts(sp: Space, keys: seq<Name>, u: Uid)
    requires RefsOk(sp) && u in sp.data
    ensures var r := RebindAll(sp, keys, u);
            && RefsOk(r) && u in r.data
            && (forall w :: w in r.data ==> w in sp.data && r.data[w] == sp.data[w])
            && (forall k :: k in keys ==> k in r.keyToUid && r.keyToUid[k] == u)
            && (forall k :: k !in keys ==> (k in r.keyToUid <==> k in sp.keyToUid))
            && (forall k :: k !in keys && k in sp.keyToUid ==> r.keyToUid[k] == sp.keyToUid[k])
            && (forall w :: Orphan(r, w) ==> Orphan(sp, w))
            && (keys != [] ==> Live(r, u))
  {
    if keys != [] {
      var last := keys[|keys| - 1];
      var pre := RebindAll(sp, keys[..|keys| - 1], u);
      RebindAllFacts(sp, keys[..|keys| - 1], u);
      RebindOneFreeingFacts(pre, last, u);
      assert forall k :: k in keys ==> k in keys[..|keys| - 1] || k == last;
    }
  }

  /**
   * `add_data(keys, v)` on one namespace: reuse an equal value bound to one of the keys, else
   * store `v` under `newUid`; then bind every key to that uid.
   */
  function AddToSpace(sp: Space, keys: seq<Name>, v: Value, newUid: Uid): (Space, Uid)
    requires Bound(sp)
  {
    var found := FirstEqual(sp, keys, v);
    var uid := if found.Some? then found.value else newUid;
    var sp1 := if found.Some? then sp else sp.(data := sp.data[newUid := v]);
    (RebindAll(sp1, keys, uid), uid)
  }

  /**
   * An equal value found among the keys is reused, else `v` is stored under the fresh uid;
   * every key then reads that value, other keys read as before, the counts stay exact and no
   * orphan appears.
   */
  lemma AddToSpaceFacts(sp: Space, keys: seq<Name>, v: Value, newUid: Uid)
    requires RefsOk(sp) && newUid !in sp.data
    ensures var r := AddToSpace(sp, keys, v, newUid);
            && RefsOk(r.0) && r.1 in r.0.data && ValuesEqual(r.0.data[r.1], v)
            && (forall k :: k in keys ==> Lookup(r.0, k) == r.0.data[r.1])
            && (FirstEqual(sp, keys, v).Some? ==> r.1 == FirstEqual(sp, keys, v).value && newUid !in r.0.data)
            && (FirstEqual(sp, keys, v).None? ==> r.1 == newUid && r.0.data[newUid] == v)
  {
    var found := FirstEqual(sp, keys, v);
    FirstEqualFound(sp, keys, v);
    ValuesEqualReflexive(v);
    if found.Some? {
      RebindAllFacts(sp, keys, found.value);
    } else {
      var sp1 := sp.(data := sp.data[newUid := v]);
      assert RefsOk(sp1);
      RebindAllFacts(sp1, keys, newUid);
    }
  }

  /**
   * Adding `True` to a key that holds a stored `1` reuses that entry: the key keeps its uid,
   * `get_data` still returns the integer `1`, and no new value is stored.
   */
  lemma TrueReusesStoredOne(sp: Space, key: Name, newUid: Uid)
    requires RefsOk(sp) && newUid !in sp.data
    requires key in sp.keyToUid && sp.data[sp.keyToUid[key]] == VInt(1)
    ensures var r := AddToSpace(sp, [key], VBool(true), newUid);
            && r.1 == sp.keyToUid[key] && r.0.keyToUid[key] == sp.keyToUid[key]
            && Lookup(r.0, key) == VInt(1) && newUid !in r.0.data
  {
    assert FirstEqual(sp, [key], VBool(true)) == Some(sp.keyToUid[key]);
    AddToSpaceFacts(sp, [key], VBool(true), newUid);
    RebindAllFacts(sp, [key], sp.keyToUid[key]);
  }

  /** `add_data` changes no other stored value and no other key, and leaves no orphan behind. */
  lemma AddToSpaceFrame(sp: Space, keys: seq<Name>, v: Value, newUid: Uid)
    requires RefsOk(sp) && newUid !in sp.data
    ensures var r := AddToSpace(sp, keys, v, newUid);
            && (forall w :: w in r.0.data && w != newUid ==> w in sp.data && r.0.data[w] == sp.data[w])
            && (forall k :: k !in keys ==> Lookup(r.0, k) == Lookup(sp, k))
            && (keys != [] && NoOrphans(sp) ==> NoOrphans(r.0))
  {
    var found := FirstEqual(sp, keys, v);
    FirstEqualFound(sp, keys, v);
    if found.Some? {
      RebindAllFrame(sp, sp, keys, found.value, newUid);
    } else {
      var sp1 := sp.(data := sp.data[newUid := v]);
      assert RefsOk(sp1);
      assert forall k :: k in sp1.keyToUid ==> Lookup(sp1, k) == Lookup(sp, k);
      assert forall w :: Orphan(sp1, w) ==> w == newUid || Orphan(sp, w);
      RebindAllFrame(sp, sp1, keys, newUid, newUid);
    }
  }

  /**
   * Rebinding `keys` to `u` in `sp1`, a copy of `sp` with at most `newUid` added, changes no
   * other value and no other key, and leaves no orphan when `sp` had none.
   */
  lemma RebindAllFrame(sp: Space, sp1: Space, keys: seq<Name>, u: Uid, newUid: Uid)
    requires RefsOk(sp1) && u in sp1.data
    requires sp1.keyToUid == sp.keyToUid
    requires forall w :: w in sp1.data && w != newUid ==> w in sp.data && sp1.data[w] == sp.data[w]
    requires forall k :: k in sp1.keyToUid ==> Lookup(sp1, k) == Lookup(sp, k)
    requires forall w :: Orphan(sp1, w) ==> w == u || Orphan(sp, w)
    ensures var r := RebindAll(sp1, keys, u);
            && (forall w :: w in r.data && w != newUid ==> w in sp.data && r.data[w] == sp.data[w])
            && (forall k :: k !in keys ==> Lookup(r, k) == Lookup(sp, k))
            && (keys != [] && NoOrphans(sp) ==> NoOrphans(r))
  {
    RebindAllFacts(sp1, keys, u);
    var r := RebindAll(sp1, keys, u);
    forall k | k !in keys
      ensures Lookup(r, k) == Lookup(sp, k)
    {
      if k in sp1.keyToUid {
        assert Lookup(sp1, k) == Lookup(sp, k);
      }
    }
    OrphansFrom(sp, r, u);
  }

  /** If every orphan of `r` was an orphan of `sp` or is the live `u`, then `r` has none when `sp` has none. */
  lemma OrphansFrom(sp: Space, r: Space, u: Uid)
    requires forall w :: Orphan(r, w) ==> w == u || Orphan(sp, w)
    ensures NoOrphans(sp) && Live(r, u) ==> NoOrphans(r)
  {
    if NoOrphans(sp) && Live(r, u) {
      forall w | w in r.data ensures Live(r, w) {
        assert !Orphan(sp, w);
      }
    }
  }

  lemma CountsDrop(m: map<Name, Uid>, rc: map<Uid, int>, w: Uid)
    requires CountsExact(m, rc)
    ensures CountsExact(m, rc - {w})
  {
  }

  /** The two invariants, from facts about the three maps taken one at a time. */
  lemma PartsGiveInvariants(data: map<Uid, Value>, m: map<Name, Uid>, rc: map<Uid, int>)
    requires CountsExact(m, rc)
    requires forall k :: k in m ==> m[k] in data && m[k] in rc
    requires forall w :: w in rc ==> w in data
    ensures RefsOk(Space(data, m, rc))
    ensures (forall w :: w in data ==> w in rc && rc[w] > 0) ==> NoOrphans(Space(data, m, rc))
  {
  }

  /** A value whose only key is rebound to another stored value stays stored, with a count of 0. */
  lemma RebindLeaksOldValue()
    ensures var sp := Space(map[0 := VInt(1), 1 := VInt(2)], map[Text("a") := 0, Text("b") := 1], map[0 := 1, 1 := 1]);
            var r := RebindOne(sp, Text("a"), 1);
            RefsOk(sp) && NoOrphans(sp) && 0 in r.data && r.refCount[0] == 0 && !NoOrphans(r)
  {
    var sp := Space(map[0 := VInt(1), 1 := VInt(2)], map[Text("a") := 0, Text("b") := 1], map[0 := 1, 1 := 1]);
    assert KeysOf(sp.keyToUid, 0) == {Text("a")};
    assert KeysOf(sp.keyToUid, 1) == {Text("b")};
    assert sp.keyToUid[Text("a")] in sp.keyToUid.Values;
  }

  /** Tags: each tag names a non-empty set of (uid, namespace) pairs. */
  type TagMap = map<string, set<(Uid, Name)>>

  /** The tag loop of `add_data` (lines 270-273). */
  function AddTags(t: TagMap, ts: seq<string>, p: (Uid, Name)): TagMap
    decreases |ts|
  {
    if ts == [] then t
    else
      var pre := AddTags(t, ts[..|ts| - 1], p);
      var x := ts[|ts| - 1];
      pre[x := (if x in pre then pre[x] else {}) + {p}]
  }

  /** Tagging adds the pair to every listed tag, creating missing ones, and touches no other tag. */
  lemma {:induction false} AddTagsFacts(t: TagMap, ts: seq<string>, p: (Uid, Name))
    ensures var r := AddTags(t, ts, p);
            && r.Keys == t.Keys + (set x | x in ts)
            && forall x :: x in r ==> r[x] == (if x in t then t[x] else {}) + (if x in ts then {p} else {})
    decreases |ts|
  {
    if ts != [] {
      AddTagsFacts(t, ts[..|ts| - 1], p);
      assert forall y :: y in ts <==> y in ts[..|ts| - 1] || y == ts[|ts| - 1];
    }
  }

  /** `remove_tags` (lines 314-320). */
  function RemoveTags(t: TagMap, ts: seq<string>, p: (Uid, Name)): TagMap
    decreases |ts|
  {
    if ts == [] then t
    else
      var pre := RemoveTags(t, ts[..|ts| - 1], p);
      var x := ts[|ts| - 1];
      if x in pre && p in pre[x] then
        if pre[x] - {p} == {} then pre - {x} else pre[x := pre[x] - {p}]
      else pre
  }

  /** Each listed tag loses the pair, a tag is deleted exactly when that leaves it empty, and other tags are untouched. */
  lemma {:induction false} RemoveTagsFacts(t: TagMap, ts: seq<string>, p: (Uid, Name))
    ensures var r := RemoveTags(t, ts, p);
            && r.Keys <= t.Keys
            && (forall x :: x in r ==> r[x] == (if x in ts then t[x] - {p} else t[x]))
            && (forall x :: x in t && x !in r <==> x in t && x in ts && p in t[x] && t[x] - {p} == {})
    decreases |ts|
  {
    if ts != [] {
      RemoveTagsFacts(t, ts[..|ts| - 1], p);
      assert forall y :: y in ts <==> y in ts[..|ts| - 1] || y == ts[|ts| - 1];
    }
  }

  /** The search loop of `add_data` (lines 256-264); uids already compared are skipped. */
  method FindEqual(sp: Space, keys: seq<Name>, v: Value) returns (found: Option<Uid>)
    requires Bound(sp)
    ensures found == FirstEqual(sp, keys, v)
  {
    found := None;
    var checked: set<Uid> := {};
    var i := 0;
    while i < |keys| && found.None?
      invariant 0 <= i <= |keys|
      invariant found == FirstEqual(sp, keys[..i], v)
      invariant forall c :: c in checked ==> c in sp.data && !ValuesEqual(sp.data[c], v)
    {
      var key := keys[i];
      FirstEqualSplit(sp, keys[..i], [key], v);
      assert keys[..i + 1] == keys[..i] + [key];
      if key in sp.keyToUid && sp.keyToUid[key] !in checked {
        var uid := sp.keyToUid[key];
        if ValuesEqual(sp.data[uid], v) {
          found := Some(uid);
        } else {
          checked := checked + {uid};
        }
      }
      i := i + 1;
    }
    if found.Some? {
      FirstEqualSplit(sp, keys[..i], keys[i..], v);
      assert keys[..i] + keys[i..] == keys;
    } else {
      assert keys[..i] == keys;
    }
  }

  /** The rebinding loop of `add_data` (lines 275-283), with the free check after the move. */
  method RebindKeys(sp0: Space, keys: seq<Name>, u: Uid) returns (sp: Space)
    requires RefsOk(sp0) && u in sp0.data
    ensures sp == RebindAll(sp0, keys, u)
  {
    sp := sp0;
    var k := 0;
    while k < |keys|
      invariant 0 <= k <= |keys|
      invariant sp == RebindAll(sp0, keys[..k], u)
    {
      assert keys[..k + 1][..k] == keys[..k];
      RebindAllFacts(sp0, keys[..k], u);
      sp := RebindStep(sp, keys[k], u);
      k := k + 1;
    }
    assert keys[..k] == keys;
  }

  /** One pass of the rebinding loop: move the key, count, and free the old value once no key refers to it. */
  method RebindStep(sp0: Space, key: Name, u: Uid) returns (sp: Space)
    requires RefsOk(sp0) && u in sp0.data
    ensures sp == RebindOneFreeing(sp0, key, u)
  {
    sp := sp0;
    var was: Option<Uid> := None;
    if key in sp.keyToUid {
      was := Some(sp.keyToUid[key]);
      assert was.value in sp.keyToUid.Values;
      sp := sp.(refCount := sp.refCount[was.value := sp.refCount[was.value] - 1]);
    }
    sp := sp.(keyToUid := sp.keyToUid[key := u]);
    sp := sp.(refCount := sp.refCount[u := (if u in sp.refCount then sp.refCount[u] else 0) + 1]);
    if was.Some? && sp.refCount[was.value] == 0 {
      sp := Drop(sp, was.value);
    }
  }

  /** The loop of `delete_data` (lines 306-312). */
  method DeleteKeys(sp0: Space, keys: seq<Name>) returns (sp: Space)
    requires RefsOk(sp0)
    ensures sp == DeleteAll(sp0, keys)
  {
    sp := sp0;
    var i := 0;
    while i < |keys|
      invariant 0 <= i <= |keys|
      invariant sp == DeleteAll(sp0, keys[..i])
    {
      assert keys[..i + 1][..i] == keys[..i];
      DeleteAllFacts(sp0, keys[..i]);
      sp := DeleteStep(sp, keys[i]);
      i := i + 1;
    }
    assert keys[..i] == keys;
  }

  /** One pass of the loop of `delete_data`: unbind, decrement, free at zero. */
  method DeleteStep(sp0: Space, key: Name) returns (sp: Space)
    requires RefsOk(sp0)
    ensures sp == DeleteOne(sp0, key)
  {
    sp := sp0;
    if key in sp.keyToUid {
      var u := sp.keyToUid[key];
      sp := sp.(keyToUid := sp.keyToUid - {key});
      sp := sp.(refCount := sp.refCount[u := sp.refCount[u] - 1]);
      if sp.refCount[u] == 0 {
        sp := Drop(sp, u);
      }
    }
  }

  /** The tag loop of `add_data`. */
  method TagPairs(t: TagMap, ts: seq<string>, p: (Uid, Name)) returns (r: TagMap)
    ensures r == AddTags(t, ts, p)
  {
    r := t;
    var j := 0;
    while j < |ts|
      invariant 0 <= j <= |ts|
      invariant r == AddTags(t, ts[..j], p)
    {
      var tag := ts[j];
      assert ts[..j + 1][..j] == ts[..j];
      if tag !in r {
        r := r[tag := {}];
      }
      r := r[tag := r[tag] + {p}];
      j := j + 1;
    }
    assert ts[..j] == ts;
  }

  /** The loop of `remove_tags`. */
  method UntagPairs(t: TagMap, ts: seq<string>, p: (Uid, Name)) returns (r: TagMap)
    ensures r == RemoveTags(t, ts, p)
  {
    r := t;
    var i := 0;
    while i < |ts|
      invariant 0 <= i <= |ts|
      invariant r == RemoveTags(t, ts[..i], p)
    {
      var tag := ts[i];
      assert ts[..i + 1][..i] == ts[..i];
      if tag in r && p in r[tag] {
        r := r[tag := r[tag] - {p}];
        if r[tag] == {} {
          r := r - {tag};
        }
      }
      i := i + 1;
    }
    assert ts[..i] == ts;
  }

  /** A namespace as `_get_namespace` sees it: missing ones are empty. */
  function SpaceOf(nss: map<Name, Space>, ns: Name): Space
  {
    if ns in nss then nss[ns] else EmptySpace
  }

  const Default := Text("default")

  /** A namespace keeps the count invariant and uses only uids below `bound`. */
  ghost predicate SpaceOk(sp: Space, bound: nat)
  {
    RefsOk(sp) && forall w :: w in sp.data ==> w < bound
  }

  ghost predicate TagsOk(t: TagMap)
  {
    forall x :: x in t ==> t[x] != {}
  }

  /** The store's invariant: the default namespace exists, every namespace is well formed, no tag is empty. */
  ghost predicate StateOk(nss: map<Name, Space>, t: TagMap, bound: nat)
  {
    && Default in nss
    && (forall n :: n in nss ==> SpaceOk(nss[n], bound))
    && TagsOk(t)
  }

  /** Replacing one namespace by a well-formed space keeps the store's invariant. */
  lemma StateOkReplace(nss: map<Name, Space>, t: TagMap, bound: nat, ns: Name, sp: Space)
    requires StateOk(nss, t, bound) && SpaceOk(sp, bound)
    ensures StateOk(nss[ns := sp], t, bound)
  {
    var nss' := nss[ns := sp];
    forall n | n in nss' ensures SpaceOk(nss'[n], bound) {
      if n != ns {
        assert SpaceOk(nss[n], bound);
      }
    }
  }

  /** A second update of the same namespace overrides the first. */
  lemma UpdateTwice(nss: map<Name, Space>, ns: Name, a: Space, b: Space)
    ensures nss[ns := a][ns := b] == nss[ns := b]
  {
  }

  /** The empty namespace is well formed. */
  lemma EmptySpaceOk(bound: nat)
    ensures SpaceOk(EmptySpace, bound)
  {
  }

  /** `add_data` keeps the store's invariant, with the fresh uid as the old bound. */
  lemma AddKeepsStateOk(nss: map<Name, Space>, t: TagMap, bound: nat, ns: Name, keys: seq<Name>, v: Value, ts: seq<string>)
    requires StateOk(nss, t, bound)
    ensures var r := AddToSpace(SpaceOf(nss, ns), keys, v, bound);
            StateOk(nss[ns := r.0], AddTags(t, ts, (r.1, ns)), bound + 1)
  {
    var sp := SpaceOf(nss, ns);
    assert SpaceOk(sp, bound);
    var r := AddToSpace(sp, keys, v, bound);
    assert SpaceOk(r.0, bound + 1) by {
      AddToSpaceFacts(sp, keys, v, bound);
      AddToSpaceFrame(sp, keys, v, bound);
      forall w | w in r.0.data ensures w < bound + 1 {
        assert w == bound || w in sp.data;
      }
    }
    StateOkBump(nss, t, bound);
    StateOkReplace(nss, t, bound + 1, ns, r.0);
    assert TagsOk(AddTags(t, ts, (r.1, ns))) by {
      AddTagsFacts(t, ts, (r.1, ns));
    }
  }

  /** The invariant holds for a larger fresh-uid bound. */
  lemma StateOkBump(nss: map<Name, Space>, t: TagMap, bound: nat)
    requires StateOk(nss, t, bound)
    ensures StateOk(nss, t, bound + 1)
  {
    forall n | n in nss ensures SpaceOk(nss[n], bound + 1) {
      assert SpaceOk(nss[n], bound);
    }
  }

  /** The store. All methods run under the one lock in the source, so each is one atomic step here. */
  class InMemoryData {
    var namespaces: map<Name, Space>
    var tags: TagMap
    /** Uids handed out so far; stands in for uuid4. */
    var nextUid: nat

    ghost predicate Valid()
      reads this
    {
      StateOk(namespaces, tags, nextUid)
    }

    /** `__new__` on first use: only the default namespace, no tags. */
    constructor ()
      ensures Valid()
      ensures namespaces == map[Default := EmptySpace] && tags == map[]
    {
      namespaces := map[Default := EmptySpace];
      tags := map[];
      nextUid := 0;
    }

    /** `_get_namespace`: creates a missing namespace. */
    method GetNamespace(ns: Name) returns (sp: Space)
      requires Valid()
      modifies this
      ensures Valid()
      ensures sp == SpaceOf(old(namespaces), ns)
      ensures namespaces == old(namespaces)[ns := sp] && tags == old(tags) && nextUid == old(nextUid)
    {
      if ns !in namespaces {
        namespaces := namespaces[ns := EmptySpace];
      }
      sp := namespaces[ns];
    }

    /** `create_namespace`: raises ValueError (here `raised`) for an existing name. */
    method CreateNamespace(ns: Name) returns (raised: bool)
      requires Valid()
      modifies this
      ensures Valid()
      ensures raised <==> ns in old(namespaces)
      ensures namespaces == if raised then old(namespaces) else old(namespaces)[ns := EmptySpace]
      ensures tags == old(tags) && nextUid == old(nextUid)
    {
      if ns in namespaces {
        return true;
      }
      namespaces := namespaces[ns := EmptySpace];
      return false;
    }

    /** `delete_namespace`: raises for the string "default" and for a missing name. */
    method DeleteNamespace(ns: Name) returns (raised: bool)
      requires Valid()
      modifies this
      ensures Valid()
      ensures raised <==> ns == Default || ns !in old(namespaces)
      ensures namespaces == if raised then old(namespaces) else old(namespaces) - {ns}
      ensures tags == old(tags) && nextUid == old(nextUid)
    {
      if ns == Default {
        return true;
      }
      if ns in namespaces {
        namespaces := namespaces - {ns};
        return false;
      }
      return true;
    }

    /**
     * `add_data`: finds an equal value among the keys' current values, else stores `v` under a
     * fresh uid; tags the pair; then binds every key to that uid (with the free check made
     * after the move, see RebindOneFreeing).
     */
    method AddData(keys: seq<Name>, v: Value, ns: Name, tagList: seq<string>)
      requires Valid()
      modifies this
      ensures Valid()
      ensures var r := AddToSpace(SpaceOf(old(namespaces), ns), keys, v, old(nextUid));
              namespaces == old(namespaces)[ns := r.0] && tags == AddTags(old(tags), tagList, (r.1, ns))
    {
      var sp := SpaceOf(namespaces, ns);
      ghost var r := AddToSpace(sp, keys, v, nextUid);
      AddKeepsStateOk(namespaces, tags, nextUid, ns, keys, v, tagList);
      var found := FindEqual(sp, keys, v);
      var u: Uid;
      if found.None? {
        u := nextUid;
        sp := sp.(data := sp.data[u := v]);
      } else {
        u := found.value;
      }
      var t := TagPairs(tags, tagList, (u, ns));
      FirstEqualFound(SpaceOf(namespaces, ns), keys, v);
      sp := RebindKeys(sp, keys, u);
      assert sp == r.0 && u == r.1;
      namespaces, tags, nextUid := namespaces[ns := sp], t, nextUid + 1;
    }

    /** `get_data`: by uid when one is given, else by key; None when absent. Creates a missing namespace. */
    method GetData(key: Name, ns: Name, uid: Option<Uid>) returns (v: Value)
      requires Valid()
      modifies this
      ensures Valid()
      ensures namespaces == old(namespaces)[ns := SpaceOf(old(namespaces), ns)] && tags == old(tags) && nextUid == old(nextUid)
      ensures uid.None? ==> v == Lookup(SpaceOf(old(namespaces), ns), key)
      ensures uid.Some? ==> v == (if uid.value in SpaceOf(old(namespaces), ns).data then SpaceOf(old(namespaces), ns).data[uid.value] else VNone)
    {
      var sp := GetNamespace(ns);
      var u := uid;
      if u.None? && key in sp.keyToUid {
        u := Some(sp.keyToUid[key]);
      }
      if u.Some? && u.value in sp.data {
        return sp.data[u.value];
      }
      return VNone;
    }

    /** `delete_data`: unbinds each key in turn, freeing a value whose count reaches 0. */
    method DeleteData(keys: seq<Name>, ns: Name)
      requires Valid()
      modifies this
      ensures Valid()
      ensures namespaces == old(namespaces)[ns := DeleteAll(SpaceOf(old(namespaces), ns), keys)]
      ensures tags == old(tags) && nextUid == old(nextUid)
    {
      var sp := GetNamespace(ns);
      DeleteAllFacts(sp, keys);
      sp := DeleteKeys(sp, keys);
      StateOkReplace(namespaces, tags, nextUid, ns, sp);
      UpdateTwice(old(namespaces), ns, SpaceOf(old(namespaces), ns), sp);
      namespaces := namespaces[ns := sp];
    }

    /** `remove_tags`: each listed tag loses (uid, ns); emptied tags are deleted. */
    method RemoveTagsOf(uid: Uid, ns: Name, tagList: seq<string>)
      requires Valid()
      modifies this
      ensures Valid()
      ensures tags == RemoveTags(old(tags), tagList, (uid, ns))
      ensures namespaces == old(namespaces) && nextUid == old(nextUid)
    {
      RemoveTagsFacts(tags, tagList, (uid, ns));
      tags := UntagPairs(tags, tagList, (uid, ns));
    }

    /** `purge_all_data`: empties the namespace (created if missing); tags are left as they are. */
    method PurgeAllData(ns: Name)
      requires Valid()
      modifies this
      ensures Valid()
      ensures namespaces == old(namespaces)[ns := EmptySpace] && tags == old(tags) && nextUid == old(nextUid)
    {
      var _ := GetNamespace(ns);
      EmptySpaceOk(nextUid);
      StateOkReplace(namespaces, tags, nextUid, ns, EmptySpace);
      namespaces := namespaces[ns := EmptySpace];
    }

    /** `check_key`: whether the key is bound in the namespace (created if missing). */
    method CheckKey(key: Name, ns: Name) returns (b: bool)
      requires Valid()
      modifies this
      ensures Valid()
      ensures b <==> key in SpaceOf(old(namespaces), ns).keyToUid
      ensures namespaces == old(namespaces)[ns := SpaceOf(old(namespaces), ns)] && tags == old(tags) && nextUid == old(nextUid)
    {
      var sp := GetNamespace(ns);
      b := key in sp.keyToUid;
    }
  }

  /** The class-level singleton: the first construction builds the store, later ones return it untouched. */
  class StoreRegistry {
    var instance: InMemoryData?

    constructor ()
      ensures instance == null
    {
      instance := null;
    }

    method Get() returns (d: InMemoryData)
      modifies this
      ensures old(instance) != null ==> d == old(instance)
      ensures old(instance) == null ==> fresh(d) && d.Valid() && d.namespaces == map[Default := EmptySpace] && d.tags == map[]
      ensures instance == d
    {
      if instance == null {
        instance := new InMemoryData();
      }
      d := instance;
    }
  }
}
