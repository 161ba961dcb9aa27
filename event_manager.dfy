/**
 * The event manager's listener registry: per event, a list of (listener, priority, gui_safe)
 * entries kept in descending priority, equal priorities in the order they were added.
 */
module Events {
  /** An event key: an `EventKeys` member and its string value are different dict keys. */
  datatype EventName = Text(s: string) | Member(value: string)

  /** A listener callable, known here only by its identity. */
  type Listener = string

  datatype Entry = Entry(listener: Listener, priority: int, guiSafe: bool)

  /** Descending by priority. */
  ghost predicate Sorted(xs: seq<Entry>)
  {
    forall i, j :: 0 <= i < j < |xs| ==> xs[i].priority >= xs[j].priority
  }

  /** The entries of one priority, in list order. */
  function OfPriority(xs: seq<Entry>, q: int): seq<Entry>
  {
    if xs == [] then []
    else (if xs[0].priority == q then [xs[0]] else []) + OfPriority(xs[1..], q)
  }

  lemma {:induction false} OfPriorityConcat(a: seq<Entry>, b: seq<Entry>, q: int)
    ensures OfPriority(a + b, q) == OfPriority(a, q) + OfPriority(b, q)
  {
    if a == [] {
      assert a + b == b;
    } else {
      assert (a + b)[0] == a[0] && (a + b)[1..] == a[1..] + b;
      OfPriorityConcat(a[1..], b, q);
    }
  }

  /**
   * `append` followed by the stable descending sort (lines 131-132), on a list that is already
   * sorted: the new entry goes after every entry of equal or higher priority.
   */
  function Insert(xs: seq<Entry>, e: Entry): seq<Entry>
  {
    if xs == [] then [e]
    else if xs[0].priority >= e.priority then [xs[0]] + Insert(xs[1..], e)
    else [e] + xs
  }

  /** Inserting keeps the list sorted. */
  lemma {:induction false} InsertSorted(xs: seq<Entry>, e: Entry)
    requires Sorted(xs)
    ensures Sorted(Insert(xs, e))
    ensures |Insert(xs, e)| == |xs| + 1
  {
    if xs != [] && xs[0].priority >= e.priority {
      InsertSorted(xs[1..], e);
      InsertHead(xs[1..], e);
      var r := Insert(xs, e);
      forall j | 0 < j < |r| ensures r[0].priority >= r[j].priority {
        var t := Insert(xs[1..], e);
        assert r[j] == t[j - 1];
        assert t[j - 1] in t;
      }
    }
  }

  /** Every entry of the result comes from the list or is the new one. */
  lemma {:induction false} InsertHead(xs: seq<Entry>, e: Entry)
    requires Sorted(xs)
    ensures forall x :: x in Insert(xs, e) ==> x == e || x in xs
    ensures xs != [] ==> forall x :: x in Insert(xs, e) ==> x.priority <= (if xs[0].priority >= e.priority then xs[0].priority else e.priority)
  {
    if xs != [] && xs[0].priority >= e.priority {
      InsertHead(xs[1..], e);
      forall x | x in xs ensures x.priority <= xs[0].priority {
        var i :| 0 <= i < |xs| && xs[i] == x;
      }
    } else if xs != [] {
      forall x | x in xs ensures x.priority <= xs[0].priority {
        var i :| 0 <= i < |xs| && xs[i] == x;
      }
    }
  }

  /** Inserting adds exactly the new entry. */
  lemma {:induction false} InsertPermutes(xs: seq<Entry>, e: Entry)
    ensures multiset(Insert(xs, e)) == multiset(xs) + multiset{e}
  {
    if xs != [] {
      assert xs == [xs[0]] + xs[1..];
      if xs[0].priority >= e.priority {
        InsertPermutes(xs[1..], e);
      }
    }
  }

  /**
   * Stability: within every priority the result lists the entries in the order of `xs + [e]`,
   * so equal priorities keep the order in which they were added.
   */
  lemma {:induction false} InsertStable(xs: seq<Entry>, e: Entry, q: int)
    requires Sorted(xs)
    ensures OfPriority(Insert(xs, e), q) == OfPriority(xs + [e], q)
  {
    OfPriorityConcat(xs, [e], q);
    if xs == [] {
    } else if xs[0].priority >= e.priority {
      InsertStable(xs[1..], e, q);
      OfPriorityConcat(xs[1..], [e], q);
      assert Insert(xs, e)[1..] == Insert(xs[1..], e);
    } else {
      assert ([e] + xs)[1..] == xs;
      NoneAbove(xs, e.priority);
    }
  }

  /** In a sorted list whose head is below `p`, no entry has priority `p`. */
  lemma {:induction false} NoneAbove(xs: seq<Entry>, p: int)
    requires Sorted(xs) && (xs != [] ==> xs[0].priority < p)
    ensures OfPriority(xs, p) == []
  {
    if xs != [] {
      NoneAbove(xs[1..], p);
    }
  }

  /** `remove_listener`'s comprehension (line 140): every entry of that listener goes, the rest keep their order. */
  function Without(xs: seq<Entry>, l: Listener): seq<Entry>
  {
    if xs == [] then []
    else (if xs[0].listener != l then [xs[0]] else []) + Without(xs[1..], l)
  }

  /** Removal keeps exactly the other listeners' entries. */
  lemma {:induction false} WithoutMembers(xs: seq<Entry>, l: Listener)
    ensures forall x :: x in Without(xs, l) <==> x in xs && x.listener != l
  {
    if xs != [] {
      WithoutMembers(xs[1..], l);
      assert xs == [xs[0]] + xs[1..];
    }
  }

  /** Removal works entry by entry in order: over a concatenation it gives the two parts' results concatenated. */
  lemma {:induction false} WithoutAppend(a: seq<Entry>, b: seq<Entry>, l: Listener)
    ensures Without(a + b, l) == Without(a, l) + Without(b, l)
  {
    if a == [] {
      assert a + b == b;
    } else {
      WithoutAppend(a[1..], b, l);
      assert (a + b)[1..] == a[1..] + b;
    }
  }

  /** A single entry stays exactly when it belongs to another listener; with `WithoutAppend` this fixes the result in order. */
  lemma WithoutOne(x: Entry, l: Listener)
    ensures Without([x], l) == (if x.listener != l then [x] else [])
  {
    assert [x][1..] == [];
  }

  /** Removal keeps the list sorted. */
  lemma {:induction false} WithoutSorted(xs: seq<Entry>, l: Listener)
    requires Sorted(xs)
    ensures Sorted(Without(xs, l))
  {
    if xs != [] {
      WithoutSorted(xs[1..], l);
      WithoutMembers(xs[1..], l);
      var r := Without(xs, l);
      var t := Without(xs[1..], l);
      if xs[0].listener != l {
        assert r == [xs[0]] + t;
        forall j | 0 < j < |r| ensures r[0].priority >= r[j].priority {
          assert r[j] == t[j - 1] && t[j - 1] in t;
          var i :| 0 <= i < |xs[1..]| && xs[1..][i] == r[j];
          assert xs[i + 1] == r[j];
        }
      } else {
        assert r == t;
      }
    }
  }

  /** Removing twice is removing once. */
  lemma {:induction false} WithoutIdempotent(xs: seq<Entry>, l: Listener)
    ensures Without(Without(xs, l), l) == Without(xs, l)
  {
    if xs != [] {
      WithoutIdempotent(xs[1..], l);
      var t := Without(xs[1..], l);
      if xs[0].listener != l {
        assert Without(xs, l) == [xs[0]] + t;
        assert ([xs[0]] + t)[0] == xs[0] && ([xs[0]] + t)[1..] == t;
      } else {
        assert Without(xs, l) == t;
      }
    }
  }

  /** The append-and-sort of `add_listener` on a sorted list: the new last entry moves left past every lower priority. */
  method InsertListener(xs: seq<Entry>, e: Entry) returns (ys: seq<Entry>)
    requires Sorted(xs)
    ensures ys == Insert(xs, e)
  {
    var i := |xs|;
    while i > 0 && xs[i - 1].priority < e.priority
      invariant 0 <= i <= |xs|
      invariant forall j :: i <= j < |xs| ==> xs[j].priority < e.priority
    {
      i := i - 1;
    }
    InsertAt(xs, e, i);
    ys := xs[..i] + [e] + xs[i..];
  }

  /** The insertion point: after the last entry of equal or higher priority. */
  lemma {:induction false} InsertAt(xs: seq<Entry>, e: Entry, i: nat)
    requires Sorted(xs) && i <= |xs|
    requires forall j :: i <= j < |xs| ==> xs[j].priority < e.priority
    requires i > 0 ==> xs[i - 1].priority >= e.priority
    ensures Insert(xs, e) == xs[..i] + [e] + xs[i..]
  {
    if i > 0 {
      InsertAt(xs[1..], e, i - 1);
      assert xs[1..][..i - 1] == xs[1..i];
      assert xs[1..][i - 1..] == xs[i..];
      assert [xs[0]] + xs[1..i] == xs[..i];
    }
  }

  class EventManager {
    var listeners: map<EventName, seq<Entry>>

    ghost predicate Valid()
      reads this
    {
      forall ev :: ev in listeners ==> Sorted(listeners[ev])
    }

    /** The first construction: an empty registry. */
    constructor ()
      ensures Valid() && listeners == map[]
    {
      listeners := map[];
    }

    /** `get_listeners`: a copy of the list, [] for an unknown event. */
    function GetListeners(ev: EventName): (r: seq<Entry>)
      reads this
      requires Valid()
      ensures Sorted(r)
      ensures ev !in listeners ==> r == []
    {
      if ev in listeners then listeners[ev] else []
    }

    /** `register_event`: an empty list only for a new event. */
    method RegisterEvent(ev: EventName)
      requires Valid()
      modifies this
      ensures Valid()
      ensures listeners == if ev in old(listeners) then old(listeners) else old(listeners)[ev := []]
    {
      if ev !in listeners {
        listeners := listeners[ev := []];
      }
    }

    /** `add_listener`: creates the list if missing, appends, and re-sorts stably by descending priority. */
    method AddListener(ev: EventName, l: Listener, priority: int, guiSafe: bool)
      requires Valid()
      modifies this
      ensures Valid()
      ensures listeners == old(listeners)[ev := Insert(if ev in old(listeners) then old(listeners)[ev] else [], Entry(l, priority, guiSafe))]
    {
      var xs := if ev in listeners then listeners[ev] else [];
      var ys := InsertListener(xs, Entry(l, priority, guiSafe));
      InsertSorted(xs, Entry(l, priority, guiSafe));
      listeners := listeners[ev := ys];
    }

    /** `remove_listener`: drops every entry of the listener; an unknown event is left alone. */
    method RemoveListener(ev: EventName, l: Listener)
      requires Valid()
      modifies this
      ensures Valid()
      ensures listeners == if ev in old(listeners) then old(listeners)[ev := Without(old(listeners)[ev], l)] else old(listeners)
    {
      if ev in listeners {
        WithoutSorted(listeners[ev], l);
        listeners := listeners[ev := Without(listeners[ev], l)];
      }
    }
  }

  /** The singleton: `__init__` returns early once initialised, so later constructions keep the registry. */
  class EventManagerRegistry {
    var instance: EventManager?

    constructor ()
      ensures instance == null
    {
      instance := null;
    }

    method Get() returns (m: EventManager)
      modifies this
      ensures old(instance) != null ==> m == old(instance)
      ensures old(instance) == null ==> fresh(m) && m.Valid() && m.listeners == map[]
      ensures instance == m
    {
      if instance == null {
        instance := new EventManager();
      }
      m := instance;
    }
  }
}
