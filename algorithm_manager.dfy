/**
 * The algorithm manager: a FIFO of (mode, runtime) tasks, a closed table from mode to state
 * class, one dispatch step of the worker loop, `stop` and `shutdown`; and the algorithm state
 * template with its image stack fed from the resource manager.
 */
module Dispatch {
  import opened Wrappers
  import opened Resources

  /** The members of `AlgorithmManager.States`. */
  datatype Kind = PelletSizerSingle | BubbleSizer | BubbleSizerSingle | MixingTimer

  /** A task's mode: a member of the States enum, or any other key (a plain int, another manager's enum). */
  datatype Mode = KindMode(kind: Kind) | OtherMode(value: int)

  datatype StateClass = PelletSizerSingleState | BubbleSizerState | BubbleSizerSingleState | MixingTimerState

  /** The enum values (lines 14-20). */
  function KindValue(k: Kind): int
  {
    match k
    case PelletSizerSingle => 0
    case BubbleSizer => 2
    case BubbleSizerSingle => 3
    case MixingTimer => 5
  }

  /** `state_classes.get(mode, None)` (lines 22-28). */
  function StateClassOf(m: Mode): (r: Option<StateClass>)
    ensures r.Some? <==> m.KindMode?
  {
    match m
    case KindMode(PelletSizerSingle) => Some(PelletSizerSingleState)
    case KindMode(BubbleSizer) => Some(BubbleSizerState)
    case KindMode(BubbleSizerSingle) => Some(BubbleSizerSingleState)
    case KindMode(MixingTimer) => Some(MixingTimerState)
    case OtherMode(_) => None
  }

  /** The table is one-to-one: different kinds start different state classes. */
  lemma StateClassOfInjective(a: Kind, b: Kind)
    ensures StateClassOf(KindMode(a)) == StateClassOf(KindMode(b)) ==> a == b
  {
  }

  type Task = (Mode, int)

  /** The states that dispatching the tasks in order starts: each known mode in queue order, the rest dropped. */
  function Started(q: seq<Task>): seq<(StateClass, int)>
  {
    if q == [] then []
    else
      var last := q[|q| - 1];
      Started(q[..|q| - 1]) + (if StateClassOf(last.0).Some? then [(StateClassOf(last.0).value, last.1)] else [])
  }

  /** Dispatching two queues one after the other starts the states of both, in order. */
  lemma {:induction false} StartedConcat(a: seq<Task>, b: seq<Task>)
    ensures Started(a + b) == Started(a) + Started(b)
    decreases |b|
  {
    if b == [] {
      assert a + b == a;
    } else {
      assert (a + b)[..|a + b| - 1] == a + b[..|b| - 1];
      StartedConcat(a, b[..|b| - 1]);
    }
  }

  /** At most one state per task, and exactly one per task of a known kind. */
  lemma {:induction false} StartedCount(q: seq<Task>)
    ensures |Started(q)| <= |q|
    ensures (forall i :: 0 <= i < |q| ==> q[i].0.KindMode?) ==> |Started(q)| == |q|
    ensures (forall i :: 0 <= i < |q| ==> q[i].0.OtherMode?) ==> Started(q) == []
  {
    if q != [] {
      StartedCount(q[..|q| - 1]);
    }
  }

  /** A state's outcome of `run_logic`. */
  datatype Outcome = Returned | Raised

  /** `get_resources`' loop on the first paths: those not yet stacked, each once, in order. */
  function Unseen(seen: set<string>, ps: seq<string>): seq<string>
  {
    if ps == [] then []
    else
      var init := ps[..|ps| - 1];
      var p := ps[|ps| - 1];
      Unseen(seen, init) + (if p in seen || p in init then [] else [p])
  }

  ghost predicate NoDup(xs: seq<string>)
  {
    forall i, j :: 0 <= i < j < |xs| ==> xs[i] != xs[j]
  }

  /** The new paths are exactly the unseen ones, each once. */
  lemma {:induction false} UnseenFacts(seen: set<string>, ps: seq<string>)
    ensures NoDup(Unseen(seen, ps))
    ensures forall x :: x in Unseen(seen, ps) <==> x in ps && x !in seen
  {
    if ps != [] {
      var init := ps[..|ps| - 1];
      UnseenFacts(seen, init);
      assert ps == init + [ps[|ps| - 1]];
    }
  }

  /** Stacking unseen paths onto a duplicate-free stack of seen paths keeps it duplicate-free. */
  lemma StackStaysDistinct(stack: seq<string>, seen: set<string>, ps: seq<string>)
    requires NoDup(stack) && forall x :: x in stack ==> x in seen
    ensures NoDup(stack + Unseen(seen, ps))
    ensures forall x :: x in stack + Unseen(seen, ps) ==> x in seen || x in ps
  {
    UnseenFacts(seen, ps);
    var u := Unseen(seen, ps);
    forall i, j | 0 <= i < j < |stack + u| ensures (stack + u)[i] != (stack + u)[j] {
      if j >= |stack| && i < |stack| {
        assert (stack + u)[j] in u;
        assert (stack + u)[i] in stack;
      }
    }
  }

  function Elems(xs: seq<string>): set<string>
  {
    set x | x in xs
  }

  lemma ElemsSnoc(ps: seq<string>, i: nat)
    requires i < |ps|
    ensures Elems(ps[..i + 1]) == Elems(ps[..i]) + {ps[i]}
    ensures forall x :: x in Elems(ps[..i]) <==> x in ps[..i]
  {
    assert ps[..i + 1] == ps[..i] + [ps[i]];
  }

  lemma UnseenStep(seen: set<string>, ps: seq<string>, i: nat)
    requires i < |ps|
    ensures Unseen(seen, ps[..i + 1]) == Unseen(seen, ps[..i]) + (if ps[i] in seen || ps[i] in ps[..i] then [] else [ps[i]])
  {
    assert ps[..i + 1][..i] == ps[..i];
  }

  /** The paths of a `get_registered_resources(space, False, True)` answer; None lists nothing. */
  function PathsOf(l: Option<Listing>): seq<string>
  {
    if l.Some? && l.value.PathList? then l.value.paths else []
  }

  /** `get_resources`' loop: every path not yet stacked is pushed and recorded. */
  method StackPaths(stack: seq<string>, seen: set<string>, ps: seq<string>) returns (stack': seq<string>, seen': set<string>)
    ensures stack' == stack + Unseen(seen, ps)
    ensures seen' == seen + Elems(ps)
  {
    stack', seen' := stack, seen;
    var i := 0;
    while i < |ps|
      invariant 0 <= i <= |ps|
      invariant stack' == stack + Unseen(seen, ps[..i])
      invariant seen' == seen + Elems(ps[..i])
    {
      UnseenStep(seen, ps, i);
      ElemsSnoc(ps, i);
      if ps[i] !in seen' {
        stack' := stack' + [ps[i]];
        seen' := seen' + {ps[i]};
      }
      i := i + 1;
    }
    assert ps[..i] == ps;
  }

  /** The algorithm state template. */
  class AlgorithmState {
    const cls: StateClass
    /** Creation time plus runtime, in seconds. */
    const runtimeTarget: int
    var imgStack: seq<string>
    var stacked: set<string>
    var processed: set<string>
    var terminated: bool
    /** Runs finished, and runs whose logic raised (only logged). */
    var finished: nat
    var failures: nat

    ghost predicate Valid()
      reads this
    {
      NoDup(imgStack) && forall x :: x in imgStack ==> x in stacked
    }

    /** Lines 21-28: empty stack and sets, not terminated. */
    constructor (c: StateClass, now: int, runtime: int)
      ensures Valid()
      ensures cls == c && runtimeTarget == now + runtime
      ensures imgStack == [] && stacked == {} && processed == {} && !terminated
      ensures finished == 0 && failures == 0
    {
      cls := c;
      runtimeTarget := now + runtime;
      imgStack := [];
      stacked := {};
      processed := {};
      terminated := false;
      finished := 0;
      failures := 0;
    }

    /** `run`: the logic's exception is logged, never propagated; the completion log always runs. */
    method Run(o: Outcome)
      modifies this
      ensures finished == old(finished) + 1
      ensures failures == old(failures) + (if o == Raised then 1 else 0)
      ensures imgStack == old(imgStack) && stacked == old(stacked) && processed == old(processed) && terminated == old(terminated)
    {
      if o == Raised {
        failures := failures + 1;
      }
      finished := finished + 1;
    }

    /**
     * `get_resources`: the space's paths in registry order, each appended only if not yet
     * stacked; an unknown space changes nothing.
     */
    method GetResources(rm: ResourceManager, space: string)
      requires Valid()
      modifies this
      ensures Valid()
      ensures var ps := PathsOf(Listed(rm.register, space, false, true));
              && imgStack == old(imgStack) + Unseen(old(stacked), ps)
              && stacked == old(stacked) + Elems(ps)
      ensures processed == old(processed) && terminated == old(terminated)
      ensures finished == old(finished) && failures == old(failures)
    {
      var l := rm.RegisteredResources(space, false, true);
      var ps := PathsOf(l);
      StackStaysDistinct(imgStack, stacked, ps);
      imgStack, stacked := StackPaths(imgStack, stacked, ps);
    }

    /** `terminate`: only the cooperative flag. */
    method Terminate()
      modifies this
      ensures terminated
      ensures imgStack == old(imgStack) && stacked == old(stacked) && processed == old(processed)
      ensures finished == old(finished) && failures == old(failures)
    {
      terminated := true;
    }
  }

  /** The dispatcher (`Manager` with the `AlgorithmManager` table and setup); threads and executors are counters and flags. */
  class AlgorithmManager {
    var queue: seq<Task>
    var current: AlgorithmState?
    /** The states submitted to the executor, in order. */
    var started: seq<(StateClass, int)>
    /** How many executors have been created, whether the latest accepts work, and its worker cap. */
    var executors: nat
    var executorOpen: bool
    var maxWorkers: nat
    /** How many worker threads `__init__` has started. */
    var workers: nat
    var shutdownFlag: bool
    var measurementStart: bool

    /** `Manager.__init__` then `AlgorithmManager.__init__`. */
    constructor ()
      ensures queue == [] && current == null && started == []
      ensures executors == 1 && executorOpen && maxWorkers == 5 && workers == 1
      ensures !shutdownFlag && !measurementStart
    {
      queue := [];
      current := null;
      started := [];
      executors := 1;
      executorOpen := true;
      maxWorkers := 5;
      workers := 1;
      shutdownFlag := false;
      measurementStart := false;
    }

    /** `__init__` run again on the shared instance: everything is rebuilt and another worker starts. */
    method Reinit()
      modifies this
      ensures queue == [] && current == null && started == old(started)
      ensures executors == old(executors) + 1 && executorOpen && maxWorkers == 5 && workers == old(workers) + 1
      ensures !shutdownFlag && !measurementStart
    {
      queue := [];
      current := null;
      executors := executors + 1;
      executorOpen := true;
      maxWorkers := 5;
      workers := workers + 1;
      shutdownFlag := false;
      measurementStart := false;
    }

    /** `add_task`: appended to the unbounded FIFO. */
    method AddTask(m: Mode, runtime: int)
      modifies this
      ensures queue == old(queue) + [(m, runtime)]
      ensures current == old(current) && started == old(started) && shutdownFlag == old(shutdownFlag)
      ensures executors == old(executors) && executorOpen == old(executorOpen)
      ensures maxWorkers == old(maxWorkers) && workers == old(workers) && measurementStart == old(measurementStart)
    {
      queue := queue + [(m, runtime)];
    }

    /**
     * One pass of `_process_tasks`: after shutdown nothing happens; otherwise the oldest task is
     * taken, an unknown mode is logged and dropped, a known one becomes the current state and is
     * submitted.
     */
    method DispatchStep(now: int)
      modifies this
      ensures shutdownFlag || old(queue) == [] ==> queue == old(queue) && current == old(current) && started == old(started)
      ensures !shutdownFlag && old(queue) != [] ==>
                && queue == old(queue)[1..]
                && started == old(started) + Started(old(queue)[..1])
                && (StateClassOf(old(queue)[0].0).None? ==> current == old(current))
                && (StateClassOf(old(queue)[0].0).Some? ==>
                      current != null && fresh(current) && current.cls == StateClassOf(old(queue)[0].0).value
                      && current.runtimeTarget == now + old(queue)[0].1 && current.Valid())
      ensures shutdownFlag == old(shutdownFlag) && executors == old(executors) && executorOpen == old(executorOpen)
      ensures maxWorkers == old(maxWorkers) && workers == old(workers) && measurementStart == old(measurementStart)
    {
      if shutdownFlag || queue == [] {
        return;
      }
      var task := queue[0];
      queue := queue[1..];
      assert [task][..0] == [];
      assert Started([task]) == Started([task][..0]) + (if StateClassOf(task.0).Some? then [(StateClassOf(task.0).value, task.1)] else []);
      var c := StateClassOf(task.0);
      if c.None? {
        return;
      }
      current := new AlgorithmState(c.value, now, task.1);
      started := started + [(c.value, task.1)];
    }

    /**
     * `stop`: terminates the current state (if any) and shuts its executor down without
     * waiting, empties the queue, and always installs a fresh executor; `current` stays, and
     * only its termination flag changes.
     */
    method Stop()
      modifies this, current
      ensures queue == [] && current == old(current) && started == old(started)
      ensures executors == old(executors) + 1 && executorOpen
      ensures current != null ==> current.terminated
      ensures current != null ==>
                && current.imgStack == old(current.imgStack) && current.stacked == old(current.stacked)
                && current.processed == old(current.processed)
                && current.finished == old(current.finished) && current.failures == old(current.failures)
      ensures shutdownFlag == old(shutdownFlag) && measurementStart == old(measurementStart)
      ensures maxWorkers == old(maxWorkers) && workers == old(workers)
    {
      if current != null {
        current.Terminate();
        executorOpen := false;
      }
      queue := [];
      executors := executors + 1;
      executorOpen := true;
    }

    /** `shutdown`: stop, drain, raise the flag (the worker loop then ends), shut the executor down. */
    method Shutdown()
      modifies this, current
      ensures queue == [] && current == old(current) && started == old(started)
      ensures shutdownFlag && !executorOpen && executors == old(executors) + 1
      ensures current != null ==> current.terminated
      ensures current != null ==>
                && current.imgStack == old(current.imgStack) && current.stacked == old(current.stacked)
                && current.processed == old(current.processed)
                && current.finished == old(current.finished) && current.failures == old(current.failures)
      ensures maxWorkers == old(maxWorkers) && workers == old(workers) && measurementStart == old(measurementStart)
    {
      Stop();
      queue := [];
      shutdownFlag := true;
      executorOpen := false;
    }

    /** `get_current_state`: the current state's class, None (NoneType) before any dispatch. */
    function CurrentStateType(): (r: Option<StateClass>)
      reads this, current
      ensures r.None? <==> current == null
      ensures r.Some? ==> r.value == current.cls
    {
      if current == null then None else Some(current.cls)
    }
  }

  /** Dispatching the queue task by task starts exactly the states of the whole queue, in FIFO order. */
  lemma StepThenRest(q: seq<Task>)
    requires q != []
    ensures Started(q[..1]) + Started(q[1..]) == Started(q)
  {
    StartedConcat(q[..1], q[1..]);
    assert q[..1] + q[1..] == q;
  }

  /** The singleton: `__new__` reuses the instance, but `__init__` runs again on every construction. */
  class AlgorithmManagerRegistry {
    var instance: AlgorithmManager?

    constructor ()
      ensures instance == null
    {
      instance := null;
    }

    method Get() returns (m: AlgorithmManager)
      modifies this, instance
      ensures old(instance) != null ==> m == old(instance) && m.queue == [] && m.current == null && m.workers == old(instance.workers) + 1
      ensures old(instance) == null ==> fresh(m) && m.queue == [] && m.current == null && m.workers == 1
      ensures instance == m && m.maxWorkers == 5 && !m.shutdownFlag && !m.measurementStart
    {
      if instance == null {
        instance := new AlgorithmManager();
      } else {
        instance.Reinit();
      }
      m := instance;
    }

    /** `get_instance`. */
    function GetInstance(): (r: Option<AlgorithmManager>)
      reads this
      ensures r.Some? <==> instance != null
      ensures r.Some? ==> r.value == instance
    {
      if instance == null then None else var m: AlgorithmManager := instance; Some(m)
    }
  }
}
