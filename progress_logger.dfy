/**
 * The progress logger: named score spaces, each with a positive target, a current score
 * and a list of time stamps (creation first, then one per completion).
 */
module ProgressLog {
  import opened Wrappers

  /** A wall-clock "%H:%M:%S" text; the clock is read by the caller. */
  type Stamp = string

  /** Sum of `m` over the keys `ks`; the choice of key depends on `ks` only. */
  ghost function Sum(ks: set<string>, m: map<string, int>): int
    requires ks <= m.Keys
    decreases ks
  {
    if ks == {} then 0 else var k := Pick(ks); m[k] + Sum(ks - {k}, m)
  }

  ghost function Pick(ks: set<string>): (k: string)
    requires ks != {}
    ensures k in ks
  {
    var k :| k in ks; k
  }

  lemma {:induction false} SumMonotone(ks: set<string>, a: map<string, int>, b: map<string, int>)
    requires ks <= a.Keys && ks <= b.Keys
    requires forall k :: k in ks ==> 0 <= a[k] <= b[k]
    ensures 0 <= Sum(ks, a) <= Sum(ks, b)
    decreases ks
  {
    if ks != {} {
      var k := Pick(ks);
      assert Sum(ks, a) == a[k] + Sum(ks - {k}, a);
      assert Sum(ks, b) == b[k] + Sum(ks - {k}, b);
      SumMonotone(ks - {k}, a, b);
    }
  }

  lemma {:induction false} SumPositive(ks: set<string>, m: map<string, int>)
    requires ks <= m.Keys && ks != {}
    requires forall k :: k in ks ==> m[k] > 0
    ensures Sum(ks, m) > 0
    decreases ks
  {
    var k := Pick(ks);
    assert Sum(ks, m) == m[k] + Sum(ks - {k}, m);
    if ks - {k} != {} {
      SumPositive(ks - {k}, m);
    }
  }

  /**
   * The targets, scores and stamps once `name` is opened with `target` at `now`: a non-empty new
   * name with a positive target starts at score 0 with its creation stamp; otherwise nothing changes.
   */
  function Opened(spaces: map<string, int>, scores: map<string, int>, metadata: map<string, seq<Stamp>>, name: string, target: int, now: Stamp)
    : (map<string, int>, map<string, int>, map<string, seq<Stamp>>)
  {
    if name != "" && target > 0 && name !in spaces then
      (spaces[name := target], scores[name := 0], metadata[name := [now]])
    else
      (spaces, scores, metadata)
  }

  class ProgressLogger {
    /** Target score per space. */
    var spaces: map<string, int>
    /** Current score per space. */
    var spaceLogger: map<string, int>
    /** Creation stamp followed by one stamp per completion, per space. */
    var metadata: map<string, seq<Stamp>>

    ghost predicate Valid()
      reads this
    {
      && spaces.Keys == spaceLogger.Keys == metadata.Keys
      && (forall n :: n in spaces ==> spaces[n] > 0)
      && (forall n :: n in spaceLogger ==> spaceLogger[n] >= 0)
      && (forall n :: n in metadata ==> |metadata[n]| >= 1)
    }

    /** Every space's score is within its target. */
    ghost predicate Bounded()
      reads this
      requires Valid()
    {
      forall n :: n in spaces ==> spaceLogger[n] <= spaces[n]
    }

    constructor ()
      ensures Valid() && Bounded()
      ensures spaces == map[] && spaceLogger == map[] && metadata == map[]
    {
      spaces, spaceLogger, metadata := map[], map[], map[];
    }

    /** A new space starts at score 0 with its creation stamp; a present name, an empty name or a non-positive target changes nothing. */
    method AddScorespace(name: string, target: int, now: Stamp)
      requires Valid()
      modifies this
      ensures Valid()
      ensures old(Bounded()) ==> Bounded()
      ensures (spaces, spaceLogger, metadata) == Opened(old(spaces), old(spaceLogger), old(metadata), name, target, now)
    {
      if name == "" || target <= 0 {
        return;
      }
      if name !in spaces {
        spaces := spaces[name := target];
        spaceLogger := spaceLogger[name := 0];
        metadata := metadata[name := [now]];
      }
    }

    /** The target of a known space is replaced by a positive one; the score is not clamped again. */
    method UpdateScorespaceTarget(name: string, target: int)
      requires Valid()
      modifies this
      ensures Valid()
      ensures spaceLogger == old(spaceLogger) && metadata == old(metadata)
      ensures spaces == if target > 0 && name in old(spaces) then old(spaces)[name := target] else old(spaces)
      ensures old(Bounded()) && name in spaces ==> (Bounded() <==> spaceLogger[name] <= spaces[name])
    {
      if target <= 0 || name !in spaces {
        return;
      }
      spaces := spaces[name := target];
    }

    /** With `purge` every space goes; otherwise the named space, if present. */
    method DelScorespace(name: string, purge: bool)
      requires Valid()
      modifies this
      ensures Valid()
      ensures old(Bounded()) ==> Bounded()
      ensures purge ==> spaces == map[] && spaceLogger == map[] && metadata == map[]
      ensures !purge ==> spaces == old(spaces) - {name} && spaceLogger == old(spaceLogger) - {name}
                         && metadata == old(metadata) - {name}
    {
      if purge {
        spaces, spaceLogger, metadata := map[], map[], map[];
      } else if name in spaces {
        spaces, spaceLogger, metadata := spaces - {name}, spaceLogger - {name}, metadata - {name};
      }
    }

    /**
     * A non-negative increment raises the score, capped at the target; reaching the target
     * appends a completion stamp. A negative increment or an unknown name changes nothing.
     */
    method ProgressSpace(name: string, increment: int, now: Stamp)
      requires Valid()
      modifies this
      ensures Valid()
      ensures old(Bounded()) ==> Bounded()
      ensures spaces == old(spaces)
      ensures increment >= 0 && name in old(spaces) ==>
                && spaceLogger == old(spaceLogger)[name := Min(old(spaceLogger)[name] + increment, spaces[name])]
                && spaceLogger[name] <= spaces[name]
                && metadata == old(metadata)[name := old(metadata)[name] + (if spaceLogger[name] >= spaces[name] then [now] else [])]
      ensures increment < 0 || name !in old(spaces) ==> spaceLogger == old(spaceLogger) && metadata == old(metadata)
    {
      if increment < 0 || name !in spaceLogger {
        return;
      }
      spaceLogger := spaceLogger[name := Min(spaceLogger[name] + increment, spaces[name])];
      if Completed(name) {
        metadata := metadata[name := metadata[name] + [now]];
      } else {
        assert metadata[name] + [] == metadata[name];
        assert metadata[name := metadata[name] + []] == metadata;
      }
    }

    /** A non-negative value becomes the score, clamped to the target; no completion stamp is taken. */
    method SetSpaceValue(name: string, value: int)
      requires Valid()
      modifies this
      ensures Valid()
      ensures old(Bounded()) ==> Bounded()
      ensures spaces == old(spaces) && metadata == old(metadata)
      ensures value >= 0 && name in old(spaces) ==>
                spaceLogger == old(spaceLogger)[name := Min(value, spaces[name])]
      ensures value < 0 || name !in old(spaces) ==> spaceLogger == old(spaceLogger)
    {
      if value < 0 || name !in spaceLogger {
        return;
      }
      if value > spaces[name] {
        spaceLogger := spaceLogger[name := spaces[name]];
      } else {
        spaceLogger := spaceLogger[name := value];
      }
    }

    predicate Completed(name: string)
      reads this
      requires name in spaces && name in spaceLogger
    {
      spaceLogger[name] >= spaces[name]
    }

    /** `get_progress(name)`: the name with its target and score, or `None` for an unknown name. */
    function SpaceProgress(name: string): (r: Option<(string, int, int)>)
      reads this
      requires Valid()
      ensures r.Some? <==> name in spaces
      ensures r.Some? ==> r.value.0 == name && r.value.1 > 0 && r.value.2 >= 0
      ensures r.Some? && Bounded() ==> r.value.2 <= r.value.1
    {
      if name in spaces then Some((name, spaces[name], spaceLogger[name])) else None
    }

    /** `get_progress()`: the summed scores as a percentage of the summed targets, 0.0 when there are no spaces. */
    ghost function TotalPercent(): (r: real)
      reads this
      requires Valid()
      ensures spaces == map[] ==> r == 0.0
      ensures r >= 0.0
      ensures Bounded() ==> r <= 100.0
    {
      var targets := Sum(spaces.Keys, spaces);
      var total := Sum(spaces.Keys, spaceLogger);
      SumFacts(spaces, spaceLogger);
      if targets == 0 then 0.0 else PercentBounds(total, targets); total as real / targets as real * 100.0
    }

    /** `get_metadata(name)`: the stamps of a space, or `None` for an unknown name. */
    function Metadata(name: string): (r: Option<seq<Stamp>>)
      reads this
      requires Valid()
      ensures r.Some? <==> name in spaces
      ensures r.Some? ==> |r.value| >= 1
    {
      if name in metadata then Some(metadata[name]) else None
    }
  }

  /** A share of a positive whole, as a percentage, is not negative, and at most 100 when the share is at most the whole. */
  lemma PercentBounds(part: int, whole: int)
    requires part >= 0 && whole > 0
    ensures part as real / whole as real * 100.0 >= 0.0
    ensures part <= whole ==> part as real / whole as real * 100.0 <= 100.0
  {
    var q := part as real / whole as real;
    assert q * whole as real == part as real;
  }

  lemma {:induction false} ZeroSum(ks: set<string>)
    ensures Sum(ks, map n | n in ks :: 0) == 0
    decreases ks
  {
    if ks != {} {
      var k := Pick(ks);
      var z := map n | n in ks :: 0;
      var z' := map n | n in ks - {k} :: 0;
      assert Sum(ks, z) == z[k] + Sum(ks - {k}, z);
      SumSameOn(ks - {k}, z, z');
      ZeroSum(ks - {k});
    }
  }

  lemma {:induction false} SumSameOn(ks: set<string>, a: map<string, int>, b: map<string, int>)
    requires ks <= a.Keys && ks <= b.Keys
    requires forall k :: k in ks ==> a[k] == b[k]
    ensures Sum(ks, a) == Sum(ks, b)
    decreases ks
  {
    if ks != {} {
      var k := Pick(ks);
      assert Sum(ks, a) == a[k] + Sum(ks - {k}, a);
      assert Sum(ks, b) == b[k] + Sum(ks - {k}, b);
      SumSameOn(ks - {k}, a, b);
    }
  }

  /** What the totals of a valid logger satisfy. */
  lemma SumFacts(targets: map<string, int>, scores: map<string, int>)
    requires targets.Keys == scores.Keys
    requires forall n :: n in targets ==> targets[n] > 0
    requires forall n :: n in scores ==> scores[n] >= 0
    ensures targets == map[] <==> Sum(targets.Keys, targets) == 0
    ensures Sum(targets.Keys, targets) >= 0 && Sum(targets.Keys, scores) >= 0
    ensures (forall n :: n in targets ==> scores[n] <= targets[n]) ==>
              Sum(targets.Keys, scores) <= Sum(targets.Keys, targets)
  {
    var zero := map n | n in targets :: 0;
    ZeroSum(targets.Keys);
    SumMonotone(targets.Keys, zero, scores);
    SumMonotone(targets.Keys, zero, targets);
    if targets != map[] {
      SumPositive(targets.Keys, targets);
    }
    if forall n :: n in targets ==> scores[n] <= targets[n] {
      SumMonotone(targets.Keys, scores, targets);
    }
  }

  function Min(a: int, b: int): int { if a <= b then a else b }

  /** `ProgressLogger(name)`: one shared logger per name, created empty on first use. */
  class ProgressLoggerRegistry {
    var instances: map<string, ProgressLogger>

    constructor ()
      ensures instances == map[]
    {
      instances := map[];
    }

    method Get(name: string) returns (p: ProgressLogger)
      modifies this
      ensures name in old(instances) ==> p == old(instances)[name] && instances == old(instances)
      ensures name !in old(instances) ==>
                fresh(p) && p.Valid() && p.spaces == map[] && p.metadata == map[]
                && instances == old(instances)[name := p]
    {
      if name in instances {
        p := instances[name];
      } else {
        p := new ProgressLogger();
        instances := instances[name := p];
      }
    }
  }
}
