/**
 * Name and path helpers of the measurement, mixing-time and project creators and of the
 * profile manager: the two name sanitisers, the "next free name" rule for directories and
 * files, and the profile folder's list/load/save/delete.
 */
module Naming {
  import opened Wrappers
  import opened Text

  /** Python's `string.punctuation`. */
  const Punctuation: string := "!\"#$%&'()*+,-./:;<=>?@[\\]^_`{|}~"

  /** The invalid characters of every sanitiser: control characters 0x00-0x1F, punctuation and the space. */
  predicate Invalid(c: char)
  {
    c as int < 0x20 || c == ' ' || c in Punctuation
  }

  /** The underscore the replacing sanitiser writes is itself punctuation. */
  lemma UnderscoreIsInvalid()
    ensures Invalid('_')
  {
    assert Punctuation[26] == '_';
  }

  /** `sanitize_project_name` of the measurement and mixing-time creators: each invalid character becomes '_'. */
  function ReplaceInvalid(name: string): string
  {
    seq(|name|, i requires 0 <= i < |name| => if Invalid(name[i]) then '_' else name[i])
  }

  /**
   * The replacing sanitiser keeps the length and every valid character in place, and its
   * output holds no control character, no space and no punctuation other than '_'.
   */
  lemma ReplaceFacts(name: string)
    ensures |ReplaceInvalid(name)| == |name|
    ensures forall i :: 0 <= i < |name| && !Invalid(name[i]) ==> ReplaceInvalid(name)[i] == name[i]
    ensures forall i :: 0 <= i < |name| && Invalid(name[i]) ==> ReplaceInvalid(name)[i] == '_'
    ensures forall c :: c in ReplaceInvalid(name) && Invalid(c) ==> c == '_'
  {
  }

  /** Sanitising twice changes nothing more. */
  lemma ReplaceIdempotent(name: string)
    ensures ReplaceInvalid(ReplaceInvalid(name)) == ReplaceInvalid(name)
  {
    UnderscoreIsInvalid();
  }

  /** `sanitize_project_name` of the new-project dialog: each invalid character is deleted. */
  function DeleteInvalid(name: string): string
  {
    if name == [] then []
    else DeleteInvalid(name[..|name| - 1]) + (if Invalid(name[|name| - 1]) then [] else [name[|name| - 1]])
  }

  /** The deleting sanitiser leaves no invalid character, never lengthens, and keeps exactly the valid characters. */
  lemma {:induction false} DeleteFacts(name: string)
    ensures |DeleteInvalid(name)| <= |name|
    ensures forall c :: c in DeleteInvalid(name) <==> c in name && !Invalid(c)
  {
    if name != [] {
      var init := name[..|name| - 1];
      DeleteFacts(init);
      assert name == init + [name[|name| - 1]];
    }
  }

  /** A name with nothing invalid in it is left as it is. */
  lemma {:induction false} DeleteKeepsValid(name: string)
    requires forall i :: 0 <= i < |name| ==> !Invalid(name[i])
    ensures DeleteInvalid(name) == name
  {
    if name != [] {
      var init := name[..|name| - 1];
      DeleteKeepsValid(init);
      assert name == init + [name[|name| - 1]];
    }
  }

  /** Sanitising twice changes nothing more. */
  lemma DeleteIdempotent(name: string)
    ensures DeleteInvalid(DeleteInvalid(name)) == DeleteInvalid(name)
  {
    DeleteFacts(name);
    var r := DeleteInvalid(name);
    assert forall i :: 0 <= i < |r| ==> r[i] in r;
    DeleteKeepsValid(r);
  }

  /** The name gets shorter exactly when it holds an invalid character. */
  lemma {:induction false} DeleteShrinks(name: string)
    ensures (exists i :: 0 <= i < |name| && Invalid(name[i])) <==> |DeleteInvalid(name)| < |name|
  {
    if name != [] {
      var init := name[..|name| - 1];
      DeleteShrinks(init);
      DeleteFacts(init);
      assert forall i :: 0 <= i < |init| ==> init[i] == name[i];
      if exists i :: 0 <= i < |init| && Invalid(init[i]) {
        var i :| 0 <= i < |init| && Invalid(init[i]);
        assert Invalid(name[i]);
      }
    }
  }

  /**
   * What the pattern `^name(?: \((\d+)\))?ext$` reads from an existing name: the suffix
   * number of "name (n)ext", 1 for "name" + "ext" itself, `None` for any other name.
   */
  function SuffixOf(name: string, ext: string, f: string): (r: Option<nat>)
  {
    if f == name + ext then Some(1)
    else if |f| >= |name| + |ext| + 4 && f[..|name|] == name && f[|name|..|name| + 2] == " ("
         && f[|f| - |ext|..] == ext && f[|f| - |ext| - 1] == ')' && AllDigits(f[|name| + 2..|f| - |ext| - 1])
    then Some(DigitsValue(f[|name| + 2..|f| - |ext| - 1]))
    else None
  }

  /** The largest suffix among the first existing names (0 when none matches). */
  function MaxSuffix(name: string, ext: string, existing: seq<string>): nat
  {
    if existing == [] then 0
    else
      var m := MaxSuffix(name, ext, existing[..|existing| - 1]);
      match SuffixOf(name, ext, existing[|existing| - 1])
      case None => m
      case Some(n) => if n > m then n else m
  }

  /** The rule's answer: "name" + "ext" unchanged when nothing matches, else "name (m+1)ext". */
  function NextName(name: string, ext: string, existing: seq<string>): string
  {
    var m := MaxSuffix(name, ext, existing);
    if m == 0 then name + ext else name + " (" + NatToString(m + 1) + ")" + ext
  }

  /** The suffix taken is the largest one: no match exceeds it, and a positive one is attained. */
  lemma {:induction false} MaxSuffixIsMax(name: string, ext: string, existing: seq<string>)
    ensures forall i :: 0 <= i < |existing| && SuffixOf(name, ext, existing[i]).Some? ==>
              SuffixOf(name, ext, existing[i]).value <= MaxSuffix(name, ext, existing)
    ensures MaxSuffix(name, ext, existing) > 0 ==>
              exists i :: 0 <= i < |existing| && SuffixOf(name, ext, existing[i]) == Some(MaxSuffix(name, ext, existing))
  {
    if existing != [] {
      var init := existing[..|existing| - 1];
      MaxSuffixIsMax(name, ext, init);
      assert forall i :: 0 <= i < |init| ==> init[i] == existing[i];
    }
  }

  /** The numbered form "name (n)ext" reads back as suffix n. */
  lemma NumberedSuffix(name: string, ext: string, n: nat)
    ensures SuffixOf(name, ext, name + " (" + NatToString(n) + ")" + ext) == Some(n)
  {
    var d := NatToString(n);
    var f := name + " (" + d + ")" + ext;
    assert f[..|name|] == name;
    assert f[|name|..|name| + 2] == " (";
    assert f[|f| - |ext|..] == ext;
    assert f[|f| - |ext| - 1] == ')';
    assert f[|name| + 2..|f| - |ext| - 1] == d;
    DigitsValueOfNatToString(n);
    assert |f| != |name + ext|;
  }

  /**
   * Freshness: the name chosen is none of the existing names. With no positive match it is
   * "name" + "ext" itself, and an existing bare name forces a number of at least 2.
   */
  lemma NextNameFresh(name: string, ext: string, existing: seq<string>)
    ensures NextName(name, ext, existing) !in existing
    ensures MaxSuffix(name, ext, existing) == 0 ==> NextName(name, ext, existing) == name + ext
    ensures name + ext in existing ==> MaxSuffix(name, ext, existing) >= 1
  {
    MaxSuffixIsMax(name, ext, existing);
    var m := MaxSuffix(name, ext, existing);
    if m > 0 {
      NumberedSuffix(name, ext, m + 1);
    }
    assert SuffixOf(name, ext, name + ext) == Some(1);
  }

  /** The loop of `get_next_directory_name` / `get_next_filename` over the listed names. */
  method MaxSuffixLoop(name: string, ext: string, existing: seq<string>) returns (m: nat)
    ensures m == MaxSuffix(name, ext, existing)
  {
    m := 0;
    var i := 0;
    while i < |existing|
      invariant 0 <= i <= |existing|
      invariant m == MaxSuffix(name, ext, existing[..i])
    {
      assert existing[..i + 1][..i] == existing[..i];
      var s := SuffixOf(name, ext, existing[i]);
      if s.Some? && s.value > m {
        m := s.value;
      }
      i := i + 1;
    }
    assert existing[..i] == existing;
  }

  /** `os.path.join(parent, name)` for a parent directory without a trailing separator. */
  function PathJoin(parent: string, name: string): string
  {
    parent + "/" + name
  }

  /**
   * `get_next_directory_name(join(parent, name))` given the names listed in `parent`: the base
   * path, or the base path followed by " (m+1)".
   */
  method GetNextDirectoryName(parent: string, name: string, existing: seq<string>) returns (path: string)
    ensures path == PathJoin(parent, NextName(name, "", existing))
  {
    var basePath := PathJoin(parent, name);
    var m := MaxSuffixLoop(name, "", existing);
    if m == 0 {
      return basePath;
    }
    return basePath + " (" + NatToString(m + 1) + ")";
  }

  /** The position of the last '.', if any. */
  function LastDot(p: string): (r: Option<nat>)
    ensures r.Some? ==> r.value < |p| && p[r.value] == '.' && forall j :: r.value < j < |p| ==> p[j] != '.'
    ensures r.None? ==> forall j :: 0 <= j < |p| ==> p[j] != '.'
  {
    if p == [] then None
    else if p[|p| - 1] == '.' then Some(|p| - 1)
    else LastDot(p[..|p| - 1])
  }

  /**
   * `os.path.splitext` on a base name: the extension starts at the last '.', unless only dots
   * come before it (a leading-dot name like ".pkl" has no extension).
   */
  function SplitExt(p: string): (r: (string, string))
    ensures r.0 + r.1 == p
    ensures r.1 == [] || (r.1[0] == '.' && forall j :: 1 <= j < |r.1| ==> r.1[j] != '.')
  {
    match LastDot(p)
    case None => (p, "")
    case Some(d) =>
      if exists i :: 0 <= i < d && p[i] != '.' then (p[..d], p[d..]) else (p, "")
  }

  /** The last '.' is the one with no '.' after it. */
  lemma {:induction false} LastDotAt(p: string, k: nat)
    requires k < |p| && p[k] == '.' && forall j :: k < j < |p| ==> p[j] != '.'
    ensures LastDot(p) == Some(k)
  {
    if p[|p| - 1] != '.' {
      LastDotAt(p[..|p| - 1], k);
    }
  }

  /** A name with a character other than '.' splits off the extension given to it. */
  lemma SplitOffExt(name: string, ext: string, i: nat)
    requires i < |name| && name[i] != '.'
    requires |ext| >= 1 && ext[0] == '.' && forall j :: 1 <= j < |ext| ==> ext[j] != '.'
    ensures SplitExt(name + ext) == (name, ext)
  {
    var p := name + ext;
    LastDotAt(p, |name|);
    assert p[i] != '.';
    assert p[..|name|] == name && p[|name|..] == ext;
  }

  /**
   * `get_next_filename(join(parent, base))`: the extension is split off, the rule applied to the
   * stem, and the numbered name rebuilt as "stem (m+1)ext" in `parent`.
   */
  method GetNextFilename(parent: string, base: string, existing: seq<string>) returns (path: string)
    ensures path == PathJoin(parent, NextName(SplitExt(base).0, SplitExt(base).1, existing))
  {
    var (name, ext) := SplitExt(base);
    var m := MaxSuffixLoop(name, ext, existing);
    if m == 0 {
      return PathJoin(parent, base);
    }
    return PathJoin(parent, name + " (" + NatToString(m + 1) + ")" + ext);
  }

  /** Whether a file name ends with ".pkl". */
  predicate IsPickle(f: string)
  {
    |f| >= 4 && f[|f| - 4..] == ".pkl"
  }

  /** `list_profiles` over the regular files of the profile folder, in listing order. */
  function ListProfiles(files: seq<string>): seq<string>
  {
    if files == [] then []
    else
      var f := files[|files| - 1];
      ListProfiles(files[..|files| - 1]) + (if IsPickle(f) then [SplitExt(f).0] else [])
  }

  /** The listing is exactly the extension-split names of the ".pkl" files. */
  lemma {:induction false} ListProfilesFacts(files: seq<string>)
    ensures |ListProfiles(files)| <= |files|
    ensures forall p :: p in ListProfiles(files) <==> exists f :: f in files && IsPickle(f) && SplitExt(f).0 == p
  {
    if files != [] {
      var init := files[..|files| - 1];
      ListProfilesFacts(init);
      assert files == init + [files[|files| - 1]];
    }
  }

  /**
   * The listing follows the files one by one in order: over a concatenation it is the two parts'
   * listings concatenated, and a single file gives its stem exactly when it is a ".pkl" file, so
   * every ".pkl" file contributes one name, in listing order.
   */
  lemma {:induction false} ListProfilesAppend(a: seq<string>, b: seq<string>)
    ensures ListProfiles(a + b) == ListProfiles(a) + ListProfiles(b)
    ensures |b| == 1 ==> ListProfiles(b) == (if IsPickle(b[0]) then [SplitExt(b[0]).0] else [])
    decreases |b|
  {
    if b != [] {
      var init := b[..|b| - 1];
      ListProfilesAppend(a, init);
      assert (a + b)[..|a + b| - 1] == a + init;
      assert (a + b)[|a + b| - 1] == b[|b| - 1];
    } else {
      assert a + b == a;
    }
  }

  /** A profile whose name has a character other than '.' is listed under that name. */
  lemma SavedNameListed(files: seq<string>, name: string, i: nat)
    requires name + ".pkl" in files && i < |name| && name[i] != '.'
    ensures name in ListProfiles(files)
  {
    ListProfilesFacts(files);
    SplitOffExt(name, ".pkl", i);
    assert IsPickle(name + ".pkl") by {
      assert (name + ".pkl")[|name + ".pkl"| - 4..] == ".pkl";
    }
  }

  /** What `load_profile` gives back: the unpickled profile, or the empty list for a missing file. */
  datatype Loaded<D> = Profile(d: D) | EmptyList

  /** `load_profile` on the profile folder, as a map from file name to content. */
  function LoadProfile<D>(folder: map<string, D>, name: string): (r: Loaded<D>)
    ensures r.EmptyList? <==> name + ".pkl" !in folder
  {
    if name + ".pkl" in folder then Profile(folder[name + ".pkl"]) else EmptyList
  }

  /** `delete_profile`: removes the file if it exists, does nothing otherwise. */
  function DeleteProfile<D>(folder: map<string, D>, name: string): (r: map<string, D>)
    ensures name + ".pkl" !in r
    ensures forall f :: f != name + ".pkl" ==> (f in r <==> f in folder) && (f in r ==> r[f] == folder[f])
    ensures name + ".pkl" !in folder ==> r == folder
  {
    folder - {name + ".pkl"}
  }

  /**
   * A profile saved under the empty name is the file ".pkl"; `splitext` sees no extension in it,
   * so it is listed as ".pkl", and loading that listed name looks for ".pkl.pkl" and gets nothing.
   */
  lemma EmptyNameListedUnloadable(d: int)
    ensures ListProfiles([".pkl"]) == [".pkl"]
    ensures LoadProfile(map[".pkl" := d], ".pkl") == EmptyList
  {
    EmptyNameListed();
    assert ".pkl" + ".pkl" !in map[".pkl" := d] by {
      assert |".pkl" + ".pkl"| == 8;
    }
  }

  /** The file ".pkl" is listed under its full name. */
  lemma EmptyNameListed()
    ensures ListProfiles([".pkl"]) == [".pkl"]
  {
    DotPklHasNoExt();
    ListOne(".pkl");
    assert IsPickle(".pkl") by {
      assert ".pkl"[0..] == ".pkl";
    }
  }

  /** `splitext(".pkl")` finds no extension: only dots precede the last one. */
  lemma DotPklHasNoExt()
    ensures SplitExt(".pkl") == (".pkl", "")
  {
    LastDotAt(".pkl", 0);
  }

  /** The listing of a single file. */
  lemma ListOne(f: string)
    ensures ListProfiles([f]) == if IsPickle(f) then [SplitExt(f).0] else []
  {
    var files: seq<string> := [f];
    assert files[..0] == [];
  }

  /** The listing with the ".pkl" ending cut off, which is what the listing is documented to give. */
  function ListProfilesStripped(files: seq<string>): seq<string>
  {
    if files == [] then []
    else
      var f := files[|files| - 1];
      ListProfilesStripped(files[..|files| - 1]) + (if IsPickle(f) then [f[..|f| - 4]] else [])
  }

  /** Every name of the stripped listing loads, the empty name included. */
  lemma {:induction false} StrippedNamesLoad<D>(folder: map<string, D>, files: seq<string>)
    requires forall f :: f in folder <==> f in files
    ensures forall p :: p in ListProfilesStripped(files) ==> LoadProfile(folder, p).Profile?
    ensures ListProfilesStripped([".pkl"]) == [""]
  {
    StrippedFiles(files);
    forall p | p in ListProfilesStripped(files)
      ensures LoadProfile(folder, p).Profile?
    {
      var f :| f in files && IsPickle(f) && f[..|f| - 4] == p;
      assert p + ".pkl" == f;
    }
    assert ListProfilesStripped([".pkl"]) == ListProfilesStripped([]) + [""];
  }

  lemma {:induction false} StrippedFiles(files: seq<string>)
    ensures forall p :: p in ListProfilesStripped(files) ==> exists f :: f in files && IsPickle(f) && f[..|f| - 4] == p
  {
    if files != [] {
      var init := files[..|files| - 1];
      StrippedFiles(init);
      assert files == init + [files[|files| - 1]];
    }
  }

  /** The file `save_profile` writes, for the folder listed as `listing`. */
  function SaveTarget(name: string, listing: seq<string>): string
  {
    NextName(SplitExt(name + ".pkl").0, SplitExt(name + ".pkl").1, listing)
  }

  /** `save_profile`: writes `data` under the next free file name of the profile name. */
  function SaveProfile<D>(folder: map<string, D>, listing: seq<string>, name: string, data: D): map<string, D>
  {
    folder[SaveTarget(name, listing) := data]
  }

  /**
   * Saving never overwrites an existing profile file; the new file appears and every other
   * file keeps its content. So loading a name that already had a file still gives the old profile.
   */
  lemma SaveNeverOverwrites<D>(folder: map<string, D>, listing: seq<string>, name: string, data: D)
    requires forall f :: f in folder <==> f in listing
    ensures SaveTarget(name, listing) !in folder
    ensures SaveProfile(folder, listing, name, data).Keys == folder.Keys + {SaveTarget(name, listing)}
    ensures forall f :: f in folder ==> SaveProfile(folder, listing, name, data)[f] == folder[f]
    ensures name + ".pkl" in folder ==> LoadProfile(SaveProfile(folder, listing, name, data), name) == LoadProfile(folder, name)
  {
    var s := SplitExt(name + ".pkl");
    NextNameFresh(s.0, s.1, listing);
  }

  /** Saving a new name with no numbered copies around makes it loadable under that name. */
  lemma SaveThenLoad<D>(folder: map<string, D>, listing: seq<string>, name: string, data: D, i: nat)
    requires forall f :: f in folder <==> f in listing
    requires i < |name| && name[i] != '.'
    requires MaxSuffix(name, ".pkl", listing) == 0
    ensures LoadProfile(SaveProfile(folder, listing, name, data), name) == Profile(data)
  {
    SplitOffExt(name, ".pkl", i);
  }
}
