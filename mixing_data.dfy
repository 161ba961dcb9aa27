/**
 * The mixing-time data record: global results per image (meant to go under "entropy" and
 * "variance"), tile data per image, and the tile grid's metadata.
 */
module MixingData {
  import opened Wrappers

  /** A key of the global dict: an image index, or a name such as "entropy". */
  datatype GlobalKey = ImageKey(index: int) | NameKey(name: string)

  /** The dicts stored in the global dict: image index to value. */
  type Series = map<int, real>

  /** An image's tiles: grid position to `[entropy, variance]`. */
  type Tiles = map<(int, int), seq<real>>

  datatype KeyError = KeyError(key: string)

  /**
   * `add_global_results` as written: an empty dict is added under the image index if it has none; then
   * the entropy and the variance are written into the "entropy" and "variance" dicts, raising
   * KeyError at the first of those that is missing, after the writes before it.
   */
  function AddGlobal(g: map<GlobalKey, Series>, index: int, entropy: real, variance: real): (map<GlobalKey, Series>, Option<KeyError>)
  {
    var g1 := if ImageKey(index) !in g then g[ImageKey(index) := map[]] else g;
    if NameKey("entropy") !in g1 then (g1, Some(KeyError("entropy")))
    else
      var g2 := g1[NameKey("entropy") := g1[NameKey("entropy")][index := entropy]];
      if NameKey("variance") !in g2 then (g2, Some(KeyError("variance")))
      else (g2[NameKey("variance") := g2[NameKey("variance")][index := variance]], None)
  }

  /**
   * Nothing in the record ever creates the "entropy" dict, so on a fresh record the call always
   * raises KeyError for "entropy" and leaves behind only the empty entry for the image.
   */
  lemma FreshAddGlobalRaises(index: int, entropy: real, variance: real)
    ensures AddGlobal(map[], index, entropy, variance) == (map[ImageKey(index) := map[]], Some(KeyError("entropy")))
  {
  }

  /**
   * The call never creates the "entropy" dict, so a record without one raises KeyError for
   * "entropy" on every call and still lacks it afterwards.
   */
  lemma {:induction false} NoEntropyStaysMissing(g: map<GlobalKey, Series>, index: int, entropy: real, variance: real)
    requires NameKey("entropy") !in g
    ensures AddGlobal(g, index, entropy, variance).1 == Some(KeyError("entropy"))
    ensures NameKey("entropy") !in AddGlobal(g, index, entropy, variance).0
  {
    var g1 := if ImageKey(index) !in g then g[ImageKey(index) := map[]] else g;
    assert NameKey("entropy") !in g1;
  }

  /**
   * The call succeeds exactly when both named dicts exist, and then records the two values
   * under the image index in them; an image entry that exists is never replaced, and keys
   * other than the image and the two names keep their value whatever happens.
   */
  lemma AddGlobalFacts(g: map<GlobalKey, Series>, index: int, entropy: real, variance: real)
    ensures var (g', err) := AddGlobal(g, index, entropy, variance);
            && (err.None? <==> NameKey("entropy") in g && NameKey("variance") in g)
            && (err.None? ==>
                  && g'[NameKey("entropy")] == g[NameKey("entropy")][index := entropy]
                  && g'[NameKey("variance")] == g[NameKey("variance")][index := variance])
            && ImageKey(index) in g'
            && (ImageKey(index) in g ==> g'[ImageKey(index)] == g[ImageKey(index)])
            && (forall k :: k != ImageKey(index) && k != NameKey("entropy") && k != NameKey("variance") ==>
                  (k in g' <==> k in g) && (k in g ==> g'[k] == g[k]))
  {
  }

  /**
   * The evidently intended `add_global_results`: the image's own dict, created empty when
   * missing, gets the entropy under "entropy" and the variance under "variance".
   */
  function RecordGlobal(g: map<int, map<string, real>>, index: int, entropy: real, variance: real): map<int, map<string, real>>
  {
    var entry := if index in g then g[index] else map[];
    g[index := entry["entropy" := entropy]["variance" := variance]]
  }

  /**
   * The corrected call never fails: the image's dict then holds the two values, keeps its other
   * entries, and every other image's dict is as before.
   */
  lemma RecordGlobalFacts(g: map<int, map<string, real>>, index: int, entropy: real, variance: real)
    ensures var g' := RecordGlobal(g, index, entropy, variance);
            && g'.Keys == g.Keys + {index}
            && g'[index]["entropy"] == entropy && g'[index]["variance"] == variance
            && (forall n :: n != "entropy" && n != "variance" ==>
                  (n in g'[index] <==> index in g && n in g[index]) && (index in g && n in g[index] ==> g'[index][n] == g[index][n]))
            && (forall j :: j in g && j != index ==> g'[j] == g[j])
  {
  }

  /** `get_tile` on a local dict: the value at `(row, col)` for the image, or None when the image or the position is missing. */
  function TileAt(local: map<int, Tiles>, index: int, row: int, col: int): Option<seq<real>>
  {
    var tiles := if index in local then local[index] else map[];
    if (row, col) in tiles then Some(tiles[(row, col)]) else None
  }

  /**
   * After an image's tiles are replaced, its lookups read the new tiles only (a position the
   * new value lacks is gone even if the old one had it) and other images read as before.
   */
  lemma TileAtAfterReplace(local: map<int, Tiles>, index: int, value: Tiles, j: int, row: int, col: int)
    ensures TileAt(local[index := value], j, row, col) ==
            if j == index then (if (row, col) in value then Some(value[(row, col)]) else None)
            else TileAt(local, j, row, col)
  {
  }

  class DataMixingTime {
    var tileSize: Option<int>
    var rows: Option<int>
    var columns: Option<int>
    var globalData: map<GlobalKey, Series>
    var localData: map<int, Tiles>

    /** A new record: empty dicts, and tile size, rows and columns None. */
    constructor()
      ensures tileSize == None && rows == None && columns == None
      ensures globalData == map[] && localData == map[]
      ensures NoEntropySeries()
    {
      tileSize, rows, columns := None, None, None;
      globalData, localData := map[], map[];
    }

    /** Nothing has made an "entropy" dict, as is the case for every record built by the constructor. */
    predicate NoEntropySeries()
      reads this
    {
      NameKey("entropy") !in globalData
    }

    /**
     * `add_global_results` as written: the global dict becomes what AddGlobal leaves, the
     * KeyError included. On a record without an "entropy" dict, which the constructor and every
     * method of the record keep so, the call always raises.
     */
    method AddGlobalResults(index: int, entropy: real, variance: real) returns (err: Option<KeyError>)
      modifies this`globalData
      ensures (globalData, err) == AddGlobal(old(globalData), index, entropy, variance)
      ensures old(NoEntropySeries()) ==> NoEntropySeries() && err == Some(KeyError("entropy"))
    {
      if ImageKey(index) !in globalData {
        globalData := globalData[ImageKey(index) := map[]];
      }
      if NameKey("entropy") !in globalData {
        err := Some(KeyError("entropy"));
      } else {
        globalData := globalData[NameKey("entropy") := globalData[NameKey("entropy")][index := entropy]];
        if NameKey("variance") !in globalData {
          err := Some(KeyError("variance"));
        } else {
          globalData := globalData[NameKey("variance") := globalData[NameKey("variance")][index := variance]];
          err := None;
        }
      }
      if old(NoEntropySeries()) {
        NoEntropyStaysMissing(old(globalData), index, entropy, variance);
      }
    }

    /** `add_tile`: the image's whole entry becomes `value`. */
    method AddTile(index: int, value: Tiles)
      modifies this
      ensures localData == old(localData)[index := value]
      ensures globalData == old(globalData) && tileSize == old(tileSize) && rows == old(rows) && columns == old(columns)
    {
      if index !in localData {
        localData := localData[index := map[]];
      }
      localData := localData[index := value];
    }

    function GetTile(index: int, row: int, col: int): Option<seq<real>>
      reads this
    {
      TileAt(localData, index, row, col)
    }

    /** `add_local_metadata`: exactly the three metadata fields change. */
    method AddLocalMetadata(tileSize: int, rows: int, columns: int)
      modifies this
      ensures this.tileSize == Some(tileSize) && this.rows == Some(rows) && this.columns == Some(columns)
      ensures globalData == old(globalData) && localData == old(localData)
    {
      this.tileSize := Some(tileSize);
      this.rows := Some(rows);
      this.columns := Some(columns);
    }
  }
}
