/**
 * The result-row construction of the data writer: which row dicts are built from an
 * algorithm's results and handed to the SQL text generation. The database writes themselves
 * are the statement pairs produced; the exceptions the writers catch become a `warned` result.
 */
module Writer {
  import opened Wrappers
  import opened Text
  import opened PyDict
  import opened Sql

  /** One entry of `results["Data"]`: a falsy entry (None, empty list), or the measured values. */
  datatype EllipseEntry = Falsy | Measured(vs: seq<PyValue>)

  /** The nine bubble columns, in the order the values are taken. */
  const BubbleKeys: seq<string> := ["CenterX", "CenterY", "EquivalentDiameter", "Area", "SurfaceArea", "Volume",
                                    "SpecificSurfaceVolume", "SauterDiameter", "Circularity"]

  /** The nine cells of one entry (lines 42-47): "Faulty Data" throughout for a falsy entry, else the first nine values; fewer than nine raise IndexError. */
  function EntryCells(e: EllipseEntry): Option<seq<PyValue>>
  {
    if e.Falsy? || e.vs == [] then Some(seq(9, _ => PStr("Faulty Data")))
    else if |e.vs| >= 9 then Some(e.vs[..9])
    else None
  }

  /** The inner loop of lines 43-47 for one entry. */
  method FillCells(e: EllipseEntry) returns (r: Option<seq<PyValue>>)
    ensures r == EntryCells(e)
  {
    var cells: seq<PyValue> := [];
    var i := 0;
    while i < |BubbleKeys|
      invariant 0 <= i <= 9 && |cells| == i
      invariant e.Falsy? || e.vs == [] ==> cells == seq(i, _ => PStr("Faulty Data"))
      invariant !(e.Falsy? || e.vs == []) ==> i <= |e.vs| && cells == e.vs[..i]
    {
      if e.Falsy? || e.vs == [] {
        cells := cells + [PStr("Faulty Data")];
      } else {
        if i >= |e.vs| {
          return None;
        }
        assert e.vs[..i + 1] == e.vs[..i] + [e.vs[i]];
        cells := cells + [e.vs[i]];
      }
      i := i + 1;
    }
    return Some(cells);
  }

  /** The nine columns with their cells, in order. */
  function Zip(keys: seq<string>, cells: seq<PyValue>): (r: Row)
    requires |keys| == |cells|
    ensures |r| == |keys| && forall i :: 0 <= i < |keys| ==> r[i] == (keys[i], cells[i])
  {
    if keys == [] then [] else [(keys[0], cells[0])] + Zip(keys[1..], cells[1..])
  }

  /** The row dict at the time of the entry's statements: "Image" first, then the nine columns. */
  function BubbleRow(image: PyValue, cells: seq<PyValue>): Row
    requires |cells| == 9
  {
    [("Image", image)] + Zip(BubbleKeys, cells)
  }

  /** Statement pairs sent one after the other until the first entry that raises: `Err` carries those sent before it. */
  function Collect<P>(ps: seq<Option<P>>): Result<seq<P>, seq<P>>
  {
    if ps == [] then Ok([])
    else
      var pre := Collect(ps[..|ps| - 1]);
      if pre.Err? then pre
      else if ps[|ps| - 1].None? then Err(pre.value)
      else Ok(pre.value + [ps[|ps| - 1].value])
  }

  /** Without a raise, one pair per entry, in order. */
  lemma {:induction false} CollectFacts<P>(ps: seq<Option<P>>)
    ensures Collect(ps).Ok? <==> forall i :: 0 <= i < |ps| ==> ps[i].Some?
    ensures Collect(ps).Ok? ==> |Collect(ps).value| == |ps| && forall i :: 0 <= i < |ps| ==> ps[i] == Some(Collect(ps).value[i])
  {
    if ps != [] {
      var init := ps[..|ps| - 1];
      CollectFacts(init);
      assert forall i :: 0 <= i < |init| ==> init[i] == ps[i];
    }
  }

  lemma {:induction false} CollectErrSticks<P>(ps: seq<Option<P>>, n: nat)
    requires n <= |ps| && Collect(ps[..n]).Err?
    ensures Collect(ps) == Collect(ps[..n])
    decreases |ps| - n
  {
    if n < |ps| {
      assert ps[..n + 1][..n] == ps[..n];
      CollectErrSticks(ps, n + 1);
    } else {
      assert ps[..n] == ps;
    }
  }

  /** One more pair past a prefix without a raise: the first raise fixes the whole result, otherwise the pair is collected. */
  lemma CollectStep<P>(ps: seq<Option<P>>, i: nat, done: seq<P>)
    requires i < |ps| && Collect(ps[..i]) == Ok(done)
    ensures ps[i].None? ==> Collect(ps) == Err(done)
    ensures ps[i].Some? ==> Collect(ps[..i + 1]) == Ok(done + [ps[i].value])
  {
    assert ps[..i + 1][..i] == ps[..i];
    if ps[i].None? {
      CollectErrSticks(ps, i + 1);
    }
  }

  /** Each entry's statement pair, or `None` where it raises. */
  function EntryPairs(image: PyValue, data: seq<EllipseEntry>): (r: seq<Option<(string, string)>>)
    ensures |r| == |data| && forall i :: 0 <= i < |data| ==> r[i] == EntryPair(image, data[i])
  {
    seq(|data|, i requires 0 <= i < |data| => EntryPair(image, data[i]))
  }

  /** `bubble_size_writer`: one statement pair per entry until the first raise. */
  function BubbleWrites(image: PyValue, data: seq<EllipseEntry>): Result<seq<(string, string)>, seq<(string, string)>>
  {
    Collect(EntryPairs(image, data))
  }

  /** The statement pair of one entry (lines 42-49), or `None` when its cells or its row raise. */
  function EntryPair(image: PyValue, e: EllipseEntry): Option<(string, string)>
  {
    match EntryCells(e)
    case None => None
    case Some(cells) =>
      match Generate("BubbleSizeResults", BubbleRow(image, cells))
      case Err(_) => None
      case Ok(pair) => Some(pair)
  }

  /** `bubble_size_writer`; `warned` is the logged warning of a caught exception, `written` the statement pairs sent before it. */
  method BubbleSizeWriter(image: PyValue, data: seq<EllipseEntry>) returns (written: seq<(string, string)>, warned: bool)
    ensures BubbleWrites(image, data) == (if warned then Err(written) else Ok(written))
  {
    written := [];
    var i := 0;
    while i < |data|
      invariant 0 <= i <= |data|
      invariant Collect(EntryPairs(image, data)[..i]) == Ok(written)
    {
      var pair := SendEntry(image, data, i, written);
      if pair.None? {
        return written, true;
      }
      written := written + [pair.value];
      i := i + 1;
    }
    assert EntryPairs(image, data)[..i] == EntryPairs(image, data);
    return written, false;
  }

  /** The i-th pass of the writer's loop, after the pairs `done` of the earlier entries were sent. */
  method SendEntry(image: PyValue, data: seq<EllipseEntry>, i: nat, done: seq<(string, string)>) returns (pair: Option<(string, string)>)
    requires i < |data| && Collect(EntryPairs(image, data)[..i]) == Ok(done)
    ensures pair.None? ==> BubbleWrites(image, data) == Err(done)
    ensures pair.Some? ==> Collect(EntryPairs(image, data)[..i + 1]) == Ok(done + [pair.value])
  {
    pair := WriteEntry(image, data[i]);
    CollectStep(EntryPairs(image, data), i, done);
  }

  /** One pass of the loop of lines 40-52. */
  method WriteEntry(image: PyValue, e: EllipseEntry) returns (pair: Option<(string, string)>)
    ensures pair == EntryPair(image, e)
  {
    var cells := FillCells(e);
    if cells.None? {
      return None;
    }
    var r := GenerateSqlStatements("BubbleSizeResults", BubbleRow(image, cells.value));
    if r.Err? {
      return None;
    }
    return Some(r.value);
  }

  /**
   * Without a caught exception there is exactly one statement pair per entry, in order, each
   * generated from "Image" plus the nine columns of that entry; a falsy entry's nine columns
   * all hold "Faulty Data".
   */
  lemma BubbleWritesFacts(image: PyValue, data: seq<EllipseEntry>)
    ensures BubbleWrites(image, data).Ok? <==> forall i :: 0 <= i < |data| ==> EntryPair(image, data[i]).Some?
    ensures BubbleWrites(image, data).Ok? ==>
              && |BubbleWrites(image, data).value| == |data|
              && forall i :: 0 <= i < |data| ==> EntryPair(image, data[i]) == Some(BubbleWrites(image, data).value[i])
  {
    CollectFacts(EntryPairs(image, data));
  }

  /** The columns of a bubble row, and the cells of a falsy entry. */
  lemma BubbleRowShape(image: PyValue, e: EllipseEntry)
    requires EntryCells(e).Some?
    ensures Keys(BubbleRow(image, EntryCells(e).value)) == ["Image"] + BubbleKeys
    ensures e.Falsy? ==> forall i :: 1 <= i < 10 ==> BubbleRow(image, EntryCells(e).value)[i].1 == PStr("Faulty Data")
    ensures e.Measured? && e.vs != [] ==> forall i :: 1 <= i < 10 ==> BubbleRow(image, EntryCells(e).value)[i].1 == e.vs[i - 1]
  {
    var r := BubbleRow(image, EntryCells(e).value);
    assert forall i :: 1 <= i < 10 ==> Keys(r)[i] == BubbleKeys[i - 1];
  }

  /** An entry with a value but fewer than nine values raises IndexError, which ends the writer with a warning. */
  lemma ShortEntryWarns(image: PyValue, data: seq<EllipseEntry>, i: nat)
    requires i < |data| && data[i].Measured? && 0 < |data[i].vs| < 9
    ensures BubbleWrites(image, data).Err?
  {
    BubbleWritesFacts(image, data);
    assert EntryPair(image, data[i]).None?;
  }

  const MetadataKeys: seq<string> := ["XBlocka", "YBlocks", "BlockSize", "Orientation"]
  const ColourKeys: seq<string> := ["Red", "Green", "Blue"]

  /** The metadata columns by position (lines 91-92); a fifth element raises IndexError. */
  function MetadataCells(metadata: seq<PyValue>): Option<Row>
  {
    if |metadata| > |MetadataKeys| then None else Some(Zip(MetadataKeys[..|metadata|], metadata))
  }

  /** The three colour cells of one block (line 96): "Block{k+1}{colour}" with the value's `str()`; a missing colour raises KeyError. */
  function BlockCells(key: int, colours: Dict<string, string>): Option<Row>
  {
    var r := Get(colours, "Red");
    var g := Get(colours, "Green");
    var b := Get(colours, "Blue");
    if r.None? || g.None? || b.None? then None
    else
      var prefix := "Block" + IntToString(key + 1);
      Some([(prefix + "Red", PStr(r.value)), (prefix + "Green", PStr(g.value)), (prefix + "Blue", PStr(b.value))])
  }

  /** All block cells, block by block in dict order. */
  function BlocksCells(results: Dict<int, Dict<string, string>>): Option<Row>
  {
    if results == [] then Some([])
    else
      match BlockCells(results[0].0, results[0].1)
      case None => None
      case Some(cells) =>
        match BlocksCells(results[1..])
        case None => None
        case Some(rest) => Some(cells + rest)
  }

  /** Three columns per block when every block has all three colours. */
  lemma {:induction false} BlocksCellsCount(results: Dict<int, Dict<string, string>>)
    ensures BlocksCells(results).Some? <==>
              forall i :: 0 <= i < |results| ==> Get(results[i].1, "Red").Some? && Get(results[i].1, "Green").Some? && Get(results[i].1, "Blue").Some?
    ensures BlocksCells(results).Some? ==> |BlocksCells(results).value| == 3 * |results|
  {
    if results != [] {
      BlocksCellsCount(results[1..]);
      assert forall i :: 1 <= i < |results| ==> results[1..][i - 1] == results[i];
    }
  }

  /**
   * `mixing_time_writer`: the row is Image, Time, the metadata by position and the block
   * colours; any raise inside the `try` leaves only the warning.
   */
  function MixingRow(image: PyValue, time: PyValue, metadata: seq<PyValue>, results: Dict<int, Dict<string, string>>): Option<Row>
  {
    match MetadataCells(metadata)
    case None => None
    case Some(meta) =>
      match BlocksCells(results)
      case None => None
      case Some(blocks) => Some([("Image", image), ("Time", time)] + meta + blocks)
  }

  /** The mixing-time statements, or `None` for the warning. */
  function MixingWrites(image: PyValue, time: PyValue, metadata: seq<PyValue>, results: Dict<int, Dict<string, string>>): Option<(string, string)>
  {
    match MixingRow(image, time, metadata, results)
    case None => None
    case Some(row) =>
      match Generate("MixingTimeResults", row)
      case Err(_) => None
      case Ok(pair) => Some(pair)
  }

  /** A mixing row starts with Image and Time, and holds one column per metadata element and three per block. */
  lemma MixingRowShape(image: PyValue, time: PyValue, metadata: seq<PyValue>, results: Dict<int, Dict<string, string>>)
    requires MixingRow(image, time, metadata, results).Some?
    ensures var row := MixingRow(image, time, metadata, results).value;
            && |row| == 2 + |metadata| + 3 * |results|
            && row[0] == ("Image", image) && row[1] == ("Time", time)
            && forall i :: 0 <= i < |metadata| ==> row[2 + i] == (MetadataKeys[i], metadata[i])
  {
    BlocksCellsCount(results);
  }

  /** A fifth metadata element is past the four names and ends the writer with a warning. */
  lemma LongMetadataWarns(image: PyValue, time: PyValue, metadata: seq<PyValue>, results: Dict<int, Dict<string, string>>)
    requires |metadata| > 4
    ensures MixingWrites(image, time, metadata, results).None?
  {
  }

  /** The fan's PWM reading (0 to 255) as a percentage, line 116. */
  function FanPercent(pwm: real): real
  {
    pwm / 255.0 * 100.0
  }

  /** The columns of the Arduino's EnvironmentData row, in dict order. */
  const ArduinoKeys: seq<string> := ["CurrentTemperature", "TargetTemperature", "Fanspeed"]

  /**
   * The Arduino's reply: the decoded serial lines. `float()` is applied to each of the first
   * three; `parse` is that conversion (`None` where it raises ValueError).
   */
  predicate ArduinoParses(data: seq<string>, parse: string -> Option<real>)
  {
    |data| >= 3 && parse(data[0]).Some? && parse(data[1]).Some? && parse(data[2]).Some?
  }

  /**
   * `arduino_data_writer`'s row dict: the temperature, the target and the fan speed in percent,
   * each a float carried as its `str()` text given by `floatText`; fewer than three lines raise
   * IndexError and a line `float()` rejects raises ValueError.
   */
  function ArduinoRow(data: seq<string>, parse: string -> Option<real>, floatText: real -> string): (r: Option<Row>)
    ensures r.Some? <==> ArduinoParses(data, parse)
    ensures r.Some? ==> Keys(r.value) == ArduinoKeys
  {
    if |data| < 3 then None
    else
      match (parse(data[2]), parse(data[0]), parse(data[1]))
      case (Some(pwm), Some(temp), Some(target)) =>
        Some([("CurrentTemperature", PFloat(floatText(temp))), ("TargetTemperature", PFloat(floatText(target))),
              ("Fanspeed", PFloat(floatText(FanPercent(pwm))))])
      case _ => None
  }

  /** The Arduino statements for the EnvironmentData table, or `None` for the warning. */
  function ArduinoWrites(data: seq<string>, parse: string -> Option<real>, floatText: real -> string): Option<(string, string)>
  {
    match ArduinoRow(data, parse, floatText)
    case None => None
    case Some(row) =>
      match Generate("EnvironmentData", row)
      case Err(_) => None
      case Ok(pair) => Some(pair)
  }

  /**
   * The writer warns exactly when fewer than three lines arrive or one of the first three is
   * not a float: every column is a float, so the statements always exist otherwise, and the
   * INSERT names the three columns in order with the texts of the temperature, the target and
   * the fan percentage as its literals.
   */
  lemma ArduinoWritesFacts(data: seq<string>, parse: string -> Option<real>, floatText: real -> string)
    ensures ArduinoWrites(data, parse, floatText).Some? <==> ArduinoParses(data, parse)
    ensures ArduinoParses(data, parse) ==>
              var row := ArduinoRow(data, parse, floatText).value;
              && ArduinoWrites(data, parse, floatText).value.1 == InsertStatement("EnvironmentData", row)
              && Keys(row) == ArduinoKeys
              && Literals(Values(row))
                 == [floatText(parse(data[0]).value), floatText(parse(data[1]).value), floatText(FanPercent(parse(data[2]).value))]
  {
    if ArduinoParses(data, parse) {
      var row := ArduinoRow(data, parse, floatText).value;
      var t0, t1 := floatText(parse(data[0]).value), floatText(parse(data[1]).value);
      var t2 := floatText(FanPercent(parse(data[2]).value));
      assert Generate("EnvironmentData", row).Ok? by {
        GenerateFacts("EnvironmentData", row);
      }
      assert Literals(Values(row)) == [t0, t1, t2] by {
        var lits := Literals(Values(row));
        assert Values(row)[2] == PFloat(t2) && PyStr(PFloat(t2)) == t2;
        assert |lits| == 3 && lits[0] == t0 && lits[1] == t1 && lits[2] == t2;
      }
    }
  }

  /** A reply with a line that is not a number among the first three is only logged. */
  lemma ArduinoBadLineWarns(data: seq<string>, parse: string -> Option<real>, floatText: real -> string, i: nat)
    requires i < 3 && i < |data| && parse(data[i]).None?
    ensures ArduinoWrites(data, parse, floatText).None?
  {
    ArduinoWritesFacts(data, parse, floatText);
  }

  /** A PWM value in [0, 255] gives a fan speed in [0, 100], full PWM exactly 100. */
  lemma FanspeedPercent(pwm: real)
    requires 0.0 <= pwm <= 255.0
    ensures 0.0 <= FanPercent(pwm) <= 100.0
    ensures pwm == 255.0 ==> FanPercent(pwm) == 100.0
  {
  }

  /** What the mass-flow controller's read returns: something `read[0]` can index, or a plain number. */
  datatype MfcReading = Indexable(items: seq<PyValue>) | Number(value: PyValue)

  /**
   * `mfc_data_writer`'s row: the first item as Massflow. Indexing a plain number raises
   * TypeError and an empty sequence IndexError; both are only logged.
   */
  function MfcRow(read: MfcReading): (r: Option<Row>)
    ensures r.Some? <==> read.Indexable? && read.items != []
    ensures r.Some? ==> r.value == [("Massflow", read.items[0])]
  {
    match read
    case Number(_) => None
    case Indexable(items) => if items == [] then None else Some([("Massflow", items[0])])
  }
}
