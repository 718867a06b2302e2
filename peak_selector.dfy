/**
 * Peak selection over one pass of power-scan output (app/decoder.py, lines 90-101).
 *
 * A row of the power log is a comma-separated line already split into fields:
 * field 2 is the base frequency of the row, field 4 the bin width, and every
 * field from index 6 on is a power reading in dB for consecutive bins, here
 * already converted to numbers.  The
 * selector keeps the strongest reading seen and the absolute frequency of its
 * bin, starting from a floor of -200 dB at frequency 0.
 */
module PeakSelector {

  /** One CSV field: text that Python's `float()` accepts (with its value), or text it rejects. */
  datatype Field = Number(value: real) | NotNumber(text: string)

  /**
   * One line of the power log: its first fields (all six of them for a line that carries
   * readings), and the readings, the fields from index 6 on, as `float()` converts them.
   */
  datatype Row = Row(header: seq<Field>, readings: seq<real>)

  /** The strongest bin of a pass: its level in dB and its absolute frequency in Hz. */
  datatype Peak = Peak(level: real, freq: real)

  /** The "no signal" level, also the default of `max` over an empty reading list. */
  const Floor: real := -200.0

  const BaseField: nat := 2
  const WidthField: nat := 4
  const FirstReading: nat := 6

  /**
   * A row whose base frequency and bin width `float()` accepts whenever it carries readings
   * (a line without readings never has those fields converted).
   */
  predicate WellFormedRow(row: Row)
  {
    row.readings != [] ==>
      |row.header| == FirstReading && row.header[BaseField].Number? && row.header[WidthField].Number?
  }

  predicate WellFormedLog(rows: seq<Row>)
  {
    forall j :: 0 <= j < |rows| ==> WellFormedRow(rows[j])
  }

  /** Absolute frequency of bin `k` of a row: `float(parts[2]) + k * float(parts[4])`. */
  function BinFrequency(row: Row, k: nat): real
    requires WellFormedRow(row) && row.readings != []
  {
    row.header[BaseField].value + (k as real) * row.header[WidthField].value
  }

  function Max(a: real, b: real): real
  {
    if a < b then b else a
  }

  /** Largest element of a non-empty list. */
  function SeqMax(xs: seq<real>): (m: real)
    requires xs != []
    ensures m in xs
    ensures forall k :: 0 <= k < |xs| ==> xs[k] <= m
  {
    if |xs| == 1 then xs[0] else Max(xs[0], SeqMax(xs[1..]))
  }

  /** Python's `max(xs, default=-200)`. */
  function MaxOrFloor(xs: seq<real>): (m: real)
    ensures xs == [] ==> m == Floor
    ensures xs != [] ==> m in xs && forall k :: 0 <= k < |xs| ==> xs[k] <= m
  {
    if xs == [] then Floor else SeqMax(xs)
  }

  /** Python's `xs.index(v)`: the first position holding `v`. */
  function IndexOf(xs: seq<real>, v: real): (k: nat)
    requires v in xs
    ensures k < |xs| && xs[k] == v
    ensures forall k' :: 0 <= k' < k ==> xs[k'] != v
  {
    if xs[0] == v then 0 else 1 + IndexOf(xs[1..], v)
  }

  /** The strongest reading of a row, or the floor if that is higher or the row has none. */
  function RowTop(row: Row): (t: real)
    requires WellFormedRow(row)
    ensures t >= Floor
    ensures forall k :: 0 <= k < |row.readings| ==> row.readings[k] <= t
    ensures t > Floor ==> t in row.readings
  {
    Max(Floor, MaxOrFloor(row.readings))
  }

  lemma TailWellFormed(rows: seq<Row>)
    requires WellFormedLog(rows) && rows != []
    ensures WellFormedLog(rows[1..])
  {
  }

  /** The level of the pass: the larger of the floor and every row's top. */
  function Level(rows: seq<Row>): (l: real)
    requires WellFormedLog(rows)
    ensures l >= Floor
  {
    if rows == [] then Floor
    else
      TailWellFormed(rows);
      Max(RowTop(rows[0]), Level(rows[1..]))
  }

  /** The level bounds every reading of the pass, and is the floor or one of those readings. */
  lemma {:induction false} LevelIsMax(rows: seq<Row>)
    requires WellFormedLog(rows)
    ensures forall j, k :: 0 <= j < |rows| && 0 <= k < |rows[j].readings| ==> rows[j].readings[k] <= Level(rows)
    ensures Level(rows) > Floor ==> exists j :: 0 <= j < |rows| && Level(rows) in rows[j].readings
  {
    if rows != [] {
      var rest := rows[1..];
      assert WellFormedLog(rest) by {
        forall j | 0 <= j < |rest| ensures WellFormedRow(rest[j]) { assert rest[j] == rows[j + 1]; }
      }
      LevelIsMax(rest);
      forall j, k | 0 <= j < |rows| && 0 <= k < |rows[j].readings|
        ensures rows[j].readings[k] <= Level(rows)
      {
        if j > 0 {
          assert rows[j] == rest[j - 1];
        }
      }
      if Level(rows) > Floor && Level(rows) != RowTop(rows[0]) {
        var j :| 0 <= j < |rest| && Level(rest) in rest[j].readings;
        assert rest[j] == rows[j + 1];
      }
    }
  }

  /** The first row that carries reading `v`. */
  function FirstRowWith(rows: seq<Row>, v: real): (j: nat)
    requires WellFormedLog(rows)
    requires exists j :: 0 <= j < |rows| && v in rows[j].readings
    ensures j < |rows| && v in rows[j].readings
    ensures forall j' :: 0 <= j' < j ==> v !in rows[j'].readings
  {
    if v in rows[0].readings then 0
    else
      var rest := rows[1..];
      assert WellFormedLog(rest) by {
        forall j | 0 <= j < |rest| ensures WellFormedRow(rest[j]) { assert rest[j] == rows[j + 1]; }
      }
      assert exists j :: 0 <= j < |rest| && v in rest[j].readings by {
        var j :| 0 <= j < |rows| && v in rows[j].readings;
        assert j != 0 && rest[j - 1] == rows[j];
      }
      var j := FirstRowWith(rest, v);
      assert forall j' :: 1 <= j' <= j ==> rows[j'] == rest[j' - 1];
      1 + j
  }

  /**
   * The peak of a pass, defined declaratively: the level of the pass and, when it is above
   * the floor, the first bin of the first row holding it; otherwise frequency 0.
   */
  function SpecPeak(rows: seq<Row>): (p: Peak)
    requires WellFormedLog(rows)
    ensures p.level >= Floor
  {
    LevelIsMax(rows);
    var l := Level(rows);
    if l == Floor then Peak(Floor, 0.0)
    else
      var j := FirstRowWith(rows, l);
      var k := IndexOf(rows[j].readings, l);
      Peak(l, BinFrequency(rows[j], k))
  }

  /**
   * What a pass selects: a level no reading exceeds; the sentinel (-200 dB at frequency 0)
   * exactly when no reading is above -200 dB; otherwise a reading equal to the level, taken
   * from the first row that holds it and the first bin of that row holding it, at that
   * bin's absolute frequency.
   */
  lemma SpecPeakIsFirstMaximum(rows: seq<Row>)
    requires WellFormedLog(rows)
    ensures var p := SpecPeak(rows);
      && p.level >= Floor
      && (forall j, k :: 0 <= j < |rows| && 0 <= k < |rows[j].readings| ==> rows[j].readings[k] <= p.level)
      && (p.level == Floor <==> forall j, k :: 0 <= j < |rows| && 0 <= k < |rows[j].readings| ==> rows[j].readings[k] <= Floor)
      && (p.level == Floor ==> p.freq == 0.0)
      && (p.level > Floor ==>
        exists j, k :: 0 <= j < |rows| && 0 <= k < |rows[j].readings|
          && rows[j].readings[k] == p.level
          && p.freq == BinFrequency(rows[j], k)
          && (forall k' :: 0 <= k' < k ==> rows[j].readings[k'] != p.level)
          && (forall j' :: 0 <= j' < j ==> p.level !in rows[j'].readings))
  {
    LevelIsMax(rows);
    var l := Level(rows);
    if l > Floor {
      var j := FirstRowWith(rows, l);
      var k := IndexOf(rows[j].readings, l);
      assert rows[j].readings[k] == l;
    }
  }

  /** No reading of the pass is above the floor. */
  ghost predicate NoSignal(rows: seq<Row>)
    requires WellFormedLog(rows)
  {
    forall j, k :: 0 <= j < |rows| && 0 <= k < |rows[j].readings| ==> rows[j].readings[k] <= Floor
  }

  /** A pass yields the sentinel (-200 dB at frequency 0) exactly when no reading is above -200 dB. */
  lemma SentinelIffNoSignal(rows: seq<Row>)
    requires WellFormedLog(rows)
    ensures SpecPeak(rows) == Peak(Floor, 0.0) <==> NoSignal(rows)
    ensures SpecPeak(rows).level > Floor <==> !NoSignal(rows)
  {
    LevelIsMax(rows);
    if Level(rows) > Floor {
      var j :| 0 <= j < |rows| && Level(rows) in rows[j].readings;
      var k :| 0 <= k < |rows[j].readings| && rows[j].readings[k] == Level(rows);
    }
  }

  lemma AppendWellFormed(rows: seq<Row>, row: Row)
    requires WellFormedLog(rows) && WellFormedRow(row)
    ensures WellFormedLog(rows + [row])
    ensures forall j :: 0 <= j < |rows| ==> (rows + [row])[j] == rows[j]
    ensures (rows + [row])[|rows|] == row
  {
  }

  /** The level of a pass with one more row is the larger of the old level and that row's top. */
  lemma {:induction false} LevelAppend(rows: seq<Row>, row: Row)
    requires WellFormedLog(rows) && WellFormedRow(row)
    ensures WellFormedLog(rows + [row])
    ensures Level(rows + [row]) == Max(Level(rows), RowTop(row))
  {
    AppendWellFormed(rows, row);
    var all := rows + [row];
    if rows == [] {
      assert all == [row] && all[1..] == [];
      assert Level(all) == Max(RowTop(row), Level([]));
    } else {
      var rest := rows[1..];
      TailWellFormed(rows);
      LevelAppend(rest, row);
      assert all[0] == rows[0] && all[1..] == rest + [row];
      TailWellFormed(all);
      calc {
        Level(all);
        Max(RowTop(rows[0]), Level(rest + [row]));
        Max(RowTop(rows[0]), Max(Level(rest), RowTop(row)));
        Max(Max(RowTop(rows[0]), Level(rest)), RowTop(row));
        Max(Level(rows), RowTop(row));
      }
    }
  }

  /** A reading already present in a pass keeps its first row when a row is added. */
  lemma FirstRowAppendOld(rows: seq<Row>, row: Row, v: real)
    requires WellFormedLog(rows) && WellFormedRow(row)
    requires exists j :: 0 <= j < |rows| && v in rows[j].readings
    ensures WellFormedLog(rows + [row])
    ensures exists j :: 0 <= j < |rows + [row]| && v in (rows + [row])[j].readings
    ensures FirstRowWith(rows + [row], v) == FirstRowWith(rows, v)
  {
    AppendWellFormed(rows, row);
    var j := FirstRowWith(rows, v);
    assert v in (rows + [row])[j].readings;
  }

  /** A reading absent from a pass but present in the added row is found in that row. */
  lemma FirstRowAppendNew(rows: seq<Row>, row: Row, v: real)
    requires WellFormedLog(rows) && WellFormedRow(row)
    requires forall j :: 0 <= j < |rows| ==> v !in rows[j].readings
    requires v in row.readings
    ensures WellFormedLog(rows + [row])
    ensures exists j :: 0 <= j < |rows + [row]| && v in (rows + [row])[j].readings
    ensures FirstRowWith(rows + [row], v) == |rows|
  {
    AppendWellFormed(rows, row);
    assert v in (rows + [row])[|rows|].readings;
  }

  /** Adding one row to a pass changes the peak exactly as one iteration of the selection loop does. */
  lemma PeakExtend(rows: seq<Row>, row: Row)
    requires WellFormedLog(rows) && WellFormedRow(row)
    ensures WellFormedLog(rows + [row])
    ensures SpecPeak(rows + [row]) ==
      var p, xs := SpecPeak(rows), row.readings;
      var m := MaxOrFloor(xs);
      if m > p.level then Peak(m, BinFrequency(row, IndexOf(xs, m))) else p
  {
    AppendWellFormed(rows, row);
    LevelAppend(rows, row);
    var all := rows + [row];
    var l, xs := Level(rows), row.readings;
    var m := MaxOrFloor(xs);
    assert SpecPeak(rows).level == l;
    if m > l {
      assert xs != [] && m in xs && RowTop(row) == m;
      LevelIsMax(rows);
      assert Level(all) == m;
      forall j | 0 <= j < |rows| ensures m !in rows[j].readings {
      }
      FirstRowAppendNew(rows, row, m);
      assert all[|rows|] == row;
      assert SpecPeak(all) == Peak(m, BinFrequency(row, IndexOf(xs, m)));
    } else {
      assert RowTop(row) <= l;
      assert Level(all) == l;
      if l > Floor {
        FirstRowAppendOld(rows, row, l);
        var j := FirstRowWith(rows, l);
        assert all[j] == rows[j];
      }
    }
  }

  /**
   * The selection loop of a scan pass.  It keeps the strongest reading seen so far and the
   * frequency of its bin; a row replaces the current peak only when its own maximum is
   * strictly greater, so on ties the earliest row and, within it, the earliest bin win.
   */
  method SelectPeak(rows: seq<Row>) returns (maxSignal: real, frq: real)
    requires WellFormedLog(rows)
    ensures Peak(maxSignal, frq) == SpecPeak(rows)
  {
    maxSignal, frq := Floor, 0.0;
    for i := 0 to |rows|
      invariant Peak(maxSignal, frq) == SpecPeak(rows[..i])
    {
      var row := rows[i];
      var freqs := row.readings;
      var maxDb := MaxOrFloor(freqs);
      PeakExtend(rows[..i], row);
      assert rows[..i + 1] == rows[..i] + [row];
      if maxDb > maxSignal {
        maxSignal := maxDb;
        frq := BinFrequency(row, IndexOf(freqs, maxDb));
      }
    }
    assert rows[..|rows|] == rows;
  }

  /**
   * One row at base 406 000 000 Hz with 1000 Hz bins and readings -150, -90, -160 dB:
   * the peak is -90 dB in bin 1, at 406 001 000 Hz.
   */
  const ScenarioRow: Row := Row(
    [NotNumber("2024-01-01"), NotNumber("00:00:00"),
     Number(406000000.0), Number(406100000.0), Number(1000.0), Number(3.0)],
    [-150.0, -90.0, -160.0])

  lemma ScenarioPeak()
    ensures WellFormedLog([ScenarioRow])
    ensures SpecPeak([ScenarioRow]) == Peak(-90.0, 406001000.0)
  {
  }
}
