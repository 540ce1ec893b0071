/**
 * One complete shot file taken through `process_data` and `data_plot`:
 * seven channel lines of three samples each, plus the two ways a file
 * goes wrong (a line naming an unknown channel, a sample that is not a
 * number). `float` is Python's, as modelled by `PyFloat.ParseFloat`.
 */
module Scenario {
  import opened Wrappers
  import opened PyText
  import opened PyFloat
  import opened Extractor
  import opened Plotter

  /** The tokens of each data line of the shot, channel name first. */
  const ShotRows: seq<seq<string>> := [
    ["espresso_elapsed", "0.0", "1.0", "2.0"],
    ["espresso_pressure", "0.0", "3.0", "6.0"],
    ["espresso_weight", "0.0", "1.0", "2.0"],
    ["espresso_flow", "0.0", "0.5", "1.0"],
    ["espresso_flow_weight", "0.0", "0.2", "0.4"],
    ["espresso_temperature_basket", "900.0", "901.0", "902.0"],
    ["espresso_temperature_mix", "930.0", "931.0", "932.0"]
  ]

  /**
   * The shot file as `readlines()` returns it, one `{name v1 v2 v3}` line
   * per row, each ending in its newline:
   *   {espresso_elapsed 0.0 1.0 2.0}
   *   {espresso_pressure 0.0 3.0 6.0}
   *   ...
   *   {espresso_temperature_mix 930.0 931.0 932.0}
   */
  function ShotLines(): seq<string> {
    FormatRows(ShotRows)
  }

  /** The samples `process_data` returns for it. */
  const ShotSamples: seq<seq<real>> := [
    [0.0, 1.0, 2.0],
    [0.0, 3.0, 6.0],
    [0.0, 1.0, 2.0],
    [0.0, 0.5, 1.0],
    [0.0, 0.2, 0.4],
    [900.0, 901.0, 902.0],
    [930.0, 931.0, 932.0]
  ]

  /** The value of a three-digit numeral, digit by digit. */
  lemma ThreeDigits(s: string)
    requires |s| == 3 && AllDigits(s)
    ensures DigitsValue(s) == 100 * (s[0] as int - '0' as int) + 10 * (s[1] as int - '0' as int) + (s[2] as int - '0' as int)
  {
    var two, one := s[..2], s[..1];
    assert two[..1] == one && one[..0] == [];
    assert DigitsValue(one) == s[0] as int - '0' as int;
    assert DigitsValue(two) == 10 * DigitsValue(one) + (s[1] as int - '0' as int);
    assert DigitsValue(s) == 10 * DigitsValue(two) + (s[2] as int - '0' as int);
  }

  /** `float(whole + "." + frac)` for a literal of that shape. */
  lemma ParsesTo(tok: string, whole: string, frac: string, v: real)
    requires tok == whole + "." + frac && whole != [] && AllDigits(whole) && AllDigits(frac)
    requires FixedPoint(whole, frac) == v
    ensures ParseFloat(tok) == Some(v)
  {
    ParseFixedPoint(whole, frac);
  }

  /** What the shot needs of `float`: each of its sample tokens denotes the decimal it spells. */
  ghost predicate ReadsShotSamples(float: Converter) {
    && float("0.0") == Some(0.0)
    && float("1.0") == Some(1.0)
    && float("2.0") == Some(2.0)
    && float("3.0") == Some(3.0)
    && float("6.0") == Some(6.0)
    && float("0.5") == Some(0.5)
    && float("0.2") == Some(0.2)
    && float("0.4") == Some(0.4)
    && float("900.0") == Some(900.0)
    && float("901.0") == Some(901.0)
    && float("902.0") == Some(902.0)
    && float("930.0") == Some(930.0)
    && float("931.0") == Some(931.0)
    && float("932.0") == Some(932.0)
  }

  lemma Parse0_0()
    ensures ParseFloat("0.0") == Some(0.0)
  {
    ParsesTo("0.0", "0", "0", 0.0);
  }

  lemma Parse1_0()
    ensures ParseFloat("1.0") == Some(1.0)
  {
    ParsesTo("1.0", "1", "0", 1.0);
  }

  lemma Parse2_0()
    ensures ParseFloat("2.0") == Some(2.0)
  {
    ParsesTo("2.0", "2", "0", 2.0);
  }

  lemma Parse3_0()
    ensures ParseFloat("3.0") == Some(3.0)
  {
    ParsesTo("3.0", "3", "0", 3.0);
  }

  lemma Parse6_0()
    ensures ParseFloat("6.0") == Some(6.0)
  {
    ParsesTo("6.0", "6", "0", 6.0);
  }

  lemma Parse0_5()
    ensures ParseFloat("0.5") == Some(0.5)
  {
    ParsesTo("0.5", "0", "5", 0.5);
  }

  lemma Parse0_2()
    ensures ParseFloat("0.2") == Some(0.2)
  {
    ParsesTo("0.2", "0", "2", 0.2);
  }

  lemma Parse0_4()
    ensures ParseFloat("0.4") == Some(0.4)
  {
    ParsesTo("0.4", "0", "4", 0.4);
  }

  lemma Parse900_0()
    ensures ParseFloat("900.0") == Some(900.0)
  {
    ThreeDigits("900");
    ParsesTo("900.0", "900", "0", 900.0);
  }

  lemma Parse901_0()
    ensures ParseFloat("901.0") == Some(901.0)
  {
    ThreeDigits("901");
    ParsesTo("901.0", "901", "0", 901.0);
  }

  lemma Parse902_0()
    ensures ParseFloat("902.0") == Some(902.0)
  {
    ThreeDigits("902");
    ParsesTo("902.0", "902", "0", 902.0);
  }

  lemma Parse930_0()
    ensures ParseFloat("930.0") == Some(930.0)
  {
    ThreeDigits("930");
    ParsesTo("930.0", "930", "0", 930.0);
  }

  lemma Parse931_0()
    ensures ParseFloat("931.0") == Some(931.0)
  {
    ThreeDigits("931");
    ParsesTo("931.0", "931", "0", 931.0);
  }

  lemma Parse932_0()
    ensures ParseFloat("932.0") == Some(932.0)
  {
    ThreeDigits("932");
    ParsesTo("932.0", "932", "0", 932.0);
  }

  lemma ParseFloatReadsShotSamples()
    ensures ReadsShotSamples(ParseFloat)
  {
    Parse0_0();
    Parse1_0();
    Parse2_0();
    Parse3_0();
    Parse6_0();
    Parse0_5();
    Parse0_2();
    Parse0_4();
    Parse900_0();
    Parse901_0();
    Parse902_0();
    Parse930_0();
    Parse931_0();
    Parse932_0();
  }

  lemma ShotSamplesConvert(float: Converter)
    requires ReadsShotSamples(float)
    ensures forall k, j :: 0 <= k < |ShotRows| && 0 <= j < |ShotSamples[k]| ==> float(ShotRows[k][j + 1]) == Some(ShotSamples[k][j])
  {
  }

  lemma WordsMakeDataRow(row: seq<string>)
    requires |row| > 0 && row[0] in Headers
    requires forall j :: 0 <= j < |row| ==> IsWord(row[j])
    ensures IsDataRow(row)
  {
    forall j | 0 <= j < |row|
      ensures IsToken(row[j]) && '{' !in row[j] && '}' !in row[j]
    {
      WordIsToken(row[j]);
    }
  }

  lemma Row0IsDataRow()
    ensures IsDataRow(ShotRows[0])
  {
    WordsMakeDataRow(ShotRows[0]);
  }

  lemma Row1IsDataRow()
    ensures IsDataRow(ShotRows[1])
  {
    WordsMakeDataRow(ShotRows[1]);
  }

  lemma Row2IsDataRow()
    ensures IsDataRow(ShotRows[2])
  {
    WordsMakeDataRow(ShotRows[2]);
  }

  lemma Row3IsDataRow()
    ensures IsDataRow(ShotRows[3])
  {
    WordsMakeDataRow(ShotRows[3]);
  }

  lemma Row4IsDataRow()
    ensures IsDataRow(ShotRows[4])
  {
    WordsMakeDataRow(ShotRows[4]);
  }

  lemma Row5IsDataRow()
    ensures IsDataRow(ShotRows[5])
  {
    WordsMakeDataRow(ShotRows[5]);
  }

  lemma Row6IsDataRow()
    ensures IsDataRow(ShotRows[6])
  {
    WordsMakeDataRow(ShotRows[6]);
  }

  lemma ShotRowsAreDataRows()
    ensures forall k :: 0 <= k < |ShotRows| ==> |ShotRows[k]| > 0 && IsDataRow(ShotRows[k])
  {
    Row0IsDataRow(); Row1IsDataRow(); Row2IsDataRow(); Row3IsDataRow();
    Row4IsDataRow(); Row5IsDataRow(); Row6IsDataRow();
  }

  lemma ShotLabels()
    ensures Labels(ShotRows) == Headers
  {
  }

  /** `process_data` on the shot, for any `float` that reads its samples. */
  lemma ShotFileProcesses(float: Converter)
    requires ReadsShotSamples(float)
    ensures ProcessDataSpec(ShotLines(), float) == Success(Table(Headers, ShotSamples))
  {
    ShotRowsAreDataRows();
    ShotSamplesConvert(float);
    ShotLabels();
    FormattedShotProcesses(ShotRows, ShotSamples, float);
  }

  /** The labels are the seven channel names and the values are the samples as written. */
  lemma ShotFileParses()
    ensures ProcessDataSpec(ShotLines(), ParseFloat) == Success(Table(Headers, ShotSamples))
  {
    ParseFloatReadsShotSamples();
    ShotFileProcesses(ParseFloat);
  }

  /** The same file with the line `{unknown_channel 1 2 3}` appended. */
  function ShotWithUnknownChannel(): seq<string> {
    ShotLines() + [FormatLine("unknown_channel", ["1", "2", "3"])]
  }

  lemma UnknownChannelLineHasNoRow()
    ensures LineRow(FormatLine("unknown_channel", ["1", "2", "3"])) == None
  {
    var fields := ["1", "2", "3"];
    WordIsToken("unknown_channel");
    assert forall k :: 0 <= k < |fields| ==> IsWord(fields[k]);
    forall k | 0 <= k < |fields|
      ensures IsToken(fields[k]) && '{' !in fields[k] && '}' !in fields[k]
    {
      WordIsToken(fields[k]);
    }
    UnknownChannelIsDropped("unknown_channel", fields);
  }

  /** The unknown channel's line is dropped: the result is that of the file without it. */
  lemma UnknownChannelLineIsSkipped(float: Converter)
    ensures ProcessDataSpec(ShotWithUnknownChannel(), float) == ProcessDataSpec(ShotLines(), float)
  {
    var line := FormatLine("unknown_channel", ["1", "2", "3"]);
    UnknownChannelLineHasNoRow();
    KeptRowsAppend(ShotLines(), [line]);
    KeptRowsSingle(line);
    assert KeptRows(ShotWithUnknownChannel()) == KeptRows(ShotLines());
  }

  /** The shot with its pressure line written `{espresso_pressure 0.0 abc 6.0}`. */
  const BadRows: seq<seq<string>> := ShotRows[1 := ["espresso_pressure", "0.0", "abc", "6.0"]]

  lemma BadRowsAreDataRows()
    ensures forall k :: 0 <= k < |BadRows| ==> |BadRows[k]| > 0 && IsDataRow(BadRows[k])
  {
    ShotRowsAreDataRows();
    WordsMakeDataRow(BadRows[1]);
  }

  lemma BadRowFails(float: Converter)
    requires float("0.0").Some? && float("abc") == None
    ensures ConvertRow(BadRows[1][1..], float) == Failure("abc")
  {
    var tokens := BadRows[1][1..];
    assert tokens == ["0.0", "abc", "6.0"];
    assert tokens[1..] == ["abc", "6.0"];
  }

  lemma OtherRowsConvert(float: Converter)
    requires ReadsShotSamples(float)
    ensures forall k :: 0 <= k < |BadRows| && k != 1 ==> ConvertRow(BadRows[k][1..], float).Success?
  {
    ShotSamplesConvert(float);
    forall k | 0 <= k < |BadRows| && k != 1
      ensures ConvertRow(BadRows[k][1..], float).Success?
    {
      assert BadRows[k] == ShotRows[k];
      ConvertRowOf(ShotRows[k][1..], ShotSamples[k], float);
    }
  }

  /** `process_data` on that file raises on `abc`, for any `float` that rejects it. */
  lemma BadTokenFailsWith(float: Converter)
    requires ReadsShotSamples(float) && float("abc") == None
    ensures ProcessDataSpec(FormatRows(BadRows), float) == Failure(NotANumber("abc"))
  {
    BadRowsAreDataRows();
    FormattedShotRoundTrip(BadRows);
    BadRowFails(float);
    OtherRowsConvert(float);
    ConvertRowsSucceedsIff(BadRows, float);
    var r := ConvertRows(BadRows, float);
    assert r.Failure?;
    ConvertRowsFailure(BadRows, float);
    var k :| 0 <= k < |BadRows| && ConvertRow(BadRows[k][1..], float) == Failure(r.error);
    assert k == 1;
  }

  lemma ParseFloatRejectsAbc()
    ensures ParseFloat("abc") == None
  {
  }

  /** The non-numeric token aborts the whole call with the error naming it. */
  lemma BadTokenFails()
    ensures ProcessDataSpec(FormatRows(BadRows), ParseFloat) == Failure(NotANumber("abc"))
  {
    ParseFloatReadsShotSamples();
    ParseFloatRejectsAbc();
    BadTokenFailsWith(ParseFloat);
  }

  /** The samples after `data_plot` has scaled the weight and both temperatures down by 10. */
  const ScaledShot: seq<seq<real>> := [
    [0.0, 1.0, 2.0],
    [0.0, 3.0, 6.0],
    [0.0, 0.1, 0.2],
    [0.0, 0.5, 1.0],
    [0.0, 0.2, 0.4],
    [90.0, 90.1, 90.2],
    [93.0, 93.1, 93.2]
  ]

  lemma ShotScaling()
    ensures DataPlotRun(ShotSamples).rows == ScaledShot
  {
    ScalingOfCompleteShot(ShotSamples);
    var after := DataPlotRun(ShotSamples).rows;
    forall k | 0 <= k < 7
      ensures after[k] == ScaledShot[k]
    {
      assert |after[k]| == 3;
    }
  }

  lemma ShotMaxima()
    ensures SeqMax([0.0, 3.0, 6.0]) == 6.0 && SeqMax([0.0, 0.5, 1.0]) == 1.0 && SeqMax([0.0, 0.2, 0.4]) == 0.4
  {
  }

  /** The plotting loop over any rows whose time, pressure, flow and flow-weight rows are the shot's. */
  lemma ShotPlotLoop(rows: seq<seq<real>>)
    requires |rows| >= 5 && rows[0] == [0.0, 1.0, 2.0] && rows[1] == [0.0, 3.0, 6.0]
    requires rows[3] == [0.0, 0.5, 1.0] && rows[4] == [0.0, 0.2, 0.4]
    ensures PlotChannels(rows, PlottedChannels) == Progress([
      Series(1, [0.0, 1.0, 2.0], [0.0, 3.0, 6.0]),
      Series(3, [0.0, 1.0, 2.0], [0.0, 0.5, 1.0]),
      Series(4, [0.0, 1.0, 2.0], [0.0, 0.2, 0.4])
    ], Success(6.0))
  {
    PlotLoopUnrolled(rows);
    assert rows[0][..3] == rows[0] && rows[1][..3] == rows[1];
    assert rows[3][..3] == rows[3] && rows[4][..3] == rows[4];
    ShotMaxima();
  }

  /**
   * The plot of the shot: pressure unchanged, then flow and flow weight,
   * each against the elapsed time, and a y top of `ceil(6.0) = 6`.
   */
  lemma ShotPlot()
    ensures DataPlotRun(ShotSamples) == Run(ScaledShot, [
      Series(1, [0.0, 1.0, 2.0], [0.0, 3.0, 6.0]),
      Series(3, [0.0, 1.0, 2.0], [0.0, 0.5, 1.0]),
      Series(4, [0.0, 1.0, 2.0], [0.0, 0.2, 0.4])
    ], Success(6))
  {
    ShotScaling();
    ShotPlotLoop(ScaledShot);
    assert Ceil(6.0) == 6;
  }

}
