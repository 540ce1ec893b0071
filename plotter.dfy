/**
 * The array work of `data_plot` in shotz_plotz.py: divide three rows of
 * `values` by 10 in place (the last two, addressed with Python's negative
 * indices, and row 2), then plot the pressure, flow and flow-weight rows
 * against the elapsed-time row, each cut to the shorter of the two, and
 * set the y axis to the ceiling of the largest value plotted.
 *
 * matplotlib is replaced by `Figure`, which records what is plotted and
 * the y range last set.  Python's exceptions are the `PlotError` results;
 * what was changed or plotted before one is raised stays changed or
 * plotted, as it does in Python.
 */
module Plotter {
  import opened Wrappers

  /** `IndexError` from `values[i]`, or `ValueError` from `max` of an empty list. */
  datatype PlotError = IndexOutOfRange | MaxOfEmpty

  /** One `plt.plot(x, y, color = colors[channel])` call. */
  datatype Series = Series(channel: nat, x: seq<real>, y: seq<real>)

  /** One `plt.ylim(bottom, top)` call. */
  datatype YRange = YRange(bottom: int, top: int)

  /** The shared matplotlib figure, reduced to what is drawn on it. */
  class Figure {
    var series: seq<Series>
    var yLimit: Option<YRange>

    constructor ()
      ensures series == [] && yLimit == None
    {
      series := [];
      yLimit := None;
    }

    /** `plt.plot`: adds one line to the figure. */
    method Plot(s: Series)
      modifies this
      ensures series == old(series) + [s] && yLimit == old(yLimit)
    {
      series := series + [s];
    }

    /** `plt.ylim`: replaces the y range, whatever an earlier call set. */
    method SetYLim(bottom: int, top: int)
      modifies this
      ensures yLimit == Some(YRange(bottom, top)) && series == old(series)
    {
      yLimit := Some(YRange(bottom, top));
    }
  }

  /** The `values` list of lists that `data_plot` receives and changes in place. */
  class ShotValues {
    var rows: seq<seq<real>>

    constructor (rows: seq<seq<real>>)
      ensures this.rows == rows
    {
      this.rows := rows;
    }
  }

  /** The rows `data_plot` plots against row 0, in order: pressure, flow, flow weight. */
  const PlottedChannels: seq<nat> := [1, 3, 4]

  /**
   * The element `values[i]` names in a list of length `n`: negative
   * indices count from the end; anything outside `-n .. n - 1` raises.
   */
  function PyIndex(n: nat, i: int): (k: Option<nat>)
    ensures k.Some? <==> -(n as int) <= i < n
    ensures k.Some? ==> k.value < n && (k.value == i || k.value == n + i)
  {
    if 0 <= i < n then Some(i)
    else if -(n as int) <= i < 0 then Some(n + i)
    else None
  }

  function Min(a: int, b: int): int {
    if a <= b then a else b
  }

  function Max(a: real, b: real): real {
    if a >= b then a else b
  }

  /** Python's `max` of a non-empty list: an element no other element exceeds. */
  function SeqMax(s: seq<real>): (m: real)
    requires |s| > 0
    ensures m in s
    ensures forall k :: 0 <= k < |s| ==> s[k] <= m
  {
    if |s| == 1 then s[0] else Max(s[0], SeqMax(s[1..]))
  }

  /** `math.ceil`: the least integer not below `x`. */
  function Ceil(x: real): (c: int)
    ensures x <= c as real < x + 1.0
  {
    -((-x).Floor)
  }

  /** A row after `for c in range(len(row)): row[c] /= 10`. */
  function Scaled(row: seq<real>): (r: seq<real>)
    ensures |r| == |row| && forall c :: 0 <= c < |row| ==> r[c] * 10.0 == row[c]
  {
    seq(|row|, c requires 0 <= c < |row| => row[c] / 10.0)
  }

  /** The rows after dividing `values[i]` by 10, or None when `values[i]` raises. */
  function DivideRow(rows: seq<seq<real>>, i: int): (r: Option<seq<seq<real>>>)
    ensures r.Some? <==> -|rows| <= i < |rows|
    ensures r.Some? ==> |r.value| == |rows| && forall k :: 0 <= k < |rows| ==>
      r.value[k] == if k == i || k == |rows| + i then Scaled(rows[k]) else rows[k]
  {
    match PyIndex(|rows|, i)
    case None => None
    case Some(k) => Some(rows[k := Scaled(rows[k])])
  }

  /** What the plotting loop has drawn so far, and the running `vmax` or the error that ended it. */
  datatype Progress = Progress(plotted: seq<Series>, vmax: Result<real, PlotError>)

  /** The plotting loop run over the channels `chans`, starting from `vmax = 0`. */
  function PlotChannels(rows: seq<seq<real>>, chans: seq<nat>): (p: Progress)
    requires |rows| > 0
    ensures |p.plotted| <= |chans|
    ensures p.vmax.Success? ==> |p.plotted| == |chans| && p.vmax.value >= 0.0
  {
    if chans == [] then Progress([], Success(0.0))
    else
      var before := PlotChannels(rows, chans[..|chans| - 1]);
      var i := chans[|chans| - 1];
      if before.vmax.Failure? then before
      else if i >= |rows| then Progress(before.plotted, Failure(IndexOutOfRange))
      else
        var vlen := Min(|rows[0]|, |rows[i]|);
        var plotted := before.plotted + [Series(i, rows[0][..vlen], rows[i][..vlen])];
        if vlen == 0 then Progress(plotted, Failure(MaxOfEmpty))
        else Progress(plotted, Success(Max(before.vmax.value, SeqMax(rows[i][..vlen]))))
  }

  /** The rows after lines 67-71 and whether all three divisions got through without `IndexError`. */
  datatype Scaling = Scaling(rows: seq<seq<real>>, ok: bool)

  function ScaleRows(rows: seq<seq<real>>): (r: Scaling)
    ensures r.ok <==> |rows| >= 3
    ensures |r.rows| == |rows| && forall k :: 0 <= k < |rows| ==> |r.rows[k]| == |rows[k]|
  {
    match DivideRow(rows, -1)
    case None => Scaling(rows, false)
    case Some(r1) =>
      match DivideRow(r1, -2)
      case None => Scaling(r1, false)
      case Some(r2) =>
        match DivideRow(r2, 2)
        case None => Scaling(r2, false)
        case Some(r3) => Scaling(r3, true)
  }

  /** Everything one `data_plot` call does: the rows it leaves, what it plots, and the y top it sets or the error it raises. */
  datatype Run = Run(rows: seq<seq<real>>, plotted: seq<Series>, outcome: Result<int, PlotError>)

  function DataPlotRun(rows: seq<seq<real>>): (r: Run)
    ensures |r.rows| == |rows| && forall k :: 0 <= k < |rows| ==> |r.rows[k]| == |rows[k]|
    ensures |r.plotted| <= |PlottedChannels|
    ensures r.outcome.Success? ==> |r.plotted| == |PlottedChannels| && r.outcome.value >= 0
  {
    var scaling := ScaleRows(rows);
    if !scaling.ok then Run(scaling.rows, [], Failure(IndexOutOfRange))
    else
      var p := PlotChannels(scaling.rows, PlottedChannels);
      Run(scaling.rows, p.plotted, match p.vmax case Failure(e) => Failure(e) case Success(m) => Success(Ceil(m)))
  }

  /** `for c in range(len(values[i])): values[i][c] /= 10`, or False where `values[i]` raises. */
  method DivideRowBy10(values: ShotValues, i: int) returns (ok: bool)
    modifies values
    ensures ok == DivideRow(old(values.rows), i).Some?
    ensures values.rows == if ok then DivideRow(old(values.rows), i).value else old(values.rows)
  {
    var n := |values.rows|;
    if !(-n <= i < n) {
      return false;
    }
    var k := if i < 0 then n + i else i;
    var len := |values.rows[k]|;
    for c := 0 to len
      invariant |values.rows| == n && |values.rows[k]| == len
      invariant forall j :: 0 <= j < n && j != k ==> values.rows[j] == old(values.rows)[j]
      invariant forall d :: 0 <= d < c ==> values.rows[k][d] == old(values.rows)[k][d] / 10.0
      invariant forall d :: c <= d < len ==> values.rows[k][d] == old(values.rows)[k][d]
    {
      values.rows := values.rows[k := values.rows[k][c := values.rows[k][c] / 10.0]];
    }
    assert values.rows[k] == Scaled(old(values.rows)[k]);
    return true;
  }

  /** Once the plotting loop has failed on a prefix of the channels, the rest of them change nothing. */
  lemma {:induction false} PlotFailurePersists(rows: seq<seq<real>>, chans: seq<nat>, n: nat)
    requires |rows| > 0 && n <= |chans| && PlotChannels(rows, chans[..n]).vmax.Failure?
    ensures PlotChannels(rows, chans) == PlotChannels(rows, chans[..n])
    decreases |chans| - n
  {
    if n < |chans| {
      assert chans[..n + 1][..n] == chans[..n];
      PlotFailurePersists(rows, chans, n + 1);
    } else {
      assert chans[..n] == chans;
    }
  }

  /** Lines 67-71 of `data_plot`: divide `values[-1]`, `values[-2]` and `values[2]` by 10, stopping where an index raises. */
  method ScaleTemperaturesAndWeight(values: ShotValues) returns (ok: bool)
    modifies values
    ensures values.rows == ScaleRows(old(values.rows)).rows
    ensures ok == ScaleRows(old(values.rows)).ok
  {
    ok := DivideRowBy10(values, -1);
    if ok {
      ok := DivideRowBy10(values, -2);
      if ok {
        ok := DivideRowBy10(values, 2);
      }
    }
  }

  /** Lines 80-86 of `data_plot`: plot channels 1, 3 and 4 against row 0 and set the y range. */
  method PlotPressureAndFlows(values: ShotValues, fig: Figure) returns (outcome: Result<real, PlotError>)
    requires |values.rows| > 0
    modifies fig
    ensures fig.series == old(fig.series) + PlotChannels(values.rows, PlottedChannels).plotted
    ensures outcome == PlotChannels(values.rows, PlottedChannels).vmax
    ensures fig.yLimit == if outcome.Success? then Some(YRange(0, Ceil(outcome.value))) else old(fig.yLimit)
  {
    var vmax, tlen := 0.0, |values.rows[0]|;
    for j := 0 to |PlottedChannels|
      invariant fig.series == old(fig.series) + PlotChannels(values.rows, PlottedChannels[..j]).plotted
      invariant PlotChannels(values.rows, PlottedChannels[..j]).vmax == Success(vmax)
      invariant fig.yLimit == old(fig.yLimit)
    {
      assert PlottedChannels[..j + 1][..j] == PlottedChannels[..j];
      var i := PlottedChannels[j];
      if i >= |values.rows| {
        PlotFailurePersists(values.rows, PlottedChannels, j + 1);
        return Failure(IndexOutOfRange);
      }
      var vlen := Min(tlen, |values.rows[i]|);
      fig.Plot(Series(i, values.rows[0][..vlen], values.rows[i][..vlen]));
      if vlen == 0 {
        PlotFailurePersists(values.rows, PlottedChannels, j + 1);
        return Failure(MaxOfEmpty);
      }
      vmax := Max(vmax, SeqMax(values.rows[i][..vlen]));
    }
    assert PlottedChannels[..|PlottedChannels|] == PlottedChannels;
    fig.SetYLim(0, Ceil(vmax));
    return Success(vmax);
  }

  /** `data_plot(labels, values)`, with the figure passed in. */
  method DataPlot(values: ShotValues, fig: Figure) returns (outcome: Result<int, PlotError>)
    modifies values, fig
    ensures values.rows == DataPlotRun(old(values.rows)).rows
    ensures fig.series == old(fig.series) + DataPlotRun(old(values.rows)).plotted
    ensures outcome == DataPlotRun(old(values.rows)).outcome
    ensures fig.yLimit == if outcome.Success? then Some(YRange(0, outcome.value)) else old(fig.yLimit)
  {
    var ok := ScaleTemperaturesAndWeight(values);
    if !ok {
      return Failure(IndexOutOfRange);
    }
    var vmax := PlotPressureAndFlows(values, fig);
    match vmax
    case Failure(e) => outcome := Failure(e);
    case Success(m) => outcome := Success(Ceil(m));
  }

  /**
   * With at least five rows, `values[-1]`, `values[-2]` and `values[2]`
   * are three different rows: each of them is divided by 10 exactly once,
   * every other row is left alone, and no row changes length.
   */
  lemma ScalingOfCompleteShot(rows: seq<seq<real>>)
    requires |rows| >= 5
    ensures var after := DataPlotRun(rows).rows;
      && |after| == |rows|
      && (forall k :: 0 <= k < |rows| ==> |after[k]| == |rows[k]|)
      && (forall k :: 0 <= k < |rows| && k != 2 && k != |rows| - 2 && k != |rows| - 1 ==> after[k] == rows[k])
      && (forall k, c :: (k == 2 || k == |rows| - 2 || k == |rows| - 1) && 0 <= c < |rows[k]| ==>
            after[k][c] == rows[k][c] / 10.0)
  {
    var n := |rows|;
    var r1 := rows[n - 1 := Scaled(rows[n - 1])];
    var r2 := r1[n - 2 := Scaled(r1[n - 2])];
    var r3 := r2[2 := Scaled(r2[2])];
    assert DataPlotRun(rows).rows == r3;
  }

  /**
   * With three or four rows, `values[2]` is also `values[-1]` or
   * `values[-2]`, so that row is divided by 100 before the plotting loop
   * raises on `values[3]` or `values[4]`.
   */
  lemma ShortShotDividesRowTwoTwice(rows: seq<seq<real>>)
    requires |rows| == 3 || |rows| == 4
    ensures DataPlotRun(rows).outcome.Failure?
    ensures DataPlotRun(rows).rows[2] == Scaled(Scaled(rows[2]))
  {
    var n := |rows|;
    var r1 := rows[n - 1 := Scaled(rows[n - 1])];
    var r2 := r1[n - 2 := Scaled(r1[n - 2])];
    var r3 := r2[2 := Scaled(r2[2])];
    assert DataPlotRun(rows).rows == r3;
    var p := PlotChannels(r3, PlottedChannels);
    assert PlottedChannels[..2] == [1, 3] && [1, 3][..1] == [1] && [1][..0] == [];
    assert PlottedChannels[..|PlottedChannels| - 1] == [1, 3];
    if n == 3 {
      assert PlotChannels(r3, [1, 3]).vmax.Failure?;
    } else {
      assert PlotChannels(r3, PlottedChannels).vmax.Failure?;
    }
  }

  /** With fewer than three rows the scaling raises before anything is plotted. */
  lemma TinyShotPlotsNothing(rows: seq<seq<real>>)
    requires |rows| < 3
    ensures DataPlotRun(rows) == Run(DataPlotRun(rows).rows, [], Failure(IndexOutOfRange))
  {
  }

  /** The plotting loop over `[1, 3, 4]` written out, for a shot with at least five rows. */
  lemma PlotLoopUnrolled(rows: seq<seq<real>>)
    requires |rows| >= 5
    ensures var t := |rows[0]|;
      var v1, v3, v4 := Min(t, |rows[1]|), Min(t, |rows[3]|), Min(t, |rows[4]|);
      var s1 := Series(1, rows[0][..v1], rows[1][..v1]);
      var s3 := Series(3, rows[0][..v3], rows[3][..v3]);
      var s4 := Series(4, rows[0][..v4], rows[4][..v4]);
      PlotChannels(rows, PlottedChannels) ==
        if v1 == 0 then Progress([s1], Failure(MaxOfEmpty))
        else if v3 == 0 then Progress([s1, s3], Failure(MaxOfEmpty))
        else if v4 == 0 then Progress([s1, s3, s4], Failure(MaxOfEmpty))
        else Progress([s1, s3, s4], Success(Max(Max(Max(0.0, SeqMax(s1.y)), SeqMax(s3.y)), SeqMax(s4.y))))
  {
    assert PlottedChannels[..2] == [1, 3] && [1, 3][..1] == [1] && [1][..0] == [];
    assert PlotChannels(rows, []) == Progress([], Success(0.0));
    var afterPressure := PlotChannels(rows, [1]);
    var afterFlow := PlotChannels(rows, [1, 3]);
  }

  /**
   * `data_plot` returns normally exactly when there are at least five
   * rows and the time, pressure, flow and flow-weight rows are non-empty
   * (scaling never changes a row's length).
   */
  lemma DataPlotSucceedsIff(rows: seq<seq<real>>)
    ensures DataPlotRun(rows).outcome.Success? <==>
      |rows| >= 5 && |rows[0]| > 0 && |rows[1]| > 0 && |rows[3]| > 0 && |rows[4]| > 0
  {
    if |rows| >= 5 {
      ScalingOfCompleteShot(rows);
      PlotLoopUnrolled(DataPlotRun(rows).rows);
    } else if |rows| >= 3 {
      ShortShotDividesRowTwoTwice(rows);
    }
  }

  /**
   * Every plotted line pairs a prefix of row 0 with the prefix of its
   * channel's row of the same length, `min(len(row 0), len(channel row))`.
   */
  lemma {:induction false} PlottedSeriesAreAligned(rows: seq<seq<real>>, chans: seq<nat>)
    requires |rows| > 0
    ensures forall s :: s in PlotChannels(rows, chans).plotted ==>
      && s.channel in chans && s.channel < |rows|
      && |s.x| == |s.y| == Min(|rows[0]|, |rows[s.channel]|)
      && s.x == rows[0][..|s.x|] && s.y == rows[s.channel][..|s.y|]
    decreases |chans|
  {
    if chans != [] {
      var init := chans[..|chans| - 1];
      PlottedSeriesAreAligned(rows, init);
      assert forall c :: c in init ==> c in chans;
    }
  }

  /**
   * The running maximum is never negative, no plotted value exceeds it,
   * and it is either the starting 0 or one of the plotted values.
   */
  lemma {:induction false} RunningMaxBounds(rows: seq<seq<real>>, chans: seq<nat>)
    requires |rows| > 0 && PlotChannels(rows, chans).vmax.Success?
    ensures var p := PlotChannels(rows, chans);
      && p.vmax.value >= 0.0
      && (forall s, c :: s in p.plotted && 0 <= c < |s.y| ==> s.y[c] <= p.vmax.value)
      && (p.vmax.value == 0.0 || exists s, c :: s in p.plotted && 0 <= c < |s.y| && s.y[c] == p.vmax.value)
    decreases |chans|
  {
    if chans != [] {
      var init := chans[..|chans| - 1];
      var before := PlotChannels(rows, init);
      RunningMaxBounds(rows, init);
      var i := chans[|chans| - 1];
      var vlen := Min(|rows[0]|, |rows[i]|);
      var s := Series(i, rows[0][..vlen], rows[i][..vlen]);
      var m := SeqMax(s.y);
      var p := PlotChannels(rows, chans);
      assert p.plotted == before.plotted + [s];
      assert s in p.plotted;
      if p.vmax.value != 0.0 && p.vmax.value == m {
        var c :| 0 <= c < |s.y| && s.y[c] == m;
      }
    }
  }

  /**
   * The y top `data_plot` sets is the least non-negative integer that no
   * plotted value exceeds: `ceil(vmax)` with `vmax = max(0, every plotted y)`.
   */
  lemma YLimitCoversPlot(rows: seq<seq<real>>)
    requires DataPlotRun(rows).outcome.Success?
    ensures var run := DataPlotRun(rows); var top := run.outcome.value;
      && top >= 0
      && (forall s, c :: s in run.plotted && 0 <= c < |s.y| ==> s.y[c] <= top as real)
      && (top == 0 || exists s, c :: s in run.plotted && 0 <= c < |s.y| && s.y[c] > (top - 1) as real)
  {
    DataPlotSucceedsIff(rows);
    var scaled := DataPlotRun(rows).rows;
    assert |scaled| == |rows| by {
      ScalingOfCompleteShot(rows);
    }
    RunningMaxBounds(scaled, PlottedChannels);
  }

  /**
   * For a complete shot the three lines plotted are pressure, flow and
   * flow weight, in that order, each cut to the length of the shorter of
   * it and the time row.
   */
  lemma CompleteShotPlotsThreeChannels(rows: seq<seq<real>>)
    requires DataPlotRun(rows).outcome.Success?
    ensures var run := DataPlotRun(rows);
      && |run.plotted| == 3
      && run.plotted[0].channel == 1 && run.plotted[1].channel == 3 && run.plotted[2].channel == 4
      && forall k :: 0 <= k < 3 ==>
           |run.plotted[k].x| == |run.plotted[k].y| == Min(|rows[0]|, |rows[run.plotted[k].channel]|)
           && run.plotted[k].x == run.rows[0][..|run.plotted[k].x|]
           && run.plotted[k].y == run.rows[run.plotted[k].channel][..|run.plotted[k].y|]
  {
    DataPlotSucceedsIff(rows);
    ScalingOfCompleteShot(rows);
    var scaled := DataPlotRun(rows).rows;
    PlotLoopUnrolled(scaled);
    PlottedSeriesAreAligned(scaled, PlottedChannels);
    var p := DataPlotRun(rows).plotted;
    assert p[0] in p && p[1] in p && p[2] in p;
  }

}
