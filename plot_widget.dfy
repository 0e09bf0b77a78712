/** `PlotWidget`: which traces are drawn, in which projection, with which
    x-window, and how a picked point is looked up again in the dataset. */
module PlotView {
  import opened Wrappers
  import opened Dataset
  import opened ViewConfig

  /** A line on the axes: its legend label (the trace name) and its x and y data. */
  datatype Line = Line(param: string, xdata: seq<real>, ydata: seq<real>)

  /** What the annotation box shows: nothing yet, or a looked-up point
      (with the complex value only on the Smith chart). */
  datatype AnnotationText = Empty | PointText(param: string, point: NearestPoint, showsComplex: bool)

  /** The single annotation of the axes. */
  datatype Annotation = Annotation(xy: (real, real), text: AnnotationText, visible: bool)

  /** A pick event: the picked line and the indices of the picked points. */
  datatype PickEvent = PickEvent(artist: Line, ind: seq<nat>)

  // ---------------------------------------------------------------------------
  // Which traces are drawn
  // ---------------------------------------------------------------------------

  /** The names kept by the visibility test, in their original order. */
  function DrawnNames(names: seq<string>, visible: set<string>): seq<string> {
    if names == [] then []
    else
      var last := names[|names| - 1];
      DrawnNames(names[..|names| - 1], visible) + (if TraceDrawn(visible, last) then [last] else [])
  }

  lemma {:induction false} DrawnNamesAppend(a: seq<string>, b: seq<string>, visible: set<string>)
    ensures DrawnNames(a + b, visible) == DrawnNames(a, visible) + DrawnNames(b, visible)
    decreases |b|
  {
    if b != [] {
      assert (a + b)[..|a + b| - 1] == a + b[..|b| - 1];
      DrawnNamesAppend(a, b[..|b| - 1], visible);
    } else {
      assert a + b == a;
    }
  }

  lemma DrawnNamesStep(names: seq<string>, i: nat, visible: set<string>)
    requires i < |names|
    ensures DrawnNames(names[..i + 1], visible)
            == DrawnNames(names[..i], visible) + (if TraceDrawn(visible, names[i]) then [names[i]] else [])
  {
    assert names[..i + 1][..i] == names[..i];
  }

  lemma DrawnNamesSkip(names: seq<string>, i: nat, visible: set<string>)
    requires i < |names| && !TraceDrawn(visible, names[i])
    ensures DrawnNames(names[..i + 1], visible) == DrawnNames(names[..i], visible)
  {
    DrawnNamesStep(names, i, visible);
    assert DrawnNames(names[..i], visible) + [] == DrawnNames(names[..i], visible);
  }

  /** A name is drawn iff it is a trace name and the visibility rule keeps it. */
  lemma {:induction false} DrawnNamesMembers(names: seq<string>, visible: set<string>, x: string)
    ensures x in DrawnNames(names, visible) <==> x in names && TraceDrawn(visible, x)
    decreases |names|
  {
    if names != [] {
      var init := names[..|names| - 1];
      DrawnNamesMembers(init, visible, x);
      assert names == init + [names[|names| - 1]];
    }
  }

  /** An empty visible set, or one holding every name, draws all traces in order. */
  lemma {:induction false} AllDrawn(names: seq<string>, visible: set<string>)
    requires visible == {} || forall p :: p in names ==> p in visible
    ensures DrawnNames(names, visible) == names
    decreases |names|
  {
    if names != [] {
      var init := names[..|names| - 1];
      AllDrawn(init, visible);
      assert names == init + [names[|names| - 1]];
    }
  }

  // ---------------------------------------------------------------------------
  // The lines of each projection
  // ---------------------------------------------------------------------------

  function Re(s: seq<Complex>): seq<real> {
    seq(|s|, k requires 0 <= k < |s| => s[k].re)
  }

  function Im(s: seq<Complex>): seq<real> {
    seq(|s|, k requires 0 <= k < |s| => s[k].im)
  }

  /** The line one trace contributes: frequency against dB or degrees, or the
      real part against the imaginary part on the Smith chart. All three use
      the full, unfiltered series. */
  function TraceLine(ds: SParameterDataset, num: Numerics, kind: PlotType, name: string)
    : (r: Result<Line, ValueError>)
    requires WellShaped(ds.network)
    ensures r.Ok? <==> GetIndices(ds.PortCount(), name).Ok?
    ensures r.Err? ==> r.error == GetIndices(ds.PortCount(), name).error
    ensures r.Ok? ==> r.value.param == name && Fits(r.value, ds)
  {
    match GetComplexData(ds, name)
    case Err(e) => Err(e)
    case Ok((freq, s)) =>
      match kind
      case MagnitudeDb => Ok(Line(name, freq, MagnitudeDbSeries(num, s)))
      case PhaseDeg => Ok(Line(name, freq, PhaseDegSeries(num, s)))
      case Smith => Ok(Line(name, Re(s), Im(s)))
  }

  /** What a trace's line holds: on magnitude and phase the frequency vector
      against the dB or degree series, on the Smith chart the real against the
      imaginary part of every sample. */
  lemma TraceLineData(ds: SParameterDataset, num: Numerics, kind: PlotType, name: string)
    requires WellShaped(ds.network) && GetIndices(ds.PortCount(), name).Ok?
    ensures var line := TraceLine(ds, num, kind, name).value;
            var series := GetComplexData(ds, name).value.1;
            (kind != Smith ==> line.xdata == ds.Frequencies()) &&
            (kind == MagnitudeDb ==> line.ydata == MagnitudeDbSeries(num, series)) &&
            (kind == PhaseDeg ==> line.ydata == PhaseDegSeries(num, series)) &&
            (kind == Smith ==> forall k :: 0 <= k < |series| ==>
               line.xdata[k] == series[k].re && line.ydata[k] == series[k].im)
  {
  }

  /** The lines of the given names, in order; the first name that does not
      parse aborts the drawing with its error. */
  function TraceLines(ds: SParameterDataset, num: Numerics, kind: PlotType, names: seq<string>)
    : (r: Result<seq<Line>, ValueError>)
    requires WellShaped(ds.network)
    ensures r.Ok? ==> |r.value| == |names|
    decreases |names|
  {
    if names == [] then Ok([])
    else
      var init := names[..|names| - 1];
      match TraceLines(ds, num, kind, init)
      case Err(e) => Err(e)
      case Ok(prefix) =>
        match TraceLine(ds, num, kind, names[|names| - 1])
        case Err(e) => Err(e)
        case Ok(line) => Ok(prefix + [line])
  }

  /** The lines succeed iff every name parses, and line i is the line of name i. */
  lemma {:induction false} TraceLinesSpec(ds: SParameterDataset, num: Numerics, kind: PlotType, names: seq<string>)
    requires WellShaped(ds.network)
    ensures TraceLines(ds, num, kind, names).Ok?
            <==> forall i :: 0 <= i < |names| ==> GetIndices(ds.PortCount(), names[i]).Ok?
    ensures TraceLines(ds, num, kind, names).Ok? ==>
              forall i :: 0 <= i < |names| ==>
                TraceLines(ds, num, kind, names).value[i] == TraceLine(ds, num, kind, names[i]).value
    decreases |names|
  {
    if names != [] {
      var init := names[..|names| - 1];
      TraceLinesSpec(ds, num, kind, init);
      assert forall i :: 0 <= i < |init| ==> init[i] == names[i];
    }
  }

  lemma TraceLinesStep(ds: SParameterDataset, num: Numerics, kind: PlotType, names: seq<string>, x: string)
    requires WellShaped(ds.network) && TraceLines(ds, num, kind, names).Ok?
    requires TraceLine(ds, num, kind, x).Ok?
    ensures TraceLines(ds, num, kind, names + [x])
            == Ok(TraceLines(ds, num, kind, names).value + [TraceLine(ds, num, kind, x).value])
  {
    assert (names + [x])[..|names|] == names;
  }

  lemma TraceLinesFailsAtEnd(ds: SParameterDataset, num: Numerics, kind: PlotType, names: seq<string>, x: string)
    requires WellShaped(ds.network) && TraceLines(ds, num, kind, names).Ok?
    requires GetIndices(ds.PortCount(), x).Err?
    ensures TraceLines(ds, num, kind, names + [x]) == Err(GetIndices(ds.PortCount(), x).error)
  {
    assert (names + [x])[..|names|] == names;
  }

  lemma {:induction false} TraceLinesErrExtends(ds: SParameterDataset, num: Numerics, kind: PlotType,
                                                a: seq<string>, b: seq<string>)
    requires WellShaped(ds.network) && TraceLines(ds, num, kind, a).Err?
    ensures TraceLines(ds, num, kind, a + b) == TraceLines(ds, num, kind, a)
    decreases |b|
  {
    if b == [] {
      assert a + b == a;
    } else {
      assert (a + b)[..|a + b| - 1] == a + b[..|b| - 1];
      TraceLinesErrExtends(ds, num, kind, a, b[..|b| - 1]);
    }
  }

  /** What `refresh_plot` draws for the current configuration. */
  function Plot(ds: SParameterDataset, num: Numerics, kind: PlotType, visible: set<string>)
    : Result<seq<Line>, ValueError>
    requires WellShaped(ds.network)
  {
    TraceLines(ds, num, kind, DrawnNames(ParameterNamesOf(ds.PortCount()), visible))
  }

  /** The x-window `set_xlim` receives: only for frequency axes, only when active. */
  function XLimit(kind: PlotType, freqMin: real, freqMax: real): (r: Option<(real, real)>)
    ensures r.Some? <==> kind != Smith && freqMin > 0.0 && freqMax > freqMin
    ensures r.Some? ==> r.value == (freqMin, freqMax)
  {
    if kind != Smith && WindowActive(freqMin, freqMax) then Some((freqMin, freqMax)) else None
  }

  /** Drawn lines follow the visibility rule and the order of `parameter_names`. */
  lemma PlotLabels(ds: SParameterDataset, num: Numerics, kind: PlotType, visible: set<string>, i: nat)
    requires WellShaped(ds.network) && Plot(ds, num, kind, visible).Ok?
    requires i < |Plot(ds, num, kind, visible).value|
    ensures var drawn := DrawnNames(ParameterNamesOf(ds.PortCount()), visible);
            |Plot(ds, num, kind, visible).value| == |drawn| &&
            Plot(ds, num, kind, visible).value[i].param == drawn[i] &&
            drawn[i] in ParameterNamesOf(ds.PortCount()) && TraceDrawn(visible, drawn[i])
  {
    var drawn := DrawnNames(ParameterNamesOf(ds.PortCount()), visible);
    TraceLinesSpec(ds, num, kind, drawn);
    DrawnNamesMembers(ParameterNamesOf(ds.PortCount()), visible, drawn[i]);
  }

  /** Up to nine ports every drawn trace name parses, so drawing never fails. */
  lemma PlotSucceedsUpToNinePorts(ds: SParameterDataset, num: Numerics, kind: PlotType, visible: set<string>)
    requires WellShaped(ds.network) && ds.PortCount() <= 9
    ensures Plot(ds, num, kind, visible).Ok?
  {
    var names := ParameterNamesOf(ds.PortCount());
    var drawn := DrawnNames(names, visible);
    forall i | 0 <= i < |drawn|
      ensures GetIndices(ds.PortCount(), drawn[i]).Ok?
    {
      DrawnNamesMembers(names, visible, drawn[i]);
      var k :| 0 <= k < |names| && names[k] == drawn[i];
      GetIndicesRoundTrip(ds.PortCount(), k);
    }
    TraceLinesSpec(ds, num, kind, drawn);
  }

  /** From ten ports on, drawing all traces raises: "S101" does not parse. */
  lemma PlotFailsFromTenPorts(ds: SParameterDataset, num: Numerics, kind: PlotType, visible: set<string>)
    requires WellShaped(ds.network) && ds.PortCount() >= 10
    requires visible == {} || "S101" in visible
    ensures Plot(ds, num, kind, visible).Err?
  {
    var n := ds.PortCount();
    var names := ParameterNamesOf(n);
    RoundTripFailsFromTenPorts(n);
    var x := names[9 * n];
    assert TraceDrawn(visible, x);
    DrawnNamesMembers(names, visible, x);
    var drawn := DrawnNames(names, visible);
    var i :| 0 <= i < |drawn| && drawn[i] == x;
    TraceLinesFailAt(ds, num, kind, drawn, i);
  }

  /** One name that does not parse makes the whole list fail. */
  lemma TraceLinesFailAt(ds: SParameterDataset, num: Numerics, kind: PlotType, names: seq<string>, i: nat)
    requires WellShaped(ds.network) && i < |names| && GetIndices(ds.PortCount(), names[i]).Err?
    ensures TraceLines(ds, num, kind, names).Err?
  {
    TraceLinesSpec(ds, num, kind, names);
  }

  /** A picked sample index resolves, in every projection, to the frequency of
      that sample, and the reported sample is the first one with that frequency. */
  lemma PickResolvesToSample(ds: SParameterDataset, num: Numerics, kind: PlotType,
                             visible: set<string>, line: Line, idx: nat)
    requires WellShaped(ds.network) && Plot(ds, num, kind, visible).Ok?
    requires line in Plot(ds, num, kind, visible).value && idx < |line.xdata|
    ensures idx < |ds.Frequencies()|
    ensures kind != Smith ==> line.xdata[idx] == ds.Frequencies()[idx]
    ensures var f := ds.Frequencies();
            var target := if kind == Smith then f[idx] else line.xdata[idx];
            var r := FindNearestDataPoint(ds, num, line.param, target);
            GetIndices(ds.PortCount(), line.param).Ok? && r.Ok? && r.value.frequency == f[idx] &&
            var rc := GetIndices(ds.PortCount(), line.param).value;
            r.value.complexValue == ds.network.s[FirstIndexOf(f, f[idx])][rc.0][rc.1]
  {
    var lines := Plot(ds, num, kind, visible).value;
    var drawn := DrawnNames(ParameterNamesOf(ds.PortCount()), visible);
    var i :| 0 <= i < |lines| && lines[i] == line;
    TraceLinesSpec(ds, num, kind, drawn);
    assert line == TraceLine(ds, num, kind, drawn[i]).value;
    TraceLineData(ds, num, kind, drawn[i]);
    NearestAtSampleFrequency(ds, num, line.param, idx);
  }

  // ---------------------------------------------------------------------------
  // The widget
  // ---------------------------------------------------------------------------

  /** A line drawn from the dataset spans its whole frequency vector. */
  predicate Fits(line: Line, ds: SParameterDataset) {
    |line.xdata| == |ds.Frequencies()| && |line.ydata| == |ds.Frequencies()|
  }

  class PlotWidget {
    const num: Numerics
    var dataset: Option<SParameterDataset>
    var config: ViewportConfig?
    var lines: seq<Line>
    var xlim: Option<(real, real)>
    var annot: Annotation

    predicate Valid()
      reads this
    {
      dataset.Some? ==>
        WellShaped(dataset.value.network) && config != null &&
        forall l :: l in lines ==> Fits(l, dataset.value)
    }

    /** The axes show exactly what the current configuration asks for. */
    predicate Rendered()
      reads this, config
      requires Valid()
    {
      dataset.Some? && config != null &&
      Plot(dataset.value, num, config.activePlotType, config.visibleTraces) == Ok(lines) &&
      xlim == XLimit(config.activePlotType, config.freqMin, config.freqMax)
    }

    constructor (num: Numerics)
      ensures this.num == num && dataset.None? && config == null
      ensures lines == [] && xlim.None?
      ensures annot == Annotation((0.0, 0.0), Empty, false)
      ensures Valid()
    {
      this.num := num;
      dataset := None;
      config := null;
      lines := [];
      xlim := None;
      annot := Annotation((0.0, 0.0), Empty, false);
    }

    /** `set_data`: remember the dataset and config, then redraw. */
    method SetData(ds: SParameterDataset, cfg: ViewportConfig) returns (err: Option<ValueError>)
      requires WellShaped(ds.network)
      modifies this`dataset, this`config, this`lines, this`xlim
      ensures dataset == Some(ds) && config == cfg && Valid()
      ensures var plan := Plot(ds, num, cfg.activePlotType, cfg.visibleTraces);
              (plan.Ok? <==> err.None?) && (plan.Ok? ==> Rendered()) &&
              (plan.Err? ==> err == Some(plan.error))
    {
      dataset := Some(ds);
      config := cfg;
      err := RefreshPlot();
    }

    /** `refresh_plot`: a no-op without dataset or config; otherwise clear the
        axes and run the one plot routine of the active plot type. */
    method RefreshPlot() returns (err: Option<ValueError>)
      requires dataset.Some? ==> WellShaped(dataset.value.network) && config != null
      modifies this`lines, this`xlim
      ensures Valid()
      ensures dataset.None? || config == null ==>
                lines == old(lines) && xlim == old(xlim) && err.None?
      ensures dataset.Some? && config != null ==>
                var plan := Plot(dataset.value, num, config.activePlotType, config.visibleTraces);
                (plan.Ok? <==> err.None?) && (plan.Ok? ==> Rendered()) &&
                (plan.Err? ==> err == Some(plan.error))
    {
      if dataset.None? || config == null {
        return None;
      }
      lines := [];
      xlim := None;
      match config.activePlotType
      case MagnitudeDb => err := PlotMagnitudeDb();
      case PhaseDeg => err := PlotPhaseDeg();
      case Smith => err := PlotSmith();
    }

    /** `plot_magnitude_db`: the traces, then the x-window when it is active. */
    method PlotMagnitudeDb() returns (err: Option<ValueError>)
      requires dataset.Some? && WellShaped(dataset.value.network) && config != null
      requires config.activePlotType == MagnitudeDb
      requires lines == [] && xlim.None?
      modifies this`lines, this`xlim
      ensures Valid()
      ensures var plan := Plot(dataset.value, num, MagnitudeDb, config.visibleTraces);
              (plan.Ok? <==> err.None?) && (plan.Ok? ==> Rendered()) &&
              (plan.Err? ==> err == Some(plan.error))
    {
      err := PlotTraces(MagnitudeDb);
      if err.None? && WindowActive(config.freqMin, config.freqMax) {
        xlim := Some((config.freqMin, config.freqMax));
      }
    }

    /** `plot_phase_deg`: the traces, then the x-window when it is active. */
    method PlotPhaseDeg() returns (err: Option<ValueError>)
      requires dataset.Some? && WellShaped(dataset.value.network) && config != null
      requires config.activePlotType == PhaseDeg
      requires lines == [] && xlim.None?
      modifies this`lines, this`xlim
      ensures Valid()
      ensures var plan := Plot(dataset.value, num, PhaseDeg, config.visibleTraces);
              (plan.Ok? <==> err.None?) && (plan.Ok? ==> Rendered()) &&
              (plan.Err? ==> err == Some(plan.error))
    {
      err := PlotTraces(PhaseDeg);
      if err.None? && WindowActive(config.freqMin, config.freqMax) {
        xlim := Some((config.freqMin, config.freqMax));
      }
    }

    /** `plot_smith`: the traces as real against imaginary part; no x-window. */
    method PlotSmith() returns (err: Option<ValueError>)
      requires dataset.Some? && WellShaped(dataset.value.network) && config != null
      requires config.activePlotType == Smith
      requires lines == [] && xlim.None?
      modifies this`lines, this`xlim
      ensures Valid()
      ensures var plan := Plot(dataset.value, num, Smith, config.visibleTraces);
              (plan.Ok? <==> err.None?) && (plan.Ok? ==> Rendered()) &&
              (plan.Err? ==> err == Some(plan.error))
    {
      err := PlotTraces(Smith);
    }

    /** The loop the three plot routines share: for every name of
        `parameter_names` that the visibility rule keeps, draw its line. */
    method PlotTraces(kind: PlotType) returns (err: Option<ValueError>)
      requires dataset.Some? && WellShaped(dataset.value.network) && config != null
      requires lines == []
      modifies this`lines
      ensures Valid()
      ensures var plan := Plot(dataset.value, num, kind, config.visibleTraces);
              (plan.Ok? <==> err.None?) && (plan.Ok? ==> lines == plan.value) &&
              (plan.Err? ==> err == Some(plan.error))
    {
      var ds := dataset.value;
      var visible := config.visibleTraces;
      var names := ParameterNames(ds);
      var i := 0;
      while i < |names|
        invariant 0 <= i <= |names|
        invariant TraceLines(ds, num, kind, DrawnNames(names[..i], visible)) == Ok(lines)
        invariant forall l :: l in lines ==> Fits(l, ds)
      {
        var r := DrawIfVisible(ds, kind, names, i, visible, lines);
        if r.Err? {
          return Some(r.error);
        }
        lines := r.value;
        i := i + 1;
      }
      assert names[..|names|] == names;
      return None;
    }

    /** One pass of the loop: skip `names[i]` when the visibility rule drops
        it, otherwise append its line, or fail as the whole drawing does. */
    method DrawIfVisible(ds: SParameterDataset, kind: PlotType, names: seq<string>, i: nat,
                         visible: set<string>, drawn: seq<Line>)
      returns (r: Result<seq<Line>, ValueError>)
      requires WellShaped(ds.network) && i < |names|
      requires TraceLines(ds, num, kind, DrawnNames(names[..i], visible)) == Ok(drawn)
      ensures r.Ok? ==> TraceLines(ds, num, kind, DrawnNames(names[..i + 1], visible)) == r
      ensures r.Ok? ==> forall l :: l in r.value ==> l in drawn || Fits(l, ds)
      ensures r.Err? ==> TraceLines(ds, num, kind, DrawnNames(names, visible)) == r
    {
      var param := names[i];
      if !TraceDrawn(visible, param) {
        DrawnNamesSkip(names, i, visible);
        return Ok(drawn);
      }
      var line := DrawTrace(ds, kind, param);
      if line.Err? {
        PlotAborts(ds, kind, names, i, visible);
        return Err(line.error);
      }
      PlotExtends(ds, kind, names, i, visible, drawn);
      return Ok(drawn + [line.value]);
    }

    /** One trace's line, from the accessor of the given projection. */
    method DrawTrace(ds: SParameterDataset, kind: PlotType, param: string) returns (r: Result<Line, ValueError>)
      requires WellShaped(ds.network)
      ensures r == TraceLine(ds, num, kind, param)
      ensures r.Ok? ==> r.value.param == param && |r.value.xdata| == |ds.Frequencies()|
                        && |r.value.ydata| == |ds.Frequencies()|
    {
      match kind {
        case MagnitudeDb =>
          var mag := GetMagnitudeDb(ds, num, param);
          if mag.Err? {
            return Err(mag.error);
          }
          return Ok(Line(param, mag.value.0, mag.value.1));
        case PhaseDeg =>
          var phase := GetPhaseDeg(ds, num, param);
          if phase.Err? {
            return Err(phase.error);
          }
          return Ok(Line(param, phase.value.0, phase.value.1));
        case Smith =>
          var data := GetComplexData(ds, param);
          if data.Err? {
            return Err(data.error);
          }
          return Ok(Line(param, Re(data.value.1), Im(data.value.1)));
      }
    }

    /** A drawn name that parses appends its line to the lines drawn so far. */
    lemma PlotExtends(ds: SParameterDataset, kind: PlotType, names: seq<string>, i: nat,
                      visible: set<string>, lines: seq<Line>)
      requires WellShaped(ds.network) && i < |names| && TraceDrawn(visible, names[i])
      requires TraceLines(ds, num, kind, DrawnNames(names[..i], visible)) == Ok(lines)
      requires TraceLine(ds, num, kind, names[i]).Ok?
      ensures TraceLines(ds, num, kind, DrawnNames(names[..i + 1], visible))
              == Ok(lines + [TraceLine(ds, num, kind, names[i]).value])
    {
      DrawnNamesStep(names, i, visible);
      TraceLinesStep(ds, num, kind, DrawnNames(names[..i], visible), names[i]);
    }

    /** When a drawn name does not parse after the earlier ones did, the whole
        drawing fails with that name's error. */
    lemma PlotAborts(ds: SParameterDataset, kind: PlotType, names: seq<string>, i: nat, visible: set<string>)
      requires WellShaped(ds.network) && i < |names| && TraceDrawn(visible, names[i])
      requires TraceLines(ds, num, kind, DrawnNames(names[..i], visible)).Ok?
      requires GetIndices(ds.PortCount(), names[i]).Err?
      ensures TraceLines(ds, num, kind, DrawnNames(names, visible))
              == Err(GetIndices(ds.PortCount(), names[i]).error)
    {
      var upTo := names[..i + 1];
      DrawnNamesStep(names, i, visible);
      TraceLinesFailsAtEnd(ds, num, kind, DrawnNames(names[..i], visible), names[i]);
      assert names == upTo + names[i + 1..];
      DrawnNamesAppend(upTo, names[i + 1..], visible);
      TraceLinesErrExtends(ds, num, kind, DrawnNames(upTo, visible), DrawnNames(names[i + 1..], visible));
    }

    /** `on_pick`: a no-op without a dataset; otherwise look up the first picked
        index (by its sample frequency on the Smith chart, by its x value
        elsewhere) and move the single annotation to the picked point. */
    method OnPick(event: PickEvent) returns (err: Option<ValueError>)
      requires Valid()
      requires dataset.Some? ==> event.artist in lines && |event.ind| > 0
                                 && event.ind[0] < |event.artist.xdata|
      modifies this`annot
      ensures dataset.None? ==> annot == old(annot) && err.None?
      ensures dataset.Some? ==>
                var ds := dataset.value;
                var idx := event.ind[0];
                var x := event.artist.xdata[idx];
                var y := event.artist.ydata[idx];
                var smith := config.activePlotType == Smith;
                var r := FindNearestDataPoint(ds, num, event.artist.param,
                                              if smith then ds.Frequencies()[idx] else x);
                (r.Ok? ==> err.None? && annot == Annotation((x, y), PointText(event.artist.param, r.value, smith), true)) &&
                (r.Err? ==> err == Some(r.error) && annot == old(annot))
      ensures dataset.Some? && old(Rendered()) ==>
                var ds := dataset.value;
                var idx := event.ind[0];
                var f := ds.Frequencies();
                idx < |f| && err.None? && annot.text.PointText? && annot.text.point.frequency == f[idx] &&
                GetIndices(ds.PortCount(), event.artist.param).Ok? &&
                var rc := GetIndices(ds.PortCount(), event.artist.param).value;
                annot.text.point.complexValue == ds.network.s[FirstIndexOf(f, f[idx])][rc.0][rc.1]
    {
      if dataset.None? {
        return None;
      }
      var ds := dataset.value;
      var line := event.artist;
      assert Fits(line, ds);
      var idx := event.ind[0];
      var xVal := line.xdata[idx];
      var yVal := line.ydata[idx];
      var param := line.param;
      var smith := config.activePlotType == Smith;
      if Rendered() {
        PickResolvesToSample(ds, num, config.activePlotType, config.visibleTraces, line, idx);
      }
      var data;
      if smith {
        var freq := ds.Frequencies()[idx];
        data := FindNearestDataPoint(ds, num, param, freq);
      } else {
        data := FindNearestDataPoint(ds, num, param, xVal);
      }
      if data.Err? {
        return Some(data.error);
      }
      annot := Annotation((xVal, yVal), PointText(param, data.value, smith), true);
      err := None;
    }
  }
}
