/** `FileTab`: one open file. It owns the dataset, the tab's
    `ViewportConfig`, the plot and the control panel, which share that one
    config object, and it routes the plot-type buttons and the panel's
    `configChanged` signal to the plot. */
module Tabs {
  import opened Wrappers
  import opened Dataset
  import opened ViewConfig
  import opened PlotView
  import opened Controls

  /** The button that `buttonClicked` reports; `OtherButton` stands for any
      button that is none of the three plot-type buttons. */
  datatype TypeButton = MagButton | PhaseButton | SmithButton | OtherButton

  /** The plot type `on_type_changed` selects, given the current one. */
  function TypeFor(button: TypeButton, current: PlotType): PlotType {
    match button
    case MagButton => MagnitudeDb
    case PhaseButton => PhaseDeg
    case SmithButton => Smith
    case OtherButton => current
  }

  /** The button of the group that selects plot type `kind`. */
  function ButtonFor(kind: PlotType): TypeButton {
    match kind
    case MagnitudeDb => MagButton
    case PhaseDeg => PhaseButton
    case Smith => SmithButton
  }

  /** Each plot type has exactly one button, and only an unknown button keeps
      the current type whatever it is. */
  lemma ButtonsSelectTypes(button: TypeButton, current: PlotType, kind: PlotType)
    ensures TypeFor(ButtonFor(kind), current) == kind
    ensures button != OtherButton ==> ButtonFor(TypeFor(button, current)) == button
    ensures TypeFor(button, current) != kind ==> button != ButtonFor(kind)
    ensures button == OtherButton <==> forall c :: TypeFor(button, c) == c
  {
    if button != OtherButton {
      var c := if TypeFor(button, MagnitudeDb) == MagnitudeDb then PhaseDeg else MagnitudeDb;
      assert TypeFor(button, c) != c;
    }
  }

  class FileTab {
    const dataset: SParameterDataset
    const config: ViewportConfig
    const plotWidget: PlotWidget
    const controlPanel: ControlPanel
    /** The checked button of the exclusive plot-type group. */
    var checkedButton: TypeButton

    /** The plot and the panel share the tab's config, the panel has one
        checkbox per parameter name and agrees with the visible set, and the
        axes show what the config asks for. */
    predicate Valid()
      reads this, config, plotWidget, controlPanel
    {
      WellShaped(dataset.network) && dataset.PortCount() <= 9 &&
      plotWidget.dataset == Some(dataset) && plotWidget.config == config &&
      controlPanel.config == config &&
      controlPanel.parameterNames == ParameterNamesOf(dataset.PortCount()) &&
      controlPanel.checkboxes.Keys == (set p | p in controlPanel.parameterNames) &&
      controlPanel.Consistent() &&
      plotWidget.Valid() && plotWidget.Rendered()
    }

    /** A new tab shows every trace over the file's whole frequency range, as
        magnitude in dB with the magnitude button checked. */
    constructor (dataset: SParameterDataset, num: Numerics)
      requires WellShaped(dataset.network) && dataset.PortCount() <= 9
      requires |dataset.Frequencies()| >= 1
      ensures Valid() && this.dataset == dataset && plotWidget.num == num
      ensures config.activePlotType == MagnitudeDb && checkedButton == ButtonFor(config.activePlotType)
      ensures config.visibleTraces == set p | p in ParameterNamesOf(dataset.PortCount())
      ensures var f := dataset.Frequencies();
              config.freqMin == f[0] && config.freqMax == f[|f| - 1]
      ensures var f := dataset.Frequencies();
              plotWidget.xlim.Some? <==> f[0] > 0.0 && f[|f| - 1] > f[0]
      ensures forall p :: p in controlPanel.checkboxes ==> controlPanel.checkboxes[p]
      ensures fresh(config) && fresh(plotWidget) && fresh(controlPanel)
    {
      this.dataset := dataset;
      var cfg := new ViewportConfig();
      var names := ParameterNames(dataset);
      cfg.visibleTraces := set p | p in names;
      cfg.freqMin := dataset.Frequencies()[0];
      cfg.freqMax := dataset.Frequencies()[|dataset.Frequencies()| - 1];
      var pw := new PlotWidget(num);
      var cp := new ControlPanel(cfg, names);
      config := cfg;
      plotWidget := pw;
      controlPanel := cp;
      checkedButton := MagButton;
      new;
      PlotSucceedsUpToNinePorts(dataset, num, MagnitudeDb, cfg.visibleTraces);
      var err := plotWidget.SetData(dataset, config);
    }

    /** `on_type_changed` followed by `update_plot`: only the plot type may
        change, and the axes are redrawn for it. */
    method OnTypeChanged(button: TypeButton)
      requires Valid()
      modifies config`activePlotType
      modifies plotWidget`dataset, plotWidget`config, plotWidget`lines, plotWidget`xlim
      ensures Valid()
      ensures config.activePlotType == TypeFor(button, old(config.activePlotType))
      ensures config.visibleTraces == old(config.visibleTraces)
      ensures config.freqMin == old(config.freqMin) && config.freqMax == old(config.freqMax)
    {
      match button {
        case MagButton => config.activePlotType := MagnitudeDb;
        case PhaseButton => config.activePlotType := PhaseDeg;
        case SmithButton => config.activePlotType := Smith;
        case OtherButton =>
      }
      PlotSucceedsUpToNinePorts(dataset, plotWidget.num, config.activePlotType, config.visibleTraces);
      var err := plotWidget.SetData(dataset, config);
    }

    /** A click on one of the group's three buttons: the group checks it and
        reports it, so the checked button always names the active type. */
    method ClickTypeButton(button: TypeButton)
      requires Valid() && button != OtherButton
      modifies this`checkedButton, config`activePlotType
      modifies plotWidget`dataset, plotWidget`config, plotWidget`lines, plotWidget`xlim
      ensures Valid()
      ensures checkedButton == button && ButtonFor(config.activePlotType) == button
      ensures config.visibleTraces == old(config.visibleTraces)
      ensures config.freqMin == old(config.freqMin) && config.freqMax == old(config.freqMax)
    {
      checkedButton := button;
      OnTypeChanged(button);
      ButtonsSelectTypes(button, old(config.activePlotType), config.activePlotType);
    }

    /** A click on a trace checkbox: the panel updates the shared visible set
        and `configChanged` redraws the plot. */
    method ClickTraceCheckbox(param: string)
      requires Valid() && param in controlPanel.checkboxes
      modifies controlPanel`checkboxes, config`visibleTraces, plotWidget`lines, plotWidget`xlim
      ensures Valid()
      ensures config.visibleTraces == Toggled(old(config.visibleTraces), param, !old(controlPanel.checkboxes[param]))
      ensures config.activePlotType == old(config.activePlotType)
      ensures config.freqMin == old(config.freqMin) && config.freqMax == old(config.freqMax)
    {
      controlPanel.ClickCheckbox(param);
      PlotSucceedsUpToNinePorts(dataset, plotWidget.num, config.activePlotType, config.visibleTraces);
      var err := plotWidget.RefreshPlot();
    }

    /** Editing the frequency fields: an accepted range reaches the config and
        the plot is redrawn with it; a rejected one leaves config and plot as
        they were. */
    method EditRange(minText: Option<real>, maxText: Option<real>) returns (warning: Option<FreqWarning>)
      requires Valid()
      modifies controlPanel`minInput, controlPanel`maxInput, config`freqMin, config`freqMax
      modifies plotWidget`lines, plotWidget`xlim
      ensures Valid()
      ensures var r := CheckRange(minText, maxText);
              (r.Ok? ==> warning.None? && (config.freqMin, config.freqMax) == r.value) &&
              (r.Err? ==> warning == Some(r.error) && config.freqMin == old(config.freqMin)
                          && config.freqMax == old(config.freqMax)
                          && plotWidget.lines == old(plotWidget.lines) && plotWidget.xlim == old(plotWidget.xlim))
      ensures plotWidget.xlim.Some? <==> config.activePlotType != Smith && WindowActive(config.freqMin, config.freqMax)
      ensures config.activePlotType == old(config.activePlotType)
      ensures config.visibleTraces == old(config.visibleTraces)
    {
      warning := controlPanel.EditRange(minText, maxText);
      if warning.None? {
        PlotSucceedsUpToNinePorts(dataset, plotWidget.num, config.activePlotType, config.visibleTraces);
        var err := plotWidget.RefreshPlot();
      }
    }

    /** A pick on one of the tab's drawn lines always resolves to the sample
        the picked index stands for. */
    method Pick(event: PickEvent) returns (err: Option<ValueError>)
      requires Valid()
      requires event.artist in plotWidget.lines && |event.ind| > 0 && event.ind[0] < |event.artist.xdata|
      modifies plotWidget`annot
      ensures Valid()
      ensures var idx := event.ind[0];
              var f := dataset.Frequencies();
              idx < |f| && err.None? && plotWidget.annot.visible && plotWidget.annot.text.PointText? &&
              plotWidget.annot.text.point.frequency == f[idx] &&
              GetIndices(dataset.PortCount(), event.artist.param).Ok? &&
              var rc := GetIndices(dataset.PortCount(), event.artist.param).value;
              plotWidget.annot.text.point.complexValue == dataset.network.s[FirstIndexOf(f, f[idx])][rc.0][rc.1]
    {
      assert Fits(event.artist, dataset);
      err := plotWidget.OnPick(event);
    }
  }
}
