/** The per-tab view state (`ViewportConfig`) and the two rules the plot code
    reads it with. */
module ViewConfig {

  /** `PlotType`: the three projections. */
  datatype PlotType = MagnitudeDb | PhaseDeg | Smith

  /** Every plot type, each once. */
  function AllPlotTypes(): (all: seq<PlotType>)
    ensures |all| == 3
    ensures forall a, b :: 0 <= a < b < |all| ==> all[a] != all[b]
  {
    [MagnitudeDb, PhaseDeg, Smith]
  }

  /** There is no fourth plot type. */
  lemma EveryPlotTypeListed(p: PlotType)
    ensures p in AllPlotTypes()
  {
    match p
    case MagnitudeDb => assert AllPlotTypes()[0] == p;
    case PhaseDeg => assert AllPlotTypes()[1] == p;
    case Smith => assert AllPlotTypes()[2] == p;
  }

  /** A trace is drawn iff the visible set is empty ("all") or contains it. */
  predicate TraceDrawn(visibleTraces: set<string>, name: string) {
    visibleTraces == {} || name in visibleTraces
  }

  /** The frequency window is applied only when `freq_min > 0` and
      `freq_max > freq_min`; 0 is the "unset" sentinel. */
  predicate WindowActive(freqMin: real, freqMax: real) {
    freqMin > 0.0 && freqMax > freqMin
  }

  /** Mutable view state shared by the control panel, the plot and the tab. */
  class ViewportConfig {
    var activePlotType: PlotType
    var visibleTraces: set<string>
    var freqMin: real
    var freqMax: real

    /** The dataclass defaults. */
    constructor ()
      ensures activePlotType == MagnitudeDb
      ensures visibleTraces == {}
      ensures freqMin == 0.0 && freqMax == 0.0
      ensures !WindowActive(freqMin, freqMax)
    {
      activePlotType := MagnitudeDb;
      visibleTraces := {};
      freqMin := 0.0;
      freqMax := 0.0;
    }
  }
}
