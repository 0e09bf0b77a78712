/** `ControlPanel`: the trace checkboxes and the frequency-range fields, and
    how they write into the shared `ViewportConfig`. */
module Controls {
  import opened Wrappers
  import opened ViewConfig

  /** The three reasons `on_freq_changed` rejects its input. */
  datatype FreqWarning = MinNotBelowMax | NegativeFrequency | NotANumber

  /** The validation of `on_freq_changed`, in its order: conversion, then
      `f_min >= f_max`, then `f_min < 0`. A field is `None` when `float()`
      rejects its text. */
  function CheckRange(minInput: Option<real>, maxInput: Option<real>): (r: Result<(real, real), FreqWarning>)
    ensures r.Ok? <==> minInput.Some? && maxInput.Some? && 0.0 <= minInput.value < maxInput.value
    ensures r.Ok? ==> r.value == (minInput.value, maxInput.value)
    ensures minInput.None? || maxInput.None? ==> r == Err(NotANumber)
    ensures minInput.Some? && maxInput.Some? && minInput.value >= maxInput.value ==> r == Err(MinNotBelowMax)
    ensures minInput.Some? && maxInput.Some? && minInput.value < maxInput.value && minInput.value < 0.0 ==>
              r == Err(NegativeFrequency)
  {
    match (minInput, maxInput)
    case (Some(fMin), Some(fMax)) =>
      if fMin >= fMax then Err(MinNotBelowMax)
      else if fMin < 0.0 then Err(NegativeFrequency)
      else Ok((fMin, fMax))
    case _ => Err(NotANumber)
  }

  /** An accepted range turns the x-window on exactly when its minimum is
      positive: a minimum of 0 is accepted but leaves the window off. */
  lemma AcceptedRangeWindow(minInput: Option<real>, maxInput: Option<real>)
    requires CheckRange(minInput, maxInput).Ok?
    ensures var (fMin, fMax) := CheckRange(minInput, maxInput).value;
            0.0 <= fMin < fMax && (WindowActive(fMin, fMax) <==> fMin > 0.0)
  {
  }

  /** Both bounds negative and in the wrong order report the ordering error. */
  lemma OrderCheckedBeforeSign()
    ensures CheckRange(Some(-1.0), Some(-2.0)) == Err(MinNotBelowMax)
  {
  }

  /** The trace set after a checkbox reports `checked`: `add` or `discard`. */
  function Toggled(visible: set<string>, param: string, checked: bool): (r: set<string>)
    ensures param in r <==> checked
    ensures forall p :: p != param ==> (p in r <==> p in visible)
  {
    if checked then visible + {param} else visible - {param}
  }

  /** Discarding an absent trace changes nothing; re-checking restores it. */
  lemma ToggleProperties(visible: set<string>, param: string)
    ensures param !in visible ==> Toggled(visible, param, false) == visible
    ensures param in visible ==> Toggled(Toggled(visible, param, false), param, true) == visible
    ensures Toggled(Toggled(visible, param, true), param, true) == Toggled(visible, param, true)
  {
  }

  /** Unchecking the last checked box empties the set, which the plot reads
      as "draw every trace". */
  lemma UncheckingLastShowsAll(param: string, name: string)
    ensures TraceDrawn(Toggled({param}, param, false), name)
  {
    assert Toggled({param}, param, false) == {};
  }

  class ControlPanel {
    const config: ViewportConfig
    const parameterNames: seq<string>
    /** Checked state of each trace's checkbox. */
    var checkboxes: map<string, bool>
    /** The parsed contents of the Min and Max fields (`None`: not a number). */
    var minInput: Option<real>
    var maxInput: Option<real>

    /** Every checkbox is checked iff its trace is in the visible set. */
    predicate Consistent()
      reads this, config
    {
      forall p :: p in checkboxes ==> checkboxes[p] == (p in config.visibleTraces)
    }

    /** One checkbox per trace name, checked iff the name is visible; the
        fields show the current bounds. */
    constructor (config: ViewportConfig, parameterNames: seq<string>)
      ensures this.config == config && this.parameterNames == parameterNames
      ensures checkboxes.Keys == set p | p in parameterNames
      ensures Consistent()
      ensures minInput == Some(config.freqMin) && maxInput == Some(config.freqMax)
    {
      var boxes: map<string, bool> := map[];
      var i := 0;
      while i < |parameterNames|
        invariant 0 <= i <= |parameterNames|
        invariant boxes.Keys == set p | p in parameterNames[..i]
        invariant forall p :: p in boxes ==> boxes[p] == (p in config.visibleTraces)
      {
        var param := parameterNames[i];
        assert parameterNames[..i + 1] == parameterNames[..i] + [param];
        boxes := boxes[param := param in config.visibleTraces];
        i := i + 1;
      }
      assert parameterNames[..|parameterNames|] == parameterNames;
      this.config := config;
      this.parameterNames := parameterNames;
      checkboxes := boxes;
      minInput := Some(config.freqMin);
      maxInput := Some(config.freqMax);
    }

    /** `on_trace_toggled`: add or discard the trace; nothing else changes. */
    method OnTraceToggled(param: string, checked: bool)
      modifies config`visibleTraces
      ensures config.visibleTraces == Toggled(old(config.visibleTraces), param, checked)
      ensures config.activePlotType == old(config.activePlotType)
      ensures config.freqMin == old(config.freqMin) && config.freqMax == old(config.freqMax)
    {
      if checked {
        config.visibleTraces := config.visibleTraces + {param};
      } else {
        config.visibleTraces := config.visibleTraces - {param};
      }
    }

    /** A click on a checkbox: Qt flips it, then `toggled` reports the new state. */
    method ClickCheckbox(param: string)
      requires param in checkboxes && Consistent()
      modifies this`checkboxes, config`visibleTraces
      ensures checkboxes == old(checkboxes)[param := !old(checkboxes[param])]
      ensures config.visibleTraces == Toggled(old(config.visibleTraces), param, !old(checkboxes[param]))
      ensures config.activePlotType == old(config.activePlotType)
      ensures config.freqMin == old(config.freqMin) && config.freqMax == old(config.freqMax)
      ensures Consistent()
    {
      var checked := !checkboxes[param];
      checkboxes := checkboxes[param := checked];
      OnTraceToggled(param, checked);
    }

    /** `on_freq_changed`: store a valid range in the config (and signal a
        change), or warn and put the config's bounds back into the fields. */
    method OnFreqChanged() returns (warning: Option<FreqWarning>)
      modifies config`freqMin, config`freqMax, this`minInput, this`maxInput
      ensures var r := CheckRange(old(minInput), old(maxInput));
              (r.Ok? ==> warning.None? && (config.freqMin, config.freqMax) == r.value
                         && minInput == old(minInput) && maxInput == old(maxInput)) &&
              (r.Err? ==> warning == Some(r.error)
                          && config.freqMin == old(config.freqMin) && config.freqMax == old(config.freqMax)
                          && minInput == Some(config.freqMin) && maxInput == Some(config.freqMax))
      ensures config.activePlotType == old(config.activePlotType)
      ensures config.visibleTraces == old(config.visibleTraces)
    {
      var w: FreqWarning;
      if minInput.None? || maxInput.None? {
        w := NotANumber;
      } else {
        var fMin := minInput.value;
        var fMax := maxInput.value;
        if fMin >= fMax {
          w := MinNotBelowMax;
        } else if fMin < 0.0 {
          w := NegativeFrequency;
        } else {
          config.freqMin := fMin;
          config.freqMax := fMax;
          return None;
        }
      }
      minInput := Some(config.freqMin);
      maxInput := Some(config.freqMax);
      return Some(w);
    }

    /** The user leaves the fields holding `minText` and `maxText`, and
        `editingFinished` runs `on_freq_changed`. */
    method EditRange(minText: Option<real>, maxText: Option<real>) returns (warning: Option<FreqWarning>)
      modifies config`freqMin, config`freqMax, this`minInput, this`maxInput
      ensures var r := CheckRange(minText, maxText);
              (r.Ok? ==> warning.None? && (config.freqMin, config.freqMax) == r.value
                         && minInput == minText && maxInput == maxText) &&
              (r.Err? ==> warning == Some(r.error)
                          && config.freqMin == old(config.freqMin) && config.freqMax == old(config.freqMax)
                          && minInput == Some(config.freqMin) && maxInput == Some(config.freqMax))
      ensures config.activePlotType == old(config.activePlotType)
      ensures config.visibleTraces == old(config.visibleTraces)
    {
      minInput := minText;
      maxInput := maxText;
      warning := OnFreqChanged();
    }
  }
}
