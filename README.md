# S-parameter viewer: a verified model of the data layer and view state

The viewer opens Touchstone files (`.sNp`) and shows each one in a tab. A tab
plots the network's S-parameters as magnitude in dB, phase in degrees or a
Smith chart. A control panel chooses which traces (`S11`, `S21`, ...) are
visible and which frequency window is shown. A click on a drawn point
annotates it with the nearest data sample.

This project models the logic under that GUI in Dafny and proves properties
of it:

- `wrappers.dfy` (module `Wrappers`): `Option` and `Result`.
- `dataset.dfy` (module `Dataset`): `SParameterDataset`.
  - Trace names are enumerated row-major by nested loops (a method proved
    equal to a reference function).
  - The strict two-character name parser.
  - Per-trace complex series, and magnitude in dB with the zero-magnitude
    floor applied in place on an array.
  - Phase in degrees.
  - Nearest-sample lookup by first-occurrence argmin.
- `view_config.dfy` (module `ViewConfig`): `PlotType`, the `ViewportConfig`
  record (a class with its dataclass defaults) and the two rules the plot
  code reads it with:
  - an empty visible set means "draw all";
  - the x-window is active only when `freq_min > 0` and `freq_max > freq_min`.
- `loader.dfy` (module `Loader`): the error taxonomy of
  `load_touchstone_file`. The file-system check and the Touchstone parser are
  function-valued inputs.
- `plot_widget.dfy` (module `PlotView`): `PlotWidget`.
  - The axes are modelled as the list of drawn lines (name, x data, y data)
    plus the x-limits.
  - `refresh_plot` dispatches on the plot type, and each plot routine loops
    over the trace names.
  - `on_pick` resolves a click to a sample and moves the single annotation.
- `control_panel.dfy` (module `Controls`): `ControlPanel`.
  - The checkbox map is built by a loop.
  - Trace toggling adds to or discards from the shared visible set.
  - Frequency-range validation stores an accepted range or resets the
    fields.
- `tabs.dfy` (module `Tabs`): `FileTab`.
  - Its constructor builds the initial config and shares that one object
    with the plot and the panel.
  - The plot-type buttons, the checkboxes and the frequency fields are
    wired to redraws.
  - Its invariant says that the plot always shows what the shared config
    asks for.

Floating-point functions (`np.abs`, `np.log10`, `np.angle`, `np.degrees`)
are not modelled. They are passed in as a `Numerics` record of total
functions, so the model states which values they are applied to and not
what they compute. Frequencies and complex parts are `real`.

## Model

| member | source | states |
|---|---|---|
| `Dataset.ParameterNamesOf` | src/models/dataset.py:28-39 | there are exactly n·n trace names for n ports |
| `Dataset.ParameterNames` | src/models/dataset.py:34-39 | the nested loops produce exactly the reference list of names |
| `Dataset.ParameterNamesRowMajor` | src/models/dataset.py:34-39 | entry q·n+c of the name list is `"S" + (q+1) + (c+1)` (row-major order) |
| `Dataset.ParameterNamesDistinct` | src/models/dataset.py:36-38 | for up to nine ports, different positions hold different names |
| `Dataset.GetIndices` | src/models/dataset.py:41-61 | succeeds iff the name has at least 3 characters, starts with `S`, and characters 1 and 2 are digits in 1..port_count; the result is (digit−1, digit−1) and lies below port_count; a bad prefix or length gives "Invalid parameter name: …", and every other failure (including out of range) gives "Could not parse indices from …" |
| `Dataset.TrailingCharactersIgnored` | src/models/dataset.py:54-55 | characters after the third never change the outcome of parsing |
| `Dataset.S123OnThreePorts` | src/models/dataset.py:54-55 | `S123` on a 3-port network parses to (0, 1) |
| `Dataset.S99OnTwoPorts` | src/models/dataset.py:57-61 | `S99` on a 2-port network fails with "Could not parse indices from S99" |
| `Dataset.ParameterNameParses` | src/models/dataset.py:38-59 | for up to nine ports, the name of port pair (i, j) parses back to (i−1, j−1) |
| `Dataset.GetIndicesRoundTrip` | src/models/dataset.py:34-59 | for up to nine ports, parsing entry k of the name list gives (k/n, k%n) |
| `Dataset.GeneratedIffParses` | src/models/dataset.py:34-61 | for up to nine ports, a 3-character name is in the name list iff it parses |
| `Dataset.ParsedNameIsGenerated` | src/models/dataset.py:34-61 | for up to nine ports, a 3-character name that parses to (row, col) is entry row·n+col of the name list |
| `Dataset.RoundTripFailsFromTenPorts` | src/models/dataset.py:34-61 | from ten ports on, entry 9 is `S110` and parses as (0, 0), and entry 9n is `S101` and fails to parse |
| `Dataset.GetComplexData` | src/models/dataset.py:63-69 | fails exactly as name parsing fails; otherwise returns the whole frequency vector and a series of the same length whose entry k is `s[k][row][col]` |
| `Dataset.ComplexSeriesOfGeneratedName` | src/models/dataset.py:63-69 | the series of the name of port pair (i+1, j+1) has entry k equal to `s[k][i][j]` |
| `Dataset.ClampZeros` | src/models/dataset.py:75-77 | every entry equal to 0 becomes 1e-12 and every other entry is unchanged |
| `Dataset.GetMagnitudeDb` | src/models/dataset.py:71-79 | fails exactly as name parsing fails; otherwise returns the frequency vector and, at each k, 20·log10 of \|s[k][row][col]\|, with 1e-12 in place of a zero magnitude |
| `Dataset.GetPhaseDeg` | src/models/dataset.py:81-86 | fails exactly as name parsing fails; otherwise returns the frequency vector and, at each k, the angle of s[k][row][col] converted to degrees |
| `Dataset.NearestIndex` | src/models/dataset.py:93 | the argmin index lies in range, minimises \|f[k] − target\|, and every earlier index is strictly farther (first occurrence) |
| `Dataset.NearestOfSampleIsFirstEqual` | src/models/dataset.py:93-94 | a target equal to f[k] selects the first index holding that frequency, which is at most k and is k itself when the frequencies are distinct |
| `Dataset.FindNearestDataPoint` | src/models/dataset.py:88-107 | an empty frequency vector fails before the name is parsed; otherwise fails exactly as parsing fails; on success the frequency is f[idx] for the first nearest idx and is no farther from the target than any sample, the complex value is s[idx][row][col], the magnitude uses 1e-12 when \|val\| is not positive, and the phase is degrees(angle(val)) |
| `Dataset.NearestAtSampleFrequency` | src/models/dataset.py:88-107 | looking up a sample's own frequency succeeds and returns that frequency and the sample at the first index holding it |
| `Dataset.PointAgreesWithSeries` | src/models/dataset.py:75-100 | when magnitudes are never negative, the point lookup's complex value, magnitude and phase equal the series entries at the chosen index |
| `ViewConfig.AllPlotTypes` | src/models/view_config.py:5-8 | there are three plot types, pairwise distinct |
| `ViewConfig.EveryPlotTypeListed` | src/models/view_config.py:5-8 | no plot type exists besides magnitude, phase and Smith |
| `ViewConfig.ViewportConfig.constructor` | src/models/view_config.py:10-15 | the defaults are magnitude in dB, an empty trace set and 0.0 for both bounds, so the frequency window is inactive |
| `Loader.Basename` | src/core/loader.py:31 | the filename is the longest '/'-free suffix of the path |
| `Loader.LoadTouchstoneFile` | src/core/loader.py:5-41 | succeeds iff the path exists, the parser returns a network and that network has ports, and then it keeps the network, the path and the basename; a missing path gives "File not found: …"; a FileNotFoundError from the parser passes through unchanged; every other failure is a ValueError prefixed "Failed to parse Touchstone file: " |
| `Loader.MissingPathSkipsParser` | src/core/loader.py:19-20 | with a missing path the parser cannot influence the outcome |
| `Loader.OnlyTheGivenPathIsConsulted` | src/core/loader.py:19-24 | the outcome depends only on the existence check and the parser result for the given path |
| `Loader.ZeroPortsIsWrapped` | src/core/loader.py:27-41 | a zero-port network gives "Failed to parse Touchstone file: Loaded network has 0 ports." |
| `Loader.ParserErrorIsWrapped` | src/core/loader.py:22-41 | any other parser error becomes a ValueError with the prefix and the original message |
| `PlotView.DrawnNamesMembers` | src/gui/plot_widget.py:61-63 | a name is drawn iff it is one of the trace names and the visible set is empty or contains it |
| `PlotView.AllDrawn` | src/gui/plot_widget.py:61-63 | with an empty visible set, or one holding every name, every trace is drawn in order |
| `PlotView.TraceLine` | src/gui/plot_widget.py:61-106 | a name yields a line iff it parses, and otherwise its parse error; the line is labelled with the name and spans all samples |
| `PlotView.TraceLineData` | src/gui/plot_widget.py:61-106 | a trace's line plots frequency against dB or degrees, or, on the Smith chart, the real against the imaginary part of the full, unmasked series |
| `PlotView.TraceLines` | src/gui/plot_widget.py:61-67 | a successful drawing has one line per name |
| `PlotView.TraceLinesSpec` | src/gui/plot_widget.py:61-67 | the lines of a name list succeed iff every name parses, and line i is the line of name i |
| `PlotView.XLimit` | src/gui/plot_widget.py:71-72 | the x-window is set iff the plot is not a Smith chart, freq_min > 0 and freq_max > freq_min, and it is then (freq_min, freq_max) |
| `PlotView.PlotLabels` | src/gui/plot_widget.py:61-67 | the drawn lines carry the drawn names in trace-name order |
| `PlotView.PlotSucceedsUpToNinePorts` | src/gui/plot_widget.py:61-65 | with at most nine ports every plot type draws without error |
| `PlotView.PlotFailsFromTenPorts` | src/gui/plot_widget.py:61-65 | from ten ports on, a plot that draws `S101` raises the parse error |
| `PlotView.PickResolvesToSample` | src/gui/plot_widget.py:131-145 | picking index idx of a drawn line looks up frequency f[idx] (on magnitude/phase the line's x value there is f[idx]) and returns the sample at the first index holding f[idx] |
| `PlotView.PlotWidget.constructor` | src/gui/plot_widget.py:10-29 | a new widget has no dataset and no config, empty axes, and a hidden, empty annotation |
| `PlotView.PlotWidget.SetData` | src/gui/plot_widget.py:31-35 | stores dataset and config, then the axes show exactly the planned plot, or the plan's parse error is reported |
| `PlotView.PlotWidget.RefreshPlot` | src/gui/plot_widget.py:37-53 | a no-op without dataset or config; otherwise the axes show exactly the plot of the active type, or its error is reported |
| `PlotView.PlotWidget.PlotMagnitudeDb` | src/gui/plot_widget.py:55-72 | draws the magnitude plot of the visible traces and then the x-window when it is active |
| `PlotView.PlotWidget.PlotPhaseDeg` | src/gui/plot_widget.py:74-90 | draws the phase plot of the visible traces and then the x-window when it is active |
| `PlotView.PlotWidget.PlotSmith` | src/gui/plot_widget.py:92-109 | draws the Smith plot of the visible traces and sets no x-window |
| `PlotView.PlotWidget.DrawIfVisible` | src/gui/plot_widget.py:61-67 | one pass of the trace loop: a hidden name adds nothing, a drawn name adds its line, and a name that fails to parse makes the whole drawing fail with its error |
| `PlotView.PlotWidget.PlotTraces` | src/gui/plot_widget.py:61-67 | the loop over trace names draws exactly the planned lines, or stops at the first name that fails to parse |
| `PlotView.PlotWidget.DrawTrace` | src/gui/plot_widget.py:65-106 | computes the planned line of one trace through the dataset's accessors |
| `PlotView.PlotWidget.OnPick` | src/gui/plot_widget.py:111-154 | a no-op without a dataset; otherwise uses the first picked index, looks it up by sample frequency on the Smith chart and by x value elsewhere, and overwrites the one annotation at the picked (x, y); on a rendered plot the lookup succeeds with frequency f[idx] |
| `Controls.CheckRange` | src/gui/control_panel.py:71-81 | accepts iff both fields parse and 0 ≤ min < max, yielding exactly the inputs; an unparseable field, then min ≥ max, then min < 0 select the warning |
| `Controls.AcceptedRangeWindow` | src/gui/control_panel.py:76-84 | an accepted range satisfies 0 ≤ min < max and activates the x-window iff min > 0 |
| `Controls.OrderCheckedBeforeSign` | src/gui/control_panel.py:76-80 | (−1, −2) reports the ordering error, not the sign error |
| `Controls.Toggled` | src/gui/control_panel.py:63-67 | after a toggle the trace is visible iff checked, and every other trace is as before |
| `Controls.ToggleProperties` | src/gui/control_panel.py:63-67 | discarding an absent trace changes nothing, unchecking then re-checking a visible trace restores the set, and checking twice is checking once |
| `Controls.UncheckingLastShowsAll` | src/gui/control_panel.py:63-67 | unchecking the only visible trace empties the set, and then every trace is drawn |
| `Controls.ControlPanel.constructor` | src/gui/control_panel.py:12-58 | one checkbox per trace name, checked iff the name is visible; the fields show the config's bounds |
| `Controls.ControlPanel.OnTraceToggled` | src/gui/control_panel.py:63-69 | adds or discards the trace; plot type and bounds are unchanged |
| `Controls.ControlPanel.ClickCheckbox` | src/gui/control_panel.py:28-31 | flips one checkbox and applies the toggle, keeping every checkbox in agreement with the visible set |
| `Controls.ControlPanel.OnFreqChanged` | src/gui/control_panel.py:71-91 | an accepted range becomes the config's bounds; a rejected one leaves the config unchanged, reports its warning and resets both fields to the config's bounds; plot type and traces are untouched |
| `Controls.ControlPanel.EditRange` | src/gui/control_panel.py:47-56 | finishing an edit validates the fields' new contents as above |
| `Tabs.ButtonsSelectTypes` | src/gui/tabs.py:68-74 | each plot type has exactly one button that selects it, and only an unknown button keeps the current type |
| `Tabs.FileTab.constructor` | src/gui/tabs.py:12-66 | a new tab shows every trace as magnitude in dB, with the magnitude button checked, every checkbox checked, bounds at the first and last frequency, and an x-window iff the first frequency is positive and the last is above it |
| `Tabs.FileTab.OnTypeChanged` | src/gui/tabs.py:68-79 | the mag/phase/Smith buttons select their plot type and any other button keeps it; traces and bounds are untouched and the plot is redrawn for the new type |
| `Tabs.FileTab.ClickTypeButton` | src/gui/tabs.py:34-76 | after a click on a group button, the checked button names the active plot type |
| `Tabs.FileTab.ClickTraceCheckbox` | src/gui/tabs.py:58-63 | a checkbox click toggles that trace in the shared config and the plot is redrawn from it |
| `Tabs.FileTab.EditRange` | src/gui/tabs.py:58-63 | an accepted range reaches the shared config and is shown; a rejected one leaves config and plot as they were |
| `Tabs.FileTab.Pick` | src/gui/tabs.py:52-63 | a pick on a drawn line of a tab always resolves, to frequency f[idx] and the sample at the first index holding it |

## Left out

- Floating point: `np.abs`, `np.log10`, `np.angle` and `np.degrees` are opaque function parameters, and frequencies and complex parts are `real`. NaN and infinities are not modelled. A NaN frequency bound would pass the range check in the source (every comparison with NaN is false), and the two zero-magnitude rules part ways on NaN: the series rule `s_abs == 0` (src/models/dataset.py:77) leaves a NaN magnitude as it is, so the series shows NaN dB, while the point rule `np.abs(val) > 0` (src/models/dataset.py:99) is false for NaN and substitutes 1e-12, so the point lookup reports 20·log10(1e-12). `Dataset.PointAgreesWithSeries` therefore does not carry over to NaN samples.
- Drawing and widgets: axis labels, grids, the legend, `axis('equal')`, the Smith grid call and its fallback text, `canvas.draw`, annotation styling, and the formatted annotation text (GHz, decimals) are not modelled. The axes are reduced to the list of drawn lines and the x-limits, and the annotation to its position, its name and the looked-up point.
- Qt signals are modelled as direct calls. `configChanged` is modelled by the tab methods that call the panel's handler and then `refresh_plot`. The warning dialog is modelled as the returned warning kind; its text (`str(e)`) is not modelled.
- `TabManager` (src/gui/tabs.py:82-104), `src/gui/main_window.py` and `src/app.py`: tab bookkeeping, menus, the file dialog and application start-up are Qt plumbing and are not part of this model.
- Touchstone parsing by scikit-rf and `os.path.exists` are inputs to `Loader.LoadTouchstoneFile`. The parsed network is assumed well shaped: one n×n matrix per frequency.
- Text parsing: `float()` on the frequency fields is an already parsed `Option<real>` (`None` when conversion fails). The conversion error's own message is not modelled. `int()` on a name's digits accepts ASCII digits only, whereas Python also accepts other Unicode decimal digits.
- `Loader.Basename` splits on '/' only (POSIX `os.path.basename`).
- `Tabs.FileTab.constructor` requires at most nine ports. With ten or more, the source's initial redraw raises a parse error out of the constructor, as `PlotView.PlotFailsFromTenPorts` shows; the model does not construct such a tab.
- `Tabs.FileTab.constructor` requires a non-empty frequency vector. With an empty one the source raises IndexError at `frequencies[0]`.
- There is no frequency mask on the Smith chart and no persistent marker list: `plot_smith` draws the full series (src/gui/plot_widget.py:104-106) and each pick overwrites the single annotation (src/gui/plot_widget.py:151-153).
- `PlotView.PlotWidget.RefreshPlot`: `annot` models only the annotation's attributes (position, text, visible flag), not whether it is attached to the axes. In the source, `ax.clear()` in `refresh_plot` (src/gui/plot_widget.py:42) removes the annotation created once in `__init__` (src/gui/plot_widget.py:24-27) and nothing adds it back; since every tab redraws before any pick, the `visible` flag that `PlotView.PlotWidget.OnPick` and `Tabs.FileTab.Pick` set does not mean the tooltip is drawn.
- `ViewportConfig.visible_traces` uses `field(default_factory=set)` (src/models/view_config.py:13) so that configs do not share one mutable set; in the model the trace set is a value, so every config has its own set by construction and there is no aliasing to rule out.
