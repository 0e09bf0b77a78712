/** The loaded network (`SParameterDataset`): trace naming, index parsing,
    per-trace series and the nearest-sample lookup. */
module Dataset {
  import opened Wrappers

  /** One complex S-parameter sample. */
  datatype Complex = Complex(re: real, im: real)

  /** What the external Touchstone parser hands over: the frequency vector (Hz),
      the tensor `s[k][row][col]` and the number of ports. */
  datatype Network = Network(f: seq<real>, s: seq<seq<seq<Complex>>>, numberOfPorts: nat)

  predicate IsSquare(m: seq<seq<Complex>>, n: nat) {
    |m| == n && forall r :: 0 <= r < n ==> |m[r]| == n
  }

  /** The array shape (N, P, P) the parser guarantees. */
  predicate WellShaped(net: Network) {
    |net.s| == |net.f| && forall k :: 0 <= k < |net.s| ==> IsSquare(net.s[k], net.numberOfPorts)
  }

  datatype SParameterDataset = SParameterDataset(network: Network, filename: string, filepath: string) {
    function Frequencies(): seq<real> { network.f }
    function PortCount(): nat { network.numberOfPorts }
  }

  /** Python's `ValueError`, with its message. */
  datatype ValueError = ValueError(message: string)

  /** The floating-point primitives the source takes from numpy (`abs`, `log10`,
      `angle`, `degrees`); the model treats them as given functions. */
  datatype Numerics = Numerics(abs: Complex -> real, log10: real -> real,
                               angle: Complex -> real, degrees: real -> real)

  ghost predicate AbsNonNegative(num: Numerics) {
    forall z :: num.abs(z) >= 0.0
  }

  // ---------------------------------------------------------------------------
  // Trace names
  // ---------------------------------------------------------------------------

  function DigitChar(d: nat): (c: char)
    requires d < 10
    ensures '0' <= c <= '9' && c as int - '0' as int == d
  {
    ('0' as int + d) as char
  }

  /** Decimal rendering of a natural number, as an f-string gives it. */
  function NatToString(n: nat): (s: string)
    ensures |s| >= 1
    decreases n
  {
    if n < 10 then [DigitChar(n)] else NatToString(n / 10) + [DigitChar(n % 10)]
  }

  /** The name `S{i}{j}` of the trace from port j to port i. */
  function ParameterName(i: nat, j: nat): string {
    "S" + NatToString(i) + NatToString(j)
  }

  /** Names `S{i}1 .. S{i}{cols}`: one pass of the inner loop. */
  function RowNames(i: nat, cols: nat): (row: seq<string>)
    ensures |row| == cols
  {
    if cols == 0 then [] else RowNames(i, cols - 1) + [ParameterName(i, cols)]
  }

  /** Rows 1..rows of the names of an n-port network. */
  function NamesUpToRow(n: nat, rows: nat): seq<string> {
    if rows == 0 then [] else NamesUpToRow(n, rows - 1) + RowNames(rows, n)
  }

  /** All trace names of an n-port network, row after row. */
  function ParameterNamesOf(n: nat): (names: seq<string>)
    ensures |names| == n * n
  {
    NamesUpToRowLength(n, n);
    NamesUpToRow(n, n)
  }

  /** `parameter_names`: nested loops appending `S{i}{j}`. */
  method ParameterNames(ds: SParameterDataset) returns (names: seq<string>)
    ensures names == ParameterNamesOf(ds.PortCount())
  {
    names := [];
    var n := ds.PortCount();
    var i := 1;
    while i < n + 1
      invariant 1 <= i <= n + 1
      invariant names == NamesUpToRow(n, i - 1)
    {
      var j := 1;
      while j < n + 1
        invariant 1 <= j <= n + 1
        invariant names == NamesUpToRow(n, i - 1) + RowNames(i, j - 1)
      {
        names := names + [ParameterName(i, j)];
        j := j + 1;
      }
      i := i + 1;
    }
  }

  lemma {:induction false} RowNamesAt(i: nat, cols: nat, j: nat)
    requires j < cols
    ensures RowNames(i, cols)[j] == ParameterName(i, j + 1)
  {
    if j < cols - 1 {
      RowNamesAt(i, cols - 1, j);
    }
  }

  lemma {:induction false} NamesUpToRowLength(n: nat, rows: nat)
    ensures |NamesUpToRow(n, rows)| == rows * n
  {
    if rows > 0 {
      NamesUpToRowLength(n, rows - 1);
      assert (rows - 1) * n + n == rows * n;
    }
  }

  lemma MultipleBounds(n: nat, d: int)
    ensures d >= 1 ==> n * d >= n
    ensures d <= -1 ==> n * d + n <= 0
  {
  }

  lemma {:induction false} NamesUpToRowAt(n: nat, rows: nat, q: nat, c: nat)
    requires q < rows && c < n
    ensures q * n + c < |NamesUpToRow(n, rows)|
    ensures NamesUpToRow(n, rows)[q * n + c] == ParameterName(q + 1, c + 1)
  {
    NamesUpToRowLength(n, rows);
    NamesUpToRowLength(n, rows - 1);
    RowMajorBelow(q, c, n, rows);
    if q < rows - 1 {
      NamesUpToRowAt(n, rows - 1, q, c);
    } else {
      RowNamesAt(rows, n, c);
    }
  }

  /** `parameter_names` has n*n entries in row-major order. */
  lemma ParameterNamesRowMajor(n: nat, q: nat, c: nat)
    requires q < n && c < n
    ensures q * n + c < |ParameterNamesOf(n)|
    ensures ParameterNamesOf(n)[q * n + c] == ParameterName(q + 1, c + 1)
  {
    NamesUpToRowAt(n, n, q, c);
  }

  // ---------------------------------------------------------------------------
  // Parsing a name back to indices
  // ---------------------------------------------------------------------------

  /** `int(c)` for a single ASCII character. */
  function DigitValue(c: char): Option<nat> {
    if '0' <= c <= '9' then Some(c as int - '0' as int) else None
  }

  /** The character is a digit naming one of ports 1..portCount. */
  predicate IsPortDigit(c: char, portCount: nat) {
    '1' <= c <= '9' && c as int - '0' as int <= portCount
  }

  /** `_get_indices`: only characters 1 and 2 are read; the out-of-range raise
      sits inside the `try`, so it surfaces as "Could not parse indices". */
  function GetIndices(portCount: nat, name: string): (r: Result<(nat, nat), ValueError>)
    ensures r.Ok? <==> |name| >= 3 && name[0] == 'S'
                       && IsPortDigit(name[1], portCount) && IsPortDigit(name[2], portCount)
    ensures r.Ok? ==> r.value.0 < portCount && r.value.1 < portCount
                      && r.value.0 + 1 == name[1] as int - '0' as int
                      && r.value.1 + 1 == name[2] as int - '0' as int
    ensures r.Err? && (|name| < 3 || name[0] != 'S') ==>
              r.error.message == "Invalid parameter name: " + name
    ensures r.Err? && |name| >= 3 && name[0] == 'S' ==>
              r.error.message == "Could not parse indices from " + name
  {
    if |name| == 0 || name[0] != 'S' || |name| < 3 then
      Err(ValueError("Invalid parameter name: " + name))
    else
      var couldNotParse := Err(ValueError("Could not parse indices from " + name));
      match (DigitValue(name[1]), DigitValue(name[2]))
      case (Some(d1), Some(d2)) =>
        var row := d1 as int - 1;
        var col := d2 as int - 1;
        if row < 0 || row >= portCount || col < 0 || col >= portCount then couldNotParse
        else Ok((row as nat, col as nat))
      case _ => couldNotParse
  }

  /** Characters after the third are ignored ("S123" reads as "S12"). */
  lemma TrailingCharactersIgnored(portCount: nat, name: string)
    requires |name| >= 3
    ensures GetIndices(portCount, name).Ok? <==> GetIndices(portCount, name[..3]).Ok?
    ensures GetIndices(portCount, name).Ok? ==>
              GetIndices(portCount, name).value == GetIndices(portCount, name[..3]).value
  {
  }

  lemma S123OnThreePorts()
    ensures GetIndices(3, "S123") == Ok((0, 1))
  {
  }

  lemma S99OnTwoPorts()
    ensures GetIndices(2, "S99") == Err(ValueError("Could not parse indices from S99"))
  {
    assert "Could not parse indices from " + "S99" == "Could not parse indices from S99";
  }

  lemma SingleDigitString(d: nat)
    requires d < 10
    ensures NatToString(d) == [DigitChar(d)]
  {
  }

  /** A generated name with single-digit ports parses back to its indices. */
  lemma ParameterNameParses(n: nat, i: nat, j: nat)
    requires 1 <= i <= n && 1 <= j <= n && n <= 9
    ensures GetIndices(n, ParameterName(i, j)) == Ok((i - 1, j - 1))
  {
    SingleDigitString(i);
    SingleDigitString(j);
    var name := ParameterName(i, j);
    assert name == ['S', DigitChar(i), DigitChar(j)];
  }

  lemma KOverNBelowN(n: nat, k: nat)
    requires k < n * n
    ensures k / n < n && k % n < n
  {
  }

  /** Round trip: for at most nine ports, entry k of `parameter_names` parses
      back to (k / n, k % n). */
  lemma GetIndicesRoundTrip(n: nat, k: nat)
    requires n <= 9 && k < n * n
    ensures GetIndices(n, ParameterNamesOf(n)[k]) == Ok((k / n, k % n))
  {
    KOverNBelowN(n, k);
    var q, c := k / n, k % n;
    assert k == q * n + c;
    ParameterNamesRowMajor(n, q, c);
    ParameterNameParses(n, q + 1, c + 1);
  }

  /** For at most nine ports the trace names are pairwise distinct. */
  lemma ParameterNamesDistinct(n: nat, k: nat, m: nat)
    requires n <= 9 && k < n * n && m < n * n && k != m
    ensures ParameterNamesOf(n)[k] != ParameterNamesOf(n)[m]
  {
    GetIndicesRoundTrip(n, k);
    GetIndicesRoundTrip(n, m);
    RowMajorInjective(n, k, m);
  }

  lemma RowMajorInjective(n: nat, k: nat, m: nat)
    requires n > 0 && k != m
    ensures k / n != m / n || k % n != m % n
  {
  }

  /** For at most nine ports, a three-character name is generated iff it parses. */
  lemma GeneratedIffParses(n: nat, name: string)
    requires n <= 9 && |name| == 3
    ensures (exists k :: 0 <= k < |ParameterNamesOf(n)| && ParameterNamesOf(n)[k] == name)
            <==> GetIndices(n, name).Ok?
  {
    if exists k :: 0 <= k < |ParameterNamesOf(n)| && ParameterNamesOf(n)[k] == name {
      GeneratedNameParses(n, name);
    }
    if GetIndices(n, name).Ok? {
      ParsedNameHasIndex(n, name);
    }
  }

  lemma ParsedNameHasIndex(n: nat, name: string)
    requires n <= 9 && |name| == 3 && GetIndices(n, name).Ok?
    ensures exists k :: 0 <= k < |ParameterNamesOf(n)| && ParameterNamesOf(n)[k] == name
  {
    var (row, col) := GetIndices(n, name).value;
    ParsedNameIsGenerated(n, name, row, col);
    var k := row * n + col;
    assert ParameterNamesOf(n)[k] == name;
  }

  lemma GeneratedNameParses(n: nat, name: string)
    requires n <= 9 && exists k :: 0 <= k < |ParameterNamesOf(n)| && ParameterNamesOf(n)[k] == name
    ensures GetIndices(n, name).Ok?
  {
    var k :| 0 <= k < |ParameterNamesOf(n)| && ParameterNamesOf(n)[k] == name;
    GetIndicesRoundTrip(n, k);
  }

  /** A parsed name (row, col) is the generated name at index row * n + col. */
  lemma ParsedNameIsGenerated(n: nat, name: string, row: nat, col: nat)
    requires n <= 9 && |name| == 3 && GetIndices(n, name) == Ok((row, col))
    ensures row * n + col < |ParameterNamesOf(n)| && ParameterNamesOf(n)[row * n + col] == name
  {
    ParsedNameShape(n, name);
    ParameterNamesRowMajor(n, row, col);
  }

  lemma ParsedNameShape(n: nat, name: string)
    requires |name| == 3 && GetIndices(n, name).Ok?
    ensures name == ParameterName(GetIndices(n, name).value.0 + 1, GetIndices(n, name).value.1 + 1)
  {
    var (row, col) := GetIndices(n, name).value;
    SingleDigitString(row + 1);
    SingleDigitString(col + 1);
  }

  lemma RowMajorBelow(row: nat, col: nat, n: nat, rows: nat)
    requires row < rows && col < n
    ensures row * n + col < rows * n
  {
    MultipleBounds(n, (rows - 1 - row) as int);
  }

  /** With ten or more ports the round trip breaks: the name of trace (1, 10)
      is "S110", which parses as (0, 0), and the name of trace (10, 1) is
      "S101", which does not parse at all. */
  lemma RoundTripFailsFromTenPorts(n: nat)
    requires n >= 10
    ensures ParameterNamesOf(n)[9] == "S110"
    ensures GetIndices(n, ParameterNamesOf(n)[9]) == Ok((0, 0))
    ensures 9 * n < |ParameterNamesOf(n)| && ParameterNamesOf(n)[9 * n] == "S101"
    ensures 9 * n < |ParameterNamesOf(n)| && GetIndices(n, ParameterNamesOf(n)[9 * n]).Err?
  {
    ParameterNamesRowMajor(n, 0, 9);
    assert NatToString(10) == "10";
    ParameterNamesRowMajor(n, 9, 0);
  }

  // ---------------------------------------------------------------------------
  // Series
  // ---------------------------------------------------------------------------

  /** `get_complex_data`: the whole frequency vector and `s[:, row, col]`. */
  function GetComplexData(ds: SParameterDataset, name: string): (r: Result<(seq<real>, seq<Complex>), ValueError>)
    requires WellShaped(ds.network)
    ensures r.Ok? <==> GetIndices(ds.PortCount(), name).Ok?
    ensures r.Err? ==> r.error == GetIndices(ds.PortCount(), name).error
    ensures r.Ok? ==>
              var rc := GetIndices(ds.PortCount(), name).value;
              r.value.0 == ds.Frequencies() && |r.value.1| == |ds.Frequencies()| &&
              forall k :: 0 <= k < |r.value.1| ==> r.value.1[k] == ds.network.s[k][rc.0][rc.1]
  {
    match GetIndices(ds.PortCount(), name)
    case Err(e) => Err(e)
    case Ok((row, col)) =>
      var s := ds.network.s;
      Ok((ds.Frequencies(), seq(|s|, k requires 0 <= k < |s| => s[k][row][col])))
  }

  /** The trace named `S{i+1}{j+1}` carries column j of row i of every sample. */
  lemma ComplexSeriesOfGeneratedName(ds: SParameterDataset, i: nat, j: nat, k: nat)
    requires WellShaped(ds.network) && ds.PortCount() <= 9
    requires i < ds.PortCount() && j < ds.PortCount() && k < |ds.Frequencies()|
    ensures GetComplexData(ds, ParameterName(i + 1, j + 1)).Ok?
    ensures GetComplexData(ds, ParameterName(i + 1, j + 1)).value.1[k] == ds.network.s[k][i][j]
  {
    ParameterNameParses(ds.PortCount(), i + 1, j + 1);
  }

  const MagnitudeFloor: real := 1.0e-12

  /** The series rule (line 77): an exactly-zero magnitude is replaced by the floor. */
  function FloorZero(x: real): real {
    if x == 0.0 then MagnitudeFloor else x
  }

  /** The point rule (line 99): a positive magnitude is kept, otherwise the floor. */
  function FloorNonPositive(x: real): real {
    if x > 0.0 then x else MagnitudeFloor
  }

  function ToDb(num: Numerics, x: real): real {
    20.0 * num.log10(x)
  }

  function MagnitudeDbSeries(num: Numerics, series: seq<Complex>): (db: seq<real>)
    ensures |db| == |series|
  {
    seq(|series|, k requires 0 <= k < |series| => ToDb(num, FloorZero(num.abs(series[k]))))
  }

  function PhaseDegSeries(num: Numerics, series: seq<Complex>): (deg: seq<real>)
    ensures |deg| == |series|
  {
    seq(|series|, k requires 0 <= k < |series| => num.degrees(num.angle(series[k])))
  }

  /** `s_abs[s_abs == 0] = 1e-12`, in place. */
  method ClampZeros(a: array<real>)
    modifies a
    ensures forall k :: 0 <= k < a.Length ==> a[k] == FloorZero(old(a[k]))
  {
    var k := 0;
    while k < a.Length
      invariant 0 <= k <= a.Length
      invariant forall m :: 0 <= m < k ==> a[m] == FloorZero(old(a[m]))
      invariant forall m :: k <= m < a.Length ==> a[m] == old(a[m])
    {
      if a[k] == 0.0 {
        a[k] := MagnitudeFloor;
      }
      k := k + 1;
    }
  }

  /** `get_magnitude_db`: magnitudes of the trace, zeros clamped to the floor,
      converted to dB. */
  method GetMagnitudeDb(ds: SParameterDataset, num: Numerics, name: string)
    returns (r: Result<(seq<real>, seq<real>), ValueError>)
    requires WellShaped(ds.network)
    ensures r.Ok? <==> GetIndices(ds.PortCount(), name).Ok?
    ensures r.Err? ==> r.error == GetIndices(ds.PortCount(), name).error
    ensures r.Ok? ==>
              var rc := GetIndices(ds.PortCount(), name).value;
              r.value.0 == ds.Frequencies() && |r.value.1| == |ds.Frequencies()| &&
              forall k :: 0 <= k < |r.value.1| ==>
                r.value.1[k] == ToDb(num, FloorZero(num.abs(ds.network.s[k][rc.0][rc.1])))
    ensures r.Ok? ==> r.value.1 == MagnitudeDbSeries(num, GetComplexData(ds, name).value.1)
  {
    var data := GetComplexData(ds, name);
    if data.Err? {
      return Err(data.error);
    }
    var (freq, s) := data.value;
    var sAbs := new real[|s|](k requires 0 <= k < |s| => num.abs(s[k]));
    ClampZeros(sAbs);
    var magDb := seq(sAbs.Length, k requires 0 <= k < sAbs.Length reads sAbs => ToDb(num, sAbs[k]));
    r := Ok((freq, magDb));
  }

  /** `get_phase_deg`: the angle of every sample of the trace, in degrees. */
  function GetPhaseDeg(ds: SParameterDataset, num: Numerics, name: string)
    : (r: Result<(seq<real>, seq<real>), ValueError>)
    requires WellShaped(ds.network)
    ensures r.Ok? <==> GetIndices(ds.PortCount(), name).Ok?
    ensures r.Err? ==> r.error == GetIndices(ds.PortCount(), name).error
    ensures r.Ok? ==>
              var rc := GetIndices(ds.PortCount(), name).value;
              r.value.0 == ds.Frequencies() && |r.value.1| == |ds.Frequencies()| &&
              forall k :: 0 <= k < |r.value.1| ==>
                r.value.1[k] == num.degrees(num.angle(ds.network.s[k][rc.0][rc.1]))
  {
    match GetComplexData(ds, name)
    case Err(e) => Err(e)
    case Ok((freq, s)) => Ok((freq, PhaseDegSeries(num, s)))
  }

  // ---------------------------------------------------------------------------
  // Nearest sample
  // ---------------------------------------------------------------------------

  function Dist(a: real, b: real): real {
    if a >= b then a - b else b - a
  }

  /** `argmin(|f - target|)`: the first index at the least distance. */
  function NearestIndex(f: seq<real>, target: real): (idx: nat)
    requires |f| > 0
    ensures idx < |f|
    ensures forall k :: 0 <= k < |f| ==> Dist(f[idx], target) <= Dist(f[k], target)
    ensures forall k :: 0 <= k < idx ==> Dist(f[k], target) > Dist(f[idx], target)
    decreases |f|
  {
    if |f| == 1 then 0
    else
      var j := NearestIndex(f[..|f| - 1], target);
      if Dist(f[|f| - 1], target) < Dist(f[j], target) then |f| - 1 else j
  }

  /** The first index at which `x` occurs in `f`. */
  function FirstIndexOf(f: seq<real>, x: real): (idx: nat)
    requires x in f
    ensures idx < |f| && f[idx] == x
    ensures forall k :: 0 <= k < idx ==> f[k] != x
  {
    if f[0] == x then 0 else 1 + FirstIndexOf(f[1..], x)
  }

  /** Looking up a frequency that is a sample selects the first sample with that
      frequency; with distinct frequencies, that sample itself. */
  lemma NearestOfSampleIsFirstEqual(f: seq<real>, k: nat)
    requires k < |f|
    ensures NearestIndex(f, f[k]) == FirstIndexOf(f, f[k]) <= k
    ensures (forall a, b :: 0 <= a < b < |f| ==> f[a] != f[b]) ==> NearestIndex(f, f[k]) == k
  {
  }

  datatype NearestPoint = NearestPoint(frequency: real, magnitudeDb: real, phaseDeg: real,
                                       complexValue: Complex)

  const EmptyArgminMessage := "attempt to get argmin of an empty sequence"

  /** `find_nearest_data_point`: the argmin runs before the name is parsed, so an
      empty frequency vector fails first. */
  function FindNearestDataPoint(ds: SParameterDataset, num: Numerics, name: string, target: real)
    : (r: Result<NearestPoint, ValueError>)
    requires WellShaped(ds.network)
    ensures |ds.Frequencies()| == 0 ==> r == Err(ValueError(EmptyArgminMessage))
    ensures |ds.Frequencies()| > 0 ==> (r.Ok? <==> GetIndices(ds.PortCount(), name).Ok?)
    ensures |ds.Frequencies()| > 0 && r.Err? ==> r.error == GetIndices(ds.PortCount(), name).error
    ensures r.Ok? ==>
              var f := ds.Frequencies();
              var rc := GetIndices(ds.PortCount(), name).value;
              var idx := NearestIndex(f, target);
              var val := ds.network.s[idx][rc.0][rc.1];
              r.value.frequency == f[idx] &&
              (forall k :: 0 <= k < |f| ==> Dist(r.value.frequency, target) <= Dist(f[k], target)) &&
              r.value.complexValue == val &&
              r.value.magnitudeDb == ToDb(num, FloorNonPositive(num.abs(val))) &&
              r.value.phaseDeg == num.degrees(num.angle(val))
  {
    var f := ds.Frequencies();
    if |f| == 0 then Err(ValueError(EmptyArgminMessage))
    else
      var idx := NearestIndex(f, target);
      match GetComplexData(ds, name)
      case Err(e) => Err(e)
      case Ok((_, s)) =>
        var val := s[idx];
        var absVal := num.abs(val);
        Ok(NearestPoint(f[idx], ToDb(num, if absVal > 0.0 then absVal else MagnitudeFloor),
                        num.degrees(num.angle(val)), val))
  }

  /** A target equal to sample k's frequency returns exactly that frequency, and
      the sample of the first index with it. */
  lemma NearestAtSampleFrequency(ds: SParameterDataset, num: Numerics, name: string, k: nat)
    requires WellShaped(ds.network) && GetIndices(ds.PortCount(), name).Ok?
    requires k < |ds.Frequencies()|
    ensures FindNearestDataPoint(ds, num, name, ds.Frequencies()[k]).Ok?
    ensures FindNearestDataPoint(ds, num, name, ds.Frequencies()[k]).value.frequency == ds.Frequencies()[k]
    ensures var rc := GetIndices(ds.PortCount(), name).value;
            FindNearestDataPoint(ds, num, name, ds.Frequencies()[k]).value.complexValue
              == ds.network.s[FirstIndexOf(ds.Frequencies(), ds.Frequencies()[k])][rc.0][rc.1]
  {
    NearestOfSampleIsFirstEqual(ds.Frequencies(), k);
  }

  /** The point lookup and the series agree at the chosen index: the two clamp
      rules select the floor for the same inputs when magnitudes are never negative. */
  lemma PointAgreesWithSeries(ds: SParameterDataset, num: Numerics, name: string, target: real)
    requires WellShaped(ds.network) && AbsNonNegative(num)
    requires FindNearestDataPoint(ds, num, name, target).Ok?
    ensures var p := FindNearestDataPoint(ds, num, name, target).value;
            var s := GetComplexData(ds, name).value.1;
            var idx := NearestIndex(ds.Frequencies(), target);
            p.complexValue == s[idx] &&
            p.magnitudeDb == MagnitudeDbSeries(num, s)[idx] &&
            p.phaseDeg == PhaseDegSeries(num, s)[idx]
  {
    var s := GetComplexData(ds, name).value.1;
    var idx := NearestIndex(ds.Frequencies(), target);
    assert num.abs(s[idx]) >= 0.0;
  }
}
