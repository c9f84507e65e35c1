/** `generate_grid_dataframe`: draws (here: receives) the random grids, turns
    them into the value grid of the chosen autocorrelation mode, and builds
    the frame of n * n cells with their index, value and unit-square
    geometry. The cluster mode accumulates into a 2-D array in place, as the
    NumPy code does with `+=`. */
module Geodata {
  import opened GridLayout
  import opened Autocorrelation

  /** The random draws of one call, which NumPy takes from its global
      generator after seeding it. */
  datatype Draws = Draws(
    base: seq<seq<real>>,   // normal(0.5, 0.125, (n, n)), drawn in every mode
    noise: seq<seq<real>>,  // normal(0, 0.05, (n, n)) of the negative and cluster modes
    centres: seq<Centre>,   // randint(0, n, (2, 2)) of the cluster mode, as (row, column)
    amplitudes: seq<real>)  // normal(0.5, 0.2) once per cluster centre

  /** The floating-point library parts: SciPy's gaussian_filter(., sigma=1.5)
      and the decay exp(-d / (2 * radius ** 2)) of squared distance d. */
  datatype Numerics = Numerics(smooth: seq<seq<real>> -> seq<seq<real>>, decay: (nat, nat) -> real)

  /** What NumPy and SciPy hand back for a grid of side n: n x n grids, one
      amplitude per centre, and (when n > 0) two centres inside the grid. */
  predicate WellFormedDraws(n: nat, draws: Draws, numerics: Numerics)
  {
    IsGrid(draws.base, n) && IsGrid(draws.noise, n) && IsGrid(numerics.smooth(draws.base), n) &&
    |draws.amplitudes| == ClusterCount && |draws.centres| == ClusterCount &&
    (n > 0 ==> ValidCentres(draws.centres, n))
  }

  /** The value grid each mode produces. Whatever the mode, it is an n x n grid. */
  function ModeValues(n: nat, mode: Mode, draws: Draws, numerics: Numerics): (g: seq<seq<real>>)
    requires WellFormedDraws(n, draws, numerics)
    ensures IsGrid(g, n)
  {
    match mode
    case NoCorrelation => draws.base
    case Positive => numerics.smooth(draws.base)
    case Negative => NegativeValues(numerics.smooth(draws.base), draws.noise, n)
    case Cluster => ClusterGrid(n, draws.centres, draws.amplitudes, draws.noise, numerics.decay)
  }

  /** The rows of a 2-D array as a grid. */
  function Rows(a: array2<real>): (g: seq<seq<real>>)
    reads a
    ensures |g| == a.Length0 && Rectangular(g, a.Length1)
    ensures forall y, x :: 0 <= y < a.Length0 && 0 <= x < a.Length1 ==> g[y][x] == a[y, x]
  {
    seq(a.Length0, y requires 0 <= y < a.Length0 reads a =>
      seq(a.Length1, x requires 0 <= x < a.Length1 reads a => a[y, x]))
  }

  /** `values += cluster_effect * amplitude` for one centre: every cell of the
      square array gains decay(its squared distance to the centre) * amplitude. */
  method AddCentreEffect(values: array2<real>, centre: Centre, amplitude: real,
                         decay: (nat, nat) -> real, radius: nat)
    requires values.Length0 == values.Length1
    modifies values
    ensures forall y, x :: 0 <= y < values.Length0 && 0 <= x < values.Length1 ==>
      values[y, x] == old(values[y, x]) + decay(SquaredDistance(y, x, centre), radius) * amplitude
  {
    var n := values.Length0;
    for y := 0 to n
      invariant forall y', x :: 0 <= y' < y && 0 <= x < n ==>
        values[y', x] == old(values[y', x]) + decay(SquaredDistance(y', x, centre), radius) * amplitude
      invariant forall y', x :: y <= y' < n && 0 <= x < n ==> values[y', x] == old(values[y', x])
    {
      for x := 0 to n
        invariant forall y', x' :: 0 <= y' < y && 0 <= x' < n ==>
          values[y', x'] == old(values[y', x']) + decay(SquaredDistance(y', x', centre), radius) * amplitude
        invariant forall x' :: 0 <= x' < x ==>
          values[y, x'] == old(values[y, x']) + decay(SquaredDistance(y, x', centre), radius) * amplitude
        invariant forall y', x' :: y <= y' < n && 0 <= x' < n && (y' != y || x <= x') ==>
          values[y', x'] == old(values[y', x'])
      {
        values[y, x] := values[y, x] + decay(SquaredDistance(y, x, centre), radius) * amplitude;
      }
    }
  }

  /** The `for center in cluster_centers` loop: afterwards every cell holds its
      old value plus the cluster effect of all centres. */
  method AddClusterEffects(values: array2<real>, centres: seq<Centre>, amplitudes: seq<real>,
                           decay: (nat, nat) -> real, radius: nat)
    requires values.Length0 == values.Length1 && |amplitudes| == |centres|
    modifies values
    ensures forall y, x :: 0 <= y < values.Length0 && 0 <= x < values.Length1 ==>
      values[y, x] == old(values[y, x]) + ClusterField(y, x, centres, amplitudes, decay, radius, |centres|)
  {
    var n := values.Length0;
    for k := 0 to |centres|
      invariant forall y, x :: 0 <= y < n && 0 <= x < n ==>
        values[y, x] == old(values[y, x]) + ClusterField(y, x, centres, amplitudes, decay, radius, k)
    {
      label Before:
      AddCentreEffect(values, centres[k], amplitudes[k], decay, radius);
      forall y, x | 0 <= y < n && 0 <= x < n
        ensures values[y, x] == old(values[y, x]) + ClusterField(y, x, centres, amplitudes, decay, radius, k + 1)
      {
        ClusterFieldStep(y, x, centres, amplitudes, decay, radius, k + 1);
        assert values[y, x] == old@Before(values[y, x]) + decay(SquaredDistance(y, x, centres[k]), radius) * amplitudes[k];
      }
    }
  }

  /** `values += noise` on the whole array. */
  method AddNoise(values: array2<real>, noise: seq<seq<real>>)
    requires IsGrid(noise, values.Length0) && values.Length1 == values.Length0
    modifies values
    ensures forall y, x :: 0 <= y < values.Length0 && 0 <= x < values.Length1 ==>
      values[y, x] == old(values[y, x]) + noise[y][x]
  {
    var n := values.Length0;
    for y := 0 to n
      invariant forall y', x :: 0 <= y' < y && 0 <= x < n ==> values[y', x] == old(values[y', x]) + noise[y'][x]
      invariant forall y', x :: y <= y' < n && 0 <= x < n ==> values[y', x] == old(values[y', x])
    {
      for x := 0 to n
        invariant forall y', x' :: 0 <= y' < y && 0 <= x' < n ==> values[y', x'] == old(values[y', x']) + noise[y'][x']
        invariant forall x' :: 0 <= x' < x ==> values[y, x'] == old(values[y, x']) + noise[y][x']
        invariant forall y', x' :: y <= y' < n && 0 <= x' < n && (y' != y || x <= x') ==>
          values[y', x'] == old(values[y', x'])
      {
        values[y, x] := values[y, x] + noise[y][x];
      }
    }
  }

  /** The cluster branch: start from zeros, add the effect of every centre
      with radius n // 4, then add background noise. The result is the
      cluster grid of the specification. */
  method ClusterValues(n: nat, centres: seq<Centre>, amplitudes: seq<real>, noise: seq<seq<real>>,
                       decay: (nat, nat) -> real) returns (g: seq<seq<real>>)
    requires |amplitudes| == |centres| && IsGrid(noise, n)
    ensures g == ClusterGrid(n, centres, amplitudes, noise, decay)
  {
    var values := new real[n, n]((y, x) => 0.0);
    var radius := ClusterRadius(n);
    AddClusterEffects(values, centres, amplitudes, decay, radius);
    AddNoise(values, noise);
    g := Rows(values);
    var spec := ClusterGrid(n, centres, amplitudes, noise, decay);
    forall y | 0 <= y < n
      ensures g[y] == spec[y]
    {
      assert forall x :: 0 <= x < n ==> g[y][x] == spec[y][x];
    }
  }

  /** A GeoDataFrame as three parallel columns. */
  datatype GridFrame = GridFrame(index: seq<nat>, value: seq<real>, geometry: seq<Polygon>)

  /** The if/elif chain that picks the value grid: the mode string is parsed,
      the cluster branch runs in place, and the other branches are the plain
      expressions of ModeValues. An unknown mode string is
      the invalid-argument error; the cluster mode on an empty grid is the
      empty-range error (NumPy cannot draw a centre from [0, 0)); every other call
      yields the n x n grid of its mode. */
  method SelectValues(n: nat, autocorrelation: string, draws: Draws, numerics: Numerics)
    returns (result: Result<seq<seq<real>>>)
    requires WellFormedDraws(n, draws, numerics)
    ensures result.Err? <==> autocorrelation !in ValidModeNames || (autocorrelation == "cluster" && n == 0)
    ensures autocorrelation !in ValidModeNames ==> result == Err(InvalidAutocorrelation(InvalidModeMessage))
    ensures autocorrelation == "cluster" && n == 0 ==> result == Err(EmptyCentreRange)
    ensures result.Ok? ==> result.value == ModeValues(n, ParseMode(autocorrelation).value, draws, numerics)
  {
    ParseModeAcceptsExactlyTheFour(autocorrelation);
    match ParseMode(autocorrelation)
    case Err(e) =>
      result := Err(e);
    case Ok(mode) =>
      if mode == Cluster {
        if n == 0 {
          return Err(EmptyCentreRange);
        }
        var values := ClusterValues(n, draws.centres, draws.amplitudes, draws.noise, numerics.decay);
        result := Ok(values);
      } else {
        result := Ok(ModeValues(n, mode, draws, numerics));
      }
  }

  /** np.arange(count): the indices 0, 1, ..., count - 1 in order. */
  method IndexColumn(count: nat) returns (index: seq<nat>)
    ensures |index| == count && forall j :: 0 <= j < count ==> index[j] == j
  {
    index := [];
    for i := 0 to count
      invariant |index| == i && forall j :: 0 <= j < i ==> index[j] == j
    {
      index := index + [i];
    }
  }

  /** `df.apply(calculate_square_coordinates, axis=1)`: the square of every
      index of the index column, in order. */
  method GeometryColumn(n: nat, index: seq<nat>) returns (geometry: seq<Polygon>)
    requires |index| == n * n && forall j :: 0 <= j < n * n ==> index[j] == j
    ensures |geometry| == n * n && forall j :: 0 <= j < n * n ==> geometry[j] == CellSquare(j, n)
  {
    geometry := [];
    for i := 0 to n * n
      invariant |geometry| == i && forall j :: 0 <= j < i ==> geometry[j] == CellSquare(j, n)
    {
      geometry := geometry + [CellSquare(index[i], n)];
    }
  }

  /** `values.ravel()` as the value column: cell i gets the value at grid row
      i // n, column i % n. */
  method ValueColumn(n: nat, values: seq<seq<real>>) returns (column: seq<real>)
    requires IsGrid(values, n)
    ensures |column| == n * n && forall i :: 0 <= i < n * n ==> column[i] == values[Position(i, n).y][Position(i, n).x]
  {
    column := Ravel(values);
    RavelLength(values, n);
    forall i | 0 <= i < n * n
      ensures column[i] == values[Position(i, n).y][Position(i, n).x]
    {
      RavelIndex(values, n, i);
    }
  }

  /** The frame for an n x n value grid: n * n rows, where row i has index i,
      the value at grid row i // n, column i % n, and the unit square of cell i. */
  method BuildFrame(n: nat, values: seq<seq<real>>) returns (f: GridFrame)
    requires IsGrid(values, n)
    ensures |f.index| == n * n && |f.value| == n * n && |f.geometry| == n * n
    ensures forall i :: 0 <= i < n * n ==> f.index[i] == i
    ensures forall i :: 0 <= i < n * n ==> f.value[i] == values[Position(i, n).y][Position(i, n).x]
    ensures forall i :: 0 <= i < n * n ==> f.geometry[i] == CellSquare(i, n)
  {
    var index := IndexColumn(n * n);
    var column := ValueColumn(n, values);
    var geometry := GeometryColumn(n, index);
    f := GridFrame(index, column, geometry);
  }

  /** The whole generator: the value grid of the chosen mode, laid out as a
      frame of n * n unit-square cells; the errors are those of SelectValues.
      The mode defaults to "positive". */
  method GenerateGridDataFrame(gridSideLength: nat, draws: Draws, numerics: Numerics,
                               autocorrelation: string := DefaultMode)
    returns (result: Result<GridFrame>)
    requires WellFormedDraws(gridSideLength, draws, numerics)
    ensures result.Err? <==>
      autocorrelation !in ValidModeNames || (autocorrelation == "cluster" && gridSideLength == 0)
    ensures autocorrelation !in ValidModeNames ==>
      result == Err(InvalidAutocorrelation(InvalidModeMessage))
    ensures autocorrelation == "cluster" && gridSideLength == 0 ==> result == Err(EmptyCentreRange)
    ensures result.Ok? ==>
      var n, f := gridSideLength, result.value;
      var grid := ModeValues(n, ParseMode(autocorrelation).value, draws, numerics);
      |f.index| == n * n && |f.value| == n * n && |f.geometry| == n * n &&
      forall i :: 0 <= i < n * n ==>
        f.index[i] == i && f.value[i] == grid[Position(i, n).y][Position(i, n).x] && f.geometry[i] == CellSquare(i, n)
  {
    var values := SelectValues(gridSideLength, autocorrelation, draws, numerics);
    match values
    case Err(e) =>
      result := Err(e);
    case Ok(grid) =>
      var frame := BuildFrame(gridSideLength, grid);
      result := Ok(frame);
  }
}
