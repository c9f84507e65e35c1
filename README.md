# Synthetic autocorrelated grid generator — Dafny model

This project models `generate_grid_dataframe` from
`experiment_2/utills/geodata.py` of the ornl-spatial-simulations notebooks. The
function builds an n x n grid of values under one of four spatial
autocorrelation modes (`none`, `positive`, `negative`, `cluster`). It then lays
the grid out as a GeoDataFrame of n² unit-square cells, one per flat index.

The model keeps everything about the generator that is exact integer logic:

- the cell count and the `Index` column;
- the index-to-position map `x = i % n`, `y = i // n`, and its inverse;
- the unit-square geometry of every cell;
- the row-major `ravel` of the value grid into the `Value` column;
- the mode dispatch and its invalid-argument error;
- the checkerboard sign of the `negative` mode;
- the radius, centres, squared distances and summed effect of the `cluster` mode.

Three modules follow the structure of the code:

- `GridLayout` (grid_layout.dfy) covers positions, squares, tiling and ravel. It is pure.
- `Autocorrelation` (autocorrelation.dfy) covers the mode strings, the checkerboard
  sign and the cluster-field specification. It is pure.
- `Geodata` (geodata.dfy) is the generator itself. It is imperative. The cluster
  branch starts from a zero `array2<real>`. For each centre it adds that
  centre's effect in place (`+=`), then it adds noise in place. These methods
  are proved against the specification function `ClusterGrid`. The `Index` and
  `geometry` columns are built by loops with invariants.

The random draws, SciPy's `gaussian_filter` and the `exp` decay are floating-point
work outside the core, so they are inputs:

- `Draws` holds the base grid, the noise grid, the two centres and their amplitudes.
- `Numerics` holds the smoothing function and the decay as a function of
  squared distance and radius.

`WellFormedDraws` states what NumPy and SciPy guarantee about these inputs:

- the grids are n x n;
- there is one amplitude per centre;
- `randint(0, n, (2, 2))` gives two centres whose coordinates lie in `[0, n)`.

The generator returns `Result<GridFrame>`. `GridFrame` holds the three parallel
columns `index`, `value` and `geometry`. A polygon is its list of four integer
corners.

Two error cases are modelled:

- Any mode string other than the four names gives
  `InvalidAutocorrelation` with the source's exact message.
- The `cluster` mode with `grid_side_length == 0` gives `EmptyCentreRange`.
  In that case the source's `np.random.randint(0, 0, ...)` raises `ValueError`
  before any value is computed. NumPy's message text is not modelled.

## Model

| member | source | states |
|---|---|---|
| `GridLayout.Position` | experiment_2/utills/geodata.py:84-86 | The position (i % n, i // n) of a flat index below n² lies on the n x n grid, and its flat index `y * n + x` is i again |
| `GridLayout.PositionOfFlatIndex` | experiment_2/utills/geodata.py:84-86 | Every grid position (x, y) has flat index below n², and that index maps back to (x, y); with `Position` this makes the index map a bijection from [0, n²) onto [0, n) x [0, n) |
| `GridLayout.PositionInjective` | experiment_2/utills/geodata.py:84-86 | Distinct flat indices get distinct positions |
| `GridLayout.CellSquare` | experiment_2/utills/geodata.py:83-87 | The square of cell i has four corners, is counter-clockwise with shoelace area 1, lies inside [0, n] x [0, n], and its first corner gives back i |
| `GridLayout.CellSquareInjective` | experiment_2/utills/geodata.py:83-90 | Two cells with the same square are the same cell |
| `GridLayout.CellAt` | experiment_2/utills/geodata.py:83-90 | Every point of [0, n) x [0, n) is covered by the square of some cell below n² |
| `GridLayout.SquaresDoNotOverlap` | experiment_2/utills/geodata.py:83-90 | No point is covered by the squares of two different cells, so the n² squares tile the region without overlap |
| `GridLayout.RavelAt` | experiment_2/utills/geodata.py:80 | Row-major flattening of rows of width w has length (number of rows) * w and puts row r, column c at position r * w + c |
| `GridLayout.RavelIndex` | experiment_2/utills/geodata.py:80-86 | In the flattened n x n grid, index i holds the value at the cell's own position, row i // n and column i % n |
| `GridLayout.ValueSitsOnItsSquare` | experiment_2/utills/geodata.py:80-87 | The value at grid row r, column c is stored at index r * n + c, whose square has its lower-left corner at x = c, y = r |
| `Autocorrelation.ParseMode` | experiment_2/utills/geodata.py:43-77 | An accepted mode string is exactly the name of the mode it selects; any other string gives the invalid-argument error with the message naming the four choices |
| `Autocorrelation.ParseModeAcceptsExactlyTheFour` | experiment_2/utills/geodata.py:43-77 | A string is accepted if and only if it is one of "none", "positive", "negative", "cluster" |
| `Autocorrelation.ParseModeName` | experiment_2/utills/geodata.py:43-77 | Parsing the name of each mode gives that mode back |
| `Autocorrelation.DefaultModeIsPositive` | experiment_2/utills/geodata.py:12 | The default argument "positive" selects the positive mode |
| `Autocorrelation.Checkerboard` | experiment_2/utills/geodata.py:51 | The checkerboard value (r + c) % 2 is 0 or 1 |
| `Autocorrelation.CheckerSign` | experiment_2/utills/geodata.py:51-52 | The factor (-1) ** checkerboard is +1 exactly on cells with r + c even and -1 exactly on cells with r + c odd |
| `Autocorrelation.AdjacentCellsHaveOppositeSigns` | experiment_2/utills/geodata.py:51-52 | Orthogonally adjacent cells receive opposite signs |
| `Autocorrelation.SameSignIffEvenDistance` | experiment_2/utills/geodata.py:51-52 | Two cells receive the same sign if and only if their Manhattan distance is even |
| `Autocorrelation.NegativeValues` | experiment_2/utills/geodata.py:49-54 | The negative-mode grid is n x n |
| `Autocorrelation.NegativeFlipsNeighbours` | experiment_2/utills/geodata.py:49-54 | Before noise, two adjacent cells with positive smoothed values get values of opposite sign |
| `Autocorrelation.ClusterRadius` | experiment_2/utills/geodata.py:62 | The radius n // 4 satisfies 4r <= n < 4r + 4, and it is 0 exactly when n < 4 |
| `Autocorrelation.CentreCellIsUnique` | experiment_2/utills/geodata.py:61-68 | A centre drawn by `randint(0, n)` lies on the grid, and its cell is the only grid cell at squared distance 0 from it |
| `Autocorrelation.SquaredDistance` | experiment_2/utills/geodata.py:66-68 | The squared distance (x - column)² + (y - row)² to a centre is 0 exactly at the centre |
| `Autocorrelation.DecayedSumAntitone` | experiment_2/utills/geodata.py:65-71 | With non-negative amplitudes and a decay that does not grow with distance, pointwise smaller distances give a sum at least as large |
| `Autocorrelation.ClusterFieldDecaysWithDistance` | experiment_2/utills/geodata.py:56-71 | Distance decay: a cell at least as close as another to every centre receives at least as much cluster effect |
| `Autocorrelation.ClusterGrid` | experiment_2/utills/geodata.py:56-74 | The cluster-mode grid is n x n |
| `Geodata.ModeValues` | experiment_2/utills/geodata.py:34-77 | In every mode the value grid has shape n x n |
| `Geodata.AddCentreEffect` | experiment_2/utills/geodata.py:65-71 | One pass of `values += cluster_effect * amplitude`: every cell gains its decayed, scaled distance to that centre and nothing else changes |
| `Geodata.AddClusterEffects` | experiment_2/utills/geodata.py:65-71 | After the loop over the centres, every cell holds its old value plus the cluster field of all centres |
| `Geodata.AddNoise` | experiment_2/utills/geodata.py:74 | `values += noise` adds the noise grid cell by cell |
| `Geodata.ClusterValues` | experiment_2/utills/geodata.py:56-74 | The in-place cluster branch (zeros, centre effects with radius n // 4, noise) yields exactly `ClusterGrid` |
| `Geodata.SelectValues` | experiment_2/utills/geodata.py:43-77 | The dispatch fails if and only if the mode string is not one of the four or the mode is cluster on an empty grid; an unknown string gives the invalid-argument error; cluster on an empty grid gives the empty-range error; otherwise the result is the grid of the parsed mode |
| `Geodata.IndexColumn` | experiment_2/utills/geodata.py:30-31 | The Index column has exactly n² entries 0, 1, ..., n² - 1 in order |
| `Geodata.GeometryColumn` | experiment_2/utills/geodata.py:83-90 | The geometry column holds, in order, the square of every index |
| `Geodata.ValueColumn` | experiment_2/utills/geodata.py:80 | The Value column has n² entries, and entry i is the grid value at the cell's position (row i // n, column i % n) |
| `Geodata.BuildFrame` | experiment_2/utills/geodata.py:30-90 | The frame has three columns of length n²; row i has index i, the value at its position, and its unit square |
| `Geodata.GenerateGridDataFrame` | experiment_2/utills/geodata.py:12-93 | The whole generator: the error cases of `SelectValues`, each with its own error, and on success a frame of n² rows with index i, the mode's grid value at (i // n, i % n) and the unit square of cell i; the mode argument defaults to "positive" |

## Left out

- Random number generation (`np.random.seed`, `normal`, `randint`) is not modelled. It uses NumPy's process-wide generator and yields floats. The draws are the `Draws` input, and the seed has no counterpart.
- The order of the draws from the shared generator is not modelled. For example, the base grid is drawn even in the cluster mode, where it is not used.
- SciPy's `gaussian_filter` is not modelled. It is a foreign floating-point routine, so it is the `Numerics.smooth` input. The model only requires that it returns an n x n grid.
- The Gaussian decay `exp(-d / (2 * radius²))` is not modelled. It is floating point, so it is the `Numerics.decay` input. Its argument, the squared distance, is modelled exactly.
- The zero radius for n < 4 is modelled only as its value. For such n the source divides by zero, which makes the centre cells NaN. A real-valued decay cannot represent NaN, so the model does not capture it.
- Floating-point rounding is not modelled. Values are Dafny `real`s, and the sign flip, sums and products are exact.
- A negative `grid_side_length` is not modelled. NumPy rejects negative shapes, and the side length is a `nat` here.
- Geodata.GenerateGridDataFrame: for n = 0 the model returns an empty frame in the `none`, `positive` and `negative` modes. This is a modelling choice, and the source's outcome there is not modelled. Line 90 applies `calculate_square_coordinates` to a zero-row frame. What pandas, shapely and SciPy then do, possibly raising `ValueError`, is library behaviour outside this model.
- `calculate_moran_i` is not modelled. It is a thin wrapper over libpysal's `lat2W` and esda's `Moran`, and it returns a floating-point statistic.
- The pandas DataFrame and GeoDataFrame and shapely's `Polygon` are not modelled. The frame is three parallel sequences, and a polygon is its four integer corners.
- Adjacency computation, `filter_sort` and the simplicial-complex builder are not part of this model.
- Plotting and notebook orchestration are not part of this model.
