/** The integer rules behind the four spatial-autocorrelation modes of
    `generate_grid_dataframe`: which mode strings are accepted, the
    checkerboard sign of the "negative" mode, and the radius, centres and
    distance-weighted field of the "cluster" mode. The floating-point parts
    (the Gaussian smoothing and the exp decay) enter as function values. */
module Autocorrelation {
  import opened GridLayout

  /** The four accepted values of the `autocorrelation` argument. */
  datatype Mode = NoCorrelation | Positive | Negative | Cluster

  datatype Error =
    | InvalidAutocorrelation(message: string)  // the ValueError for an unknown mode
    | EmptyCentreRange                         // NumPy's ValueError from randint(0, 0)

  datatype Result<T> = Ok(value: T) | Err(error: Error)

  /** The mode used when the caller gives none. */
  const DefaultMode: string := "positive"

  const InvalidModeMessage: string :=
    "Invalid autocorrelation type. Choose from 'none', 'positive', 'negative', or 'cluster'."

  const ValidModeNames: set<string> := {"none", "positive", "negative", "cluster"}

  /** The string that selects a mode. */
  function ModeName(m: Mode): string
  {
    match m
    case NoCorrelation => "none"
    case Positive => "positive"
    case Negative => "negative"
    case Cluster => "cluster"
  }

  /** The if/elif chain on the mode string. An accepted string is the name of
      the mode it selects; anything else is the invalid-argument error. */
  function ParseMode(s: string): (r: Result<Mode>)
    ensures r.Ok? ==> ModeName(r.value) == s
    ensures r.Err? ==> r.error == InvalidAutocorrelation(InvalidModeMessage)
  {
    if s == "none" then Ok(NoCorrelation)
    else if s == "positive" then Ok(Positive)
    else if s == "negative" then Ok(Negative)
    else if s == "cluster" then Ok(Cluster)
    else Err(InvalidAutocorrelation(InvalidModeMessage))
  }

  /** Exactly the four names are accepted, and each selects its own mode. */
  lemma ParseModeAcceptsExactlyTheFour(s: string)
    ensures ParseMode(s).Ok? <==> s in ValidModeNames
  {
  }

  lemma ParseModeName(m: Mode)
    ensures ParseMode(ModeName(m)) == Ok(m)
  {
  }

  /** The default argument selects positive autocorrelation. */
  lemma DefaultModeIsPositive()
    ensures ParseMode(DefaultMode) == Ok(Positive)
  {
  }

  /** b to the power e. */
  function Power(b: int, e: nat): int
  {
    if e == 0 then 1 else b * Power(b, e - 1)
  }

  /** Checkerboard value of the cell at row r, column c: (r + c) % 2. */
  function Checkerboard(r: nat, c: nat): (p: nat)
    ensures p < 2
  {
    (r + c) % 2
  }

  /** The sign (-1) ** checkerboard the negative mode multiplies a cell by:
      +1 on cells whose row plus column is even, -1 on odd ones. */
  function CheckerSign(r: nat, c: nat): (s: int)
    ensures s == 1 <==> (r + c) % 2 == 0
    ensures s == -1 <==> (r + c) % 2 == 1
  {
    Power(-1, Checkerboard(r, c))
  }

  /** The cells (r1, c1) and (r2, c2) share an edge. */
  predicate OrthogonallyAdjacent(r1: nat, c1: nat, r2: nat, c2: nat)
  {
    (r1 == r2 && (c1 + 1 == c2 || c2 + 1 == c1)) ||
    (c1 == c2 && (r1 + 1 == r2 || r2 + 1 == r1))
  }

  /** Cells that share an edge receive opposite signs. */
  lemma AdjacentCellsHaveOppositeSigns(r1: nat, c1: nat, r2: nat, c2: nat)
    requires OrthogonallyAdjacent(r1, c1, r2, c2)
    ensures CheckerSign(r1, c1) == -CheckerSign(r2, c2)
  {
  }

  function Distance(a: nat, b: nat): nat
  {
    if a <= b then b - a else a - b
  }

  /** Two cells receive the same sign exactly when their Manhattan distance is
      even, so the sign pattern is the checkerboard colouring of the grid. */
  lemma SameSignIffEvenDistance(r1: nat, c1: nat, r2: nat, c2: nat)
    ensures CheckerSign(r1, c1) == CheckerSign(r2, c2)
            <==> (Distance(r1, r2) + Distance(c1, c2)) % 2 == 0
  {
    var d := Distance(r1, r2) + Distance(c1, c2);
    var s1, s2 := r1 + c1, r2 + c2;
    // s1 and s2 differ by the signed row and column offsets, whose parity is that of d
    assert (s1 - s2) % 2 == d % 2 by {
      var dr, dc := r1 - r2, c1 - c2;
      assert s1 - s2 == dr + dc;
      assert Distance(r1, r2) == dr || Distance(r1, r2) == -dr;
      assert Distance(c1, c2) == dc || Distance(c1, c2) == -dc;
      ParityOfSum(dr, dc, Distance(r1, r2), Distance(c1, c2));
    }
  }

  lemma ParityOfSum(a: int, b: int, a': int, b': int)
    requires a' == a || a' == -a
    requires b' == b || b' == -b
    ensures (a + b) % 2 == (a' + b') % 2
  {
    if a' == -a {
      ParityShift(a + b', a);
    }
    if b' == -b {
      ParityShift(a + b, b);
    }
  }

  /** Subtracting an even number keeps the parity. */
  lemma ParityShift(v: int, k: int)
    ensures (v - 2 * k) % 2 == v % 2
  {
    DivModUnique(v - 2 * k, 2, v / 2 - k, v % 2);
  }

  /** The grid of the negative mode: the smoothed grid with the sign of every
      other cell flipped, plus background noise. */
  function NegativeValues(smoothed: seq<seq<real>>, noise: seq<seq<real>>, n: nat): (g: seq<seq<real>>)
    requires IsGrid(smoothed, n) && IsGrid(noise, n)
    ensures IsGrid(g, n)
  {
    seq(n, r requires 0 <= r < n =>
      seq(n, c requires 0 <= c < n =>
        smoothed[r][c] * CheckerSign(r, c) as real + noise[r][c]))
  }

  /** Before the noise is added, two edge-sharing cells whose smoothed values
      are both positive end up with opposite signs. */
  lemma NegativeFlipsNeighbours(smoothed: seq<seq<real>>, noise: seq<seq<real>>, n: nat,
                                r1: nat, c1: nat, r2: nat, c2: nat)
    requires IsGrid(smoothed, n) && IsGrid(noise, n)
    requires r1 < n && c1 < n && r2 < n && c2 < n
    requires OrthogonallyAdjacent(r1, c1, r2, c2)
    requires smoothed[r1][c1] > 0.0 && smoothed[r2][c2] > 0.0
    ensures var g := NegativeValues(smoothed, noise, n);
      var a, b := g[r1][c1] - noise[r1][c1], g[r2][c2] - noise[r2][c2];
      (a > 0.0 && b < 0.0) || (a < 0.0 && b > 0.0)
  {
    var g := NegativeValues(smoothed, noise, n);
    assert g[r1][c1] - noise[r1][c1] == smoothed[r1][c1] * CheckerSign(r1, c1) as real;
    assert g[r2][c2] - noise[r2][c2] == smoothed[r2][c2] * CheckerSign(r2, c2) as real;
    AdjacentCellsHaveOppositeSigns(r1, c1, r2, c2);
    if CheckerSign(r1, c1) == 1 {
      assert g[r1][c1] - noise[r1][c1] == smoothed[r1][c1];
      assert g[r2][c2] - noise[r2][c2] == -smoothed[r2][c2];
    } else {
      assert g[r1][c1] - noise[r1][c1] == -smoothed[r1][c1];
      assert g[r2][c2] - noise[r2][c2] == smoothed[r2][c2];
    }
  }

  /** Number of cluster centres drawn. */
  const ClusterCount: nat := 2

  /** The cluster influence radius n // 4. */
  function ClusterRadius(n: nat): (radius: nat)
    ensures 4 * radius <= n < 4 * radius + 4
    ensures radius == 0 <==> n < 4
  {
    n / 4
  }

  /** A cluster centre as NumPy draws it: (row, column). */
  type Centre = (int, int)

  /** The centres drawn by randint(0, n, (2, 2)): two of them, each coordinate
      in [0, n). */
  predicate ValidCentres(centres: seq<Centre>, n: nat)
  {
    |centres| == ClusterCount &&
    forall k :: 0 <= k < |centres| ==> 0 <= centres[k].0 < n && 0 <= centres[k].1 < n
  }

  /** A centre drawn inside the grid sits on a grid cell, and that cell is the
      only one of the grid at squared distance 0 from it. */
  lemma CentreCellIsUnique(centres: seq<Centre>, n: nat, k: nat)
    requires ValidCentres(centres, n) && k < |centres|
    ensures var c := centres[k];
      0 <= c.0 < n && 0 <= c.1 < n && SquaredDistance(c.0, c.1, c) == 0 &&
      forall y: nat, x: nat :: y < n && x < n && SquaredDistance(y, x, c) == 0 ==> y == c.0 && x == c.1
  {
  }

  /** Squared distance (x - centre column)^2 + (y - centre row)^2 from the cell
      at row y, column x to a centre; it is 0 exactly at the centre. */
  function SquaredDistance(y: nat, x: nat, centre: Centre): (d: nat)
    ensures d == 0 <==> centre == (y, x)
  {
    var dx, dy := x - centre.1, y - centre.0;
    SquareIsZeroOnlyAtZero(dx);
    SquareIsZeroOnlyAtZero(dy);
    dx * dx + dy * dy
  }

  lemma SquareIsZeroOnlyAtZero(a: int)
    ensures a * a >= 0
    ensures a * a == 0 <==> a == 0
  {
    if a > 0 {
      AtLeastOneRow(a, a);
    } else if a < 0 {
      AtLeastOneRow(-a, -a);
    }
  }

  /** Squared distances from the cell at row y, column x to each centre. */
  function CentreDistances(y: nat, x: nat, centres: seq<Centre>): (ds: seq<nat>)
    ensures |ds| == |centres|
  {
    seq(|centres|, j requires 0 <= j < |centres| => SquaredDistance(y, x, centres[j]))
  }

  /** Sum over the first k centres of decay(distance, radius) * amplitude.
      `decay` stands for exp(-d / (2 * radius ** 2)). */
  function DecayedSum(ds: seq<nat>, amplitudes: seq<real>, decay: (nat, nat) -> real,
                      radius: nat, k: nat): real
    requires k <= |ds| && k <= |amplitudes|
  {
    if k == 0 then 0.0
    else DecayedSum(ds, amplitudes, decay, radius, k - 1) + decay(ds[k - 1], radius) * amplitudes[k - 1]
  }

  /** The cluster effect at row y, column x of the first k centres. */
  function ClusterField(y: nat, x: nat, centres: seq<Centre>, amplitudes: seq<real>,
                        decay: (nat, nat) -> real, radius: nat, k: nat): real
    requires k <= |centres| && k <= |amplitudes|
  {
    DecayedSum(CentreDistances(y, x, centres), amplitudes, decay, radius, k)
  }

  /** Adding the k-th centre adds its decayed, scaled distance. */
  lemma ClusterFieldStep(y: nat, x: nat, centres: seq<Centre>, amplitudes: seq<real>,
                         decay: (nat, nat) -> real, radius: nat, k: nat)
    requires 0 < k <= |centres| && k <= |amplitudes|
    ensures ClusterField(y, x, centres, amplitudes, decay, radius, k)
         == ClusterField(y, x, centres, amplitudes, decay, radius, k - 1)
            + decay(SquaredDistance(y, x, centres[k - 1]), radius) * amplitudes[k - 1]
  {
    assert CentreDistances(y, x, centres)[k - 1] == SquaredDistance(y, x, centres[k - 1]);
  }

  /** decay never grows with the distance. */
  ghost predicate DecayNonIncreasing(decay: (nat, nat) -> real, radius: nat)
  {
    forall d1: nat, d2: nat :: d1 <= d2 ==> decay(d2, radius) <= decay(d1, radius)
  }

  /** Pointwise smaller distances give a sum at least as large, when the
      amplitudes are non-negative and decay does not grow with distance. */
  lemma {:induction false} DecayedSumAntitone(ds1: seq<nat>, ds2: seq<nat>, amplitudes: seq<real>,
                                              decay: (nat, nat) -> real, radius: nat, k: nat)
    requires k <= |ds1| && k <= |ds2| && k <= |amplitudes|
    requires DecayNonIncreasing(decay, radius)
    requires forall j :: 0 <= j < k ==> amplitudes[j] >= 0.0 && ds1[j] <= ds2[j]
    ensures DecayedSum(ds1, amplitudes, decay, radius, k) >= DecayedSum(ds2, amplitudes, decay, radius, k)
  {
    if k > 0 {
      DecayedSumAntitone(ds1, ds2, amplitudes, decay, radius, k - 1);
      ScaleNonNegative(decay(ds2[k - 1], radius), decay(ds1[k - 1], radius), amplitudes[k - 1]);
    }
  }

  lemma ScaleNonNegative(a: real, b: real, c: real)
    requires a <= b && 0.0 <= c
    ensures a * c <= b * c
  {
  }

  /** Distance decay of the cluster mode: with non-negative amplitudes and a
      decay that does not grow with distance, a cell at least as close as
      another to every centre receives at least as much cluster effect. */
  lemma ClusterFieldDecaysWithDistance(
    y1: nat, x1: nat, y2: nat, x2: nat, centres: seq<Centre>, amplitudes: seq<real>,
    decay: (nat, nat) -> real, radius: nat)
    requires |amplitudes| == |centres|
    requires DecayNonIncreasing(decay, radius)
    requires forall j :: 0 <= j < |amplitudes| ==> amplitudes[j] >= 0.0
    requires forall j :: 0 <= j < |centres| ==>
      SquaredDistance(y1, x1, centres[j]) <= SquaredDistance(y2, x2, centres[j])
    ensures ClusterField(y1, x1, centres, amplitudes, decay, radius, |centres|)
            >= ClusterField(y2, x2, centres, amplitudes, decay, radius, |centres|)
  {
    DecayedSumAntitone(CentreDistances(y1, x1, centres), CentreDistances(y2, x2, centres),
                       amplitudes, decay, radius, |centres|);
  }

  /** The grid of the cluster mode: the cluster effect of all centres plus
      background noise. */
  function ClusterGrid(n: nat, centres: seq<Centre>, amplitudes: seq<real>, noise: seq<seq<real>>,
                       decay: (nat, nat) -> real): (g: seq<seq<real>>)
    requires |amplitudes| == |centres| && IsGrid(noise, n)
    ensures IsGrid(g, n)
  {
    var radius := ClusterRadius(n);
    seq(n, y requires 0 <= y < n =>
      seq(n, x requires 0 <= x < n =>
        ClusterField(y, x, centres, amplitudes, decay, radius, |centres|) + noise[y][x]))
  }
}
