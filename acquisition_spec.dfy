/**
 Pure arithmetic behind the Galileo E1 PCPS 8 ms acquisition adapter:
 the truncation of the coherent integration time to whole 4 ms code
 periods, the command-line override of the Doppler radius, the Doppler
 search grid that the bin-counting loop walks, and the tiling
 of one code epoch into the local replica buffer.
 */
module AcquisitionSpec {

  /** Length of one Galileo E1 primary code period, in milliseconds. */
  const CodePeriodMs: nat := 4

  /** The coherent integration time actually used: the configured time
      rounded down to a whole number of 4 ms code periods. */
  function TruncateToCodePeriod(ms: nat): (r: nat)
    ensures r % CodePeriodMs == 0
    ensures r <= ms && ms - r < CodePeriodMs
    ensures ms % CodePeriodMs == 0 ==> r == ms
  {
    if ms % CodePeriodMs != 0 then ms / CodePeriodMs * CodePeriodMs else ms
  }

  /** Truncating an already truncated time changes nothing, and the result
      is the largest multiple of the code period not above the input. */
  lemma TruncationIsFloor(ms: nat, m: nat)
    requires m % CodePeriodMs == 0 && m <= ms
    ensures m <= TruncateToCodePeriod(ms)
    ensures TruncateToCodePeriod(TruncateToCodePeriod(ms)) == TruncateToCodePeriod(ms)
  {
  }

  /** The Doppler search radius in force: a non-zero command-line value
      overrides the configured one. */
  function EffectiveDopplerMax(configured: nat, flag: nat): (r: nat)
    ensures flag != 0 ==> r == flag
    ensures flag == 0 ==> r == configured
    ensures r == 0 ==> configured == 0 && flag == 0
  {
    if flag != 0 then flag else configured
  }

  // ---------------------------------------------------------------------
  // The Doppler grid

  /** The Doppler bins visited from `doppler` upwards while not above
      `dopplerMax`, in steps of `step`. */
  function GridFrom(doppler: int, dopplerMax: nat, step: nat): (g: seq<int>)
    requires step > 0
    ensures g == [] <==> doppler > dopplerMax
    ensures g != [] ==> g[0] == doppler
    ensures forall i :: 0 <= i < |g| ==> doppler <= g[i]
    decreases dopplerMax - doppler
  {
    if doppler > dopplerMax then [] else [doppler] + GridFrom(doppler + step, dopplerMax, step)
  }

  /** The full symmetric search grid from -dopplerMax to +dopplerMax. */
  function DopplerGrid(dopplerMax: nat, step: nat): (g: seq<int>)
    requires step > 0
  {
    GridFrom(-(dopplerMax as int), dopplerMax, step)
  }

  /** Closed form of the number of Doppler bins. */
  function FrequencyBins(dopplerMax: nat, step: nat): (n: nat)
    requires step > 0
    ensures n >= 1
  {
    2 * dopplerMax / step + 1
  }

  /** Multiplying both sides of a non-strict inequality by a natural. */
  lemma MulMono(a: int, b: int, s: nat)
    requires a <= b
    ensures a * s <= b * s
  {
  }

  /** k steps fit in n exactly when k is at most n / s. */
  lemma MulLeDiv(k: nat, s: nat, n: nat)
    requires s > 0
    ensures k * s <= n <==> k <= n / s
  {
    var q, r := n / s, n % s;
    assert n == q * s + r && 0 <= r < s;
    if k <= q {
      MulMono(k, q, s);
    } else {
      MulMono(q + 1, k, s);
      assert (q + 1) * s == q * s + s;
    }
  }

  /** Removing one step from a distance of at least one step lowers the
      quotient by one. */
  lemma DivSubStep(x: nat, s: nat)
    requires s > 0 && x >= s
    ensures (x - s) / s + 1 == x / s
  {
    var q, r := (x - s) / s, (x - s) % s;
    assert x - s == q * s + r && 0 <= r < s;
    assert x == (q + 1) * s + r;
    MulLeDiv(q + 1, s, x);
    MulLeDiv(q + 2, s, x);
    assert (q + 2) * s == (q + 1) * s + s;
  }

  /** Number of bins visited from a given starting Doppler. */
  lemma {:induction false} GridFromLength(doppler: int, dopplerMax: nat, step: nat)
    requires step > 0
    ensures doppler > dopplerMax ==> |GridFrom(doppler, dopplerMax, step)| == 0
    ensures doppler <= dopplerMax ==>
      |GridFrom(doppler, dopplerMax, step)| == (dopplerMax - doppler) / step + 1
    decreases dopplerMax - doppler
  {
    if doppler <= dopplerMax {
      GridFromLength(doppler + step, dopplerMax, step);
      var x := dopplerMax - doppler;
      if doppler + step <= dopplerMax {
        DivSubStep(x, step);
      } else {
        assert x < step;
        assert x / step == 0;
      }
    }
  }

  /** The bin-counting loop's count equals the closed form
      2 * dopplerMax / step + 1. */
  lemma DopplerGridLength(dopplerMax: nat, step: nat)
    requires step > 0
    ensures |DopplerGrid(dopplerMax, step)| == FrequencyBins(dopplerMax, step)
  {
    GridFromLength(-(dopplerMax as int), dopplerMax, step);
  }

  /** The k-th bin visited from `doppler` lies k steps above it and never
      above the radius. */
  lemma {:induction false} GridFromAt(doppler: int, dopplerMax: nat, step: nat, k: nat)
    requires step > 0
    requires k < |GridFrom(doppler, dopplerMax, step)|
    ensures GridFrom(doppler, dopplerMax, step)[k] == doppler + k * step
    ensures GridFrom(doppler, dopplerMax, step)[k] <= dopplerMax
    decreases dopplerMax - doppler
  {
    if k > 0 {
      GridFromAt(doppler + step, dopplerMax, step, k - 1);
      assert (k - 1) * step + step == k * step;
    }
  }

  /** Every bin of the grid is -dopplerMax + k * step for its index k and
      lies inside [-dopplerMax, dopplerMax]; the next step would leave it. */
  lemma DopplerGridBins(dopplerMax: nat, step: nat, k: nat)
    requires step > 0
    requires k < |DopplerGrid(dopplerMax, step)|
    ensures DopplerGrid(dopplerMax, step)[k] == -(dopplerMax as int) + k * step
    ensures -(dopplerMax as int) <= DopplerGrid(dopplerMax, step)[k] <= dopplerMax
    ensures k == |DopplerGrid(dopplerMax, step)| - 1 ==>
      DopplerGrid(dopplerMax, step)[k] + step > dopplerMax
  {
    GridFromAt(-(dopplerMax as int), dopplerMax, step, k);
    MulMono(0, k, step);
    if k == |DopplerGrid(dopplerMax, step)| - 1 {
      DopplerGridLength(dopplerMax, step);
      var n := 2 * dopplerMax;
      assert k == n / step;
      MulLeDiv(k + 1, step, n);
      assert (k + 1) * step == k * step + step;
    }
  }

  /** The example grid of a 5000 Hz radius in 250 Hz steps has 41 bins. */
  lemma FortyOneBins()
    ensures |DopplerGrid(5000, 250)| == 41
  {
    DopplerGridLength(5000, 250);
  }

  // ---------------------------------------------------------------------
  // The bin-counting loop as a state machine
  //
  // GridFrom describes the bins a terminating loop visits, but it needs a
  // positive step to be defined at all. The step-by-step form below is
  // defined for every step, so it can also state what the loop does with the
  // adapter's initial step of zero; IterateVisitsGrid ties the two together.

  /** Loop variables of the bin-counting loop: the current Doppler value and
      the number of bins counted so far. */
  datatype BinLoop = BinLoop(doppler: int, bins: nat)

  /** One iteration of the loop body. */
  function BinStep(s: BinLoop, step: nat): (t: BinLoop)
    ensures t.bins == s.bins + 1
  {
    BinLoop(s.doppler + step, s.bins + 1)
  }

  /** The loop state after k iterations of the body. */
  function Iterate(s: BinLoop, step: nat, k: nat): (t: BinLoop)
    ensures t.bins == s.bins + k
    ensures t.doppler >= s.doppler
    decreases k
  {
    if k == 0 then s else Iterate(BinStep(s, step), step, k - 1)
  }

  /** After k iterations the Doppler value has advanced by k steps and k
      more bins have been counted. */
  lemma {:induction false} IterateAdvances(s: BinLoop, step: nat, k: nat)
    ensures Iterate(s, step, k) == BinLoop(s.doppler + k * step, s.bins + k)
    decreases k
  {
    if k > 0 {
      IterateAdvances(BinStep(s, step), step, k - 1);
      assert (k - 1) * step + step == k * step;
    }
  }

  /** With a positive step the loop guard holds for exactly the first
      FrequencyBins iterations, so the loop stops with that count. */
  lemma BinLoopExits(dopplerMax: nat, step: nat, k: nat)
    requires step > 0
    ensures Iterate(BinLoop(-(dopplerMax as int), 0), step, k).doppler <= dopplerMax
        <==> k < FrequencyBins(dopplerMax, step)
    ensures Iterate(BinLoop(-(dopplerMax as int), 0), step, k).bins == k
  {
    IterateAdvances(BinLoop(-(dopplerMax as int), 0), step, k);
    MulLeDiv(k, step, 2 * dopplerMax);
  }

  /** With a positive step, the Doppler value held by the loop after k
      iterations is the k-th bin of the grid, for every bin the loop counts. */
  lemma IterateVisitsGrid(dopplerMax: nat, step: nat, k: nat)
    requires step > 0
    requires k < FrequencyBins(dopplerMax, step)
    ensures k < |DopplerGrid(dopplerMax, step)|
    ensures Iterate(BinLoop(-(dopplerMax as int), 0), step, k).doppler == DopplerGrid(dopplerMax, step)[k]
  {
    IterateAdvances(BinLoop(-(dopplerMax as int), 0), step, k);
    DopplerGridLength(dopplerMax, step);
    DopplerGridBins(dopplerMax, step, k);
  }

  /** With a zero step (the adapter's initial doppler step) the loop guard
      holds after every number of iterations: the loop never terminates. */
  lemma {:induction false} ZeroStepNeverExits(dopplerMax: nat, k: nat)
    ensures Iterate(BinLoop(-(dopplerMax as int), 0), 0, k).doppler <= dopplerMax
    ensures Iterate(BinLoop(-(dopplerMax as int), 0), 0, k).bins == k
  {
    ZeroStepStays(BinLoop(-(dopplerMax as int), 0), k);
  }

  lemma {:induction false} ZeroStepStays(s: BinLoop, k: nat)
    ensures Iterate(s, 0, k) == BinLoop(s.doppler, s.bins + k)
    decreases k
  {
    if k > 0 {
      ZeroStepStays(BinStep(s, 0), k - 1);
    }
  }

  // ---------------------------------------------------------------------
  // Replica tiling

  /** `epoch` repeated `periods` times back to back. */
  function Tile<T>(epoch: seq<T>, periods: nat): (r: seq<T>)
    ensures periods > 0 ==> epoch <= r
    decreases periods
  {
    if periods == 0 then [] else Tile(epoch, periods - 1) + epoch
  }

  lemma {:induction false} TileLength<T>(epoch: seq<T>, periods: nat)
    ensures |Tile(epoch, periods)| == periods * |epoch|
    decreases periods
  {
    if periods > 0 {
      TileLength(epoch, periods - 1);
      assert (periods - 1) * |epoch| + |epoch| == periods * |epoch|;
    }
  }

  /** Sample j of period i of the tiled replica is sample j of the epoch. */
  lemma {:induction false} TileAt<T>(epoch: seq<T>, periods: nat, i: nat, j: nat)
    requires i < periods && j < |epoch|
    ensures i * |epoch| + j < |Tile(epoch, periods)|
    ensures Tile(epoch, periods)[i * |epoch| + j] == epoch[j]
    decreases periods
  {
    TileLength(epoch, periods - 1);
    if i < periods - 1 {
      TileAt(epoch, periods - 1, i, j);
    } else {
      assert i * |epoch| == (periods - 1) * |epoch|;
    }
  }

  /** Every position k of the tiled replica is covered by exactly one
      (period, sample) pair, namely (k / |epoch|, k % |epoch|). */
  lemma TileIndex<T>(epoch: seq<T>, periods: nat, k: nat)
    requires k < |Tile(epoch, periods)|
    ensures |epoch| > 0
    ensures k / |epoch| < periods
    ensures Tile(epoch, periods)[k] == epoch[k % |epoch|]
  {
    TileLength(epoch, periods);
    var n := |epoch|;
    assert n > 0;
    var i, j := k / n, k % n;
    assert k == i * n + j;
    MulLeDiv(periods, n, k);
    TileAt(epoch, periods, i, j);
  }
}
