/** The feature extractor `extract_features`, which both the server and the
    training script define with the same body: a minimum-length guard, an RMS
    energy gate, and a fixed-order stack of (mean, standard deviation) pairs
    over the matrices the audio library computes.  The library's numeric
    routines are opaque: they are fields of `Librosa`, given as input. */
module Features {
  import opened Wrappers

  /** A feature matrix as the library returns it: rows of per-frame values. */
  type Matrix = seq<seq<real>>

  /** Rows of the librosa defaults the source relies on. */
  const ChromaRows: nat := 12    // chroma_stft, n_chroma = 12
  const ContrastRows: nat := 7   // spectral_contrast, n_bands = 6, plus one
  const TonnetzRows: nat := 6    // tonnetz

  /** RMS gate constants. */
  const RmsMeanFloor: real := 0.005
  const RmsPeakCeiling: real := 0.95

  /** What the library computes from one buffer, apart from RMS energy. */
  datatype Analysis = Analysis(
    mfcc: Matrix, delta1: Matrix, delta2: Matrix,
    centroid: Matrix, bandwidth: Matrix, rolloff: Matrix, zcr: Matrix,
    chroma: Matrix, contrast: Matrix, tonnetz: Matrix,
    f0: seq<real>)

  /** The opaque numeric library.  `rms` is `librosa.feature.rms`; `analyze`
      makes every other call of the extractor, `None` when one of them raises;
      `sqrt` is the square root inside `np.std`. */
  datatype Librosa = Librosa(
    rms: seq<real> -> Matrix,
    analyze: (seq<real>, nat, nat) -> Option<Analysis>,
    sqrt: real -> real)

  function Sum(xs: seq<real>): real
  {
    if |xs| == 0 then 0.0 else Sum(xs[..|xs| - 1]) + xs[|xs| - 1]
  }

  /** `n` copies of `x` added up. */
  function Scale(n: nat, x: real): real
  {
    (n as real) * x
  }

  lemma ScaleStep(n: nat, x: real)
    requires n > 0
    ensures Scale(n, x) == Scale(n - 1, x) + x
  {
  }

  /** A sum of values between `lo` and `hi` lies between `n * lo` and `n * hi`. */
  lemma {:induction false} SumBounds(xs: seq<real>, lo: real, hi: real)
    requires forall i :: 0 <= i < |xs| ==> lo <= xs[i] <= hi
    ensures Scale(|xs|, lo) <= Sum(xs) <= Scale(|xs|, hi)
  {
    if |xs| > 0 {
      var init := xs[..|xs| - 1];
      assert forall i :: 0 <= i < |init| ==> init[i] == xs[i];
      SumBounds(init, lo, hi);
      ScaleStep(|xs|, lo);
      ScaleStep(|xs|, hi);
    }
  }

  /** `np.max` of a non-empty sequence. */
  function Max(xs: seq<real>): (m: real)
    requires |xs| > 0
    ensures forall i :: 0 <= i < |xs| ==> xs[i] <= m
    ensures exists i :: 0 <= i < |xs| && xs[i] == m
  {
    if |xs| == 1 then xs[0]
    else
      var rest := Max(xs[..|xs| - 1]);
      assert forall i :: 0 <= i < |xs| - 1 ==> xs[..|xs| - 1][i] == xs[i];
      if xs[|xs| - 1] > rest then xs[|xs| - 1] else rest
  }

  /** The smallest element of a non-empty sequence. */
  function Min(xs: seq<real>): (m: real)
    requires |xs| > 0
    ensures forall i :: 0 <= i < |xs| ==> m <= xs[i]
    ensures exists i :: 0 <= i < |xs| && xs[i] == m
  {
    if |xs| == 1 then xs[0]
    else
      var rest := Min(xs[..|xs| - 1]);
      assert forall i :: 0 <= i < |xs| - 1 ==> xs[..|xs| - 1][i] == xs[i];
      if xs[|xs| - 1] < rest then xs[|xs| - 1] else rest
  }

  /** `np.mean` of a non-empty sequence. */
  function Mean(xs: seq<real>): real
    requires |xs| > 0
  {
    Sum(xs) / (|xs| as real)
  }

  /** Population variance, the square of what `np.std` returns. */
  function Variance(xs: seq<real>): real
    requires |xs| > 0
  {
    var m := Mean(xs);
    Mean(Squares(xs, m))
  }

  function Square(d: real): (r: real)
    ensures r >= 0.0
  {
    d * d
  }

  /** The squared deviations from `m`. */
  function Squares(xs: seq<real>, m: real): (sq: seq<real>)
    ensures |sq| == |xs|
    ensures forall i :: 0 <= i < |xs| ==> sq[i] == Square(xs[i] - m)
  {
    seq(|xs|, i requires 0 <= i < |xs| => Square(xs[i] - m))
  }

  lemma DivideBounds(s: real, n: nat, lo: real, hi: real)
    requires n > 0 && Scale(n, lo) <= s <= Scale(n, hi)
    ensures lo <= s / (n as real) <= hi
  {
  }

  /** The mean lies between the smallest and the largest value; a constant
      sequence has that constant as its mean. */
  lemma MeanBounds(xs: seq<real>)
    requires |xs| > 0
    ensures Min(xs) <= Mean(xs) <= Max(xs)
    ensures (forall i :: 0 <= i < |xs| ==> xs[i] == xs[0]) ==> Mean(xs) == xs[0]
  {
    var lo, hi := Min(xs), Max(xs);
    SumBounds(xs, lo, hi);
    DivideBounds(Sum(xs), |xs|, lo, hi);
    if forall i :: 0 <= i < |xs| ==> xs[i] == xs[0] {
      assert lo == xs[0] && hi == xs[0];
    }
  }

  /** The variance is never negative, and it is 0 for a constant sequence. */
  lemma VarianceBounds(xs: seq<real>)
    requires |xs| > 0
    ensures Variance(xs) >= 0.0
    ensures (forall i :: 0 <= i < |xs| ==> xs[i] == xs[0]) ==> Variance(xs) == 0.0
  {
    var sq := Squares(xs, Mean(xs));
    MeanNonNegative(sq);
    if forall i :: 0 <= i < |xs| ==> xs[i] == xs[0] {
      MeanBounds(xs);
      assert forall i :: 0 <= i < |sq| ==> sq[i] == 0.0;
      MeanBounds(sq);
    }
  }

  /** The mean of non-negative values is non-negative. */
  lemma MeanNonNegative(ys: seq<real>)
    requires |ys| > 0
    requires forall i :: 0 <= i < |ys| ==> ys[i] >= 0.0
    ensures Mean(ys) >= 0.0
  {
    MeanBounds(ys);
  }

  /** All elements of a matrix, row after row (`np.mean` without an axis). */
  function Flatten(m: Matrix): (r: seq<real>)
    ensures |r| == 0 <==> forall i :: 0 <= i < |m| ==> |m[i]| == 0
    ensures |m| == 1 ==> r == m[0]
  {
    if |m| == 0 then [] else Flatten(m[..|m| - 1]) + m[|m| - 1]
  }

  /** `np.mean(x), np.std(x)` over a non-empty sequence. */
  function MeanStd(xs: seq<real>, sqrt: real -> real): (r: seq<real>)
    requires |xs| > 0
    ensures |r| == 2 && r[0] == Mean(xs)
  {
    [Mean(xs), sqrt(Variance(xs))]
  }

  predicate RowsNonEmpty(m: Matrix)
  {
    forall i :: 0 <= i < |m| ==> |m[i]| > 0
  }

  /** `np.mean(m, axis=1), np.std(m, axis=1)`: all row means, then all row
      standard deviations. */
  function PerRow(m: Matrix, sqrt: real -> real): (r: seq<real>)
    requires RowsNonEmpty(m)
    ensures |r| == 2 * |m|
    ensures forall i :: 0 <= i < |m| ==> r[i] == Mean(m[i]) && r[|m| + i] == sqrt(Variance(m[i]))
  {
    seq(|m|, i requires 0 <= i < |m| => Mean(m[i])) +
    seq(|m|, i requires 0 <= i < |m| => sqrt(Variance(m[i])))
  }

  /** Mean and standard deviation over every element of a matrix.  For the
      one-row matrices librosa returns for the spectral descriptors and RMS,
      they are the statistics of that row. */
  function Whole(m: Matrix, sqrt: real -> real): (r: seq<real>)
    requires |Flatten(m)| > 0
    ensures |r| == 2
    ensures r[0] == Mean(Flatten(m)) && r[1] == sqrt(Variance(Flatten(m)))
    ensures |m| == 1 ==> r == [Mean(m[0]), sqrt(Variance(m[0]))]
  {
    MeanStd(Flatten(m), sqrt)
  }

  /** No statistic of the stack is taken over an empty set of values: when one
      is, numpy yields NaN and the `isfinite` check rejects the vector. */
  predicate Defined(a: Analysis, rms: Matrix)
  {
    RowsNonEmpty(a.mfcc) && RowsNonEmpty(a.delta1) && RowsNonEmpty(a.delta2) &&
    |Flatten(a.centroid)| > 0 && |Flatten(a.bandwidth)| > 0 &&
    |Flatten(a.rolloff)| > 0 && |Flatten(a.zcr)| > 0 &&
    RowsNonEmpty(a.chroma) && RowsNonEmpty(a.contrast) && RowsNonEmpty(a.tonnetz) &&
    |Flatten(rms)| > 0 && |a.f0| > 0
  }

  /** The `np.hstack` of the extractor, in its fixed order. */
  function Stack(a: Analysis, rms: Matrix, sqrt: real -> real): (v: seq<real>)
    requires Defined(a, rms)
    ensures |v| == 2 * (|a.mfcc| + |a.delta1| + |a.delta2| + |a.chroma| + |a.contrast| + |a.tonnetz|) + 12
  {
    PerRow(a.mfcc, sqrt) + PerRow(a.delta1, sqrt) + PerRow(a.delta2, sqrt) +
    Whole(a.centroid, sqrt) + Whole(a.bandwidth, sqrt) +
    Whole(a.rolloff, sqrt) + Whole(a.zcr, sqrt) +
    PerRow(a.chroma, sqrt) + PerRow(a.contrast, sqrt) + PerRow(a.tonnetz, sqrt) +
    Whole(rms, sqrt) + MeanStd(a.f0, sqrt)
  }

  /** The row counts the library produces for `nMfcc` coefficients whatever
      the length of the buffer; only the number of frames varies. */
  predicate LibrosaShapes(a: Analysis, nMfcc: nat)
  {
    |a.mfcc| == nMfcc && |a.delta1| == nMfcc && |a.delta2| == nMfcc &&
    |a.chroma| == ChromaRows && |a.contrast| == ContrastRows && |a.tonnetz| == TonnetzRows
  }

  /** Length of every feature vector for `nMfcc` coefficients. */
  function FeatureCount(nMfcc: nat): nat
  {
    6 * nMfcc + 12 + 2 * (ChromaRows + ContrastRows + TonnetzRows)
  }

  /** The minimum-duration guard: at least `minDuration` seconds of samples. */
  function LongEnough(samples: nat, sr: nat, minDuration: real): (ok: bool)
    ensures minDuration == 1.0 ==> (ok <==> samples >= sr)
    ensures ok && minDuration > 0.0 && sr > 0 ==> samples > 0
  {
    !((samples as real) < minDuration * (sr as real))
  }

  /** The RMS gate.  `np.max` of no frames raises; the extractor then returns
      `None`, so an empty RMS matrix fails the gate.  A passing buffer has a
      mean at least the floor and no frame above the ceiling; one whose every
      frame is below the floor (silence) fails, and one whose every frame lies
      between floor and ceiling passes. */
  function RmsAcceptable(rms: Matrix): (ok: bool)
    ensures |Flatten(rms)| == 0 ==> !ok
    ensures ok ==> forall i :: 0 <= i < |Flatten(rms)| ==> Flatten(rms)[i] <= RmsPeakCeiling
    ensures (forall i :: 0 <= i < |Flatten(rms)| ==> Flatten(rms)[i] < RmsMeanFloor) ==> !ok
    ensures ok ==> |Flatten(rms)| > 0 && Mean(Flatten(rms)) >= RmsMeanFloor
    ensures (|Flatten(rms)| > 0 &&
             forall i :: 0 <= i < |Flatten(rms)| ==> RmsMeanFloor <= Flatten(rms)[i] <= RmsPeakCeiling) ==> ok
  {
    if |Flatten(rms)| > 0 then MeanBounds(Flatten(rms)); RmsGate(Flatten(rms)) else false
  }

  function RmsGate(e: seq<real>): bool
    requires |e| > 0
  {
    !(Mean(e) < RmsMeanFloor || Max(e) > RmsPeakCeiling)
  }

  /** `extract_features(audio, sr, n_mfcc)` with guard `min_duration * sr`. */
  function Extract(audio: seq<real>, sr: nat, nMfcc: nat, minDuration: real, lib: Librosa): (r: Option<seq<real>>)
    ensures !LongEnough(|audio|, sr, minDuration) ==> r == None
    ensures !RmsAcceptable(lib.rms(audio)) ==> r == None
    ensures lib.analyze(audio, sr, nMfcc) == None ==> r == None
    ensures r.Some? ==>
      var a := lib.analyze(audio, sr, nMfcc).value;
      Defined(a, lib.rms(audio)) && r.value == Stack(a, lib.rms(audio), lib.sqrt)
    ensures (LongEnough(|audio|, sr, minDuration) && RmsAcceptable(lib.rms(audio)) &&
             lib.analyze(audio, sr, nMfcc).Some? && Defined(lib.analyze(audio, sr, nMfcc).value, lib.rms(audio)))
      ==> r == Some(Stack(lib.analyze(audio, sr, nMfcc).value, lib.rms(audio), lib.sqrt))
  {
    if !LongEnough(|audio|, sr, minDuration) then None
    else if !RmsAcceptable(lib.rms(audio)) then None
    else match lib.analyze(audio, sr, nMfcc)
      case None => None
      case Some(a) =>
        if Defined(a, lib.rms(audio)) then Some(Stack(a, lib.rms(audio), lib.sqrt)) else None
  }

  /** Every extracted vector has `FeatureCount(nMfcc)` entries when the
      library keeps its row counts: the length depends on `nMfcc` alone. */
  lemma ExtractLength(audio: seq<real>, sr: nat, nMfcc: nat, minDuration: real, lib: Librosa)
    ensures var r := Extract(audio, sr, nMfcc, minDuration, lib);
      r.Some? && LibrosaShapes(lib.analyze(audio, sr, nMfcc).value, nMfcc) ==> |r.value| == FeatureCount(nMfcc)
  {
  }

  /** Two buffers of any two durations give vectors of one length. */
  lemma LengthIndependentOfDuration(x: seq<real>, y: seq<real>, sr: nat, nMfcc: nat, minDuration: real, lib: Librosa)
    ensures var rx := Extract(x, sr, nMfcc, minDuration, lib); var ry := Extract(y, sr, nMfcc, minDuration, lib);
      rx.Some? && ry.Some? &&
      LibrosaShapes(lib.analyze(x, sr, nMfcc).value, nMfcc) &&
      LibrosaShapes(lib.analyze(y, sr, nMfcc).value, nMfcc)
      ==> |rx.value| == |ry.value|
  {
    ExtractLength(x, sr, nMfcc, minDuration, lib);
    ExtractLength(y, sr, nMfcc, minDuration, lib);
  }

  /** Where the blocks sit: the MFCC means open the vector and their standard
      deviations follow them. */
  lemma StackStartsWithMfcc(a: Analysis, rms: Matrix, sqrt: real -> real)
    requires Defined(a, rms)
    ensures var v := Stack(a, rms, sqrt); var n := |a.mfcc|;
      forall i :: 0 <= i < n ==> v[i] == Mean(a.mfcc[i]) && v[n + i] == sqrt(Variance(a.mfcc[i]))
  {
    var head := PerRow(a.mfcc, sqrt);
    var rest := PerRow(a.delta1, sqrt) + PerRow(a.delta2, sqrt) +
      Whole(a.centroid, sqrt) + Whole(a.bandwidth, sqrt) + Whole(a.rolloff, sqrt) + Whole(a.zcr, sqrt) +
      PerRow(a.chroma, sqrt) + PerRow(a.contrast, sqrt) + PerRow(a.tonnetz, sqrt) +
      Whole(rms, sqrt) + MeanStd(a.f0, sqrt);
    assert Stack(a, rms, sqrt) == head + rest;
  }

  /** The pitch estimate's mean and standard deviation close the vector. */
  lemma StackEndsWithPitch(a: Analysis, rms: Matrix, sqrt: real -> real)
    requires Defined(a, rms)
    ensures var v := Stack(a, rms, sqrt);
      v[|v| - 2] == Mean(a.f0) && v[|v| - 1] == sqrt(Variance(a.f0))
  {
  }
}
