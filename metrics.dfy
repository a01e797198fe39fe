/** `eesizer/analysis/metrics.py`: the figures of merit read off the AC and
    transient tables. The floating-point functions (`log10`, the magnitude and
    the phase in degrees of a complex sample) are left uninterpreted; what is
    modelled is which samples each metric looks at and how it branches. */
module Metrics {
  import opened Wrappers
  import opened Parsers

  /** `np.log10`, `np.abs` and `np.degrees(np.angle(.))`. */
  datatype Numerics = Numerics(log10: real -> real, abs: Complex -> real, phaseDeg: Complex -> real)

  function Max(a: real, b: real): (r: real)
    ensures r >= a && r >= b && (r == a || r == b)
  {
    if a >= b then a else b
  }

  function Abs(x: real): (r: real)
    ensures r >= 0.0 && (r == x || r == -x)
  {
    if x >= 0.0 then x else -x
  }

  /** The smallest magnitude a metric passes to `log10`. */
  const Floor: real := 0.000000000000000000000000000001

  /** `20 * np.log10(max(1e-30, x))` */
  function Db(num: Numerics, x: real): real {
    20.0 * num.log10(Max(Floor, x))
  }

  /** `mag_db = 20 * np.log10(np.maximum(1e-30, np.abs(v)))` */
  function MagDb(num: Numerics, v: seq<Complex>): (r: seq<real>)
    ensures |r| == |v| && forall i :: 0 <= i < |v| ==> r[i] == Db(num, num.abs(v[i]))
  {
    seq(|v|, i requires 0 <= i < |v| => Db(num, num.abs(v[i])))
  }

  /** `np.where(xs >= t)[0]`, from index `i` on: the indices whose value
      reaches `t`, in increasing order. */
  function WhereFrom(xs: seq<real>, t: real, i: nat): (idx: seq<nat>)
    requires i <= |xs|
    decreases |xs| - i
    ensures forall k :: 0 <= k < |idx| ==> i <= idx[k] < |xs| && xs[idx[k]] >= t
    ensures forall k, l :: 0 <= k < l < |idx| ==> idx[k] < idx[l]
    ensures forall j :: i <= j < |xs| && xs[j] >= t ==> j in idx
  {
    if i == |xs| then []
    else
      var rest := WhereFrom(xs, t, i + 1);
      if xs[i] >= t then
        assert forall k :: 0 < k <= |rest| ==> ([i] + rest)[k] == rest[k - 1];
        [i] + rest
      else rest
  }

  function Where(xs: seq<real>, t: real): (idx: seq<nat>)
    ensures forall k :: 0 <= k < |idx| ==> idx[k] < |xs| && xs[idx[k]] >= t
    ensures forall k, l :: 0 <= k < l < |idx| ==> idx[k] < idx[l]
    ensures forall j :: 0 <= j < |xs| && xs[j] >= t ==> j in idx
    ensures idx == [] ==> forall j :: 0 <= j < |xs| ==> xs[j] < t
    ensures idx != [] ==> forall j :: 0 <= j < idx[0] ==> xs[j] < t
    ensures idx != [] ==> forall j :: idx[|idx| - 1] < j < |xs| ==> xs[j] < t
  {
    WhereFromExtremes(xs, t, 0);
    WhereFrom(xs, t, 0)
  }

  /** No index before the first one found, nor after the last one, reaches
      `t`; when none is found, no index from `i` on does. */
  lemma {:induction false} WhereFromExtremes(xs: seq<real>, t: real, i: nat)
    requires i <= |xs|
    decreases |xs| - i
    ensures var idx := WhereFrom(xs, t, i);
      && (idx == [] ==> forall j :: i <= j < |xs| ==> xs[j] < t)
      && (idx != [] ==> forall j :: i <= j < idx[0] ==> xs[j] < t)
      && (idx != [] ==> forall j :: idx[|idx| - 1] < j < |xs| ==> xs[j] < t)
  {
    if i < |xs| {
      WhereFromExtremes(xs, t, i + 1);
    }
  }

  /** `f[idx[-1]] - f[idx[0]]`, or 0.0 for no indices. */
  function Span(f: seq<real>, idx: seq<nat>): real
    requires forall k :: 0 <= k < |idx| ==> idx[k] < |f|
  {
    if idx == [] then 0.0 else f[idx[|idx| - 1]] - f[idx[0]]
  }

  /** The first index of a smallest `abs(xs[i])`, from index `i` on
      (`np.argmin(np.abs(xs))`). */
  function ArgMinAbsFrom(xs: seq<real>, i: nat): (r: nat)
    requires i < |xs|
    decreases |xs| - i
    ensures i <= r < |xs|
    ensures forall j :: i <= j < |xs| ==> Abs(xs[r]) <= Abs(xs[j])
    ensures forall j :: i <= j < r ==> Abs(xs[j]) > Abs(xs[r])
  {
    if i == |xs| - 1 then i
    else
      var rest := ArgMinAbsFrom(xs, i + 1);
      if Abs(xs[i]) <= Abs(xs[rest]) then i else rest
  }

  /** `np.isclose(a, b, atol=atol)`, whose relative tolerance is 1e-5. */
  predicate IsClose(a: real, b: real, atol: real) {
    Abs(a - b) <= atol + 0.00001 * Abs(b)
  }

  /** `ac_gain_db_from_dat` on the parsed response. */
  function AcGainDb(num: Numerics, v: seq<Complex>): real {
    if |v| == 0 then 0.0 else Db(num, num.abs(v[0]))
  }

  /** `bandwidth_hz_from_dat` on the parsed table. */
  function BandwidthHz(num: Numerics, f: seq<real>, v: seq<Complex>): real
    requires |f| == |v|
  {
    if |v| == 0 then 0.0
    else
      var gain0 := Db(num, num.abs(v[0]));
      Span(f, Where(MagDb(num, v), gain0 - 3.0))
  }

  /** `unity_bandwidth_hz_from_dat` on the parsed table. */
  function UnityBandwidthHz(num: Numerics, f: seq<real>, v: seq<Complex>): real
    requires |f| == |v|
  {
    if |v| == 0 then 0.0 else Span(f, Where(MagDb(num, v), 0.0))
  }

  /** `phase_margin_deg_from_dat` on the parsed response. */
  function PhaseMarginDeg(num: Numerics, v: seq<Complex>): real {
    if |v| == 0 then 0.0
    else
      var idx := ArgMinAbsFrom(MagDb(num, v), 0);
      var phi := num.phaseDeg(v[idx]);
      var initial := num.phaseDeg(v[0]);
      if IsClose(initial, 180.0, 15.0) then phi
      else if IsClose(initial, 0.0, 15.0) then 180.0 - Abs(phi)
      else 0.0
  }

  /** `np.max(xs)` */
  function SeqMax(xs: seq<real>): (r: real)
    requires |xs| > 0
    ensures forall i :: 0 <= i < |xs| ==> xs[i] <= r
    ensures exists i :: 0 <= i < |xs| && xs[i] == r
  {
    if |xs| == 1 then xs[0] else Max(xs[0], SeqMax(xs[1..]))
  }

  /** `np.min(xs)` */
  function SeqMin(xs: seq<real>): (r: real)
    requires |xs| > 0
    ensures forall i :: 0 <= i < |xs| ==> r <= xs[i]
    ensures exists i :: 0 <= i < |xs| && xs[i] == r
  {
    if |xs| == 1 then xs[0] else -Max(-xs[0], -SeqMin(xs[1..]))
  }

  /** The peak-to-peak swing of the output, floored at 1e-30. */
  function Vpp(out: seq<real>): (r: real)
    requires |out| > 0
    ensures r >= Floor
  {
    Max(Floor, SeqMax(out) - SeqMin(out))
  }

  /** `input_pp_v`'s default. */
  const DefaultInputPp: real := 0.000002

  /** `tran_gain_db_from_dat` on the parsed output samples. */
  function TranGainDb(num: Numerics, out: seq<real>, inputPp: real): real {
    if |out| == 0 then 0.0 else 20.0 * num.log10(Vpp(out) / Max(inputPp, Floor))
  }

  // The metrics as the source calls them: on a path, through the parsers.
  // A parser's `IndexError` escapes as the failure.

  function AcGainDbFromDat(num: Numerics, read: Option<Table>): Result<real, IndexError> {
    var (f, v) :- ParseAcDat(read);
    Success(AcGainDb(num, v))
  }

  function BandwidthHzFromDat(num: Numerics, read: Option<Table>): Result<real, IndexError> {
    var fv :- ParseAcDat(read);
    ParseAcShape(read);
    Success(BandwidthHz(num, fv.0, fv.1))
  }

  function UnityBandwidthHzFromDat(num: Numerics, read: Option<Table>): Result<real, IndexError> {
    var fv :- ParseAcDat(read);
    ParseAcShape(read);
    Success(UnityBandwidthHz(num, fv.0, fv.1))
  }

  function PhaseMarginDegFromDat(num: Numerics, read: Option<Table>): Result<real, IndexError> {
    var (f, v) :- ParseAcDat(read);
    Success(PhaseMarginDeg(num, v))
  }

  function TranGainDbFromDat(num: Numerics, read: Option<Table>, inputPp: real): Result<real, IndexError> {
    var (t, out) :- ParseTranDat(read);
    Success(TranGainDb(num, out, inputPp))
  }

  /** Every metric is 0.0 on an empty response. */
  lemma EmptyResponseGivesZero(num: Numerics, inputPp: real)
    ensures AcGainDb(num, []) == 0.0
    ensures BandwidthHz(num, [], []) == 0.0
    ensures UnityBandwidthHz(num, [], []) == 0.0
    ensures PhaseMarginDeg(num, []) == 0.0
    ensures TranGainDb(num, [], inputPp) == 0.0
  {
  }

  /** The AC gain is the first sample's gain, whatever follows it. */
  lemma AcGainFirstSampleOnly(num: Numerics, v: seq<Complex>, w: seq<Complex>)
    requires |v| > 0 && |w| > 0 && v[0] == w[0]
    ensures AcGainDb(num, v) == AcGainDb(num, w)
    ensures AcGainDb(num, v) == 20.0 * num.log10(Max(Floor, num.abs(v[0])))
  {
  }

  /** The first sample always lies within 3 dB of itself, so on a non-empty
      response the band starts at the first frequency and the 0.0 fallback is
      never taken: the bandwidth is the distance from the first frequency to
      the last one whose gain is at most 3 dB below the first sample's. */
  lemma BandwidthStartsAtFirstSample(num: Numerics, f: seq<real>, v: seq<Complex>)
    requires |f| == |v| > 0
    ensures var mag := MagDb(num, v);
      exists last :: 0 <= last < |v|
        && mag[last] >= mag[0] - 3.0
        && (forall j :: last < j < |v| ==> mag[j] < mag[0] - 3.0)
        && BandwidthHz(num, f, v) == f[last] - f[0]
  {
    var mag := MagDb(num, v);
    var idx := Where(mag, mag[0] - 3.0);
    assert idx != [];
  }

  /** The unity-gain bandwidth is 0.0 when no sample reaches 0 dB, and
      otherwise the distance from the first frequency whose sample reaches
      0 dB to the last such frequency. */
  lemma UnityBandwidthSpan(num: Numerics, f: seq<real>, v: seq<Complex>)
    requires |f| == |v|
    ensures var mag := MagDb(num, v);
      && ((forall j :: 0 <= j < |v| ==> mag[j] < 0.0) ==> UnityBandwidthHz(num, f, v) == 0.0)
      && ((exists j :: 0 <= j < |v| && mag[j] >= 0.0) ==>
        exists first, last :: 0 <= first <= last < |v|
          && mag[first] >= 0.0 && mag[last] >= 0.0
          && (forall j :: 0 <= j < first ==> mag[j] < 0.0)
          && (forall j :: last < j < |v| ==> mag[j] < 0.0)
          && UnityBandwidthHz(num, f, v) == f[last] - f[first])
  {
    var mag := MagDb(num, v);
    var idx := Where(mag, 0.0);
    if idx != [] {
      assert idx[0] <= idx[|idx| - 1] by {
        if |idx| > 1 {
          assert idx[0] < idx[|idx| - 1];
        }
      }
    }
  }

  /** The phase margin reads the phase at the first sample whose gain is
      closest to 0 dB. A starting phase within 15.0018 degrees of 180 (the
      absolute tolerance plus the relative one) returns that phase as is; one
      within 15 degrees of 0 returns 180 minus its size; any other starting
      phase gives 0.0. The two windows do not overlap, so the order of the
      tests never matters. */
  lemma PhaseMarginCases(num: Numerics, v: seq<Complex>)
    requires |v| > 0
    ensures var mag := MagDb(num, v);
      exists idx :: 0 <= idx < |v|
        && (forall j :: 0 <= j < |v| ==> Abs(mag[idx]) <= Abs(mag[j]))
        && (forall j :: 0 <= j < idx ==> Abs(mag[j]) > Abs(mag[idx]))
        && var phi, initial := num.phaseDeg(v[idx]), num.phaseDeg(v[0]);
        && (164.9982 <= initial <= 195.0018 ==> PhaseMarginDeg(num, v) == phi)
        && (-15.0 <= initial <= 15.0 ==> PhaseMarginDeg(num, v) == 180.0 - Abs(phi))
        && (!(164.9982 <= initial <= 195.0018) && !(-15.0 <= initial <= 15.0) ==> PhaseMarginDeg(num, v) == 0.0)
  {
    var idx := ArgMinAbsFrom(MagDb(num, v), 0);
    var initial := num.phaseDeg(v[0]);
    assert IsClose(initial, 180.0, 15.0) <==> 164.9982 <= initial <= 195.0018;
    assert IsClose(initial, 0.0, 15.0) <==> -15.0 <= initial <= 15.0;
  }

  /** Shifting every output sample by the same offset leaves the transient
      gain unchanged: only the swing counts. */
  lemma TranGainShiftInvariant(num: Numerics, out: seq<real>, shifted: seq<real>, c: real, inputPp: real)
    requires |shifted| == |out|
    requires forall i :: 0 <= i < |out| ==> shifted[i] == out[i] + c
    ensures TranGainDb(num, shifted, inputPp) == TranGainDb(num, out, inputPp)
  {
    if |out| > 0 {
      SwingOfShift(out, c, shifted);
    }
  }

  lemma SwingOfShift(out: seq<real>, c: real, shifted: seq<real>)
    requires |out| > 0 && |shifted| == |out|
    requires forall i :: 0 <= i < |out| ==> shifted[i] == out[i] + c
    ensures SeqMax(shifted) == SeqMax(out) + c
    ensures SeqMin(shifted) == SeqMin(out) + c
  {
    var hi, lo := SeqMax(out), SeqMin(out);
    var i :| 0 <= i < |out| && out[i] == hi;
    var j :| 0 <= j < |out| && out[j] == lo;
    assert shifted[i] == hi + c && shifted[j] == lo + c;
  }

  /** A flat output has no swing: the gain is that of the 1e-30 floor over
      the input swing. */
  lemma TranGainOfFlatOutput(num: Numerics, out: seq<real>, inputPp: real)
    requires |out| > 0 && forall i :: 0 <= i < |out| ==> out[i] == out[0]
    ensures TranGainDb(num, out, inputPp) == 20.0 * num.log10(Floor / Max(inputPp, Floor))
  {
    var hi, lo := SeqMax(out), SeqMin(out);
    var i :| 0 <= i < |out| && out[i] == hi;
    var j :| 0 <= j < |out| && out[j] == lo;
  }

  /** A table the AC parser cannot read as two columns makes every AC
      metric raise the parser's error; an unreadable file is read as two zero
      samples, so the metrics are computed on those. */
  lemma MetricsPropagateParseErrors(num: Numerics, read: Option<Table>)
    ensures ParseAcDat(read).Failure? ==>
      && AcGainDbFromDat(num, read) == Failure(ParseAcDat(read).error)
      && BandwidthHzFromDat(num, read) == Failure(ParseAcDat(read).error)
      && UnityBandwidthHzFromDat(num, read) == Failure(ParseAcDat(read).error)
      && PhaseMarginDegFromDat(num, read) == Failure(ParseAcDat(read).error)
    ensures read.None? ==> AcGainDbFromDat(num, read) == Success(Db(num, num.abs(Complex(0.0, 0.0))))
    ensures ParseTranDat(read).Failure? ==> TranGainDbFromDat(num, read, DefaultInputPp) == Failure(ParseTranDat(read).error)
  {
    if read.None? {
      UnreadableFileGivesTwoZeros();
    }
  }
}
