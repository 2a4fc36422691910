/**
 * Model of the EMCal photon cut (`EMCPhotonCut`): six per-cluster criteria over
 * the cluster and its pre-matched track, their conjunction, and the cut object
 * whose thresholds the setters change.
 *
 * Thresholds are reals.  The track-matching widths are functions of the track
 * pt; the selection takes them as parameters, and the cut object stores them
 * as descriptors (`TrackMatchingWidth`), empty until a setter is called.
 * `IsSelectedWithStoredWidths` evaluates the selection with the stored
 * descriptors, including the throw of an empty width function.
 *
 * The exotic criterion is modelled as written (it keeps exotic clusters);
 * `...Corrected` members carry the evidently intended sense.
 */
module EMCPhotonCut {
  import opened Wrappers

  /** An EMCal cluster. */
  datatype Cluster = Cluster(e: real, nCells: int, m02: real, time: real, eta: real, phi: real, isExotic: bool)

  /** The track pre-matched to the cluster. */
  datatype MatchedTrack = MatchedTrack(tracketa: real, trackphi: real, trackpt: real, trackp: real)

  /**
   * A track-matching width as a function of pt: not set (an empty function
   * object), a constant, or `offset + pow(pt + shift, exponent)`.
   */
  datatype TrackMatchingWidth = Unset | Constant(value: real) | PowerLaw(offset: real, shift: real, exponent: real)

  /** The width as a function; `pow` is the power function of the math library. */
  function WidthFunction(w: TrackMatchingWidth, pow: (real, real) -> real): real -> real
    requires !w.Unset?
  {
    match w
    case Constant(v) => (pt: real) => v
    case PowerLaw(offset, shift, exponent) => (pt: real) => offset + pow(pt + shift, exponent)
  }

  /** The cut thresholds of one cut object. */
  datatype EMCCutParams = EMCCutParams(
    minE: real,
    minNCell: int,
    minM02: real, maxM02: real,
    minTime: real, maxTime: real,
    minEoverP: real,
    useExoticCut: bool,
    trackMatchingEta: TrackMatchingWidth,
    trackMatchingPhi: TrackMatchingWidth)

  /** The in-class defaults: energy 0.7, one cell, M02 in [0.1, 0.7], time in [-20, 25], E/p 1.75, exotic cut on. */
  const DefaultParams := EMCCutParams(0.7, 1, 0.1, 0.7, -20.0, 25.0, 1.75, true, Unset, Unset)

  /** `EMCPhotonCuts`: the cut identifiers and their count. */
  const kEnergy := 0
  const kNCell := 1
  const kM02 := 2
  const kTiming := 3
  const kTM := 4
  const kExotic := 5
  const kNCuts := 6

  function AbsDiff(a: real, b: real): real {
    if a < b then b - a else a - b
  }

  /**
   * `e / p >= minEoverP` in floating point: for p = 0 the ratio is +inf when
   * e > 0 (so it passes) and -inf or NaN otherwise (so it fails).
   */
  predicate EOverPPasses(e: real, p: real, minEoverP: real) {
    if p == 0.0 then e > 0.0 else e / p >= minEoverP
  }

  /** The track-matching cut: the track is far enough in eta or phi, or E/p is large enough. */
  predicate TrackMatchingPasses(p: EMCCutParams, cl: Cluster, tr: MatchedTrack, fEta: real -> real, fPhi: real -> real) {
    || AbsDiff(tr.tracketa, cl.eta) > fEta(tr.trackpt)
    || AbsDiff(tr.trackphi, cl.phi) > fPhi(tr.trackpt)
    || EOverPPasses(cl.e, tr.trackp, p.minEoverP)
  }

  /** The exotic cut as written: when enabled it keeps exotic clusters only. */
  predicate ExoticCut(p: EMCCutParams, cl: Cluster) {
    if p.useExoticCut then cl.isExotic else true
  }

  /** The exotic cut with the evidently intended sense: when enabled it rejects exotic clusters. */
  predicate ExoticCutCorrected(p: EMCCutParams, cl: Cluster) {
    if p.useExoticCut then !cl.isExotic else true
  }

  /** `IsSelectedEMCal`: one criterion, as written; an identifier outside the six rejects. */
  function IsSelectedEMCal(p: EMCCutParams, cl: Cluster, tr: MatchedTrack, cut: int,
                           fEta: real -> real, fPhi: real -> real): (r: bool)
    ensures cut == kEnergy ==> (r <==> cl.e > p.minE)
    ensures cut == kNCell ==> (r <==> cl.nCells >= p.minNCell)
    ensures cut == kM02 ==> (r <==> p.minM02 <= cl.m02 <= p.maxM02)
    ensures cut == kTiming ==> (r <==> p.minTime <= cl.time <= p.maxTime)
    ensures cut == kTM ==> (r <==> TrackMatchingPasses(p, cl, tr, fEta, fPhi))
    ensures cut == kExotic ==> (r <==> (p.useExoticCut ==> cl.isExotic))
    ensures !(kEnergy <= cut < kNCuts) ==> !r
  {
    if cut == kEnergy then cl.e > p.minE
    else if cut == kNCell then cl.nCells >= p.minNCell
    else if cut == kM02 then p.minM02 <= cl.m02 && cl.m02 <= p.maxM02
    else if cut == kTiming then p.minTime <= cl.time && cl.time <= p.maxTime
    else if cut == kTM then TrackMatchingPasses(p, cl, tr, fEta, fPhi)
    else if cut == kExotic then ExoticCut(p, cl)
    else false
  }

  /** The criteria with the corrected exotic cut; the other five are those of `IsSelectedEMCal`. */
  function IsSelectedEMCalCorrected(p: EMCCutParams, cl: Cluster, tr: MatchedTrack, cut: int,
                                    fEta: real -> real, fPhi: real -> real): (r: bool)
    ensures cut == kExotic ==> (r <==> !(p.useExoticCut && cl.isExotic))
    ensures cut != kExotic ==> (r <==> IsSelectedEMCal(p, cl, tr, cut, fEta, fPhi))
  {
    if cut == kExotic then ExoticCutCorrected(p, cl) else IsSelectedEMCal(p, cl, tr, cut, fEta, fPhi)
  }

  /** `IsSelected`: the six criteria in order, stopping at the first that fails. */
  function IsSelected(p: EMCCutParams, cl: Cluster, tr: MatchedTrack, fEta: real -> real, fPhi: real -> real): (r: bool)
    ensures r <==> forall c | kEnergy <= c < kNCuts :: IsSelectedEMCal(p, cl, tr, c, fEta, fPhi)
  {
    if !IsSelectedEMCal(p, cl, tr, kEnergy, fEta, fPhi) then false
    else if !IsSelectedEMCal(p, cl, tr, kNCell, fEta, fPhi) then false
    else if !IsSelectedEMCal(p, cl, tr, kM02, fEta, fPhi) then false
    else if !IsSelectedEMCal(p, cl, tr, kTiming, fEta, fPhi) then false
    else if !IsSelectedEMCal(p, cl, tr, kTM, fEta, fPhi) then false
    else if !IsSelectedEMCal(p, cl, tr, kExotic, fEta, fPhi) then false
    else true
  }

  /** The selection with the corrected exotic cut. */
  function IsSelectedCorrected(p: EMCCutParams, cl: Cluster, tr: MatchedTrack, fEta: real -> real, fPhi: real -> real): (r: bool)
    ensures r <==> forall c | kEnergy <= c < kNCuts :: IsSelectedEMCalCorrected(p, cl, tr, c, fEta, fPhi)
  {
    if !IsSelectedEMCalCorrected(p, cl, tr, kEnergy, fEta, fPhi) then false
    else if !IsSelectedEMCalCorrected(p, cl, tr, kNCell, fEta, fPhi) then false
    else if !IsSelectedEMCalCorrected(p, cl, tr, kM02, fEta, fPhi) then false
    else if !IsSelectedEMCalCorrected(p, cl, tr, kTiming, fEta, fPhi) then false
    else if !IsSelectedEMCalCorrected(p, cl, tr, kTM, fEta, fPhi) then false
    else if !IsSelectedEMCalCorrected(p, cl, tr, kExotic, fEta, fPhi) then false
    else true
  }

  /** With the exotic cut disabled the written and the corrected selection agree. */
  lemma SelectionsAgreeWithoutExoticCut(p: EMCCutParams, cl: Cluster, tr: MatchedTrack, fEta: real -> real, fPhi: real -> real)
    requires !p.useExoticCut
    ensures IsSelected(p, cl, tr, fEta, fPhi) <==> IsSelectedCorrected(p, cl, tr, fEta, fPhi)
  {
    assert IsSelectedEMCal(p, cl, tr, kExotic, fEta, fPhi);
    assert IsSelectedEMCalCorrected(p, cl, tr, kExotic, fEta, fPhi);
  }

  /**
   * The first criterion at or after `from` that fails, or `kNCuts`: the point
   * where the chain of `IsSelected` stops.
   */
  function FirstFailingCut(p: EMCCutParams, cl: Cluster, tr: MatchedTrack, fEta: real -> real, fPhi: real -> real,
                           from: int): (k: int)
    requires kEnergy <= from <= kNCuts
    ensures from <= k <= kNCuts
    ensures forall c | from <= c < k :: IsSelectedEMCal(p, cl, tr, c, fEta, fPhi)
    ensures k < kNCuts ==> !IsSelectedEMCal(p, cl, tr, k, fEta, fPhi)
    decreases kNCuts - from
  {
    if from == kNCuts then kNCuts
    else if !IsSelectedEMCal(p, cl, tr, from, fEta, fPhi) then from
    else FirstFailingCut(p, cl, tr, fEta, fPhi, from + 1)
  }

  /** A cluster is selected exactly when the chain runs through all six criteria. */
  lemma SelectedIffNoFailingCut(p: EMCCutParams, cl: Cluster, tr: MatchedTrack, fEta: real -> real, fPhi: real -> real)
    ensures IsSelected(p, cl, tr, fEta, fPhi) <==> FirstFailingCut(p, cl, tr, fEta, fPhi, kEnergy) == kNCuts
  {
  }

  /** The energy threshold is strict: a cluster exactly at it is rejected. */
  lemma EnergyThresholdStrict(p: EMCCutParams, cl: Cluster, tr: MatchedTrack, fEta: real -> real, fPhi: real -> real)
    requires cl.e == p.minE
    ensures !IsSelected(p, cl, tr, fEta, fPhi)
    ensures FirstFailingCut(p, cl, tr, fEta, fPhi, kEnergy) == kEnergy
  {
  }

  /** With the exotic cut enabled, the corrected selection never keeps an exotic cluster. */
  lemma SelectedNotExotic(p: EMCCutParams, cl: Cluster, tr: MatchedTrack, fEta: real -> real, fPhi: real -> real)
    requires p.useExoticCut && IsSelectedCorrected(p, cl, tr, fEta, fPhi)
    ensures !cl.isExotic
  {
    assert IsSelectedEMCalCorrected(p, cl, tr, kExotic, fEta, fPhi);
  }

  /** As written, the enabled exotic cut keeps exotic clusters only. */
  lemma AsWrittenSelectsOnlyExotic(p: EMCCutParams, cl: Cluster, tr: MatchedTrack, fEta: real -> real, fPhi: real -> real)
    requires p.useExoticCut && IsSelected(p, cl, tr, fEta, fPhi)
    ensures cl.isExotic
  {
    assert IsSelectedEMCal(p, cl, tr, kExotic, fEta, fPhi);
  }

  // ---------------------------------------------------------------------------
  // Selection with the widths the object holds
  // ---------------------------------------------------------------------------

  /**
   * The track-matching cut with the object's own widths. Calling an empty
   * width function throws (`std::bad_function_call`), modelled as `None`; the
   * phi width is only called when the eta comparison fails.
   */
  function TrackMatchingOutcome(p: EMCCutParams, cl: Cluster, tr: MatchedTrack, pow: (real, real) -> real): (r: Option<bool>)
    ensures r.None? <==>
      (p.trackMatchingEta.Unset?
       || (p.trackMatchingPhi.Unset? && !(AbsDiff(tr.tracketa, cl.eta) > WidthFunction(p.trackMatchingEta, pow)(tr.trackpt))))
    ensures !p.trackMatchingEta.Unset? && AbsDiff(tr.tracketa, cl.eta) > WidthFunction(p.trackMatchingEta, pow)(tr.trackpt) ==>
      r == Some(true)
    ensures !p.trackMatchingEta.Unset? && !p.trackMatchingPhi.Unset? ==>
      r == Some(TrackMatchingPasses(p, cl, tr, WidthFunction(p.trackMatchingEta, pow), WidthFunction(p.trackMatchingPhi, pow)))
  {
    if p.trackMatchingEta.Unset? then None
    else if AbsDiff(tr.tracketa, cl.eta) > WidthFunction(p.trackMatchingEta, pow)(tr.trackpt) then Some(true)
    else if p.trackMatchingPhi.Unset? then None
    else if AbsDiff(tr.trackphi, cl.phi) > WidthFunction(p.trackMatchingPhi, pow)(tr.trackpt) then Some(true)
    else Some(EOverPPasses(cl.e, tr.trackp, p.minEoverP))
  }

  /**
   * `IsSelected` on a cut object: `Some(verdict)`, or `None` when the chain
   * reaches the track-matching cut with an empty width function.
   */
  function IsSelectedWithStoredWidths(p: EMCCutParams, cl: Cluster, tr: MatchedTrack, pow: (real, real) -> real): (r: Option<bool>)
    ensures !p.trackMatchingEta.Unset? && !p.trackMatchingPhi.Unset? ==>
      r == Some(IsSelected(p, cl, tr, WidthFunction(p.trackMatchingEta, pow), WidthFunction(p.trackMatchingPhi, pow)))
    ensures r.None? ==> p.trackMatchingEta.Unset? || p.trackMatchingPhi.Unset?
    ensures r.None? <==>
      (cl.e > p.minE && cl.nCells >= p.minNCell && p.minM02 <= cl.m02 <= p.maxM02 && p.minTime <= cl.time <= p.maxTime
       && TrackMatchingOutcome(p, cl, tr, pow).None?)
    ensures r.Some? ==>
      (r.value <==>
        (cl.e > p.minE && cl.nCells >= p.minNCell && p.minM02 <= cl.m02 <= p.maxM02 && p.minTime <= cl.time <= p.maxTime
         && TrackMatchingOutcome(p, cl, tr, pow) == Some(true) && ExoticCut(p, cl)))
  {
    if !(cl.e > p.minE) || !(cl.nCells >= p.minNCell) || !(p.minM02 <= cl.m02 <= p.maxM02)
       || !(p.minTime <= cl.time <= p.maxTime) then Some(false)
    else match TrackMatchingOutcome(p, cl, tr, pow)
      case None => None
      case Some(tm) => Some(tm && ExoticCut(p, cl))
  }

  /**
   * A freshly constructed cut holds empty width functions: every cluster
   * that passes the first four cuts makes `IsSelected` throw.
   */
  lemma DefaultCutThrowsAtTrackMatching(cl: Cluster, tr: MatchedTrack, pow: (real, real) -> real)
    requires cl.e > DefaultParams.minE && cl.nCells >= DefaultParams.minNCell
    requires DefaultParams.minM02 <= cl.m02 <= DefaultParams.maxM02 && DefaultParams.minTime <= cl.time <= DefaultParams.maxTime
    ensures IsSelectedWithStoredWidths(DefaultParams, cl, tr, pow) == None
  {
  }

  // ---------------------------------------------------------------------------
  // The cut object
  // ---------------------------------------------------------------------------

  /** The cut object with its private thresholds and the setters that change them. */
  class EMCPhotonCut {
    var mMinE: real
    var mMinNCell: int
    var mMinM02: real
    var mMaxM02: real
    var mMinTime: real
    var mMaxTime: real
    var mMinEoverP: real
    var mUseExoticCut: bool
    var mTrackMatchingEta: TrackMatchingWidth
    var mTrackMatchingPhi: TrackMatchingWidth

    /** The thresholds as a value. */
    function Params(): EMCCutParams
      reads this
    {
      EMCCutParams(mMinE, mMinNCell, mMinM02, mMaxM02, mMinTime, mMaxTime, mMinEoverP, mUseExoticCut,
                   mTrackMatchingEta, mTrackMatchingPhi)
    }

    /** A new cut object holds the in-class defaults. */
    constructor ()
      ensures Params() == DefaultParams
    {
      mMinE, mMinNCell, mMinM02, mMaxM02 := 0.7, 1, 0.1, 0.7;
      mMinTime, mMaxTime, mMinEoverP, mUseExoticCut := -20.0, 25.0, 1.75, true;
      mTrackMatchingEta, mTrackMatchingPhi := Unset, Unset;
    }

    method SetMinE(min: real := 0.7)
      modifies this
      ensures Params() == old(Params()).(minE := min)
    {
      mMinE := min;
    }

    method SetMinNCell(min: int := 1)
      modifies this
      ensures Params() == old(Params()).(minNCell := min)
    {
      mMinNCell := min;
    }

    method SetM02Range(min: real := 0.1, max: real := 0.7)
      modifies this
      ensures Params() == old(Params()).(minM02 := min, maxM02 := max)
    {
      mMinM02, mMaxM02 := min, max;
    }

    method SetTimeRange(min: real := -20.0, max: real := 25.0)
      modifies this
      ensures Params() == old(Params()).(minTime := min, maxTime := max)
    {
      mMinTime, mMaxTime := min, max;
    }

    method SetTrackMatchingEta(funcTM: TrackMatchingWidth)
      modifies this
      ensures Params() == old(Params()).(trackMatchingEta := funcTM)
    {
      mTrackMatchingEta := funcTM;
    }

    method SetTrackMatchingPhi(funcTM: TrackMatchingWidth)
      modifies this
      ensures Params() == old(Params()).(trackMatchingPhi := funcTM)
    {
      mTrackMatchingPhi := funcTM;
    }

    /** The default argument (0.7) differs from the in-class default of the field (1.75). */
    method SetMinEoverP(min: real := 0.7)
      modifies this
      ensures Params() == old(Params()).(minEoverP := min)
    {
      mMinEoverP := min;
    }

    method SetUseExoticCut(flag: bool := true)
      modifies this
      ensures Params() == old(Params()).(useExoticCut := flag)
    {
      mUseExoticCut := flag;
    }
  }
}
