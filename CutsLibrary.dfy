/**
 * Model of the photon cut library: `pcmcuts::GetCut` and `emccuts::GetCut`
 * map a cut name to a freshly configured cut object, or to null for an
 * unknown name.  The model returns the configured thresholds, `None` for null.
 *
 * The PCM cut class (`V0PhotonCut`) is modelled only as far as the library
 * configures it: one optional field per setter, `None` while never set.
 */
module CutsLibrary {
  import opened Wrappers
  import opened EMCPhotonCut

  // ---------------------------------------------------------------------------
  // PCM (V0 photon) cuts
  // ---------------------------------------------------------------------------

  /** A closed range of a cut variable. */
  datatype Range = Range(min: real, max: real)

  predicate InRange(r: Range, x: real) {
    r.min <= x <= r.max
  }

  /** The psi-pair dependent Mee bound: `below` for psipair < edge, `above` otherwise. */
  datatype MeePsiPairBound = PsiPairStep(edge: real, below: real, above: real)

  function MaxMee(b: MeePsiPairBound, psipair: real): real {
    if psipair < b.edge then b.below else b.above
  }

  /** What the library sets on a PCM cut; `None` is a setter never called. */
  datatype PCMCutParams = PCMCutParams(
    ptRange: Option<Range>,
    etaRange: Option<Range>,
    minNCrossedRowsTPC: Option<int>,
    minNCrossedRowsOverFindableClustersTPC: Option<real>,
    maxChi2PerClusterTPC: Option<real>,
    tpcNsigmaElRange: Option<Range>,
    rxyKFRange: Option<Range>,
    maxMeePsiPairDep: Option<MeePsiPairBound>)

  const Unconfigured := PCMCutParams(None, None, None, None, None, None, None, None)

  /** The PCM cut object, reduced to the settings the library writes. */
  class V0PhotonCut {
    var mPtRange: Option<Range>
    var mEtaRange: Option<Range>
    var mMinNCrossedRowsTPC: Option<int>
    var mMinNCrossedRowsOverFindableClustersTPC: Option<real>
    var mMaxChi2PerClusterTPC: Option<real>
    var mTPCNsigmaElRange: Option<Range>
    var mRxyKFRange: Option<Range>
    var mMaxMeePsiPairDep: Option<MeePsiPairBound>

    function Params(): PCMCutParams
      reads this
    {
      PCMCutParams(mPtRange, mEtaRange, mMinNCrossedRowsTPC, mMinNCrossedRowsOverFindableClustersTPC,
                   mMaxChi2PerClusterTPC, mTPCNsigmaElRange, mRxyKFRange, mMaxMeePsiPairDep)
    }

    constructor ()
      ensures Params() == Unconfigured
    {
      mPtRange, mEtaRange, mMinNCrossedRowsTPC, mMinNCrossedRowsOverFindableClustersTPC := None, None, None, None;
      mMaxChi2PerClusterTPC, mTPCNsigmaElRange, mRxyKFRange, mMaxMeePsiPairDep := None, None, None, None;
    }

    method SetPtRange(min: real, max: real)
      modifies this
      ensures Params() == old(Params()).(ptRange := Some(Range(min, max)))
    {
      mPtRange := Some(Range(min, max));
    }

    method SetEtaRange(min: real, max: real)
      modifies this
      ensures Params() == old(Params()).(etaRange := Some(Range(min, max)))
    {
      mEtaRange := Some(Range(min, max));
    }

    method SetMinNCrossedRowsTPC(min: int)
      modifies this
      ensures Params() == old(Params()).(minNCrossedRowsTPC := Some(min))
    {
      mMinNCrossedRowsTPC := Some(min);
    }

    method SetMinNCrossedRowsOverFindableClustersTPC(min: real)
      modifies this
      ensures Params() == old(Params()).(minNCrossedRowsOverFindableClustersTPC := Some(min))
    {
      mMinNCrossedRowsOverFindableClustersTPC := Some(min);
    }

    method SetMaxChi2PerClusterTPC(max: real)
      modifies this
      ensures Params() == old(Params()).(maxChi2PerClusterTPC := Some(max))
    {
      mMaxChi2PerClusterTPC := Some(max);
    }

    method SetTPCNsigmaElRange(min: real, max: real)
      modifies this
      ensures Params() == old(Params()).(tpcNsigmaElRange := Some(Range(min, max)))
    {
      mTPCNsigmaElRange := Some(Range(min, max));
    }

    method SetRxyKFRange(min: real, max: real)
      modifies this
      ensures Params() == old(Params()).(rxyKFRange := Some(Range(min, max)))
    {
      mRxyKFRange := Some(Range(min, max));
    }

    method SetMaxMeePsiPairDep(bound: MeePsiPairBound)
      modifies this
      ensures Params() == old(Params()).(maxMeePsiPairDep := Some(bound))
    {
      mMaxMeePsiPairDep := Some(bound);
    }
  }

  /** The psi-pair step shared by "analysis" and "qc": 0.06 below psipair 0.4, 0.015 above. */
  const MeeBound := PsiPairStep(0.4, 0.06, 0.015)

  const AnalysisCut := PCMCutParams(
    Some(Range(0.01, 10000000000.0)), Some(Range(-0.9, 0.9)), Some(30), Some(0.6), Some(4.0),
    Some(Range(-3.0, 3.0)), Some(Range(1.0, 90.0)), Some(MeeBound))

  const QcCut := PCMCutParams(
    Some(Range(0.01, 10000000000.0)), Some(Range(-0.9, 0.9)), Some(30), Some(0.6), Some(4.0),
    Some(Range(-3.0, 3.0)), Some(Range(0.0, 180.0)), Some(MeeBound))

  const PCMNoCut := PCMCutParams(
    Some(Range(0.01, 10000000000.0)), Some(Range(-0.9, 0.9)), Some(20), Some(0.6), Some(4.0),
    None, None, None)

  /** The names `pcmcuts::GetCut` recognises. */
  const PCMCutNames := {"analysis", "qc", "nocut"}

  /** `pcmcuts::GetCut`: the configured cut for a known name, `None` (null) for any other. */
  method GetPCMCut(cutName: string) returns (r: Option<PCMCutParams>)
    ensures r.Some? <==> cutName in PCMCutNames
    ensures cutName == "analysis" ==> r == Some(AnalysisCut)
    ensures cutName == "qc" ==> r == Some(QcCut)
    ensures cutName == "nocut" ==> r == Some(PCMNoCut)
  {
    var cut := new V0PhotonCut();
    if cutName == "analysis" {
      cut.SetPtRange(0.01, 10000000000.0);
      cut.SetEtaRange(-0.9, 0.9);
      cut.SetMinNCrossedRowsTPC(30);
      cut.SetMinNCrossedRowsOverFindableClustersTPC(0.6);
      cut.SetMaxChi2PerClusterTPC(4.0);
      cut.SetTPCNsigmaElRange(-3.0, 3.0);
      cut.SetRxyKFRange(1.0, 90.0);
      cut.SetMaxMeePsiPairDep(PsiPairStep(0.4, 0.06, 0.015));
      return Some(cut.Params());
    }
    if cutName == "qc" {
      cut.SetPtRange(0.01, 10000000000.0);
      cut.SetEtaRange(-0.9, 0.9);
      cut.SetMinNCrossedRowsTPC(30);
      cut.SetMinNCrossedRowsOverFindableClustersTPC(0.6);
      cut.SetMaxChi2PerClusterTPC(4.0);
      cut.SetTPCNsigmaElRange(-3.0, 3.0);
      cut.SetRxyKFRange(0.0, 180.0);
      cut.SetMaxMeePsiPairDep(PsiPairStep(0.4, 0.06, 0.015));
      return Some(cut.Params());
    }
    if cutName == "nocut" {
      cut.SetPtRange(0.01, 10000000000.0);
      cut.SetEtaRange(-0.9, 0.9);
      cut.SetMinNCrossedRowsTPC(20);
      cut.SetMinNCrossedRowsOverFindableClustersTPC(0.6);
      cut.SetMaxChi2PerClusterTPC(4.0);
      return Some(cut.Params());
    }
    return None;
  }

  /** "analysis" and "qc" agree on everything but the RxyKF range, and "qc"'s range is the wider one. */
  lemma AnalysisAndQcDifferOnlyInRxy()
    ensures AnalysisCut.(rxyKFRange := QcCut.rxyKFRange) == QcCut
    ensures AnalysisCut.rxyKFRange == Some(Range(1.0, 90.0)) && QcCut.rxyKFRange == Some(Range(0.0, 180.0))
    ensures forall rxy: real :: InRange(AnalysisCut.rxyKFRange.value, rxy) ==> InRange(QcCut.rxyKFRange.value, rxy)
  {
  }

  /** The PCM "nocut" only loosens: fewer crossed rows, and no n-sigma, Rxy or Mee bound at all. */
  lemma PCMNoCutOnlyLoosens()
    ensures PCMNoCut.minNCrossedRowsTPC == Some(20)
    ensures PCMNoCut.tpcNsigmaElRange.None? && PCMNoCut.rxyKFRange.None? && PCMNoCut.maxMeePsiPairDep.None?
    ensures PCMNoCut.(minNCrossedRowsTPC := AnalysisCut.minNCrossedRowsTPC, tpcNsigmaElRange := AnalysisCut.tpcNsigmaElRange,
                      rxyKFRange := AnalysisCut.rxyKFRange, maxMeePsiPairDep := AnalysisCut.maxMeePsiPairDep) == AnalysisCut
    ensures PCMNoCut.minNCrossedRowsTPC.value <= AnalysisCut.minNCrossedRowsTPC.value
  {
  }

  /** The psi-pair step tightens the Mee bound from 0.06 to 0.015 once psipair reaches 0.4. */
  lemma MeeBoundSteps(psi1: real, psi2: real)
    requires psi1 <= psi2
    ensures MaxMee(MeeBound, psi2) <= MaxMee(MeeBound, psi1)
    ensures MaxMee(MeeBound, psi1) == 0.06 <==> psi1 < 0.4
    ensures MaxMee(MeeBound, psi1) == 0.015 <==> psi1 >= 0.4
  {
  }

  // ---------------------------------------------------------------------------
  // EMCal cuts
  // ---------------------------------------------------------------------------

  /** The "standard" track-matching widths: `0.01 + pow(pT + 4.07, -2.5)` and `0.015 + pow(pT + 3.65, -2)`. */
  const StandardEtaWidth := PowerLaw(0.01, 4.07, -2.5)
  const StandardPhiWidth := PowerLaw(0.015, 3.65, -2.0)

  const StandardCut := EMCCutParams(0.7, 1, 0.1, 0.7, -20.0, 25.0, 1.75, true, StandardEtaWidth, StandardPhiWidth)

  const EMCNoCut := EMCCutParams(0.0, 1, 0.0, 1000.0, -500.0, 500.0, 0.0, false, Constant(-1.0), Constant(-1.0))

  /** `emccuts::GetCut`: the configured cut for "standard" or "nocut", `None` (null) for any other name. */
  method GetEMCCut(cutName: string) returns (r: Option<EMCCutParams>)
    ensures r.Some? <==> cutName == "standard" || cutName == "nocut"
    ensures cutName == "standard" ==> r == Some(StandardCut)
    ensures cutName == "nocut" ==> r == Some(EMCNoCut)
  {
    var cut := new EMCPhotonCut();
    if cutName == "standard" {
      cut.SetMinE(0.7);
      cut.SetMinNCell(1);
      cut.SetM02Range(0.1, 0.7);
      cut.SetTimeRange(-20.0, 25.0);
      cut.SetTrackMatchingEta(PowerLaw(0.01, 4.07, -2.5));
      cut.SetTrackMatchingPhi(PowerLaw(0.015, 3.65, -2.0));
      cut.SetMinEoverP(1.75);
      cut.SetUseExoticCut(true);
      return Some(cut.Params());
    }
    if cutName == "nocut" {
      cut.SetMinE(0.0);
      cut.SetMinNCell(1);
      cut.SetM02Range(0.0, 1000.0);
      cut.SetTimeRange(-500.0, 500.0);
      cut.SetTrackMatchingEta(Constant(-1.0));
      cut.SetTrackMatchingPhi(Constant(-1.0));
      cut.SetMinEoverP(0.0);
      cut.SetUseExoticCut(false);
      return Some(cut.Params());
    }
    return None;
  }

  /** "standard" sets every scalar threshold to the class default; only the widths become set. */
  lemma StandardMatchesClassDefaults()
    ensures StandardCut.(trackMatchingEta := Unset, trackMatchingPhi := Unset) == DefaultParams
    ensures !StandardCut.trackMatchingEta.Unset? && !StandardCut.trackMatchingPhi.Unset?
  {
  }

  /** "standard" sets both widths, so its selection never throws. */
  lemma StandardNeverThrows(cl: Cluster, tr: MatchedTrack, pow: (real, real) -> real)
    ensures IsSelectedWithStoredWidths(StandardCut, cl, tr, pow)
         == Some(IsSelected(StandardCut, cl, tr, WidthFunction(StandardEtaWidth, pow), WidthFunction(StandardPhiWidth, pow)))
  {
  }

  /** An ordinary photon cluster: 2 GeV, three cells, M02 0.3, in time, not exotic. */
  const GoodCluster := Cluster(2.0, 3, 0.3, 0.0, 0.0, 0.0, false)

  /** Its pre-matched track, 0.5 away in eta, with p = 1 so that E/p = 2. */
  const DistantTrack := MatchedTrack(0.5, 0.0, 1.0, 1.0)

  /**
   * The "standard" cut, whatever `pow` gives, rejects the ordinary cluster as
   * written (the exotic cut keeps exotic clusters only) and keeps it with the
   * corrected exotic cut: it passes the first four cuts, and the
   * track-matching cut through E/p = 2 >= 1.75.
   */
  lemma AsWrittenRejectsOrdinaryCluster(pow: (real, real) -> real)
    ensures IsSelectedWithStoredWidths(StandardCut, GoodCluster, DistantTrack, pow) == Some(false)
    ensures var fEta, fPhi := WidthFunction(StandardEtaWidth, pow), WidthFunction(StandardPhiWidth, pow);
      !IsSelected(StandardCut, GoodCluster, DistantTrack, fEta, fPhi)
      && IsSelectedCorrected(StandardCut, GoodCluster, DistantTrack, fEta, fPhi)
  {
    var fEta, fPhi := WidthFunction(StandardEtaWidth, pow), WidthFunction(StandardPhiWidth, pow);
    assert EOverPPasses(GoodCluster.e, DistantTrack.trackp, StandardCut.minEoverP);
    assert IsSelectedEMCal(StandardCut, GoodCluster, DistantTrack, kTM, fEta, fPhi);
    assert !IsSelectedEMCal(StandardCut, GoodCluster, DistantTrack, kExotic, fEta, fPhi);
  }

  /**
   * Under "nocut" both widths are -1, so the track-matching cut passes for
   * every cluster and track, and the exotic cut is off.
   */
  lemma NoCutTrackMatchingAndExoticPass(cl: Cluster, tr: MatchedTrack, pow: (real, real) -> real)
    ensures var fEta, fPhi := WidthFunction(EMCNoCut.trackMatchingEta, pow), WidthFunction(EMCNoCut.trackMatchingPhi, pow);
      IsSelectedEMCal(EMCNoCut, cl, tr, kTM, fEta, fPhi) && IsSelectedEMCal(EMCNoCut, cl, tr, kExotic, fEta, fPhi)
  {
    var fEta := WidthFunction(EMCNoCut.trackMatchingEta, pow);
    assert fEta(tr.trackpt) == -1.0;
    assert AbsDiff(tr.tracketa, cl.eta) >= 0.0;
  }

  /**
   * "nocut" still selects: a cluster passes exactly when its energy is
   * positive (the comparison is strict), it has a cell, and M02 and time lie
   * in the wide ranges.
   */
  lemma NoCutSelection(cl: Cluster, tr: MatchedTrack, pow: (real, real) -> real)
    ensures var fEta, fPhi := WidthFunction(EMCNoCut.trackMatchingEta, pow), WidthFunction(EMCNoCut.trackMatchingPhi, pow);
      IsSelected(EMCNoCut, cl, tr, fEta, fPhi) <==>
        cl.e > 0.0 && cl.nCells >= 1 && 0.0 <= cl.m02 <= 1000.0 && -500.0 <= cl.time <= 500.0
  {
    NoCutTrackMatchingAndExoticPass(cl, tr, pow);
  }

  /** In particular "nocut" rejects a zero-energy cluster. */
  lemma NoCutRejectsZeroEnergy(cl: Cluster, tr: MatchedTrack, pow: (real, real) -> real)
    requires cl.e == 0.0
    ensures !IsSelected(EMCNoCut, cl, tr, WidthFunction(EMCNoCut.trackMatchingEta, pow), WidthFunction(EMCNoCut.trackMatchingPhi, pow))
  {
    NoCutSelection(cl, tr, pow);
  }
}
