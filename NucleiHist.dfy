/**
 * Model of the light-nuclei skimming task (`NucleiHistTask`).
 *
 * Every track of a collision runs through a fixed chain: a track-quality
 * predicate, then the DCA histograms and the DCA cut, then a rapidity cut that
 * must hold under all five mass hypotheses.  Tracks that survive fill the QA
 * histograms and, for each nucleus whose TPC n-sigma lies in the open window,
 * the histograms of the particle or antiparticle registry; that also raises the
 * event's keep flag for that registry.  After the loop every registry receives
 * its flag.  Histogram fills are an ordered log of (registry, histogram, x, y).
 */
module NucleiHist {

  /** The five mass hypotheses. */
  datatype Nucleus = Proton | Deuteron | Triton | Helium3 | Helium4

  /** One real per mass hypothesis. */
  datatype PerNucleus = PerNucleus(proton: real, deuteron: real, triton: real, helium3: real, helium4: real)
  {
    function At(n: Nucleus): real {
      match n
      case Proton => proton
      case Deuteron => deuteron
      case Triton => triton
      case Helium3 => helium3
      case Helium4 => helium4
    }
  }

  /**
   * A track.  `rapidity` holds the rapidity of the track under each mass
   * hypothesis (with twice the pt for the helium isotopes), as computed by the
   * Lorentz-vector library; `mass` is the TOF mass.
   */
  datatype NucleiTrack = NucleiTrack(
    pt: real, tpcInnerParam: real, tpcSignal: real, dcaXY: real, dcaZ: real,
    sign: int,
    tpcNClsFound: int, tpcNClsCrossedRows: int, tpcCrossedRowsOverFindableCls: real,
    tpcChi2NCl: real, itsChi2NCl: real,
    passedTPCRefit: bool, passedITSRefit: bool, itsNCls: nat, isPVContributor: bool,
    rapidity: PerNucleus, tpcNSigma: PerNucleus, tofNSigma: PerNucleus,
    hasTOF: bool, mass: real, beta: real)

  /** The configurables of the cut chain. */
  datatype NucleiConfig = NucleiConfig(
    yMin: real, yMax: real,
    nsigmacutLow: real, nsigmacutHigh: real,
    minReqClusterITS: real, minTPCnClsFound: real, minNCrossedRowsTPC: real,
    minRatioCrossedRowsTPC: real, maxRatioCrossedRowsTPC: real,
    maxChi2ITS: real, maxChi2TPC: real,
    maxDCA_XY: real, maxDCA_Z: real)

  /** The defaults of the configurables. */
  const DefaultConfig := NucleiConfig(-0.5, 0.5, -3.0, 3.0, 1.0, 0.0, 70.0, 0.8, 1.5, 36.0, 4.0, 0.5, 2.0)

  // ---------------------------------------------------------------------------
  // The histograms
  // ---------------------------------------------------------------------------

  /** The `spectra` registry, or the registry of one (anti)nucleus. */
  datatype Registry = Spectra | Species(nucleus: Nucleus, anti: bool)

  datatype NucleiHistName =
    | RecVtxZ
    | DcaVsPtParticle | DcaZVsPtParticle | DcaVsPtAntiparticle | DcaZVsPtAntiparticle
    | TpcSignal | NClusterTPC | NClusterITS | Chi2TPC | Chi2ITS
    | TpcNsigma | TOFm2 | DcaVsPt | DcaZVsPt | TofSignal | TofNsigma
    | KeepEvent

  /** One fill; one-dimensional histograms have y = 0. */
  datatype NucleiFill = NucleiFill(reg: Registry, hist: NucleiHistName, x: real, y: real)

  /** The helium isotopes are doubly charged, which scales their pt and momentum by two. */
  function Charge(n: Nucleus): real {
    if n == Helium3 || n == Helium4 then 2.0 else 1.0
  }

  /** The pt at which the histograms of a nucleus are filled. */
  function ScaledPt(t: NucleiTrack, n: Nucleus): real {
    t.pt * Charge(n)
  }

  /** The TPC inner-wall momentum at which the histograms of a nucleus are filled. */
  function ScaledMomentum(t: NucleiTrack, n: Nucleus): real {
    t.tpcInnerParam * Charge(n)
  }

  /** The same momentum carrying the charge sign, for the spectra TOF signal. */
  function SignedMomentum(t: NucleiTrack, n: Nucleus): real {
    ScaledMomentum(t, n) * t.sign as real
  }

  /** The TPC inner-wall momentum carrying the charge sign, for the spectra TPC signal. */
  function SignedInnerParam(t: NucleiTrack): real {
    t.tpcInnerParam * t.sign as real
  }

  /** The squared TOF mass. */
  function TofMass2(t: NucleiTrack): real {
    t.mass * t.mass
  }

  // ---------------------------------------------------------------------------
  // The cut chain
  // ---------------------------------------------------------------------------

  /** The replacement for the global-track filter: every quality requirement holds. */
  predicate PassesQuality(cfg: NucleiConfig, t: NucleiTrack) {
    !(t.tpcNClsFound as real < cfg.minTPCnClsFound
      || (t.tpcNClsCrossedRows as real) < cfg.minNCrossedRowsTPC
      || t.tpcCrossedRowsOverFindableCls < cfg.minRatioCrossedRowsTPC
      || t.tpcCrossedRowsOverFindableCls > cfg.maxRatioCrossedRowsTPC
      || t.tpcChi2NCl > cfg.maxChi2TPC
      || t.itsChi2NCl > cfg.maxChi2ITS
      || !t.passedTPCRefit
      || !t.passedITSRefit
      || (t.itsNCls as real) < cfg.minReqClusterITS
      || !t.isPVContributor)
  }

  function Abs(x: real): real {
    if x < 0.0 then -x else x
  }

  /** The DCA cut: both impact parameters within their maximum. */
  predicate PassesDCA(cfg: NucleiConfig, t: NucleiTrack) {
    !(Abs(t.dcaXY) > cfg.maxDCA_XY || Abs(t.dcaZ) > cfg.maxDCA_Z)
  }

  predicate RapidityInRange(cfg: NucleiConfig, y: real) {
    !(y < cfg.yMin || y > cfg.yMax)
  }

  /** The rapidity cut, over the five mass hypotheses. */
  predicate PassesRapidity(cfg: NucleiConfig, t: NucleiTrack) {
    && RapidityInRange(cfg, t.rapidity.proton)
    && RapidityInRange(cfg, t.rapidity.deuteron)
    && RapidityInRange(cfg, t.rapidity.triton)
    && RapidityInRange(cfg, t.rapidity.helium3)
    && RapidityInRange(cfg, t.rapidity.helium4)
  }

  /** A track is kept for all species only when every hypothesis lies in the closed rapidity range. */
  lemma PassesRapidityMeaning(cfg: NucleiConfig, t: NucleiTrack)
    ensures PassesRapidity(cfg, t) <==> forall n: Nucleus :: cfg.yMin <= t.rapidity.At(n) <= cfg.yMax
  {
    if !PassesRapidity(cfg, t) {
      var n := if !RapidityInRange(cfg, t.rapidity.proton) then Proton
        else if !RapidityInRange(cfg, t.rapidity.deuteron) then Deuteron
        else if !RapidityInRange(cfg, t.rapidity.triton) then Triton
        else if !RapidityInRange(cfg, t.rapidity.helium3) then Helium3
        else Helium4;
      assert !(cfg.yMin <= t.rapidity.At(n) <= cfg.yMax);
    }
  }

  /** The whole chain: quality, DCA and rapidity. */
  predicate PassesCuts(cfg: NucleiConfig, t: NucleiTrack) {
    PassesQuality(cfg, t) && PassesDCA(cfg, t) && PassesRapidity(cfg, t)
  }

  /** The skimming window on the TPC n-sigma: both bounds excluded. */
  predicate InWindow(cfg: NucleiConfig, nSigma: real) {
    nSigma > cfg.nsigmacutLow && nSigma < cfg.nsigmacutHigh
  }

  /** The charge-sign condition of a particle (`sign > 0`) or an antiparticle (`sign < 0`) registry. */
  predicate SignMatches(sign: int, anti: bool) {
    if anti then sign < 0 else sign > 0
  }

  /** The track raises the keep flag of this registry. */
  predicate TriggersKeep(cfg: NucleiConfig, t: NucleiTrack, n: Nucleus, anti: bool) {
    PassesCuts(cfg, t) && InWindow(cfg, t.tpcNSigma.At(n)) && SignMatches(t.sign, anti)
  }

  /** A neutral track raises no flag, and no track raises both the particle and the antiparticle flag. */
  lemma TriggersKeepSign(cfg: NucleiConfig, t: NucleiTrack, n: Nucleus)
    ensures t.sign == 0 ==> !TriggersKeep(cfg, t, n, false) && !TriggersKeep(cfg, t, n, true)
    ensures !(TriggersKeep(cfg, t, n, false) && TriggersKeep(cfg, t, n, true))
  {
  }

  // ---------------------------------------------------------------------------
  // The fills of one track
  // ---------------------------------------------------------------------------

  /** The DCA histograms, filled before the DCA cut. */
  function DcaFills(t: NucleiTrack): seq<NucleiFill> {
    (if t.sign > 0 then
       [NucleiFill(Spectra, DcaVsPtParticle, t.pt, t.dcaXY), NucleiFill(Spectra, DcaZVsPtParticle, t.pt, t.dcaZ)]
     else [])
    + (if t.sign < 0 then
       [NucleiFill(Spectra, DcaVsPtAntiparticle, t.pt, t.dcaXY), NucleiFill(Spectra, DcaZVsPtAntiparticle, t.pt, t.dcaZ)]
     else [])
  }

  /** The spectra QA histograms of a track that passed every cut. */
  function QaFills(t: NucleiTrack): seq<NucleiFill> {
    [ NucleiFill(Spectra, TpcSignal, SignedInnerParam(t), t.tpcSignal),
      NucleiFill(Spectra, NClusterTPC, t.pt, t.tpcNClsCrossedRows as real),
      NucleiFill(Spectra, NClusterITS, t.pt, t.itsNCls as real),
      NucleiFill(Spectra, Chi2TPC, t.pt, t.tpcChi2NCl),
      NucleiFill(Spectra, Chi2ITS, t.pt, t.itsChi2NCl) ]
  }

  /** The n-sigma histogram of every (anti)nucleus registry of the track's sign, and spectra TOF mass. */
  function NSigmaFillsFor(t: NucleiTrack, anti: bool): seq<NucleiFill> {
    [ NucleiFill(Species(Proton, anti), TpcNsigma, t.pt, t.tpcNSigma.proton),
      NucleiFill(Species(Deuteron, anti), TpcNsigma, t.pt, t.tpcNSigma.deuteron),
      NucleiFill(Species(Triton, anti), TpcNsigma, t.pt, t.tpcNSigma.triton),
      NucleiFill(Species(Helium3, anti), TpcNsigma, ScaledPt(t, Helium3), t.tpcNSigma.helium3),
      NucleiFill(Species(Helium4, anti), TpcNsigma, ScaledPt(t, Helium4), t.tpcNSigma.helium4) ]
    + (if t.hasTOF then [NucleiFill(Spectra, TOFm2, t.tpcInnerParam, TofMass2(t))] else [])
  }

  function NSigmaFills(t: NucleiTrack): seq<NucleiFill> {
    (if t.sign > 0 then NSigmaFillsFor(t, false) else [])
    + (if t.sign < 0 then NSigmaFillsFor(t, true) else [])
  }

  /** The seven histograms of a triggering (anti)nucleus, and its three TOF histograms. */
  function SpeciesBlock(t: NucleiTrack, n: Nucleus, anti: bool): seq<NucleiFill> {
    var reg, pt, p := Species(n, anti), ScaledPt(t, n), ScaledMomentum(t, n);
    [ NucleiFill(reg, DcaVsPt, pt, t.dcaXY),
      NucleiFill(reg, DcaZVsPt, pt, t.dcaZ),
      NucleiFill(reg, TpcSignal, p, t.tpcSignal),
      NucleiFill(reg, NClusterTPC, pt, t.tpcNClsFound as real),
      NucleiFill(reg, NClusterITS, pt, t.itsNCls as real),
      NucleiFill(reg, Chi2TPC, pt, t.tpcChi2NCl),
      NucleiFill(reg, Chi2ITS, pt, t.itsChi2NCl) ]
    + (if t.hasTOF then
         [ NucleiFill(reg, TOFm2, p, TofMass2(t)),
           NucleiFill(reg, TofSignal, p, t.beta),
           NucleiFill(reg, TofNsigma, pt, t.tofNSigma.At(n)) ]
       else [])
  }

  /** The skimming block of one nucleus. */
  function SkimFills(cfg: NucleiConfig, t: NucleiTrack, n: Nucleus): seq<NucleiFill> {
    if !InWindow(cfg, t.tpcNSigma.At(n)) then []
    else
      (if t.sign > 0 then SpeciesBlock(t, n, false) else [])
      + (if t.sign < 0 then SpeciesBlock(t, n, true) else [])
      + (if t.hasTOF then [NucleiFill(Spectra, TofSignal, SignedMomentum(t, n), t.beta)] else [])
  }

  function AllSkimFills(cfg: NucleiConfig, t: NucleiTrack): seq<NucleiFill> {
    SkimFills(cfg, t, Proton) + SkimFills(cfg, t, Deuteron) + SkimFills(cfg, t, Triton)
    + SkimFills(cfg, t, Helium3) + SkimFills(cfg, t, Helium4)
  }

  /** Everything one track fills, in order. */
  function TrackFills(cfg: NucleiConfig, t: NucleiTrack): seq<NucleiFill> {
    if !PassesQuality(cfg, t) then []
    else if !PassesDCA(cfg, t) || !PassesRapidity(cfg, t) then DcaFills(t)
    else DcaFills(t) + QaFills(t) + NSigmaFills(t) + AllSkimFills(cfg, t)
  }

  /** The fills of all tracks, in track order. */
  function AllTrackFills(cfg: NucleiConfig, ts: seq<NucleiTrack>): seq<NucleiFill> {
    if ts == [] then [] else AllTrackFills(cfg, ts[..|ts| - 1]) + TrackFills(cfg, ts[|ts| - 1])
  }

  // ---------------------------------------------------------------------------
  // The keep flags
  // ---------------------------------------------------------------------------

  /** The ten per-registry keep flags of an event. */
  datatype KeepFlags = KeepFlags(
    p: bool, antip: bool, d: bool, antid: bool, t: bool, antit: bool,
    he3: bool, antiHe3: bool, he4: bool, antiHe4: bool)
  {
    function Get(n: Nucleus, anti: bool): bool {
      match n
      case Proton => if anti then antip else p
      case Deuteron => if anti then antid else d
      case Triton => if anti then antit else t
      case Helium3 => if anti then antiHe3 else he3
      case Helium4 => if anti then antiHe4 else he4
    }

    /** Raise one flag; the other nine stay. */
    function Raise(n: Nucleus, anti: bool): (r: KeepFlags)
      ensures forall m: Nucleus, a: bool :: r.Get(m, a) == (Get(m, a) || (m == n && a == anti))
    {
      match n
      case Proton => if anti then this.(antip := true) else this.(p := true)
      case Deuteron => if anti then this.(antid := true) else this.(d := true)
      case Triton => if anti then this.(antit := true) else this.(t := true)
      case Helium3 => if anti then this.(antiHe3 := true) else this.(he3 := true)
      case Helium4 => if anti then this.(antiHe4 := true) else this.(he4 := true)
    }
  }

  const NoKeep := KeepFlags(false, false, false, false, false, false, false, false, false, false)

  function FlagValue(b: bool): real {
    if b then 1.0 else 0.0
  }

  /** The `histKeepEventData` entry of one registry. */
  function KeepEntry(k: KeepFlags, n: Nucleus, anti: bool): NucleiFill {
    NucleiFill(Species(n, anti), KeepEvent, FlagValue(k.Get(n, anti)), 0.0)
  }

  /** The order of the `histKeepEventData` fills. */
  const KeepOrder: seq<Nucleus> := [Proton, Deuteron, Triton, Helium3, Helium4]

  /** The registry of the i-th keep entry: particle, then antiparticle, for each nucleus in order. */
  function KeepRegistry(i: nat): Registry
    requires i < 10
  {
    Species(KeepOrder[i / 2], i % 2 == 1)
  }

  /** The position of a registry's keep entry. */
  function KeepIndex(n: Nucleus, anti: bool): nat {
    2 * (match n case Proton => 0 case Deuteron => 1 case Triton => 2 case Helium3 => 3 case Helium4 => 4)
    + (if anti then 1 else 0)
  }

  /** The flags emitted after the track loop. */
  function KeepEntries(k: KeepFlags): seq<NucleiFill> {
    seq(10, i requires 0 <= i < 10 => var r := KeepRegistry(i); KeepEntry(k, r.nucleus, r.anti))
  }

  lemma KeepIndexInverse(i: nat)
    requires i < 10
    ensures KeepIndex(KeepRegistry(i).nucleus, KeepRegistry(i).anti) == i
  {
    if i < 2 { } else if i < 4 { } else if i < 6 { } else if i < 8 { } else { }
  }

  /** Every registry receives exactly one keep entry, and it carries that registry's flag. */
  lemma KeepEntriesOnePerRegistry(k: KeepFlags)
    ensures |KeepEntries(k)| == 10
    ensures forall i :: 0 <= i < 10 ==> KeepEntries(k)[i].reg.Species? && KeepEntries(k)[i].hist == KeepEvent
    ensures forall n: Nucleus, anti: bool ::
      KeepIndex(n, anti) < 10 && KeepEntries(k)[KeepIndex(n, anti)] == KeepEntry(k, n, anti)
    ensures forall i, j :: 0 <= i < 10 && 0 <= j < 10 && KeepEntries(k)[i].reg == KeepEntries(k)[j].reg ==> i == j
  {
    forall i | 0 <= i < 10
      ensures KeepIndex(KeepRegistry(i).nucleus, KeepRegistry(i).anti) == i
    {
      KeepIndexInverse(i);
    }
  }

  // ---------------------------------------------------------------------------
  // Properties of the cut chain
  // ---------------------------------------------------------------------------

  /** A track failing a quality requirement fills nothing and raises no flag. */
  lemma QualityFailureIsSilent(cfg: NucleiConfig, t: NucleiTrack)
    requires !PassesQuality(cfg, t)
    ensures TrackFills(cfg, t) == []
    ensures forall n: Nucleus, anti: bool :: !TriggersKeep(cfg, t, n, anti)
  {
  }

  /** The DCA histograms of the spectra registry. */
  predicate IsDcaFill(f: NucleiFill) {
    f.reg == Spectra && f.hist in {DcaVsPtParticle, DcaZVsPtParticle, DcaVsPtAntiparticle, DcaZVsPtAntiparticle}
  }

  /** A quality track failing the DCA or the rapidity cut appears in the DCA histograms only. */
  lemma LaterCutFailureFillsDcaOnly(cfg: NucleiConfig, t: NucleiTrack)
    requires PassesQuality(cfg, t) && !(PassesDCA(cfg, t) && PassesRapidity(cfg, t))
    ensures TrackFills(cfg, t) == DcaFills(t)
    ensures forall f :: f in TrackFills(cfg, t) ==> IsDcaFill(f)
    ensures |TrackFills(cfg, t)| == if t.sign == 0 then 0 else 2
    ensures forall n: Nucleus, anti: bool :: !TriggersKeep(cfg, t, n, anti)
  {
  }

  /** The registry histograms of a nucleus use its charge times the track pt or momentum. */
  lemma SpeciesBlockScaling(t: NucleiTrack, n: Nucleus, anti: bool)
    ensures |SpeciesBlock(t, n, anti)| == if t.hasTOF then 10 else 7
    ensures forall i :: 0 <= i < |SpeciesBlock(t, n, anti)| ==>
      var f := SpeciesBlock(t, n, anti)[i];
      f.reg == Species(n, anti) && (f.x == ScaledPt(t, n) || f.x == ScaledMomentum(t, n))
  {
  }

  /** Helium histograms are filled at twice the track pt and momentum, the others at the track's own. */
  lemma ScalingOfNuclei(t: NucleiTrack, n: Nucleus)
    ensures n == Helium3 || n == Helium4 ==> ScaledPt(t, n) == 2.0 * t.pt && ScaledMomentum(t, n) == 2.0 * t.tpcInnerParam
    ensures n != Helium3 && n != Helium4 ==> ScaledPt(t, n) == t.pt && ScaledMomentum(t, n) == t.tpcInnerParam
  {
  }

  /** Registry fills of a block belong to that block's registry. */
  lemma SpeciesBlockRegistry(t: NucleiTrack, n: Nucleus, anti: bool, f: NucleiFill)
    requires f in SpeciesBlock(t, n, anti)
    ensures f.reg == Species(n, anti)
  {
    SpeciesBlockScaling(t, n, anti);
    var i :| 0 <= i < |SpeciesBlock(t, n, anti)| && SpeciesBlock(t, n, anti)[i] == f;
  }

  /** Where a registry fill of a skimming block comes from: its own nucleus, window and sign. */
  lemma SkimFillsSource(cfg: NucleiConfig, t: NucleiTrack, m: Nucleus, f: NucleiFill)
    requires f in SkimFills(cfg, t, m) && f.reg.Species?
    ensures f.reg.nucleus == m && InWindow(cfg, t.tpcNSigma.At(m)) && SignMatches(t.sign, f.reg.anti)
  {
    if t.sign > 0 && f in SpeciesBlock(t, m, false) {
      SpeciesBlockRegistry(t, m, false, f);
    } else if t.sign < 0 && f in SpeciesBlock(t, m, true) {
      SpeciesBlockRegistry(t, m, true, f);
    }
  }

  /** The fills before the skimming blocks never touch a registry's DCA histogram. */
  lemma EarlyFillsNotRegistryDca(t: NucleiTrack, f: NucleiFill)
    requires f in DcaFills(t) || f in QaFills(t) || f in NSigmaFills(t)
    ensures !(f.reg.Species? && f.hist == DcaVsPt)
  {
    if f in NSigmaFills(t) {
      assert f in NSigmaFillsFor(t, false) || f in NSigmaFillsFor(t, true);
    }
  }

  /**
   * A track raises the keep flag of a registry exactly when it fills that
   * registry's DCA histogram: the flag and the registry histograms agree.
   */
  lemma KeepIffRegistryFill(cfg: NucleiConfig, t: NucleiTrack, n: Nucleus, anti: bool)
    ensures TriggersKeep(cfg, t, n, anti) <==>
      exists f :: f in TrackFills(cfg, t) && f.reg == Species(n, anti) && f.hist == DcaVsPt
  {
    var reg := Species(n, anti);
    if TriggersKeep(cfg, t, n, anti) {
      var f := SpeciesBlock(t, n, anti)[0];
      assert f in SkimFills(cfg, t, n);
      assert f in AllSkimFills(cfg, t);
      assert f in TrackFills(cfg, t) && f.reg == reg && f.hist == DcaVsPt;
    }
    if f :| f in TrackFills(cfg, t) && f.reg == reg && f.hist == DcaVsPt {
      if !PassesCuts(cfg, t) {
        EarlyFillsNotRegistryDca(t, f);
        assert false;
      }
      if f in DcaFills(t) + QaFills(t) + NSigmaFills(t) {
        EarlyFillsNotRegistryDca(t, f);
        assert false;
      }
      assert f in AllSkimFills(cfg, t);
      var m := if f in SkimFills(cfg, t, Proton) then Proton
        else if f in SkimFills(cfg, t, Deuteron) then Deuteron
        else if f in SkimFills(cfg, t, Triton) then Triton
        else if f in SkimFills(cfg, t, Helium3) then Helium3
        else Helium4;
      SkimFillsSource(cfg, t, m, f);
    }
  }

  /** A track passing every cut fills the DCA, QA and n-sigma histograms, then the five skimming blocks. */
  lemma TrackFillsOfSelected(cfg: NucleiConfig, t: NucleiTrack)
    requires PassesCuts(cfg, t)
    ensures TrackFills(cfg, t) == DcaFills(t) + QaFills(t) + NSigmaFills(t) + AllSkimFills(cfg, t)
  {
  }

  /** Inside the window, the block is the particle part, the antiparticle part and the spectra TOF fill. */
  lemma SkimFillsInWindow(cfg: NucleiConfig, t: NucleiTrack, n: Nucleus)
    requires InWindow(cfg, t.tpcNSigma.At(n))
    ensures SkimFills(cfg, t, n) == (if t.sign > 0 then SpeciesBlock(t, n, false) else [])
      + (if t.sign < 0 then SpeciesBlock(t, n, true) else [])
      + (if t.hasTOF then [NucleiFill(Spectra, TofSignal, SignedMomentum(t, n), t.beta)] else [])
  {
  }

  // ---------------------------------------------------------------------------
  // `fillHistograms` of the data process
  // ---------------------------------------------------------------------------

  /** The skimming block of one nucleus: its fills and the flags it raises. */
  method SkimSpecies(cfg: NucleiConfig, t: NucleiTrack, n: Nucleus, keep: KeepFlags)
    returns (fills: seq<NucleiFill>, keep': KeepFlags)
    ensures fills == SkimFills(cfg, t, n)
    ensures forall m: Nucleus, a: bool ::
      keep'.Get(m, a) == (keep.Get(m, a) || (m == n && InWindow(cfg, t.tpcNSigma.At(n)) && SignMatches(t.sign, a)))
  {
    fills, keep' := [], keep;
    var nSigma := t.tpcNSigma.At(n);
    if nSigma > cfg.nsigmacutLow && nSigma < cfg.nsigmacutHigh {
      var particle, antiparticle, tof := [], [], [];
      if t.sign > 0 {
        keep' := keep'.Raise(n, false);
        particle := SpeciesBlock(t, n, false);
      }
      if t.sign < 0 {
        keep' := keep'.Raise(n, true);
        antiparticle := SpeciesBlock(t, n, true);
      }
      if t.hasTOF {
        tof := [NucleiFill(Spectra, TofSignal, SignedMomentum(t, n), t.beta)];
      }
      fills := particle + antiparticle + tof;
      SkimFillsInWindow(cfg, t, n);
    }
  }

  /** The five skimming blocks of a track that passed every cut. */
  method SkimAll(cfg: NucleiConfig, t: NucleiTrack, keep: KeepFlags)
    returns (fills: seq<NucleiFill>, keep': KeepFlags)
    requires PassesCuts(cfg, t)
    ensures fills == AllSkimFills(cfg, t)
    ensures forall m: Nucleus, a: bool :: keep'.Get(m, a) == (keep.Get(m, a) || TriggersKeep(cfg, t, m, a))
  {
    var f0, f1, f2, f3, f4;
    f0, keep' := SkimSpecies(cfg, t, Proton, keep);
    f1, keep' := SkimSpecies(cfg, t, Deuteron, keep');
    f2, keep' := SkimSpecies(cfg, t, Triton, keep');
    f3, keep' := SkimSpecies(cfg, t, Helium3, keep');
    f4, keep' := SkimSpecies(cfg, t, Helium4, keep');
    fills := f0 + f1 + f2 + f3 + f4;
  }

  /** One iteration of the track loop: the cut chain with its early `continue`s. */
  method ProcessTrack(cfg: NucleiConfig, t: NucleiTrack, keep: KeepFlags)
    returns (fills: seq<NucleiFill>, keep': KeepFlags)
    ensures fills == TrackFills(cfg, t)
    ensures forall n: Nucleus, anti: bool :: keep'.Get(n, anti) == (keep.Get(n, anti) || TriggersKeep(cfg, t, n, anti))
  {
    if !PassesQuality(cfg, t) {
      QualityFailureIsSilent(cfg, t);
      return [], keep;
    }
    fills := DcaFills(t);
    if !PassesDCA(cfg, t) {
      LaterCutFailureFillsDcaOnly(cfg, t);
      return fills, keep;
    }
    if !PassesRapidity(cfg, t) {
      LaterCutFailureFillsDcaOnly(cfg, t);
      return fills, keep;
    }
    fills := fills + QaFills(t) + NSigmaFills(t);
    var skim;
    skim, keep' := SkimAll(cfg, t, keep);
    fills := fills + skim;
    TrackFillsOfSelected(cfg, t);
  }

  /** Processing one collision: the vertex, every track in order, then the ten keep entries. */
  method FillHistograms(cfg: NucleiConfig, posZ: real, tracks: seq<NucleiTrack>)
    returns (fills: seq<NucleiFill>, keep: KeepFlags)
    ensures fills == [NucleiFill(Spectra, RecVtxZ, posZ, 0.0)] + AllTrackFills(cfg, tracks) + KeepEntries(keep)
    ensures forall n: Nucleus, anti: bool ::
      keep.Get(n, anti) <==> exists k :: 0 <= k < |tracks| && TriggersKeep(cfg, tracks[k], n, anti)
  {
    keep := NoKeep;
    fills := [NucleiFill(Spectra, RecVtxZ, posZ, 0.0)];
    for i := 0 to |tracks|
      invariant fills == [NucleiFill(Spectra, RecVtxZ, posZ, 0.0)] + AllTrackFills(cfg, tracks[..i])
      invariant forall n: Nucleus, anti: bool ::
        keep.Get(n, anti) <==> exists k :: 0 <= k < i && TriggersKeep(cfg, tracks[k], n, anti)
    {
      ghost var keep0 := keep;
      var trackFills;
      trackFills, keep := ProcessTrack(cfg, tracks[i], keep);
      AllTrackFillsStep(cfg, tracks, i);
      AppendAssociative([NucleiFill(Spectra, RecVtxZ, posZ, 0.0)], AllTrackFills(cfg, tracks[..i]), trackFills);
      fills := fills + trackFills;
      KeepStep(cfg, tracks, i, keep0, keep);
    }
    assert tracks[..|tracks|] == tracks;
    fills := fills + KeepEntries(keep);
  }

  /** Sequence concatenation regrouped, stated once so the fill loop need not rediscover it. */
  lemma AppendAssociative<T>(a: seq<T>, b: seq<T>, c: seq<T>)
    ensures a + b + c == a + (b + c)
  {
  }

  /** The fill log carried over one more track. */
  lemma AllTrackFillsStep(cfg: NucleiConfig, tracks: seq<NucleiTrack>, i: nat)
    requires i < |tracks|
    ensures AllTrackFills(cfg, tracks[..i + 1]) == AllTrackFills(cfg, tracks[..i]) + TrackFills(cfg, tracks[i])
  {
    assert tracks[..i + 1][..i] == tracks[..i];
  }

  /** The keep-flag invariant carried over one more track. */
  lemma KeepStep(cfg: NucleiConfig, tracks: seq<NucleiTrack>, i: nat, before: KeepFlags, after: KeepFlags)
    requires i < |tracks|
    requires forall n: Nucleus, anti: bool ::
      before.Get(n, anti) <==> exists k :: 0 <= k < i && TriggersKeep(cfg, tracks[k], n, anti)
    requires forall n: Nucleus, anti: bool ::
      after.Get(n, anti) == (before.Get(n, anti) || TriggersKeep(cfg, tracks[i], n, anti))
    ensures forall n: Nucleus, anti: bool ::
      after.Get(n, anti) <==> exists k :: 0 <= k < i + 1 && TriggersKeep(cfg, tracks[k], n, anti)
  {
    forall n: Nucleus, anti: bool
      ensures after.Get(n, anti) <==> exists k :: 0 <= k < i + 1 && TriggersKeep(cfg, tracks[k], n, anti)
    {
      if exists k :: 0 <= k < i + 1 && TriggersKeep(cfg, tracks[k], n, anti) {
        var k :| 0 <= k < i + 1 && TriggersKeep(cfg, tracks[k], n, anti);
        if k < i {
          assert before.Get(n, anti);
        }
      }
    }
  }

  // ---------------------------------------------------------------------------
  // `init`
  // ---------------------------------------------------------------------------

  /** The outcome of the configuration check of `init`. */
  datatype InitOutcome = Configured | Fatal

  /** The plain and the centrality process cannot be enabled together. */
  function CheckProcessSwitches(doprocessData: bool, doprocessDataCent: bool): (r: InitOutcome)
    ensures r == Fatal <==> doprocessData && doprocessDataCent
  {
    if doprocessData && doprocessDataCent then Fatal else Configured
  }
}
