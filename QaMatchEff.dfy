/**
 * Model of the ITS-TPC matching-efficiency QA task (`qaMatchEff`).
 *
 * Each track that survives the TRD-presence filter, the MC-label check and the
 * kinematic selection is counted and fills, per category (all, pT > 0.5,
 * positive, negative and the MC truth classes), a "TPC" histogram triple and,
 * nested inside it, a "TPC+ITS" triple.  The efficiency is the ratio of the
 * two, so the nesting is what makes it at most one.  A pt/eta/phi triple is
 * counted once, as one element of a multiset of histogram keys.
 *
 * The task object runs the fill blocks as written, where the TPC+ITS fills of
 * material-secondary pions go to the decay-secondary pion histograms; the
 * `Corrected` routing is the evidently intended one, under which every
 * category stays nested.
 */
module QaMatchEff {
  import opened Wrappers

  // ---------------------------------------------------------------------------
  // The custom ITS hitmap of `init`
  // ---------------------------------------------------------------------------

  /** Number of ITS layers. */
  const NumITSLayers: nat := 7

  /** `(customITShitmap & (1 << i)) > 0`, the integer read as its 32 bits. */
  predicate HitmapBit(h: bv32, i: nat)
    requires i < 32
  {
    h & (1 << i) != 0
  }

  /** The layers named by the hitmap: bit i for the layers 0..6. */
  function HitmapLayers(h: bv32): set<nat> {
    set i: nat | i < NumITSLayers && HitmapBit(h, i)
  }

  /** The loop of `init` inserting each layer whose bit is set. */
  method BuildCustomHitmap(h: bv32) returns (layers: set<nat>)
    ensures forall i: nat :: i in layers <==> i < NumITSLayers && HitmapBit(h, i)
    ensures layers == HitmapLayers(h)
  {
    layers := {};
    for i := 0 to NumITSLayers
      invariant forall j: nat :: j in layers <==> j < i && HitmapBit(h, j)
    {
      if h & (1 << i) != 0 {
        layers := layers + {i};
      }
    }
  }

  /** Bits at position 7 and above do not change the set of layers. */
  lemma HitmapHighBitsIgnored(h: bv32)
    ensures HitmapLayers(h) == HitmapLayers(h & 0x7F)
  {
    forall i: nat | i < NumITSLayers
      ensures HitmapBit(h, i) == HitmapBit(h & 0x7F, i)
    {
      MaskKeepsLowBit(h, i);
    }
  }

  /** Masking with 0x7F keeps each of the bits 0..6, one shift amount at a time. */
  lemma MaskKeepsLowBit(h: bv32, i: nat)
    requires i < NumITSLayers
    ensures (h & 0x7F) & (1 << i) == h & (1 << i)
  {
    if i == 0 { } else if i == 1 { } else if i == 2 { } else if i == 3 { }
    else if i == 4 { } else if i == 5 { } else { assert i == 6; }
  }

  // ---------------------------------------------------------------------------
  // ITS hits of a matched track
  // ---------------------------------------------------------------------------

  /** `itsClusterMap() & (1 << i)` is non-zero. */
  predicate ClusterBit(m: bv8, i: nat)
    requires i < 8
  {
    m & (1 << i) != 0
  }

  /** Number of set bits among the bits 0 .. n-1 of the cluster map. */
  function PopCount(m: bv8, n: nat): nat
    requires n <= 8
  {
    if n == 0 then 0 else PopCount(m, n - 1) + (if ClusterBit(m, n - 1) then 1 else 0)
  }

  /** One `itsHitsMatched` entry `(layer, hits)` per set bit below n, by increasing layer. */
  function LayerFills(m: bv8, n: nat, hits: nat): seq<(int, nat)>
    requires n <= 8
  {
    if n == 0 then []
    else LayerFills(m, n - 1, hits) + (if ClusterBit(m, n - 1) then [((n - 1) as int, hits)] else [])
  }

  /** All `itsHitsMatched` entries of one track: per set layer, or a single entry at layer -1. */
  function ITSHitFills(m: bv8): seq<(int, nat)> {
    var hits := PopCount(m, NumITSLayers);
    var fills := LayerFills(m, NumITSLayers, hits);
    if fills == [] then [(-1, hits)] else fills
  }

  /** The two loops of the ITS control plot: count the hits, then fill per layer. */
  method CountITSHits(m: bv8) returns (itsNhits: nat, fills: seq<(int, nat)>)
    ensures itsNhits == PopCount(m, NumITSLayers)
    ensures fills == ITSHitFills(m)
  {
    itsNhits := 0;
    for i := 0 to NumITSLayers
      invariant itsNhits == PopCount(m, i)
    {
      if m & (1 << i) != 0 {
        itsNhits := itsNhits + 1;
      }
    }
    var trkHasITS := false;
    fills := [];
    for i := 0 to NumITSLayers
      invariant fills == LayerFills(m, i, itsNhits)
      invariant trkHasITS <==> fills != []
    {
      if m & (1 << i) != 0 {
        trkHasITS := true;
        fills := fills + [(i as int, itsNhits)];
      }
    }
    if !trkHasITS {
      fills := fills + [(-1, itsNhits)];
    }
  }

  /** There is one per-layer entry for each set bit, and each entry names a set layer. */
  lemma {:induction false} LayerFillsCount(m: bv8, n: nat, hits: nat)
    requires n <= 8
    ensures |LayerFills(m, n, hits)| == PopCount(m, n)
    ensures forall k :: 0 <= k < |LayerFills(m, n, hits)| ==>
              var (layer, h) := LayerFills(m, n, hits)[k];
              0 <= layer < n && ClusterBit(m, layer) && h == hits
  {
    if n > 0 {
      LayerFillsCount(m, n - 1, hits);
    }
  }

  /** Every set bit below n has its entry. */
  lemma {:induction false} LayerFillsComplete(m: bv8, n: nat, hits: nat, i: nat)
    requires i < n <= 8 && ClusterBit(m, i)
    ensures (i as int, hits) in LayerFills(m, n, hits)
  {
    if i < n - 1 {
      LayerFillsComplete(m, n - 1, hits, i);
    }
  }

  /**
   * `itsNhits` is the number of bits set among the seven layers; there is one
   * fill per set bit, each carrying `itsNhits`, and a single fill at layer -1
   * when no bit is set.
   */
  lemma ITSHitFillsShape(m: bv8)
    ensures var hits := PopCount(m, NumITSLayers);
      && hits <= NumITSLayers
      && (hits == 0 ==> ITSHitFills(m) == [(-1, 0)])
      && (hits > 0 ==> |ITSHitFills(m)| == hits)
      && (forall i: nat :: i < NumITSLayers && ClusterBit(m, i) ==> (i as int, hits) in ITSHitFills(m))
      && (forall k :: 0 <= k < |ITSHitFills(m)| ==> ITSHitFills(m)[k].1 == hits)
  {
    var hits := PopCount(m, NumITSLayers);
    LayerFillsCount(m, NumITSLayers, hits);
    PopCountBounded(m, NumITSLayers);
    forall i: nat | i < NumITSLayers && ClusterBit(m, i)
      ensures (i as int, hits) in ITSHitFills(m)
    {
      LayerFillsComplete(m, NumITSLayers, hits, i);
    }
  }

  lemma {:induction false} PopCountBounded(m: bv8, n: nat)
    requires n <= 8
    ensures PopCount(m, n) <= n
  {
    if n > 0 {
      PopCountBounded(m, n - 1);
    }
  }

  /** Bit 7 of the cluster map is not an ITS layer: it does not change the hits. */
  lemma {:induction false} PopCountIgnoresBit7(m: bv8, n: nat)
    requires n <= NumITSLayers
    ensures PopCount(m, n) == PopCount(m & 0x7F, n)
  {
    if n > 0 {
      PopCountIgnoresBit7(m, n - 1);
      assert ClusterBit(m, n - 1) == ClusterBit(m & 0x7F, n - 1) by {
        assert n - 1 < 7;
      }
    }
  }

  // ---------------------------------------------------------------------------
  // Track records and the selections
  // ---------------------------------------------------------------------------

  /**
   * The outcome of each `TrackSelection` criterion the task consults; the
   * selection object itself is not part of this model.
   */
  datatype TrackCutVerdicts = TrackCutVerdicts(
    ptRange: bool, etaRange: bool, dcaXY: bool,
    tpcNCls: bool, tpcCrossedRows: bool, tpcCrossedRowsOverNCls: bool, tpcChi2NDF: bool,
    itsChi2NDF: bool, itsHits: bool)

  /** The MC particle a track is labelled with. */
  datatype McParticle = McParticle(pdgCode: int, isPhysicalPrimary: bool, process: int)

  /**
   * A reconstructed track.  `ptInnerWallTPC` is the value of `computePtInParamTPC`
   * (a square root), given as an input.
   */
  datatype QaTrack = QaTrack(
    hasTRD: bool, hasTPC: bool, hasITS: bool,
    pt: real, ptInnerWallTPC: real, signed1Pt: real,
    itsClusterMap: bv8,
    cuts: TrackCutVerdicts,
    mc: Option<McParticle>)

  /** The configurables the bookkeeping depends on. */
  datatype QaConfig = QaConfig(
    useTrackSelections: bool,
    useTPCinnerWallPt: bool,
    ptMinCutInnerWallTPC: real,
    isTRDThere: int,
    makethn: bool,
    customITShitmap: bv32)

  /** The defaults of the configurables (selections off, TRD ignored, hitmap 3). */
  const DefaultConfig := QaConfig(false, false, 0.1, 2, false, 3)

  /** `isTrackSelectedKineCuts`: pt range, optional inner-wall pt, eta range, DCAxy. */
  function KineSelected(cfg: QaConfig, t: QaTrack): (r: bool)
    ensures !cfg.useTrackSelections ==> r
    ensures cfg.useTrackSelections ==>
      (r <==> t.cuts.ptRange && t.cuts.etaRange && t.cuts.dcaXY
              && !(cfg.useTPCinnerWallPt && t.ptInnerWallTPC < cfg.ptMinCutInnerWallTPC))
  {
    if !cfg.useTrackSelections then true
    else if !t.cuts.ptRange then false
    else if cfg.useTPCinnerWallPt && t.ptInnerWallTPC < cfg.ptMinCutInnerWallTPC then false
    else if !t.cuts.etaRange then false
    else if !t.cuts.dcaXY then false
    else true
  }

  /** `isTrackSelectedTPCCuts`: clusters, crossed rows, their ratio, chi2. */
  function TPCSelected(cfg: QaConfig, t: QaTrack): (r: bool)
    ensures !cfg.useTrackSelections ==> r
    ensures cfg.useTrackSelections ==>
      (r <==> t.cuts.tpcNCls && t.cuts.tpcCrossedRows && t.cuts.tpcCrossedRowsOverNCls && t.cuts.tpcChi2NDF)
  {
    if !cfg.useTrackSelections then true
    else if !t.cuts.tpcNCls then false
    else if !t.cuts.tpcCrossedRows then false
    else if !t.cuts.tpcCrossedRowsOverNCls then false
    else if !t.cuts.tpcChi2NDF then false
    else true
  }

  /** `isTrackSelectedITSCuts`: chi2 and the required hits. */
  function ITSSelected(cfg: QaConfig, t: QaTrack): (r: bool)
    ensures !cfg.useTrackSelections ==> r
    ensures cfg.useTrackSelections ==> (r <==> t.cuts.itsChi2NDF && t.cuts.itsHits)
  {
    if !cfg.useTrackSelections then true
    else if !t.cuts.itsChi2NDF then false
    else if !t.cuts.itsHits then false
    else true
  }

  /** The TRD-presence requirement: 1 needs TRD, 0 vetoes it, anything else keeps all. */
  function KeepForTRD(isTRDThere: int, hasTRD: bool): (keep: bool)
    ensures isTRDThere == 1 ==> (keep <==> hasTRD)
    ensures isTRDThere == 0 ==> (keep <==> !hasTRD)
    ensures isTRDThere != 0 && isTRDThere != 1 ==> keep
  {
    !(isTRDThere == 1 && !hasTRD) && !(isTRDThere == 0 && hasTRD)
  }

  /** The pt the task histograms: full tracking or the TPC inner wall. */
  function TrackPt(cfg: QaConfig, t: QaTrack): real {
    if cfg.useTPCinnerWallPt then t.ptInnerWallTPC else t.pt
  }

  /** The track reaches `countData++`: not vetoed by TRD, labelled in MC, kinematically selected. */
  predicate Counted(cfg: QaConfig, isMC: bool, t: QaTrack) {
    KeepForTRD(cfg.isTRDThere, t.hasTRD) && !(isMC && t.mc.None?) && KineSelected(cfg, t)
  }

  /** The TPC branch of every fill block. */
  predicate TpcOk(cfg: QaConfig, t: QaTrack) {
    t.hasTPC && TPCSelected(cfg, t)
  }

  /** The ITS branch nested inside it. */
  predicate ItsOk(cfg: QaConfig, t: QaTrack) {
    t.hasITS && ITSSelected(cfg, t)
  }

  // ---------------------------------------------------------------------------
  // MC classification
  // ---------------------------------------------------------------------------

  /** `TMath::Abs` on the PDG code. */
  function Abs(x: int): nat {
    if x < 0 then -x else x
  }

  /** `sayPrim`: 0 physical primary, 1 secondary from decay (process 4), 2 otherwise. */
  function PrimClass(p: McParticle): (c: int)
    ensures 0 <= c <= 2
    ensures c == 0 <==> p.isPhysicalPrimary
    ensures c == 1 <==> !p.isPhysicalPrimary && p.process == 4
    ensures c == 2 <==> !p.isPhysicalPrimary && p.process != 4
  {
    if p.isPhysicalPrimary then 0 else if p.process == 4 then 1 else 2
  }

  /** `specind`: electrons 1, pions 2, kaons 3, protons 4, everything else 5. */
  function SpeciesIndex(absPdg: int): (s: int)
    ensures 1 <= s <= 5
    ensures s == 1 <==> absPdg == 11
    ensures s == 2 <==> absPdg == 211
    ensures s == 3 <==> absPdg == 321
    ensures s == 4 <==> absPdg == 2212
    ensures s == 5 <==> absPdg !in {11, 211, 321, 2212}
  {
    match absPdg
    case 11 => 1
    case 211 => 2
    case 321 => 3
    case 2212 => 4
    case _ => 5
  }

  /**
   * `signPDGCode = siPDGCode / tpPDGCode`; C truncating division of a code by
   * its own absolute value, so the code must not be 0.
   */
  function PdgSign(pdg: int): (s: int)
    requires pdg != 0
    ensures s == 1 || s == -1
    ensures s * Abs(pdg) == pdg
  {
    if pdg > 0 then 1 else -1
  }

  /** The PDG codes with their own bin in `pdghist_den`/`pdghist_num`. */
  const PdgChoice: seq<int> := [211, 213, 215, 217, 219, 221, 223, 321, 411, 521, 2212, 1114, 2214]

  /** `std::find`: the first index holding x, or |s| when there is none. */
  function FindIndex(s: seq<int>, x: int): (r: nat)
    ensures r <= |s|
    ensures r < |s| ==> s[r] == x
    ensures forall j :: 0 <= j < r ==> s[j] != x
    ensures r == |s| <==> x !in s
  {
    if s == [] then 0
    else if s[0] == x then 0
    else 1 + FindIndex(s[1..], x)
  }

  /** `pdg_fill`: the bin of a PDG code, its first index plus 1.5, or -10 when absent. */
  function PdgFill(absPdg: int): real {
    var k := FindIndex(PdgChoice, absPdg);
    if k < |PdgChoice| then k as real + 1.5 else -10.0
  }

  /** A listed code lands in the bin of its first occurrence; any other code lands at -10. */
  lemma PdgFillMeaning(absPdg: int)
    ensures absPdg !in PdgChoice ==> PdgFill(absPdg) == -10.0
    ensures absPdg in PdgChoice ==>
      exists k :: 0 <= k < |PdgChoice| && PdgChoice[k] == absPdg && PdgFill(absPdg) == k as real + 1.5
        && forall j :: 0 <= j < k ==> PdgChoice[j] != absPdg
    ensures absPdg in PdgChoice ==> 1.5 <= PdgFill(absPdg) <= |PdgChoice| as real + 0.5
  {
    var k := FindIndex(PdgChoice, absPdg);
    if absPdg in PdgChoice {
      assert 0 <= k < |PdgChoice| && PdgChoice[k] == absPdg;
    }
  }

  /** The codes of the list are distinct, so each code has the bin of its own position. */
  lemma PdgFillOfListed(k: nat)
    requires k < |PdgChoice|
    ensures PdgFill(PdgChoice[k]) == k as real + 1.5
  {
    var x := PdgChoice[k];
    var r := FindIndex(PdgChoice, x);
    assert r <= k;
    assert PdgChoice[r] == x;
  }

  // ---------------------------------------------------------------------------
  // Histogram categories and their fills
  // ---------------------------------------------------------------------------

  /** The two stages of every efficiency: TPC-only (denominator) and TPC+ITS (numerator). */
  datatype Stage = Tpc | TpcIts

  /** The track categories with their own pt/phi/eta histograms. */
  datatype Category =
    | All | Pt05 | Positive | Negative
    | Primary | SecondaryDecay | SecondaryMaterial
    | Proton
    | Pion | PionPrimary | PionSecondaryDecay | PionSecondaryMaterial
    | NoPrimaryPion | Kaon | PionKaon

  /** One pt/phi/eta histogram triple, e.g. `pthist_tpcits_pi_secd` and its two siblings. */
  datatype Hist = Hist(stage: Stage, category: Category)

  /** The MC truth categories of a labelled track, in the order of the fill blocks. */
  function McCategories(p: McParticle): seq<Category> {
    var a := Abs(p.pdgCode);
    [if p.isPhysicalPrimary then Primary else if p.process == 4 then SecondaryDecay else SecondaryMaterial]
    + (if a == 2212 then [Proton] else [])
    + (if a == 211 then
         [Pion, if p.isPhysicalPrimary then PionPrimary
                else if p.process == 4 then PionSecondaryDecay
                else PionSecondaryMaterial]
       else [])
    + (if !(a == 211 && p.isPhysicalPrimary) then [NoPrimaryPion] else [])
    + (if a == 321 then [Kaon] else [])
    + (if a == 211 || a == 321 then [PionKaon] else [])
  }

  /** The categories whose fill block a counted track enters. */
  function Categories(isMC: bool, trackPt: real, t: QaTrack): seq<Category> {
    [All]
    + (if trackPt > 0.5 then [Pt05] else [])
    + (if t.signed1Pt > 0.0 then [Positive] else [])
    + (if t.signed1Pt < 0.0 then [Negative] else [])
    + (if isMC && t.mc.Some? then McCategories(t.mc.value) else [])
  }

  /** One fill block: the TPC triple, and inside it the TPC+ITS triple of the same category. */
  function CategoryFills(c: Category, tpcOk: bool, itsOk: bool): seq<Hist> {
    if !tpcOk then []
    else [Hist(Tpc, c)] + (if itsOk then [Hist(TpcIts, c)] else [])
  }

  /**
   * The fill blocks as written: in the block of material-secondary pions the
   * TPC+ITS fill goes to the decay-secondary pion histograms.
   */
  function CategoryFillsAsWritten(c: Category, tpcOk: bool, itsOk: bool): seq<Hist> {
    if c == PionSecondaryMaterial && tpcOk then
      [Hist(Tpc, c)] + (if itsOk then [Hist(TpcIts, PionSecondaryDecay)] else [])
    else CategoryFills(c, tpcOk, itsOk)
  }

  /** The fill blocks of a list of categories, in order. */
  function FillsFor(cats: seq<Category>, tpcOk: bool, itsOk: bool): seq<Hist> {
    if cats == [] then []
    else FillsFor(cats[..|cats| - 1], tpcOk, itsOk) + CategoryFills(cats[|cats| - 1], tpcOk, itsOk)
  }

  function FillsForAsWritten(cats: seq<Category>, tpcOk: bool, itsOk: bool): seq<Hist> {
    if cats == [] then []
    else FillsForAsWritten(cats[..|cats| - 1], tpcOk, itsOk) + CategoryFillsAsWritten(cats[|cats| - 1], tpcOk, itsOk)
  }

  /** The histogram fills of one counted track. */
  function TrackFills(cfg: QaConfig, isMC: bool, t: QaTrack): seq<Hist> {
    FillsFor(Categories(isMC, TrackPt(cfg, t), t), TpcOk(cfg, t), ItsOk(cfg, t))
  }

  function TrackFillsAsWritten(cfg: QaConfig, isMC: bool, t: QaTrack): seq<Hist> {
    FillsForAsWritten(Categories(isMC, TrackPt(cfg, t), t), TpcOk(cfg, t), ItsOk(cfg, t))
  }

  /** Which routing of the material-secondary pion block: the code as written, or the intended one. */
  datatype Routing = AsWritten | Corrected

  function RoutedTrackFills(routing: Routing, cfg: QaConfig, isMC: bool, t: QaTrack): seq<Hist> {
    match routing
    case AsWritten => TrackFillsAsWritten(cfg, isMC, t)
    case Corrected => TrackFills(cfg, isMC, t)
  }

  /** The counts one fill block contributes. */
  lemma CategoryFillsCounts(x: Category, tpcOk: bool, itsOk: bool, c: Category)
    ensures multiset(CategoryFills(x, tpcOk, itsOk))[Hist(Tpc, c)] == if tpcOk && x == c then 1 else 0
    ensures multiset(CategoryFills(x, tpcOk, itsOk))[Hist(TpcIts, c)] == if tpcOk && itsOk && x == c then 1 else 0
    ensures multiset(CategoryFillsAsWritten(x, tpcOk, itsOk))[Hist(Tpc, c)] == if tpcOk && x == c then 1 else 0
    ensures multiset(CategoryFillsAsWritten(x, tpcOk, itsOk))[Hist(TpcIts, c)] ==
      if tpcOk && itsOk && x == (if c == PionSecondaryDecay && x == PionSecondaryMaterial then x else c)
         && c != PionSecondaryMaterial then 1 else 0
  {
  }

  /** Removing the last category splits its count off. */
  lemma LastCount(cats: seq<Category>, c: Category)
    requires cats != []
    ensures multiset(cats)[c] == multiset(cats[..|cats| - 1])[c] + (if cats[|cats| - 1] == c then 1 else 0)
  {
    assert cats == cats[..|cats| - 1] + [cats[|cats| - 1]];
  }

  /**
   * Per category, each block entered fills the TPC triple once when the TPC
   * selection holds, and the TPC+ITS triple once more only when the ITS
   * selection holds as well.
   */
  lemma {:induction false} FillsForCounts(cats: seq<Category>, tpcOk: bool, itsOk: bool, c: Category)
    ensures multiset(FillsFor(cats, tpcOk, itsOk))[Hist(Tpc, c)] == if tpcOk then multiset(cats)[c] else 0
    ensures multiset(FillsFor(cats, tpcOk, itsOk))[Hist(TpcIts, c)] == if tpcOk && itsOk then multiset(cats)[c] else 0
  {
    if cats != [] {
      var init, last := cats[..|cats| - 1], cats[|cats| - 1];
      FillsForCounts(init, tpcOk, itsOk, c);
      CategoryFillsCounts(last, tpcOk, itsOk, c);
      LastCount(cats, c);
      assert multiset(FillsFor(cats, tpcOk, itsOk))
          == multiset(FillsFor(init, tpcOk, itsOk)) + multiset(CategoryFills(last, tpcOk, itsOk));
    }
  }

  /** The numerator of every per-category efficiency never exceeds its denominator. */
  lemma FillsForNested(cats: seq<Category>, tpcOk: bool, itsOk: bool, c: Category)
    ensures multiset(FillsFor(cats, tpcOk, itsOk))[Hist(TpcIts, c)] <= multiset(FillsFor(cats, tpcOk, itsOk))[Hist(Tpc, c)]
  {
    FillsForCounts(cats, tpcOk, itsOk, c);
  }

  /**
   * As written, the TPC+ITS decay-secondary pion triple also counts the
   * material-secondary pions, and the material-secondary numerator stays empty.
   */
  lemma {:induction false} FillsForAsWrittenCounts(cats: seq<Category>, tpcOk: bool, itsOk: bool, c: Category)
    ensures multiset(FillsForAsWritten(cats, tpcOk, itsOk))[Hist(Tpc, c)] == if tpcOk then multiset(cats)[c] else 0
    ensures multiset(FillsForAsWritten(cats, tpcOk, itsOk))[Hist(TpcIts, c)] ==
      if !(tpcOk && itsOk) || c == PionSecondaryMaterial then 0
      else if c == PionSecondaryDecay then multiset(cats)[PionSecondaryDecay] + multiset(cats)[PionSecondaryMaterial]
      else multiset(cats)[c]
  {
    if cats != [] {
      var init, last := cats[..|cats| - 1], cats[|cats| - 1];
      FillsForAsWrittenCounts(init, tpcOk, itsOk, c);
      CategoryFillsCounts(last, tpcOk, itsOk, c);
      LastCount(cats, c);
      LastCount(cats, PionSecondaryMaterial);
      LastCount(cats, PionSecondaryDecay);
      assert multiset(FillsForAsWritten(cats, tpcOk, itsOk))
          == multiset(FillsForAsWritten(init, tpcOk, itsOk)) + multiset(CategoryFillsAsWritten(last, tpcOk, itsOk));
    }
  }

  /** As written, `pthist_tpcits_pi_secm` (and its siblings) is never filled. */
  lemma AsWrittenMaterialPionNumeratorEmpty(cats: seq<Category>, tpcOk: bool, itsOk: bool)
    ensures multiset(FillsForAsWritten(cats, tpcOk, itsOk))[Hist(TpcIts, PionSecondaryMaterial)] == 0
  {
    FillsForAsWrittenCounts(cats, tpcOk, itsOk, PionSecondaryMaterial);
  }

  /** A material-secondary pion matched in TPC and ITS, with selections off. */
  const MaterialPion := QaTrack(
    false, true, true, 1.0, 1.0, 1.0, 3,
    TrackCutVerdicts(true, true, true, true, true, true, true, true, true),
    Some(McParticle(211, false, 0)))

  /** The MC categories of a material-secondary pion. */
  lemma MaterialPionMcCategories()
    ensures McCategories(McParticle(211, false, 0))
         == [SecondaryMaterial, Pion, PionSecondaryMaterial, NoPrimaryPion, PionKaon]
  {
  }

  /** The categories of that track: one material-secondary pion block, no decay-secondary one. */
  lemma MaterialPionCategories()
    ensures var cats := Categories(true, TrackPt(DefaultConfig, MaterialPion), MaterialPion);
      multiset(cats)[PionSecondaryMaterial] == 1 && multiset(cats)[PionSecondaryDecay] == 0
  {
    MaterialPionMcCategories();
    var cats := Categories(true, TrackPt(DefaultConfig, MaterialPion), MaterialPion);
    var expected := [All, Pt05, Positive, SecondaryMaterial, Pion, PionSecondaryMaterial, NoPrimaryPion, PionKaon];
    assert TrackPt(DefaultConfig, MaterialPion) == 1.0;
    assert cats == [All, Pt05, Positive] + McCategories(McParticle(211, false, 0));
    assert cats == expected;
    assert multiset(expected)[PionSecondaryDecay] == 0;
    assert multiset(expected)[PionSecondaryMaterial] == 1;
  }

  lemma MaterialPionSelected()
    ensures Counted(DefaultConfig, true, MaterialPion)
    ensures TpcOk(DefaultConfig, MaterialPion) && ItsOk(DefaultConfig, MaterialPion)
  {
  }

  /**
   * As written, that one track fills the TPC+ITS decay-secondary pion triple
   * while the matching TPC triple stays empty: an efficiency of 1/0.
   */
  lemma AsWrittenDecayPionOverflow()
    ensures Counted(DefaultConfig, true, MaterialPion)
    ensures var fills := multiset(TrackFillsAsWritten(DefaultConfig, true, MaterialPion));
      fills[Hist(TpcIts, PionSecondaryDecay)] == 1 && fills[Hist(Tpc, PionSecondaryDecay)] == 0
  {
    var cats := Categories(true, TrackPt(DefaultConfig, MaterialPion), MaterialPion);
    MaterialPionCategories();
    MaterialPionSelected();
    FillsForAsWrittenCounts(cats, true, true, PionSecondaryDecay);
    assert TrackFillsAsWritten(DefaultConfig, true, MaterialPion) == FillsForAsWritten(cats, true, true);
  }

  /** In the corrected fills the same track fills the material-secondary pion pair. */
  lemma CorrectedMaterialPionFills()
    ensures var fills := multiset(TrackFills(DefaultConfig, true, MaterialPion));
      && fills[Hist(TpcIts, PionSecondaryMaterial)] == 1 && fills[Hist(Tpc, PionSecondaryMaterial)] == 1
      && fills[Hist(TpcIts, PionSecondaryDecay)] == 0
  {
    var cats := Categories(true, TrackPt(DefaultConfig, MaterialPion), MaterialPion);
    MaterialPionCategories();
    MaterialPionSelected();
    FillsForCounts(cats, true, true, PionSecondaryMaterial);
    FillsForCounts(cats, true, true, PionSecondaryDecay);
    assert TrackFills(DefaultConfig, true, MaterialPion) == FillsFor(cats, true, true);
  }

  // ---------------------------------------------------------------------------
  // The per-track step of `fillHistograms`
  // ---------------------------------------------------------------------------

  /** The classification part of a `thnsforfrac` entry: `sayPrim`, `signPDGCode`, `specind`. */
  datatype ThnEntry = ThnEntry(sayPrim: int, signPdg: int, specind: int)

  /** The bookkeeping a track can change: member counters, member scratch state and the fills. */
  datatype QaState = QaState(
    countData: nat,
    countNoMC: nat,
    siPDGCode: int,
    tpPDGCode: int,
    pdgFill: real,
    hist: multiset<Hist>,
    itsHitsMatched: seq<(int, nat)>,
    pdgDen: seq<real>,
    pdgNum: seq<real>,
    thn: seq<ThnEntry>)

  /** The state before the first track. */
  const InitialState := QaState(0, 0, 0, 0, 0.0, multiset{}, [], [], [], [])

  /** The numerator triple of a category holds at most the entries of its denominator. */
  ghost predicate HistNested(h: multiset<Hist>, c: Category) {
    h[Hist(TpcIts, c)] <= h[Hist(Tpc, c)]
  }

  /** Every PDG bin of `pdghist_num` holds at most the entries of that bin of `pdghist_den`. */
  ghost predicate PdgNested(s: QaState) {
    multiset(s.pdgNum) <= multiset(s.pdgDen)
  }

  /** Every numerator is bounded by its denominator, for every histogram and every PDG bin. */
  ghost predicate Nested(s: QaState) {
    (forall c: Category :: HistNested(s.hist, c)) && PdgNested(s)
  }

  /** The nesting the code as written keeps: every category but the decay-secondary pions. */
  ghost predicate NestedAsWritten(s: QaState) {
    (forall c: Category | c != PionSecondaryDecay :: HistNested(s.hist, c)) && PdgNested(s)
  }

  /** A counted MC track carries a non-zero PDG code, as `signPDGCode` divides by it. */
  predicate PdgDefined(cfg: QaConfig, isMC: bool, t: QaTrack) {
    isMC && Counted(cfg, isMC, t) ==> t.mc.value.pdgCode != 0
  }

  /** The `thnsforfrac` classification of a counted track. */
  function Classification(isMC: bool, t: QaTrack): ThnEntry
    requires isMC ==> t.mc.Some? && t.mc.value.pdgCode != 0
  {
    if isMC then
      var p := t.mc.value;
      ThnEntry(PrimClass(p), PdgSign(p.pdgCode), SpeciesIndex(Abs(p.pdgCode)))
    else ThnEntry(-1, -2, 0)
  }

  /** `countData++` and the MC scratch members `siPDGCode`/`tpPDGCode`. */
  function CountStep(isMC: bool, t: QaTrack, s: QaState): QaState
    requires isMC ==> t.mc.Some?
  {
    var s1 := s.(countData := s.countData + 1);
    if isMC then s1.(siPDGCode := t.mc.value.pdgCode, tpPDGCode := Abs(t.mc.value.pdgCode)) else s1
  }

  /** The `thnsforfrac` entry, when enabled. */
  function ThnStep(cfg: QaConfig, isMC: bool, t: QaTrack, s: QaState): QaState
    requires isMC ==> t.mc.Some? && t.mc.value.pdgCode != 0
  {
    if cfg.makethn then s.(thn := s.thn + [Classification(isMC, t)]) else s
  }

  /** The pt/phi/eta fills of every category block, and the ITS control plot of a matched track. */
  function HistStep(routing: Routing, cfg: QaConfig, isMC: bool, t: QaTrack, s: QaState): QaState {
    var s1 := s.(hist := s.hist + multiset(RoutedTrackFills(routing, cfg, isMC, t)));
    if TpcOk(cfg, t) && ItsOk(cfg, t) then s1.(itsHitsMatched := s1.itsHitsMatched + ITSHitFills(t.itsClusterMap))
    else s1
  }

  /** `pdg_fill` and the PDG-bin fills of tracks other than primary pions. */
  function PdgStep(cfg: QaConfig, isMC: bool, t: QaTrack, s: QaState): QaState
    requires isMC ==> t.mc.Some?
  {
    if isMC && !(Abs(t.mc.value.pdgCode) == 211 && t.mc.value.isPhysicalPrimary) then
      var pf := PdgFill(Abs(t.mc.value.pdgCode));
      var tpcOk, itsOk := TpcOk(cfg, t), ItsOk(cfg, t);
      s.(pdgFill := pf,
         pdgDen := s.pdgDen + (if tpcOk then [pf] else []),
         pdgNum := s.pdgNum + (if tpcOk && itsOk then [pf] else []))
    else s
  }

  /** What one iteration of the track loop does, with the given pion routing. */
  function Step(routing: Routing, cfg: QaConfig, isMC: bool, s: QaState, t: QaTrack): QaState
    requires PdgDefined(cfg, isMC, t)
  {
    if !KeepForTRD(cfg.isTRDThere, t.hasTRD) then s
    else if isMC && t.mc.None? then s.(countNoMC := s.countNoMC + 1)
    else if !KineSelected(cfg, t) then s
    else PdgStep(cfg, isMC, t, HistStep(routing, cfg, isMC, t, ThnStep(cfg, isMC, t, CountStep(isMC, t, s))))
  }

  /** The track loop, one step per track in order. */
  function Fold(routing: Routing, cfg: QaConfig, isMC: bool, s: QaState, ts: seq<QaTrack>): QaState
    requires forall k :: 0 <= k < |ts| ==> PdgDefined(cfg, isMC, ts[k])
  {
    if ts == [] then s
    else Step(routing, cfg, isMC, Fold(routing, cfg, isMC, s, ts[..|ts| - 1]), ts[|ts| - 1])
  }

  /** The number of tracks that reach `countData++`. */
  function NumCounted(cfg: QaConfig, isMC: bool, ts: seq<QaTrack>): nat {
    if ts == [] then 0
    else NumCounted(cfg, isMC, ts[..|ts| - 1]) + (if Counted(cfg, isMC, ts[|ts| - 1]) then 1 else 0)
  }

  /** The number of MC tracks without a label that pass the TRD requirement. */
  function NumUnlabelled(cfg: QaConfig, isMC: bool, ts: seq<QaTrack>): nat {
    if ts == [] then 0
    else NumUnlabelled(cfg, isMC, ts[..|ts| - 1])
         + (if isMC && KeepForTRD(cfg.isTRDThere, ts[|ts| - 1].hasTRD) && ts[|ts| - 1].mc.None? then 1 else 0)
  }

  /**
   * A track vetoed by the TRD requirement, or unselected by the kinematic cuts,
   * changes nothing; an unlabelled MC track only increments `countNoMC`.
   */
  lemma StepSkips(routing: Routing, cfg: QaConfig, isMC: bool, s: QaState, t: QaTrack)
    requires PdgDefined(cfg, isMC, t)
    ensures !Counted(cfg, isMC, t) && !(isMC && KeepForTRD(cfg.isTRDThere, t.hasTRD) && t.mc.None?)
            ==> Step(routing, cfg, isMC, s, t) == s
    ensures isMC && KeepForTRD(cfg.isTRDThere, t.hasTRD) && t.mc.None? ==>
            Step(routing, cfg, isMC, s, t) == s.(countNoMC := s.countNoMC + 1)
    ensures Counted(cfg, isMC, t) ==> Step(routing, cfg, isMC, s, t).countData == s.countData + 1
    ensures Counted(cfg, isMC, t) ==> Step(routing, cfg, isMC, s, t).countNoMC == s.countNoMC
  {
  }

  /** A PDG bin enters the numerator only together with the same bin of the denominator. */
  lemma PdgStepKeepsPdgNested(cfg: QaConfig, isMC: bool, t: QaTrack, s: QaState)
    requires isMC ==> t.mc.Some?
    requires PdgNested(s)
    ensures PdgNested(PdgStep(cfg, isMC, t, s))
  {
    if isMC && !(Abs(t.mc.value.pdgCode) == 211 && t.mc.value.isPhysicalPrimary) {
      var pf := PdgFill(Abs(t.mc.value.pdgCode));
      var tpcOk, itsOk := TpcOk(cfg, t), ItsOk(cfg, t);
      var den, num := s.pdgDen + (if tpcOk then [pf] else []), s.pdgNum + (if tpcOk && itsOk then [pf] else []);
      assert multiset(den) == multiset(s.pdgDen) + multiset(if tpcOk then [pf] else []);
      assert multiset(num) == multiset(s.pdgNum) + multiset(if tpcOk && itsOk then [pf] else []);
    }
  }

  /** One corrected step keeps every efficiency at most one. */
  lemma StepKeepsNested(cfg: QaConfig, isMC: bool, s: QaState, t: QaTrack)
    requires PdgDefined(cfg, isMC, t)
    requires Nested(s)
    ensures Nested(Step(Corrected, cfg, isMC, s, t))
  {
    if Counted(cfg, isMC, t) {
      var s1 := HistStep(Corrected, cfg, isMC, t, ThnStep(cfg, isMC, t, CountStep(isMC, t, s)));
      forall c: Category
        ensures HistNested(Step(Corrected, cfg, isMC, s, t).hist, c)
      {
        assert HistNested(s.hist, c);
        assert Step(Corrected, cfg, isMC, s, t).hist == s.hist + multiset(TrackFills(cfg, isMC, t));
        FillsForNested(Categories(isMC, TrackPt(cfg, t), t), TpcOk(cfg, t), ItsOk(cfg, t), c);
      }
      PdgStepKeepsPdgNested(cfg, isMC, t, s1);
    }
  }

  /**
   * One step as written keeps the nesting of every category except the
   * decay-secondary pions, whose numerator also receives the material ones.
   */
  lemma StepKeepsNestedAsWritten(cfg: QaConfig, isMC: bool, s: QaState, t: QaTrack)
    requires PdgDefined(cfg, isMC, t)
    requires NestedAsWritten(s)
    ensures NestedAsWritten(Step(AsWritten, cfg, isMC, s, t))
  {
    if Counted(cfg, isMC, t) {
      var s1 := HistStep(AsWritten, cfg, isMC, t, ThnStep(cfg, isMC, t, CountStep(isMC, t, s)));
      forall c: Category | c != PionSecondaryDecay
        ensures HistNested(Step(AsWritten, cfg, isMC, s, t).hist, c)
      {
        assert HistNested(s.hist, c);
        assert Step(AsWritten, cfg, isMC, s, t).hist == s.hist + multiset(TrackFillsAsWritten(cfg, isMC, t));
        FillsForAsWrittenCounts(Categories(isMC, TrackPt(cfg, t), t), TpcOk(cfg, t), ItsOk(cfg, t), c);
      }
      PdgStepKeepsPdgNested(cfg, isMC, t, s1);
    }
  }

  /** The whole corrected loop keeps every efficiency at most one. */
  lemma {:induction false} FoldKeepsNested(cfg: QaConfig, isMC: bool, s: QaState, ts: seq<QaTrack>)
    requires forall k :: 0 <= k < |ts| ==> PdgDefined(cfg, isMC, ts[k])
    requires Nested(s)
    ensures Nested(Fold(Corrected, cfg, isMC, s, ts))
  {
    if ts != [] {
      var init := ts[..|ts| - 1];
      FoldKeepsNested(cfg, isMC, s, init);
      StepKeepsNested(cfg, isMC, Fold(Corrected, cfg, isMC, s, init), ts[|ts| - 1]);
    }
  }

  /** The whole loop as written keeps the nesting of every category but the decay-secondary pions. */
  lemma {:induction false} FoldKeepsNestedAsWritten(cfg: QaConfig, isMC: bool, s: QaState, ts: seq<QaTrack>)
    requires forall k :: 0 <= k < |ts| ==> PdgDefined(cfg, isMC, ts[k])
    requires NestedAsWritten(s)
    ensures NestedAsWritten(Fold(AsWritten, cfg, isMC, s, ts))
  {
    if ts != [] {
      var init := ts[..|ts| - 1];
      FoldKeepsNestedAsWritten(cfg, isMC, s, init);
      StepKeepsNestedAsWritten(cfg, isMC, Fold(AsWritten, cfg, isMC, s, init), ts[|ts| - 1]);
    }
  }

  /** A step adds the track's fills to the histograms exactly when the track is counted. */
  lemma StepHist(routing: Routing, cfg: QaConfig, isMC: bool, s: QaState, t: QaTrack)
    requires PdgDefined(cfg, isMC, t)
    ensures Step(routing, cfg, isMC, s, t).hist
         == s.hist + (if Counted(cfg, isMC, t) then multiset(RoutedTrackFills(routing, cfg, isMC, t)) else multiset{})
  {
  }

  /**
   * How histograms `a` filled as written relate to histograms `c` filled with
   * the corrected routing from the same start `base`: they differ only in the
   * TPC+ITS pion secondaries, where the material-secondary numerator keeps its
   * starting value and what it should have received goes to the
   * decay-secondary numerator.
   */
  ghost predicate RoutingsRelated(a: multiset<Hist>, c: multiset<Hist>, base: multiset<Hist>) {
    && (forall x: Category :: a[Hist(Tpc, x)] == c[Hist(Tpc, x)])
    && (forall x: Category | x != PionSecondaryDecay && x != PionSecondaryMaterial :: a[Hist(TpcIts, x)] == c[Hist(TpcIts, x)])
    && a[Hist(TpcIts, PionSecondaryMaterial)] == base[Hist(TpcIts, PionSecondaryMaterial)]
    && a[Hist(TpcIts, PionSecondaryDecay)] + base[Hist(TpcIts, PionSecondaryMaterial)]
       == c[Hist(TpcIts, PionSecondaryDecay)] + c[Hist(TpcIts, PionSecondaryMaterial)]
  }

  /** The fills of one track under the two routings are related in the same way, from nothing. */
  lemma TrackRoutingsRelated(cfg: QaConfig, isMC: bool, t: QaTrack)
    ensures RoutingsRelated(multiset(TrackFillsAsWritten(cfg, isMC, t)), multiset(TrackFills(cfg, isMC, t)), multiset{})
  {
    var cats, tpcOk, itsOk := Categories(isMC, TrackPt(cfg, t), t), TpcOk(cfg, t), ItsOk(cfg, t);
    var ma, mc := multiset(FillsForAsWritten(cats, tpcOk, itsOk)), multiset(FillsFor(cats, tpcOk, itsOk));
    forall x: Category
      ensures ma[Hist(Tpc, x)] == mc[Hist(Tpc, x)]
      ensures x != PionSecondaryDecay && x != PionSecondaryMaterial ==> ma[Hist(TpcIts, x)] == mc[Hist(TpcIts, x)]
    {
      FillsForCounts(cats, tpcOk, itsOk, x);
      FillsForAsWrittenCounts(cats, tpcOk, itsOk, x);
    }
    FillsForCounts(cats, tpcOk, itsOk, PionSecondaryDecay);
    FillsForAsWrittenCounts(cats, tpcOk, itsOk, PionSecondaryDecay);
    FillsForCounts(cats, tpcOk, itsOk, PionSecondaryMaterial);
    FillsForAsWrittenCounts(cats, tpcOk, itsOk, PionSecondaryMaterial);
  }

  /** Adding related fills to related histograms keeps them related. */
  lemma RoutingsRelatedAdd(a: multiset<Hist>, c: multiset<Hist>, base: multiset<Hist>, ma: multiset<Hist>, mc: multiset<Hist>)
    requires RoutingsRelated(a, c, base) && RoutingsRelated(ma, mc, multiset{})
    ensures RoutingsRelated(a + ma, c + mc, base)
  {
  }

  /** Over the whole loop the as-written histograms are related to the corrected ones. */
  lemma {:induction false} FoldRoutingsCompare(cfg: QaConfig, isMC: bool, s: QaState, ts: seq<QaTrack>)
    requires forall k :: 0 <= k < |ts| ==> PdgDefined(cfg, isMC, ts[k])
    ensures RoutingsRelated(Fold(AsWritten, cfg, isMC, s, ts).hist, Fold(Corrected, cfg, isMC, s, ts).hist, s.hist)
  {
    if ts != [] {
      var init, t := ts[..|ts| - 1], ts[|ts| - 1];
      FoldRoutingsCompare(cfg, isMC, s, init);
      var sa, sc := Fold(AsWritten, cfg, isMC, s, init), Fold(Corrected, cfg, isMC, s, init);
      StepHist(AsWritten, cfg, isMC, sa, t);
      StepHist(Corrected, cfg, isMC, sc, t);
      if Counted(cfg, isMC, t) {
        TrackRoutingsRelated(cfg, isMC, t);
        RoutingsRelatedAdd(sa.hist, sc.hist, s.hist,
                           multiset(TrackFillsAsWritten(cfg, isMC, t)), multiset(TrackFills(cfg, isMC, t)));
      } else {
        assert sa.hist + multiset{} == sa.hist && sc.hist + multiset{} == sc.hist;
      }
    }
  }

  /** `countData` grows by the counted tracks, `countNoMC` by the unlabelled ones. */
  lemma {:induction false} FoldCounts(routing: Routing, cfg: QaConfig, isMC: bool, s: QaState, ts: seq<QaTrack>)
    requires forall k :: 0 <= k < |ts| ==> PdgDefined(cfg, isMC, ts[k])
    ensures Fold(routing, cfg, isMC, s, ts).countData == s.countData + NumCounted(cfg, isMC, ts)
    ensures Fold(routing, cfg, isMC, s, ts).countNoMC == s.countNoMC + NumUnlabelled(cfg, isMC, ts)
  {
    if ts != [] {
      var init := ts[..|ts| - 1];
      FoldCounts(routing, cfg, isMC, s, init);
      StepSkips(routing, cfg, isMC, Fold(routing, cfg, isMC, s, init), ts[|ts| - 1]);
    }
  }

  /** Each track is counted or unlabelled at most once: the counters never exceed the tracks. */
  lemma {:induction false} CountsBounded(cfg: QaConfig, isMC: bool, ts: seq<QaTrack>)
    ensures NumCounted(cfg, isMC, ts) + NumUnlabelled(cfg, isMC, ts) <= |ts|
    ensures !isMC ==> NumUnlabelled(cfg, isMC, ts) == 0
  {
    if ts != [] {
      CountsBounded(cfg, isMC, ts[..|ts| - 1]);
    }
  }

  // ---------------------------------------------------------------------------
  // The task object
  // ---------------------------------------------------------------------------

  /** The task: its configurables, the layer set of `init` and its member bookkeeping. */
  class QaMatchEffTask {
    const cfg: QaConfig
    var customITShitmapLayers: set<nat>
    var countData: nat
    var countNoMC: nat
    var siPDGCode: int
    var tpPDGCode: int
    var pdgFill: real
    var hist: multiset<Hist>
    var itsHitsMatched: seq<(int, nat)>
    var pdgDen: seq<real>
    var pdgNum: seq<real>
    var thn: seq<ThnEntry>

    /** The bookkeeping as a value. */
    function State(): QaState
      reads this
    {
      QaState(countData, countNoMC, siPDGCode, tpPDGCode, pdgFill, hist, itsHitsMatched, pdgDen, pdgNum, thn)
    }

    constructor (cfg: QaConfig)
      ensures this.cfg == cfg
      ensures State() == InitialState
      ensures customITShitmapLayers == {}
    {
      this.cfg := cfg;
      customITShitmapLayers := {};
      countData, countNoMC, siPDGCode, tpPDGCode, pdgFill := 0, 0, 0, 0, 0.0;
      hist, itsHitsMatched, pdgDen, pdgNum, thn := multiset{}, [], [], [], [];
    }

    /** `init`: with track selections on, decode the custom hitmap into ITS layers. */
    method Init()
      modifies this`customITShitmapLayers
      ensures cfg.useTrackSelections ==> customITShitmapLayers == HitmapLayers(cfg.customITShitmap)
      ensures !cfg.useTrackSelections ==> customITShitmapLayers == old(customITShitmapLayers)
    {
      if cfg.useTrackSelections {
        customITShitmapLayers := BuildCustomHitmap(cfg.customITShitmap);
      }
    }

    /** One iteration of the track loop of `fillHistograms`. */
    method ProcessTrack(isMC: bool, t: QaTrack)
      requires PdgDefined(cfg, isMC, t)
      modifies this
      ensures State() == Step(AsWritten, cfg, isMC, old(State()), t)
      ensures customITShitmapLayers == old(customITShitmapLayers)
    {
      if cfg.isTRDThere == 1 && !t.hasTRD {
        return;
      }
      if cfg.isTRDThere == 0 && t.hasTRD {
        return;
      }
      if isMC && t.mc.None? {
        countNoMC := countNoMC + 1;
        return;
      }
      var trackPt := TrackPt(cfg, t);
      if !KineSelected(cfg, t) {
        return;
      }
      CountAndClassify(isMC, t);
      FillCategories(isMC, t, trackPt);
      FillPdgBins(isMC, t);
    }

    /** `countData++`, the MC scratch members and the `thnsforfrac` entry. */
    method CountAndClassify(isMC: bool, t: QaTrack)
      requires isMC ==> t.mc.Some? && t.mc.value.pdgCode != 0
      modifies this
      ensures State() == ThnStep(cfg, isMC, t, CountStep(isMC, t, old(State())))
      ensures customITShitmapLayers == old(customITShitmapLayers)
    {
      countData := countData + 1;
      var entry := ThnEntry(-1, -2, 0);
      if isMC {
        var p := t.mc.value;
        siPDGCode := p.pdgCode;
        tpPDGCode := Abs(siPDGCode);
        var sayPrim := if p.isPhysicalPrimary then 0 else if p.process == 4 then 1 else 2;
        entry := ThnEntry(sayPrim, PdgSign(siPDGCode), SpeciesIndex(tpPDGCode));
      }
      if cfg.makethn {
        thn := thn + [entry];
      }
    }

    /** The tpc/tpcits fill blocks of every category, as written, and the ITS control plot. */
    method FillCategories(isMC: bool, t: QaTrack, trackPt: real)
      requires trackPt == TrackPt(cfg, t)
      modifies this
      ensures State() == HistStep(AsWritten, cfg, isMC, t, old(State()))
      ensures customITShitmapLayers == old(customITShitmapLayers)
    {
      var tpcOk := t.hasTPC && TPCSelected(cfg, t);
      var itsOk := t.hasITS && ITSSelected(cfg, t);
      hist := hist + multiset(FillsForAsWritten(Categories(isMC, trackPt, t), tpcOk, itsOk));
      if tpcOk && itsOk {
        var _, fills := CountITSHits(t.itsClusterMap);
        itsHitsMatched := itsHitsMatched + fills;
      }
    }

    /** `pdg_fill` and the PDG-bin denominator and numerator. */
    method FillPdgBins(isMC: bool, t: QaTrack)
      requires isMC ==> t.mc.Some? && tpPDGCode == Abs(t.mc.value.pdgCode)
      modifies this
      ensures State() == PdgStep(cfg, isMC, t, old(State()))
      ensures customITShitmapLayers == old(customITShitmapLayers)
    {
      if isMC && !(tpPDGCode == 211 && t.mc.value.isPhysicalPrimary) {
        pdgFill := PdgFill(tpPDGCode);
        var tpcOk := t.hasTPC && TPCSelected(cfg, t);
        var itsOk := t.hasITS && ITSSelected(cfg, t);
        if tpcOk {
          pdgDen := pdgDen + [pdgFill];
          if itsOk {
            pdgNum := pdgNum + [pdgFill];
          }
        }
      }
    }

    /** `fillHistograms`: every track of the collection, in order. */
    method FillHistograms(isMC: bool, tracks: seq<QaTrack>)
      requires forall k :: 0 <= k < |tracks| ==> PdgDefined(cfg, isMC, tracks[k])
      modifies this
      ensures State() == Fold(AsWritten, cfg, isMC, old(State()), tracks)
      ensures customITShitmapLayers == old(customITShitmapLayers)
      ensures NestedAsWritten(old(State())) ==> NestedAsWritten(State())
      ensures RoutingsRelated(hist, Fold(Corrected, cfg, isMC, old(State()), tracks).hist, old(hist))
      ensures countData == old(countData) + NumCounted(cfg, isMC, tracks)
      ensures countNoMC == old(countNoMC) + NumUnlabelled(cfg, isMC, tracks)
    {
      ghost var s0 := State();
      for i := 0 to |tracks|
        invariant State() == Fold(AsWritten, cfg, isMC, old(State()), tracks[..i])
        invariant customITShitmapLayers == old(customITShitmapLayers)
      {
        assert tracks[..i + 1][..i] == tracks[..i];
        ProcessTrack(isMC, tracks[i]);
      }
      assert tracks[..|tracks|] == tracks;
      if NestedAsWritten(s0) {
        FoldKeepsNestedAsWritten(cfg, isMC, s0, tracks);
      }
      FoldCounts(AsWritten, cfg, isMC, s0, tracks);
      FoldRoutingsCompare(cfg, isMC, s0, tracks);
    }
  }
}
