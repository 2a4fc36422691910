# Verified model of five selection and bookkeeping cores of O2Physics

This project models, in Dafny, the deterministic logic under five pieces of
the O2Physics analysis framework, and proves what each promises:

- **BC-range check** (`checkBCRange.C`): the macro collects the bunch-crossing
  ids of the software-trigger decisions that were selected. It marks each id
  found when some `[start, end]` interaction-record frame contains it, and
  reports how many were not found. The two overloads run the loops in
  different orders; the model proves they compute the same vector.
- **ITS-TPC matching QA** (`qaMatchEff.cxx`): the task's state is a class.
  `init` decodes the custom ITS hitmap. `fillHistograms` loops over tracks
  and does the following:
  - skips tracks on the TRD and MC-label conditions;
  - classifies each track (primary or secondary, species, PDG bin);
  - counts its ITS hits;
  - fills the TPC ("denominator") and TPC+ITS ("numerator") histograms.

  The task object runs the fill blocks as written. Over its whole track
  loop the model proves two things:
  - every numerator stays within its denominator, except the decay-secondary
    pions, which also receive the material-secondary pion fills (see
    Findings);
  - every PDG bin of the numerator stays within that bin of the denominator.

  The corrected routing is modelled beside it. The model proves that under
  the corrected routing every category stays nested, and states exactly how
  the written histograms differ from the corrected ones.
- **Nuclei skimming** (`NucleiHistTask.cxx`): each track runs through a fixed
  cut chain: quality, then DCA, then rapidity under all five mass hypotheses.
  The survivors fill per-species registries and raise per-species keep
  flags, ten in all (particle and antiparticle). Each flag is then written
  once to its registry.
- **EMCal photon cut** (`EMCPhotonCut.h`): there are six per-cluster cuts
  (energy, cell count, M02, timing, track matching, exotic). The selection
  is their conjunction, evaluated in order up to the first failure. The
  exotic cut is modelled as written, keeping only exotic clusters (see
  Findings); the corrected sense is modelled beside it. The cut object is a
  class whose setters write its fields. Its width functions start empty,
  and calling one throws; the model includes that error path.
- **Cut library** (`CutsLibrary.cxx`): it maps a cut name to a configured
  PCM (V0 photon) or EMCal cut, or to null for an unknown name. Null is
  modelled as `None`.

Files:
- `Wrappers.dfy`: `Option`.
- `BCRange.dfy`
- `QaMatchEff.dfy`
- `NucleiHist.dfy`
- `EMCPhotonCut.dfy`
- `CutsLibrary.dfy`

Values that come from code outside this model are inputs of the model:
- the `TrackSelection` verdicts;
- rapidities from `TLorentzVector`;
- n-sigma values;
- the TOF mass;
- `pow`-based widths, as functions.

A histogram fill is modelled as an entry in a log (nuclei) or a multiset of
counters (QA) keyed by histogram.

## Model

| member | source | states |
|---|---|---|
| BCRange.SelectedIds | EventFiltering/macros/checkBCRange.C:53-57 | the ids of the selected decisions, in tree order |
| BCRange.IsOutside | EventFiltering/macros/checkBCRange.C:71 | `bc < start || bc > end`: the assumed meaning of `IRFrame::isOutside`, making frames inclusive |
| BCRange.Covered | EventFiltering/macros/checkBCRange.C:63-75 | some frame does not report the id as outside it |
| BCRange.DirectoryReport | EventFiltering/macros/checkBCRange.C:30-82 | one directory's report: trees missing, or `notFound` and the number of ids |
| BCRange.SelectedIdsMembers | EventFiltering/macros/checkBCRange.C:53-57 | an id is collected iff some decision with `cefpSelected != 0` carries it |
| BCRange.SelectedIdsLength | EventFiltering/macros/checkBCRange.C:128-134 | at most one id per decision, exactly one each when all are selected |
| BCRange.SelectedIdsAppend | EventFiltering/macros/checkBCRange.C:128-134 | collecting over concatenated trees concatenates the collected ids (order kept) |
| BCRange.CollectSelected | EventFiltering/macros/checkBCRange.C:53-57 | the push-back loop yields exactly the selected ids in order |
| BCRange.CoveredIff | EventFiltering/macros/checkBCRange.C:63-75 | an id is covered iff some frame has `start <= id <= end` |
| BCRange.CoveredWitness | EventFiltering/macros/checkBCRange.C:70-72 | one frame containing the id suffices for it to be found |
| BCRange.CoveredAppend | EventFiltering/macros/checkBCRange.C:91-111 | coverage by frames of several files is coverage by some file's frames |
| BCRange.FoundVector | EventFiltering/macros/checkBCRange.C:59 | the found vector has one entry per collected id |
| BCRange.MarkFramesOuter | EventFiltering/macros/checkBCRange.C:59-75 | frames-outer loop (starting all false, only ever setting true) yields `found[i] <==> Covered(frames, bcids[i])` |
| BCRange.MarkPointsOuter | EventFiltering/macros/checkBCRange.C:137-145 | points-outer loop with early break yields the same found vector |
| BCRange.LoopOrdersAgree | EventFiltering/macros/checkBCRange.C:63-75 | the two loop orders produce identical found vectors |
| BCRange.CountNotFound | EventFiltering/macros/checkBCRange.C:76-80 | `notFound` is the number of false entries and at most their total |
| BCRange.NotFoundBounded | EventFiltering/macros/checkBCRange.C:146-150 | `0 <= notFound <= |bcids|` |
| BCRange.AllFalseCount | EventFiltering/macros/checkBCRange.C:59 | on an all-false vector every id is not found |
| BCRange.NoFramesNothingFound | EventFiltering/macros/checkBCRange.C:63-80 | with no frames `notFound == |bcids|` |
| BCRange.FlattenAppend | EventFiltering/macros/checkBCRange.C:91-111 | reading files one after another concatenates their contents; missing trees contribute nothing |
| BCRange.DirectoryReportBounds | EventFiltering/macros/checkBCRange.C:30-82 | each directory's report has `notFound <= total`; an empty frame list finds nothing |
| BCRange.CheckBCRange | EventFiltering/macros/checkBCRange.C:23-82 | one report per directory, each computed from that directory alone (ids and found reset per directory; missing trees skipped at 36-39) |
| BCRange.CheckBCRangeWithRangeFile | EventFiltering/macros/checkBCRange.C:84-151 | second overload: totals over all decision files, found against all frame files (skipping missing trees, 94-100), `notFound <= total` |
| QaMatchEff.BuildCustomHitmap | DPG/Tasks/AOTTrack/qaMatchEff.cxx:162-167 | layer i is in the set iff `i < 7` and bit i of `customITShitmap` is set |
| QaMatchEff.MaskKeepsLowBit | DPG/Tasks/AOTTrack/qaMatchEff.cxx:163-164 | bits 0..6 survive masking by `0x7F` |
| QaMatchEff.HitmapHighBitsIgnored | DPG/Tasks/AOTTrack/qaMatchEff.cxx:162-167 | bits at position 7 and above do not change the decoded set |
| QaMatchEff.CountITSHits | DPG/Tasks/AOTTrack/qaMatchEff.cxx:556-581 | `itsNhits` is the popcount of bits 0..6, and the fills are one `(i, itsNhits)` per set bit or a single `(-1, itsNhits)` |
| QaMatchEff.LayerFillsCount | DPG/Tasks/AOTTrack/qaMatchEff.cxx:564-575 | one layer fill per set bit, each carrying the hit count |
| QaMatchEff.LayerFillsComplete | DPG/Tasks/AOTTrack/qaMatchEff.cxx:564-575 | every set bit's layer appears among the fills |
| QaMatchEff.ITSHitFillsShape | DPG/Tasks/AOTTrack/qaMatchEff.cxx:564-581 | no hits gives exactly `[(-1, 0)]`, otherwise one fill per hit layer |
| QaMatchEff.PopCountBounded | DPG/Tasks/AOTTrack/qaMatchEff.cxx:558-563 | the hit count is at most the number of layers inspected |
| QaMatchEff.PopCountIgnoresBit7 | DPG/Tasks/AOTTrack/qaMatchEff.cxx:558-563 | bit 7 of the cluster map is never counted |
| QaMatchEff.KineSelected | DPG/Tasks/AOTTrack/qaMatchEff.cxx:380-398 | true when selections are off (382-383), otherwise exactly the kinematic verdicts |
| QaMatchEff.TPCSelected | DPG/Tasks/AOTTrack/qaMatchEff.cxx:401-414 | true when selections are off (403-404), otherwise exactly the TPC verdicts |
| QaMatchEff.ITSSelected | DPG/Tasks/AOTTrack/qaMatchEff.cxx:417-426 | true when selections are off (420-421), otherwise ITS chi2 and hits |
| QaMatchEff.KeepForTRD | DPG/Tasks/AOTTrack/qaMatchEff.cxx:448-451 | `isTRDThere == 1` keeps only TRD tracks, `0` only non-TRD tracks, other values keep all |
| QaMatchEff.PrimClass | DPG/Tasks/AOTTrack/qaMatchEff.cxx:496-503 | 0 iff physical primary, 1 iff secondary from process 4, 2 iff other secondary |
| QaMatchEff.SpeciesIndex | DPG/Tasks/AOTTrack/qaMatchEff.cxx:505-520 | 1..4 exactly for 11, 211, 321, 2212; 5 for every other value |
| QaMatchEff.PdgSign | DPG/Tasks/AOTTrack/qaMatchEff.cxx:504 | `si/|si|` is ±1 and restores the code from its absolute value |
| QaMatchEff.FindIndex | DPG/Tasks/AOTTrack/qaMatchEff.cxx:786-792 | first position of the value, or the length iff absent |
| QaMatchEff.PdgFillMeaning | DPG/Tasks/AOTTrack/qaMatchEff.cxx:786-792 | `pdg_fill` is -10 for an unlisted code, else the first index plus 1.5 |
| QaMatchEff.PdgFillOfListed | DPG/Tasks/AOTTrack/qaMatchEff.cxx:91 | each listed `pdgChoice` code lands in its own bin (the list has no repeats) |
| QaMatchEff.PdgFill | DPG/Tasks/AOTTrack/qaMatchEff.cxx:786-792 | the `pdg_fill` formula: first index in `pdgChoice` plus 1.5, or -10 |
| QaMatchEff.McCategories | DPG/Tasks/AOTTrack/qaMatchEff.cxx:669-834 | the MC-truth blocks a labelled track enters, in source order |
| QaMatchEff.Categories | DPG/Tasks/AOTTrack/qaMatchEff.cxx:535-834 | every block a counted track enters: all, pt > 0.5, sign, then the MC blocks |
| QaMatchEff.CategoryFillsAsWritten | DPG/Tasks/AOTTrack/qaMatchEff.cxx:769-776 | one block as written: the material-secondary pion block fills its own TPC triple and the decay-secondary TPC+ITS triple |
| QaMatchEff.TrackFillsAsWritten | DPG/Tasks/AOTTrack/qaMatchEff.cxx:535-834 | one counted track's block fills, as written |
| QaMatchEff.RoutedTrackFills | DPG/Tasks/AOTTrack/qaMatchEff.cxx:535-834 | a track's fills under the written or the corrected routing |
| QaMatchEff.HistStep | DPG/Tasks/AOTTrack/qaMatchEff.cxx:535-834 | the histogram update of one track, with the ITS hit fills of a matched track |
| QaMatchEff.PdgStep | DPG/Tasks/AOTTrack/qaMatchEff.cxx:784-806 | `pdg_fill`, and the PDG bin entering the denominator on TPC and the numerator on TPC and ITS |
| QaMatchEff.Step | DPG/Tasks/AOTTrack/qaMatchEff.cxx:446-838 | one loop iteration: the TRD skip, the unlabelled-MC skip with `countNoMC++`, the kine skip, then count, classify and fill |
| QaMatchEff.CategoryFillsCounts | DPG/Tasks/AOTTrack/qaMatchEff.cxx:535-546 | a category adds one tpc fill when TPC passes, one tpcits fill only inside it |
| QaMatchEff.FillsForCounts | DPG/Tasks/AOTTrack/qaMatchEff.cxx:535-834 | with the corrected routing, per category: tpc count = occurrences if TPC passes; tpcits count = occurrences if TPC and ITS pass |
| QaMatchEff.FillsForNested | DPG/Tasks/AOTTrack/qaMatchEff.cxx:586-597 | with the corrected routing, per category count(tpcits) <= count(tpc) |
| QaMatchEff.FillsForAsWrittenCounts | DPG/Tasks/AOTTrack/qaMatchEff.cxx:769-776 | as written, the decay-pion numerator also counts material pions |
| QaMatchEff.AsWrittenMaterialPionNumeratorEmpty | DPG/Tasks/AOTTrack/qaMatchEff.cxx:773-776 | as written, `pthist_tpcits_pi_secm` is never filled |
| QaMatchEff.MaterialPionMcCategories | DPG/Tasks/AOTTrack/qaMatchEff.cxx:669-781 | a non-primary pion from process 0 falls in Secd-material and pion-material categories |
| QaMatchEff.MaterialPionCategories | DPG/Tasks/AOTTrack/qaMatchEff.cxx:535-834 | the full category list of that track |
| QaMatchEff.MaterialPionSelected | DPG/Tasks/AOTTrack/qaMatchEff.cxx:448-476 | that track is counted and passes TPC and ITS under the defaults |
| QaMatchEff.AsWrittenDecayPionOverflow | DPG/Tasks/AOTTrack/qaMatchEff.cxx:773-776 | that track gives the decay-pion numerator a fill with no matching denominator |
| QaMatchEff.CorrectedMaterialPionFills | DPG/Tasks/AOTTrack/qaMatchEff.cxx:769-776 | routed to its own histogram, the material pion fills tpc and tpcits of pi_secm once each |
| QaMatchEff.StepSkips | DPG/Tasks/AOTTrack/qaMatchEff.cxx:448-476 | skipped tracks change nothing; unlabelled MC tracks only bump `countNoMC`; counted tracks bump `countData` |
| QaMatchEff.PdgStepKeepsPdgNested | DPG/Tasks/AOTTrack/qaMatchEff.cxx:796-805 | a PDG bin enters the numerator only with the same bin of the denominator: per-bin nesting is kept |
| QaMatchEff.StepKeepsNested | DPG/Tasks/AOTTrack/qaMatchEff.cxx:446-838 | one corrected step keeps numerator <= denominator for every category and every PDG bin |
| QaMatchEff.StepKeepsNestedAsWritten | DPG/Tasks/AOTTrack/qaMatchEff.cxx:446-838 | one step as written keeps the nesting of every category but the decay-secondary pions, and of every PDG bin |
| QaMatchEff.FoldKeepsNested | DPG/Tasks/AOTTrack/qaMatchEff.cxx:441-845 | the corrected loop keeps the nesting of every category and every PDG bin |
| QaMatchEff.FoldKeepsNestedAsWritten | DPG/Tasks/AOTTrack/qaMatchEff.cxx:441-845 | the loop as written keeps the nesting of every category but the decay-secondary pions, and of every PDG bin |
| QaMatchEff.StepHist | DPG/Tasks/AOTTrack/qaMatchEff.cxx:446-838 | a track changes the histograms only when counted, by exactly its fills |
| QaMatchEff.TrackRoutingsRelated | DPG/Tasks/AOTTrack/qaMatchEff.cxx:769-776 | per track, the written fills equal the corrected ones except that the material-pion numerator fill moves to the decay-pion numerator |
| QaMatchEff.FoldRoutingsCompare | DPG/Tasks/AOTTrack/qaMatchEff.cxx:441-845 | over the loop, the written histograms equal the corrected ones except that the material-pion numerator stays at its start and the decay-pion numerator receives the difference |
| QaMatchEff.FoldCounts | DPG/Tasks/AOTTrack/qaMatchEff.cxx:453-476 | under either routing `countData` and `countNoMC` grow by the number of counted and unlabelled tracks |
| QaMatchEff.CountsBounded | DPG/Tasks/AOTTrack/qaMatchEff.cxx:453-476 | counted plus unlabelled tracks are at most all tracks; no unlabelled tracks in data |
| QaMatchEff.QaMatchEffTask.constructor | DPG/Tasks/AOTTrack/qaMatchEff.cxx:428-435 | counters start at zero, histograms empty, configuration stored |
| QaMatchEff.QaMatchEffTask.Init | DPG/Tasks/AOTTrack/qaMatchEff.cxx:147-167 | with track selections on, the hitmap set is the decoded custom hitmap |
| QaMatchEff.QaMatchEffTask.ProcessTrack | DPG/Tasks/AOTTrack/qaMatchEff.cxx:446-838 | one track's body updates the state as `Step` with the written routing |
| QaMatchEff.QaMatchEffTask.CountAndClassify | DPG/Tasks/AOTTrack/qaMatchEff.cxx:473-532 | counting and the classification scratch fields (`siPDGCode`, `tpPDGCode`, thn entry) |
| QaMatchEff.QaMatchEffTask.FillCategories | DPG/Tasks/AOTTrack/qaMatchEff.cxx:535-834 | the per-category tpc and tpcits fills as written, plus the ITS hit fills |
| QaMatchEff.QaMatchEffTask.FillPdgBins | DPG/Tasks/AOTTrack/qaMatchEff.cxx:784-806 | `pdg_fill` and the PDG denominator and numerator bins |
| QaMatchEff.QaMatchEffTask.FillHistograms | DPG/Tasks/AOTTrack/qaMatchEff.cxx:441-845 | the track loop is the written fold of `Step`: it keeps the as-written nesting, relates its histograms to the corrected fold's, and yields the counter formulas |
| NucleiHist.CheckProcessSwitches | PWGLF/Tasks/NucleiHistTask.cxx:57-59 | fatal exactly when both process switches are on |
| NucleiHist.PassesRapidityMeaning | PWGLF/Tasks/NucleiHistTask.cxx:321-339 | the track survives iff all five hypothesis rapidities lie in `[yMin, yMax]` |
| NucleiHist.TriggersKeepSign | PWGLF/Tasks/NucleiHistTask.cxx:388-391 | a neutral track raises no flag; no track raises both the particle and antiparticle flag |
| NucleiHist.KeepFlags.Raise | PWGLF/Tasks/NucleiHistTask.cxx:390-391 | raising sets exactly the one flag and keeps the others |
| NucleiHist.KeepIndexInverse | PWGLF/Tasks/NucleiHistTask.cxx:653-662 | the ten flags are indexed one to one |
| NucleiHist.KeepEntriesOnePerRegistry | PWGLF/Tasks/NucleiHistTask.cxx:653-662 | exactly ten keep entries, one per species registry, each equal to its flag |
| NucleiHist.PassesQuality | PWGLF/Tasks/NucleiHistTask.cxx:295-304 | the ten quality requirements, including the closed crossed-rows ratio window |
| NucleiHist.DcaFills | PWGLF/Tasks/NucleiHistTask.cxx:306-314 | the DCA fills: particle histograms for positive tracks, antiparticle for negative, none for neutral |
| NucleiHist.PassesDCA | PWGLF/Tasks/NucleiHistTask.cxx:316-318 | `|dcaXY| <= maxDCA_XY` and `|dcaZ| <= maxDCA_Z` |
| NucleiHist.QaFills | PWGLF/Tasks/NucleiHistTask.cxx:348-352 | the five QA fills of a selected track |
| NucleiHist.NSigmaFills | PWGLF/Tasks/NucleiHistTask.cxx:354-384 | the n-sigma fills per species by sign, with twice `pt` for He3 and He4, and the TOF mass with TOF |
| NucleiHist.SpeciesBlock | PWGLF/Tasks/NucleiHistTask.cxx:388-438 | one species' skim fills for one sign |
| NucleiHist.TrackFills | PWGLF/Tasks/NucleiHistTask.cxx:295-648 | one track's fills through the cut chain: none, DCA only, or everything |
| NucleiHist.KeepEntries | PWGLF/Tasks/NucleiHistTask.cxx:653-662 | the ten `histKeepEventData` entries in source order |
| NucleiHist.QualityFailureIsSilent | PWGLF/Tasks/NucleiHistTask.cxx:295-304 | a quality failure fills nothing and raises no flag |
| NucleiHist.LaterCutFailureFillsDcaOnly | PWGLF/Tasks/NucleiHistTask.cxx:306-339 | a DCA or rapidity failure leaves only the DCA fills and raises no flag |
| NucleiHist.SpeciesBlockScaling | PWGLF/Tasks/NucleiHistTask.cxx:388-438 | a species block has 7 fills, 10 with TOF, each using the species' scaled momentum |
| NucleiHist.ScalingOfNuclei | PWGLF/Tasks/NucleiHistTask.cxx:553-559 | He3 and He4 use twice `pt` and twice `tpcInnerParam`; p, d, t use them as is |
| NucleiHist.SpeciesBlockRegistry | PWGLF/Tasks/NucleiHistTask.cxx:388-438 | every fill of a block goes to that species' registry |
| NucleiHist.SkimFillsSource | PWGLF/Tasks/NucleiHistTask.cxx:388-648 | every skim fill of a species comes from an open-window, sign-matched track |
| NucleiHist.EarlyFillsNotRegistryDca | PWGLF/Tasks/NucleiHistTask.cxx:306-384 | the fills before the skim blocks never hit a species `DcaVsPt` histogram |
| NucleiHist.KeepIffRegistryFill | PWGLF/Tasks/NucleiHistTask.cxx:388-648 | a track raises a species flag iff it fills that registry's `DcaVsPt` |
| NucleiHist.TrackFillsOfSelected | PWGLF/Tasks/NucleiHistTask.cxx:306-648 | a fully selected track fills DCA, QA, n-sigma, then the five skim blocks |
| NucleiHist.SkimFillsInWindow | PWGLF/Tasks/NucleiHistTask.cxx:388-438 | inside the window a positive track fills the particle block, a negative one the antiparticle block |
| NucleiHist.SkimSpecies | PWGLF/Tasks/NucleiHistTask.cxx:388-438 | one species' fills, raising exactly the flag that track triggers |
| NucleiHist.SkimAll | PWGLF/Tasks/NucleiHistTask.cxx:388-648 | all five species blocks and the flags they raise |
| NucleiHist.ProcessTrack | PWGLF/Tasks/NucleiHistTask.cxx:295-648 | one track's fills and the OR of its keep triggers into the flags |
| NucleiHist.FillHistograms | PWGLF/Tasks/NucleiHistTask.cxx:276-663 | vertex fill, then all track fills, then the ten keep entries; each flag holds iff some track triggers it |
| NucleiHist.AllTrackFillsStep | PWGLF/Tasks/NucleiHistTask.cxx:295-648 | the fill log extends by one track per iteration |
| NucleiHist.KeepStep | PWGLF/Tasks/NucleiHistTask.cxx:280-290 | flags starting false stay the OR of triggers over the tracks seen |
| EMCPhotonCut.WidthFunction | PWGEM/PhotonMeson/Core/CutsLibrary.cxx:74-79 | a set width as a function of pt: a constant, or `offset + pow(pt + shift, exponent)` |
| EMCPhotonCut.EOverPPasses | PWGEM/PhotonMeson/Core/EMCPhotonCut.h:93 | `e / p >= mMinEoverP` in floating point, with p = 0 giving ±inf or NaN |
| EMCPhotonCut.TrackMatchingPasses | PWGEM/PhotonMeson/Core/EMCPhotonCut.h:77-78 | `|dEta| > fEta(pt)` or `|dPhi| > fPhi(pt)` or the E/p cut |
| EMCPhotonCut.ExoticCut | PWGEM/PhotonMeson/Core/EMCPhotonCut.h:95-96 | as written: when enabled, the cluster must be exotic |
| EMCPhotonCut.ExoticCutCorrected | PWGEM/PhotonMeson/Core/EMCPhotonCut.h:95-96 | corrected: when enabled, the cluster must not be exotic |
| EMCPhotonCut.IsSelectedEMCal | PWGEM/PhotonMeson/Core/EMCPhotonCut.h:75-101 | energy strictly above `mMinE`, `nCells >= mMinNCell`, closed M02 and time windows, TM, and as written the exotic cut passing iff (enabled implies exotic); out-of-range id false |
| EMCPhotonCut.IsSelectedEMCalCorrected | PWGEM/PhotonMeson/Core/EMCPhotonCut.h:75-101 | the same criteria with the exotic cut passing iff not (enabled and exotic) |
| EMCPhotonCut.IsSelected | PWGEM/PhotonMeson/Core/EMCPhotonCut.h:49-70 | the short-circuit chain, as written, is true iff all six cuts pass |
| EMCPhotonCut.IsSelectedCorrected | PWGEM/PhotonMeson/Core/EMCPhotonCut.h:49-70 | the chain with the corrected exotic cut is true iff all six corrected cuts pass |
| EMCPhotonCut.SelectionsAgreeWithoutExoticCut | PWGEM/PhotonMeson/Core/EMCPhotonCut.h:95-96 | with the exotic cut off, the written and the corrected selection agree |
| EMCPhotonCut.TrackMatchingOutcome | PWGEM/PhotonMeson/Core/EMCPhotonCut.h:92-93 | with the stored widths: throws iff the eta width is empty, or the eta comparison fails and the phi width is empty; true as soon as the eta comparison passes; with both widths set, the TM verdict |
| EMCPhotonCut.IsSelectedWithStoredWidths | PWGEM/PhotonMeson/Core/EMCPhotonCut.h:49-70 | `IsSelected` on the object: throws iff the first four cuts pass and track matching throws; otherwise true iff the first four cuts pass, track matching yields true and the exotic cut passes; with both widths set, the verdict of the chain |
| EMCPhotonCut.DefaultCutThrowsAtTrackMatching | PWGEM/PhotonMeson/Core/EMCPhotonCut.h:127-128 | a default object throws for every cluster passing the first four cuts |
| EMCPhotonCut.FirstFailingCut | PWGEM/PhotonMeson/Core/EMCPhotonCut.h:49-70 | the chain stops at the first failing cut in the order energy, NCell, M02, timing, TM, exotic |
| EMCPhotonCut.SelectedIffNoFailingCut | PWGEM/PhotonMeson/Core/EMCPhotonCut.h:49-70 | selected iff no cut fails |
| EMCPhotonCut.EnergyThresholdStrict | PWGEM/PhotonMeson/Core/EMCPhotonCut.h:80-81 | a cluster at or below `mMinE` is rejected, by the first cut |
| EMCPhotonCut.SelectedNotExotic | PWGEM/PhotonMeson/Core/EMCPhotonCut.h:95-96 | with the exotic cut on, a selected cluster is not exotic |
| EMCPhotonCut.AsWrittenSelectsOnlyExotic | PWGEM/PhotonMeson/Core/EMCPhotonCut.h:95-96 | as written, with the exotic cut on, every selected cluster is exotic |
| EMCPhotonCut.EMCPhotonCut.constructor | PWGEM/PhotonMeson/Core/EMCPhotonCut.h:118-128 | the field defaults: 0.7, 1, [0.1, 0.7], [-20, 25], 1.75, exotic cut on |
| EMCPhotonCut.EMCPhotonCut.SetMinE | PWGEM/PhotonMeson/Core/EMCPhotonCut.h:104 | writes `mMinE` only |
| EMCPhotonCut.EMCPhotonCut.SetMinNCell | PWGEM/PhotonMeson/Core/EMCPhotonCut.h:105 | writes `mMinNCell` only |
| EMCPhotonCut.EMCPhotonCut.SetM02Range | PWGEM/PhotonMeson/Core/EMCPhotonCut.h:106 | writes the M02 window only |
| EMCPhotonCut.EMCPhotonCut.SetTimeRange | PWGEM/PhotonMeson/Core/EMCPhotonCut.h:107 | writes the time window only |
| EMCPhotonCut.EMCPhotonCut.SetTrackMatchingEta | PWGEM/PhotonMeson/Core/EMCPhotonCut.h:108 | writes the eta width only |
| EMCPhotonCut.EMCPhotonCut.SetTrackMatchingPhi | PWGEM/PhotonMeson/Core/EMCPhotonCut.h:109 | writes the phi width only |
| EMCPhotonCut.EMCPhotonCut.SetMinEoverP | PWGEM/PhotonMeson/Core/EMCPhotonCut.h:110 | writes `mMinEoverP` only (its default argument 0.7 differs from the field default 1.75) |
| EMCPhotonCut.EMCPhotonCut.SetUseExoticCut | PWGEM/PhotonMeson/Core/EMCPhotonCut.h:111 | writes the exotic switch only |
| CutsLibrary.V0PhotonCut.constructor | PWGEM/PhotonMeson/Core/CutsLibrary.cxx:18 | a fresh PCM cut has nothing set |
| CutsLibrary.V0PhotonCut.SetPtRange | PWGEM/PhotonMeson/Core/CutsLibrary.cxx:22 | sets the pt range only |
| CutsLibrary.V0PhotonCut.SetEtaRange | PWGEM/PhotonMeson/Core/CutsLibrary.cxx:23 | sets the eta range only |
| CutsLibrary.V0PhotonCut.SetMinNCrossedRowsTPC | PWGEM/PhotonMeson/Core/CutsLibrary.cxx:24 | sets the crossed-rows minimum only |
| CutsLibrary.V0PhotonCut.SetMinNCrossedRowsOverFindableClustersTPC | PWGEM/PhotonMeson/Core/CutsLibrary.cxx:25 | sets the crossed-rows/findable minimum only |
| CutsLibrary.V0PhotonCut.SetMaxChi2PerClusterTPC | PWGEM/PhotonMeson/Core/CutsLibrary.cxx:26 | sets the chi2 maximum only |
| CutsLibrary.V0PhotonCut.SetTPCNsigmaElRange | PWGEM/PhotonMeson/Core/CutsLibrary.cxx:27 | sets the electron n-sigma range only |
| CutsLibrary.V0PhotonCut.SetRxyKFRange | PWGEM/PhotonMeson/Core/CutsLibrary.cxx:28 | sets the RxyKF range only |
| CutsLibrary.V0PhotonCut.SetMaxMeePsiPairDep | PWGEM/PhotonMeson/Core/CutsLibrary.cxx:29-30 | sets the psi-pair dependent Mee bound only |
| CutsLibrary.GetPCMCut | PWGEM/PhotonMeson/Core/CutsLibrary.cxx:16-57 | a cut exactly for "analysis", "qc", "nocut", null otherwise, with each name's settings |
| CutsLibrary.AnalysisAndQcDifferOnlyInRxy | PWGEM/PhotonMeson/Core/CutsLibrary.cxx:22-42 | "analysis" and "qc" agree except RxyKF (1,90) versus the wider (0,180) |
| CutsLibrary.PCMNoCutOnlyLoosens | PWGEM/PhotonMeson/Core/CutsLibrary.cxx:45-52 | PCM "nocut" has 20 crossed rows and no n-sigma, Rxy or Mee bounds, otherwise as "analysis" |
| CutsLibrary.MeeBoundSteps | PWGEM/PhotonMeson/Core/CutsLibrary.cxx:30 | the Mee bound is 0.06 iff psipair < 0.4, 0.015 otherwise, never loosening with psipair |
| CutsLibrary.GetEMCCut | PWGEM/PhotonMeson/Core/CutsLibrary.cxx:63-104 | a cut exactly for "standard" and "nocut", null otherwise, with each name's settings |
| CutsLibrary.StandardMatchesClassDefaults | PWGEM/PhotonMeson/Core/CutsLibrary.cxx:69-81 | "standard" sets the same scalars as the class defaults and sets both widths |
| CutsLibrary.StandardNeverThrows | PWGEM/PhotonMeson/Core/CutsLibrary.cxx:74-79 | "standard" sets both widths, so its selection always yields a verdict |
| CutsLibrary.AsWrittenRejectsOrdinaryCluster | PWGEM/PhotonMeson/Core/EMCPhotonCut.h:95-96 | for every `pow`, the "standard" object rejects an ordinary non-exotic 2 GeV cluster that the corrected cut keeps |
| CutsLibrary.NoCutTrackMatchingAndExoticPass | PWGEM/PhotonMeson/Core/CutsLibrary.cxx:90-97 | with widths -1 the TM cut passes for every cluster and track; the exotic cut passes |
| CutsLibrary.NoCutSelection | PWGEM/PhotonMeson/Core/CutsLibrary.cxx:84-99 | "nocut" selects exactly positive-energy clusters with a cell inside the wide M02 and time windows |
| CutsLibrary.NoCutRejectsZeroEnergy | PWGEM/PhotonMeson/Core/CutsLibrary.cxx:85 | a zero-energy cluster is still rejected by "nocut" |

## Left out

- ROOT file and tree I/O (`TFile`, keys, branches, `GetEntry`) and console output in `checkBCRange.C`. Trees are input sequences, and a missing tree is `None`.
- `setFromLong` is not part of this model: a BC id is a `nat`. `IRFrame::isOutside` is not part of this model either; `BCRange.IsOutside` assumes its meaning is `bc < start || bc > end`, so frames are inclusive.
- BCRange.CountNotFound: `int notFound` and the `uint32_t` loop index are unbounded naturals; their overflow is not modelled.
- Histogram registry, axis binning and the `HIST` fill mechanics. A fill is a counter (QA) or a log entry (nuclei). The per-category pt, eta and phi histograms of the QA task count as one counter. A QA histogram key also leaves out the `data/` or `MC/` prefix of its name; this loses nothing, because `isMC` is fixed for a whole track loop.
- QaMatchEff.Step: the kinematic values of the THnSparse fills and the eta/phi differences with their phi wrapping (qaMatchEff.cxx:485-492) are floating point and not modelled. Only the classification entry of each THnSparse fill is kept.
- `computePtInParamTPC` (a `sqrt`), the `TLorentzVector` rapidities, the TOF mass squared and the `pow` track-matching widths are floating point. They are inputs: reals, or functions passed in.
- `TrackSelection::IsSelected` and its criteria: each is an input boolean verdict on the track.
- The `fillCentHistorgrams` variant, the DCA and centrality histograms, MC-truth-only processing and the other `process*` entry points of the QA task are not modelled.
- The QA task's fatal configuration checks (qaMatchEff.cxx:130-145) are framework wiring and not modelled.
- Logging, `doDebug` output, `PROCESS_SWITCH` wiring and framework `Filter` expressions are left out.
- `PWGJE/DataModel/Jet.h` (table-declaration macros) is not part of this model.
- `V0PhotonCut`'s own selection and its setter bodies are not part of this model. Each setter is modelled as an assignment of the value it is given.
- The `EMCPhotonCut` setter bodies are not shown. They are modelled as assignments to the field the setter names.
- `EMCPhotonCut::IsSelected` calls a two-argument `IsSelectedEMCal`, but only the three-argument form exists. The model passes the matched track to every cut.
- EMCPhotonCut.WidthFunction requires a set width. `EMCPhotonCut.IsSelected` takes the widths as functions and so has no empty-width case. The throw from an empty `std::function` is modelled by `TrackMatchingOutcome` and `IsSelectedWithStoredWidths`, as `None`.
- Thresholds written as `float` are modelled as exact reals. Float rounding and `float` vs `double` comparison are not modelled.
- QaMatchEff.FoldCounts: `countData` and `countNoMC` are unbounded; C `int` overflow of the counters is not modelled.
- QaMatchEff.PdgSign requires a non-zero PDG code: `si/|si|`, the sign of the THnSparse entry, divides by zero there.
- QaMatchEff.Step, QaMatchEff.Fold, QaMatchEff.QaMatchEffTask.ProcessTrack and QaMatchEff.QaMatchEffTask.FillHistograms inherit that requirement through `PdgDefined`: every counted MC track must carry a non-zero PDG code.
- EMCPhotonCut.EOverPPasses: for `p == 0` the floating-point quotient is modelled as +inf when `e > 0` (passes), and as NaN or -inf otherwise (fails).

## Findings

| source | as written | input that shows it | evidently intended | confidence | as-written member | corrected member |
|---|---|---|---|---|---|---|
| DPG/Tasks/AOTTrack/qaMatchEff.cxx:773-776 | in the material-secondary pion branch, the TPC+ITS fills go to the `pi_secd` histograms | defaults, MC, a non-primary pion (`pdg` 211) from process 0 passing TPC and ITS: `pthist_tpcits_pi_secd` gains an entry while `pthist_tpc_pi_secd` does not, and `pthist_tpcits_pi_secm` stays empty | fill `pthist_tpcits_pi_secm`, nested inside the `pi_secm` TPC fill like every other category | high (not executed) | QaMatchEff.AsWrittenDecayPionOverflow | QaMatchEff.FoldKeepsNested |
| PWGEM/PhotonMeson/Core/EMCPhotonCut.h:95-96 | with the exotic cut enabled, the cut returns `isExotic()`, so only exotic clusters pass | the "standard" cut of `CutsLibrary.cxx`, with any `pow`, on a non-exotic 2 GeV cluster with 3 cells, M02 0.3, time 0, and a track with p = 1 (E/p = 2 passes track matching): rejected at the exotic cut | reject exotic clusters: pass iff not exotic | medium (not executed) | CutsLibrary.AsWrittenRejectsOrdinaryCluster | EMCPhotonCut.SelectedNotExotic |
