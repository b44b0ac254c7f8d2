# HNL Ze/Zmu event selection and bookkeeping, in Dafny

This project models the selection and bookkeeping core of a two-channel
heavy-neutral-lepton (HNL) analysis. Both channels look for a Z boson decaying
to a same-flavour lepton pair, plus a third lepton. In the "Ze" channel the
third lepton is an electron; in "Zmu" it is a muon. The model covers four parts:

- **Configuration.** The processor's configuration checks: the stitched list and
  the tag must be present and non-empty. The DeepTau version is chosen from the
  run period.
- **Initial processing of a chunk** (`init_process`):
  - The dataset key and mode are resolved from the raw dataset name. The mode
    is Data, MCbackground or signal.
  - Data events get weight 1 or 0 according to the run number.
  - The golden-run filter, the reweighting and the MET filters are applied.
  - An event count and a weight sum are added to the per-stage, per-dataset
    counters at three checkpoints: `init`, `reweight` and `MET_Filter`.
  - The `init` checkpoint is keyed by the raw dataset name; the other two are
    keyed by the resolved name.
- **Baseline lepton selection** (`Lepton_selection`):
  - Order-preserving cuts build the selected tau, muon and electron collections.
  - The tau energy-scale correction is applied: the nominal factors, or a named
    systematic variation. A variation also shifts the missing transverse
    momentum (MET) by the change in summed tau pt.
  - The tau pt cut is applied to the corrected taus.
- **The channels** (`HNLAnalysis_Ze`, `HNLAnalysis_Zmu`):
  - The counter template is set up, and each chunk is processed on a deep copy
    of it.
  - A count-based pre-filter keeps three-lepton events.
  - The output record is assembled: the event-level columns, the
    `IsLeptonPairMuons` flag and, for signal, the HNL mass parsed from the
    dataset name.
  - The field-exclusion list is the symmetric difference of the Electron and
    Muon field names.
  - The output file takes the first free `<ds>_anatuple_<i>.root` name.

Modules:

- `Wrappers`: `Option`, `Result` and the error kinds.
- `Strings`: the Python string operations the code relies on: `in`, `[0:-1]`,
  `split('_')`, `rfind`, `int()` and `str()`.
- `Seqs`: the order-preserving filter that boolean-mask indexing performs.
- `Events`: the event record.
- `Accumulators`: the counters, with the class `Accumulator`.
- `Selection`: the cuts, variation names, correction factors and MET shift.
- `Processing`: the configuration, the resolution of dataset and mode, the
  checkpoints, and the class `Processor`.
- `Anatuple`: the output record and the free-file search.
- `AnalysisZe` and `AnalysisZmu`: the two channel classes.

The code as written has two defects that the model does not reproduce:

- The channel classes call `HNLProcessor.__init__` with six arguments
  (`HNLAnalysis_Ze.py:14`), but it takes four.
- `self.dataHLT` is read at `HNLProcessor.py:33` but never assigned.

In the model, the data marker `dataHLT` is a field of the configuration.

Two behaviours of the code are easy to misread, and the model follows the
code in both. First, fields present on only one of the Electron and Muon
collections are not written for the pair leptons: the code excludes exactly
those fields from the Lepton1 and Lepton2 blocks (`HNLAnalysis_Ze.py:100-104`),
and so does `Anatuple.ExcludeList`. Second, the reweight and MET_Filter counts
of a dataset cannot be compared with its init count when the dataset is data.
For data, the init count is filed under the raw name and the later counts
under the resolved name (`HNLProcessor.py:37-38` against `HNLProcessor.py:66-67`).
The ordering "MET_Filter <= reweight <= init" therefore holds only for non-data
datasets (`Processing.StageCountsShrink`).

## Model

| member | source | states |
|---|---|---|
| Processing.MakeConfig | CoffeaAnalysis/HNLAnalysis/HNLProcessor.py:8-25 | construction fails with the stitched-list error exactly when the list is null or empty; otherwise with the tag error exactly when the tag is null or empty; otherwise it succeeds, keeps every argument and gives a valid configuration; the DeepTau version is 2018v2p5 exactly when the period is "2018" |
| Processing.ValidConfigIsMade | CoffeaAnalysis/HNLAnalysis/HNLProcessor.py:8-25 | every valid configuration (non-empty stitched list and tag, DeepTau version matching the period) is exactly what the constructor checks build from its parts |
| Processing.Processor.constructor | CoffeaAnalysis/HNLAnalysis/HNLProcessor.py:8-25 | only a configuration that passed the constructor checks (non-empty stitched list and tag, DeepTau version matching the period) is accepted; the processor holds it and no chunk has been initialised yet |
| Processing.Resolve | CoffeaAnalysis/HNLAnalysis/HNLProcessor.py:41-55 | the resolved dataset is the raw name without its last character exactly when the data marker occurs in the raw name, and the raw name otherwise; mode is signal iff the resolved name contains "HNL", else Data iff the marker matched, else MCbackground |
| Processing.DataWeights | CoffeaAnalysis/HNLAnalysis/HNLProcessor.py:33-34 | for data every event keeps all its fields except the weight, which is 1 exactly when the run number is positive and 0 exactly when it is not |
| Processing.DataWeightSum | CoffeaAnalysis/HNLAnalysis/HNLProcessor.py:33-37 | the sum of the data weights, which the init checkpoint records for data, is the number of events with a positive run number |
| Processing.EraVariantsMerge | CoffeaAnalysis/HNLAnalysis/HNLProcessor.py:43-48 | two data datasets differing only in their last (era) character resolve to the same dataset key and mode |
| Processing.TraceInit | CoffeaAnalysis/HNLAnalysis/HNLProcessor.py:30-74 | the init checkpoint sees every event; for data the counted events are exactly the data-weighted ones (Processing.DataWeights, so Processing.DataWeightSum gives their recorded weight sum), for other datasets events are untouched; data-marked datasets keep only the golden-run events; in Data mode those are counted at reweight unchanged, in every other mode each one is counted with its new weight from the reweighting; the MET_Filter checkpoint counts exactly the order-preserving filter of the reweighted events by the MET filters; the event sets only shrink; processing aborts exactly when the mode is not Data and no cross-section table is configured |
| Processing.CountedInit | CoffeaAnalysis/HNLAnalysis/HNLProcessor.py:36-74 | the counters after the initial processing still hold exactly the six counter names |
| Processing.CheckpointChain | CoffeaAnalysis/HNLAnalysis/HNLProcessor.py:36-74 | recording init at one key and reweight and MET_Filter at another adds each stage's count and weight sum at its own key and changes no counter at any third key |
| Processing.CheckpointIncrements | CoffeaAnalysis/HNLAnalysis/HNLProcessor.py:30-74 | whatever the counters held, `n_ev_init[rawDs]` grows by the chunk size and `sumw_init[rawDs]` by its (data-adjusted) weight sum; unless processing aborts, the reweight and MET_Filter counters grow at the resolved name by the count and weight sum of their stage; no counter changes at any other key |
| Processing.CheckpointsAtOneKey | CoffeaAnalysis/HNLAnalysis/HNLProcessor.py:36-74 | from empty counters, three checkpoints at one key leave each stage's own count there and zero at every other key |
| Processing.StageCountsShrink | CoffeaAnalysis/HNLAnalysis/HNLProcessor.py:36-74 | for a non-data dataset with a cross-section table, starting from empty counters: MET_Filter count <= reweight count <= init count == chunk size, and every other key stays zero |
| Processing.Processor.InitProcess | CoffeaAnalysis/HNLAnalysis/HNLProcessor.py:28-99 | sets the processor's dataset and mode to the resolved ones; fails with the missing-cross-section error exactly when the trace aborts, leaving only the data weights applied; otherwise leaves the MET-filtered events in the batch; the accumulator ends as the counted one |
| Processing.Processor.RecordLaterStages | CoffeaAnalysis/HNLAnalysis/HNLProcessor.py:64-74 | returns exactly the events the MET filters accept, which the caller stores in the batch; the reweight checkpoint counts the events before the filter and the MET_Filter checkpoint the events after it, both at the resolved dataset name |
| Processing.Processor.LeptonSelection | CoffeaAnalysis/HNLAnalysis/HNLProcessor.py:101-156 | an unreadable variation name fails after the selected collections are built and before any correction; otherwise every event becomes its full selection under the correction plan |
| Selection.SelectTaus | CoffeaAnalysis/HNLAnalysis/HNLProcessor.py:104-107 | every kept tau passes the eta, dz, DeepTau ID (version-dependent) and decay-mode cuts, and every tau passing them is kept; their order is the input order (Selection.SelectionKeepsOrder) |
| Selection.SelectMuons | CoffeaAnalysis/HNLAnalysis/HNLProcessor.py:111 | every kept muon passes all six muon cuts and every muon passing them is kept |
| Selection.SelectElectrons | CoffeaAnalysis/HNLAnalysis/HNLProcessor.py:115 | every kept electron passes all six electron cuts and every electron passing them is kept |
| Selection.SelectionKeepsOrder | CoffeaAnalysis/HNLAnalysis/HNLProcessor.py:104-115 | the k-th selected tau (muon, electron) is the input object at the k-th passing position, the positions increase, and a position is kept iff its object passes |
| Selection.SelectionIdempotent | CoffeaAnalysis/HNLAnalysis/HNLProcessor.py:111-115 | re-applying the muon and electron cuts to the selected collections changes nothing |
| Selection.BucketOf | CoffeaAnalysis/HNLAnalysis/HNLProcessor.py:127-140 | a bucket is recognised exactly for "DM0", "DM1" and "3prong", and names back to the same text |
| Selection.DirectionOf | CoffeaAnalysis/HNLAnalysis/HNLProcessor.py:144-147 | a direction is recognised exactly for "up" and "down", and names back to the same text |
| Selection.ParseVariation | CoffeaAnalysis/HNLAnalysis/HNLProcessor.py:124-147 | an index error exactly when the name has fewer than two '_' parts, or fewer than three for the tau and electron categories; success exactly when the category is recognised, the bucket too where one is read, and the last part is a direction; the parsed variation names the parts it was read from; every other failure is an unbound mask or factor |
| Selection.ParseVariationName | CoffeaAnalysis/HNLAnalysis/HNLProcessor.py:124-147 | every variation survives the round trip through its name, for any prefix without '_' |
| Selection.MetShiftBalance | CoffeaAnalysis/HNLAnalysis/HNLProcessor.py:144-152 | the MET shift of a variation equals the varied minus the nominal summed tau pt |
| Selection.UnmaskedIsNominal | CoffeaAnalysis/HNLAnalysis/HNLProcessor.py:144-151 | when the mask selects no tau, the varied factors scale every tau like the nominal ones and the MET shift is zero |
| Selection.MasksDisjoint | CoffeaAnalysis/HNLAnalysis/HNLProcessor.py:125-142 | the masks of two different variation targets (category and decay-mode bucket) never select the same tau |
| Selection.Corrected | CoffeaAnalysis/HNLAnalysis/HNLProcessor.py:118-152 | data is not corrected; otherwise each selected tau's pt and mass are multiplied by its nominal energy-scale factor, or, with a variation, by the up/down factor where the variation's mask selects the tau and the nominal one elsewhere; only with a variation the MET pt is lowered by the resulting shift in summed tau pt; the number of selected taus and every other field stay as they were |
| Selection.SelectEvent | CoffeaAnalysis/HNLAnalysis/HNLProcessor.py:104-154 | every selected tau passes every baseline cut and has corrected pt > 20; for data the selected taus are the baseline taus over 20 unrescaled; otherwise they are the baseline taus rescaled by the nominal factor, or by the up/down factor for the taus in the variation's mask, and then cut at 20; muons and electrons are their exact selections; MET is unchanged for data and for the nominal path, and lowered by the variation's shift (over the taus before the pt cut) otherwise; nothing else in the event changes |
| Selection.SelectedTausStable | CoffeaAnalysis/HNLAnalysis/HNLProcessor.py:104-154 | re-applying every tau cut to the selected taus changes nothing |
| Selection.UnmaskedVariationIsNominal | CoffeaAnalysis/HNLAnalysis/HNLProcessor.py:118-152 | a variation that applies to none of the event's selected taus gives the same event as the nominal path, MET included |
| Selection.CorrectionPlan | CoffeaAnalysis/HNLAnalysis/HNLProcessor.py:118-147 | data is never corrected and no name is read; otherwise a name yields a variation exactly when it parses, and that variation is the parsed one; an unreadable name yields exactly the parse error |
| Accumulators.SixCounters | CoffeaAnalysis/HNLAnalysis/channels/HNLAnalysis_Ze.py:15-32 | the counters are exactly `n_ev_`/`sumw_` for init, reweight and MET_Filter |
| Accumulators.StageCounters | CoffeaAnalysis/HNLAnalysis/channels/HNLAnalysis_Ze.py:17-19 | both counters of every stage are among the counter names |
| Accumulators.OtherStageNames | CoffeaAnalysis/HNLAnalysis/channels/HNLAnalysis_Ze.py:17-19 | the counters of two different stages have four different names |
| Accumulators.Bumped | CoffeaAnalysis/HNLAnalysis/HNLProcessor.py:37-38 | `+=` on a zero-defaulting counter: the target cell grows by the amount and every other cell of every counter is unchanged |
| Accumulators.Recorded | CoffeaAnalysis/HNLAnalysis/HNLProcessor.py:37-38 | recording a checkpoint keeps the set of counter names |
| Accumulators.RecordedOnlyAtKey | CoffeaAnalysis/HNLAnalysis/HNLProcessor.py:66-67 | a checkpoint adds exactly the count and the weight sum to its stage's two counters at its key, and changes no other counter and no other key |
| Accumulators.RecordedAt | CoffeaAnalysis/HNLAnalysis/HNLProcessor.py:37-38 | recording a checkpoint adds the event count to `n_ev_<stage>` and the weight sum to `sumw_<stage>` at the recorded dataset key |
| Accumulators.RecordedUnchanged | CoffeaAnalysis/HNLAnalysis/HNLProcessor.py:66-67 | every counter of another stage, and every counter at another dataset key, reads the same after a checkpoint |
| Accumulators.Accumulator.constructor | CoffeaAnalysis/HNLAnalysis/channels/HNLAnalysis_Ze.py:15-20 | the template holds the six counters, each empty (every key reads zero) |
| Accumulators.Accumulator.Copy | CoffeaAnalysis/HNLAnalysis/channels/HNLAnalysis_Ze.py:37 | the deep copy holds the same counters as the original |
| Accumulators.Accumulator.Record | CoffeaAnalysis/HNLAnalysis/HNLProcessor.py:66-67 | the counters become the recorded ones and keep exactly the six names |
| Anatuple.AnatupleNameInjective | CoffeaAnalysis/HNLAnalysis/channels/HNLAnalysis_Ze.py:80-85 | different indices give different file names |
| Anatuple.NamesBelowCount | CoffeaAnalysis/HNLAnalysis/channels/HNLAnalysis_Ze.py:82-85 | the names of indices 0..n-1 are n distinct names, which is why the search terminates |
| Anatuple.ChooseSaveFile | CoffeaAnalysis/HNLAnalysis/channels/HNLAnalysis_Ze.py:80-85 | the chosen name is `<dir><ds>_anatuple_<i>.root`, is not among the existing files, and every smaller index names an existing file |
| Anatuple.ExcludeList | CoffeaAnalysis/HNLAnalysis/channels/HNLAnalysis_Ze.py:100 | every excluded field belongs to exactly one of the Electron and Muon field lists, and every field in exactly one of them is excluded |
| Anatuple.ExcludeListSymmetric | CoffeaAnalysis/HNLAnalysis/channels/HNLAnalysis_Ze.py:100 | swapping the two field lists excludes the same fields |
| Anatuple.MassSuffix | CoffeaAnalysis/HNLAnalysis/channels/HNLAnalysis_Ze.py:98 | the suffix holds no '-', ends the dataset name, and is the whole name or preceded by '-' |
| Anatuple.ParseHnlMass | CoffeaAnalysis/HNLAnalysis/channels/HNLAnalysis_Ze.py:97-98 | the mass is the integer the suffix spells, and parsing fails with that suffix exactly when it is not an integer |
| Anatuple.HnlMassOfName | CoffeaAnalysis/HNLAnalysis/channels/HNLAnalysis_Ze.py:98 | a dataset named `<prefix>-<n>` has HNL mass n, whatever the prefix |
| Anatuple.BaseColumns | CoffeaAnalysis/HNLAnalysis/channels/HNLAnalysis_Ze.py:88-95 | the seven event-level columns, each as long as the number of surviving events; `event`, `genWeight`, `luminosityBlock`, `run`, `MET_pt` and `MET_phi` hold each event's own value in order; `IsLeptonPairMuons[k]` holds iff the first pair lepton has \|pdgId\| 13 |
| Anatuple.AssembleRecord | CoffeaAnalysis/HNLAnalysis/channels/HNLAnalysis_Ze.py:88-106 | fails exactly for a signal dataset without an integer mass suffix; otherwise the record has the base columns, an HNL mass column (the parsed mass for every event) exactly in signal mode, every column as long as the event list, and the Lepton1 and Lepton2 blocks with the exclusion list then the third-lepton block excluding only `genPartIdx` |
| AnalysisZe.PreFilterZe | CoffeaAnalysis/HNLAnalysis/channels/HNLAnalysis_Ze.py:58 | an event is kept iff (>= 2 selected muons and >= 1 selected electron) or >= 3 selected electrons; the k-th kept event is the input event at the k-th passing position and those positions increase, so kept events keep their order; each has an electron and three selected leptons |
| AnalysisZe.AnalysedZeAreCandidates | CoffeaAnalysis/HNLAnalysis/channels/HNLAnalysis_Ze.py:53-71 | whatever pair and third-electron choices are made, as long as they only return entries for events they were handed, every analysed event is an input event that passes the Ze pre-selection |
| AnalysisZe.SignalMassScenario | CoffeaAnalysis/HNLAnalysis/channels/HNLAnalysis_Ze.py:97-98 | dataset "HNL-20" is processed in signal mode with HNL mass 20 |
| AnalysisZe.BackgroundScenario | CoffeaAnalysis/HNLAnalysis/HNLProcessor.py:41-55 | dataset "DY-50" is processed as MC background under its own name, so no HNL mass column is written |
| AnalysisZe.HNLAnalysisZe.constructor | CoffeaAnalysis/HNLAnalysis/channels/HNLAnalysis_Ze.py:13-20 | only a configuration that passed the constructor checks is accepted; a new processor with that configuration and a template with the six counters, all empty |
| AnalysisZe.HNLAnalysisZe.SaveAnatupleZe | CoffeaAnalysis/HNLAnalysis/channels/HNLAnalysis_Ze.py:73-108 | the file is the first free `_anatuple_<i>.root` under `<root><period>/<tag>/Ze/<ds>/`; the record is the channel's anatuple with the third lepton written as "Electron"; it fails exactly for a signal dataset without an integer mass suffix |
| AnalysisZe.HNLAnalysisZe.SelectAndSaveZe | CoffeaAnalysis/HNLAnalysis/channels/HNLAnalysis_Ze.py:41-47 | after the initial processing, the batch holds the nominal selection of its events; the record is the Ze anatuple of that selection in the first free `_anatuple_<i>.root` (every smaller index is taken); saving fails exactly for a signal dataset without an integer mass suffix, with that suffix as the error |
| AnalysisZe.HNLAnalysisZe.Process | CoffeaAnalysis/HNLAnalysis/channels/HNLAnalysis_Ze.py:35-51 | the returned accumulator is a fresh copy of the template that holds the counted checkpoints, and the stored template is unchanged; a missing cross-section table fails with only the data weights applied to the batch; otherwise the batch holds the nominal selection and the record is built from the Ze analysis of it in the first free file; saving fails exactly for a signal dataset without an integer mass suffix, with that suffix as the error |
| AnalysisZmu.PreFilterZmu | CoffeaAnalysis/HNLAnalysis/channels/HNLAnalysis_Zmu.py:58 | an event is kept iff (>= 2 selected electrons and >= 1 selected muon) or >= 3 selected muons; the k-th kept event is the input event at the k-th passing position and those positions increase, so kept events keep their order; each has a muon and three selected leptons |
| AnalysisZmu.AnalysedZmuAreCandidates | CoffeaAnalysis/HNLAnalysis/channels/HNLAnalysis_Zmu.py:53-71 | whatever pair and third-muon choices are made, as long as they only return entries for events they were handed, every analysed event is an input event that passes the Zmu pre-selection |
| AnalysisZmu.ChannelsCoverThreeLeptons | CoffeaAnalysis/HNLAnalysis/channels/HNLAnalysis_Zmu.py:58 | together the Ze and Zmu pre-filters keep exactly the events with at least three selected leptons |
| AnalysisZmu.ChannelOverlap | CoffeaAnalysis/HNLAnalysis/channels/HNLAnalysis_Zmu.py:58 | an event passes both pre-filters iff it has two selected leptons of each flavour, or three of one flavour and one of the other |
| AnalysisZmu.TwoElectronsOneMuon | CoffeaAnalysis/HNLAnalysis/channels/HNLAnalysis_Zmu.py:58 | an event with two selected electrons and one selected muon is dropped by the Ze pre-filter and kept by the Zmu one |
| AnalysisZmu.HNLAnalysisZmu.constructor | CoffeaAnalysis/HNLAnalysis/channels/HNLAnalysis_Zmu.py:13-20 | only a configuration that passed the constructor checks is accepted; a new processor with that configuration and a template with the six counters, all empty |
| AnalysisZmu.HNLAnalysisZmu.SaveAnatupleZmu | CoffeaAnalysis/HNLAnalysis/channels/HNLAnalysis_Zmu.py:73-108 | the file is the first free `_anatuple_<i>.root` under `<root><period>/<tag>/Zmu/<ds>/`; the record is the channel's anatuple with the third lepton written as "Muon"; it fails exactly for a signal dataset without an integer mass suffix |
| AnalysisZmu.HNLAnalysisZmu.SelectAndSaveZmu | CoffeaAnalysis/HNLAnalysis/channels/HNLAnalysis_Zmu.py:41-47 | after the initial processing, the batch holds the nominal selection of its events; the record is the Zmu anatuple of that selection in the first free `_anatuple_<i>.root` (every smaller index is taken); saving fails exactly for a signal dataset without an integer mass suffix, with that suffix as the error |
| AnalysisZmu.HNLAnalysisZmu.Process | CoffeaAnalysis/HNLAnalysis/channels/HNLAnalysis_Zmu.py:35-51 | the returned accumulator is a fresh copy of the template that holds the counted checkpoints, and the stored template is unchanged; a missing cross-section table fails with only the data weights applied to the batch; otherwise the batch holds the nominal selection and the record is built from the Zmu analysis of it (third lepton requested as "muon") in the first free file; saving fails exactly for a signal dataset without an integer mass suffix, with that suffix as the error |
| Strings.ContainsIffOccurs | CoffeaAnalysis/HNLAnalysis/HNLProcessor.py:33 | Python's substring test holds iff the marker occurs at some position |
| Strings.ContainsAppend | CoffeaAnalysis/HNLAnalysis/HNLProcessor.py:43-48 | a marker found in a name is still found after characters are appended |
| Strings.DropLast | CoffeaAnalysis/HNLAnalysis/HNLProcessor.py:48 | `ds[0:-1]`: the name without its last character, and the empty name stays empty |
| Strings.Split | CoffeaAnalysis/HNLAnalysis/HNLProcessor.py:124 | `split('_')` yields at least one part and no part contains the separator |
| Strings.JoinSplit | CoffeaAnalysis/HNLAnalysis/HNLProcessor.py:124 | joining the parts of a split gives back the name |
| Strings.SplitJoin | CoffeaAnalysis/HNLAnalysis/HNLProcessor.py:124 | splitting the join of separator-free parts gives back the parts |
| Strings.LastIndexOf | CoffeaAnalysis/HNLAnalysis/channels/HNLAnalysis_Ze.py:98 | `rfind`: -1 or a position holding the character, with no occurrence after it |
| Strings.NatToString | CoffeaAnalysis/HNLAnalysis/channels/HNLAnalysis_Ze.py:85 | `str(i)`: a non-empty string of digits without a leading zero |
| Strings.NatToStringInjective | CoffeaAnalysis/HNLAnalysis/channels/HNLAnalysis_Ze.py:85 | different numbers print differently |
| Strings.ParseNat | CoffeaAnalysis/HNLAnalysis/channels/HNLAnalysis_Ze.py:98 | `int()` on a non-empty run of digits succeeds and fails otherwise; on success the value is the decimal value of the digits, leading zeros included |
| Strings.ParseNatToString | CoffeaAnalysis/HNLAnalysis/channels/HNLAnalysis_Ze.py:98 | parsing the printed form of n gives n |
| Seqs.Filter | CoffeaAnalysis/HNLAnalysis/HNLProcessor.py:111 | boolean-mask indexing: never longer than the input; every kept element comes from the input and passes; every passing element is kept |
| Seqs.FilterKeepsPositions | CoffeaAnalysis/HNLAnalysis/HNLProcessor.py:111 | the k-th kept element is the input element at the k-th passing position, and those positions increase |
| Seqs.FilterAllPass | CoffeaAnalysis/HNLAnalysis/HNLProcessor.py:154 | filtering a sequence whose every element passes leaves it unchanged |
| Seqs.FilterIdempotent | CoffeaAnalysis/HNLAnalysis/HNLProcessor.py:111 | filtering twice with the same mask equals filtering once |

## Left out

- Collaborators whose code is not part of this model are parameters (`Processing.Externals`, `Anatuple.Selectors`):
  - the golden-run filter and the MET filters are predicates that the filter applies;
  - the reweighting is the new weight of each event;
  - the tau energy-correction tables give each tau its nominal, up and down factors;
  - the Z pair selection and the third-lepton selection are functions that return aligned per-event entries. Their internal Z-mass and ΔR/isolation choices are not modelled.
- Writing a lepton block (`save_anatuple_lepton`) and the ROOT file (`save_Event`) is left out. The record keeps each lepton block as a request: the leptons, the exclusion list and the prefix.
- The filesystem: the existing files are a set passed in, and the directory creation is left out. Console output is left out.
- Floating point: kinematic quantities and weights are `real`, so rounding in the energy-scale products and sums is not modelled.
- The constructor arity mismatch and the unassigned `dataHLT` are not modelled. The data marker is part of the configuration, and the unused `debugMode` argument is dropped.
- `raise` of a plain string (a TypeError in Python 3) and a name left unbound (a NameError) are modelled as error values. They are not modelled as exceptions.
- A failing `process` raises and returns nothing. The model instead returns an error result beside the partially updated copy; the template is unchanged either way.
- Columnar framework plumbing is left out: events are a sequence of records, and the field lists of the Electron and Muon collections are fields of the batch. The `accumulator` property, the identity `postprocess` and the merging of accumulators across chunks are also left out.
- Each channel class inherits from the processor in the source. In the model it holds a `Processor`, since Dafny has no class inheritance.
- The cut thresholds, which `init_process` stores on the instance, are constants. `Processor.initialised` records that the initial processing has completed, which the lepton selection needs.
- Accumulators.Accumulator: event counts are stored as reals beside the weight sums.
- Anatuple.BaseColumns: the data weight is a real 1 or 0, where the source stores a boolean column.
- Anatuple.AssembleRecord: the record's columns form a map, which keeps no insertion order; the lepton blocks keep their order.
- Strings.ParseNat: accepts only ASCII digits. Python's `int()` also takes a sign, surrounding whitespace, underscores between digits and non-ASCII digits, so such mass suffixes fail in the model but parse in the source.
