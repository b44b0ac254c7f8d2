/** Baseline lepton selection and tau energy-scale correction: the cuts that
    build the selected tau, muon and electron collections, the parsing of a
    systematic-variation name, the per-tau correction factors and the shift of
    the missing transverse momentum that a variation causes. */
module Selection {
  import opened Wrappers
  import opened Strings
  import opened Seqs
  import opened Events

  /** The DeepTau version whose discriminators the tau selection reads. */
  datatype DeepTauVersion = DeepTau2018v2p5 | DeepTau2017v2p1

  // Tau thresholds (the pt cut applies to the energy-corrected pt).
  const CutTauPt: real := 20.0
  const CutTauEta: real := 2.5
  const CutTauDz: real := 0.2
  const CutTauIdVsMu: int := 4    // Tight
  const CutTauIdVsE: int := 2     // VVLoose
  const CutTauIdVsJet: int := 2   // VVLoose

  // Muon thresholds.
  const CutMuPt: real := 10.0
  const CutMuEta: real := 2.4
  const CutMuDz: real := 0.2
  const CutMuDxy: real := 0.045
  const CutMuIso: real := 0.4

  // Electron thresholds.
  const CutEPt: real := 10.0
  const CutEEta: real := 2.5
  const CutEDz: real := 0.2
  const CutEDxy: real := 0.045
  const CutEIso: real := 0.4

  /** The discriminator working points of the configured DeepTau version. */
  function TauIds(v: DeepTauVersion, t: Tau): TauId
  {
    match v
    case DeepTau2018v2p5 => t.id2018v2p5
    case DeepTau2017v2p1 => t.id2017v2p1
  }

  /** Every tau cut except the pt cut, which comes after the energy correction. */
  predicate TauPassesBaseline(v: DeepTauVersion, t: Tau)
  {
    && AbsReal(t.eta) < CutTauEta
    && AbsReal(t.dz) < CutTauDz
    && TauIds(v, t).vsMu >= CutTauIdVsMu
    && TauIds(v, t).vsE >= CutTauIdVsE
    && TauIds(v, t).vsJet >= CutTauIdVsJet
    && t.decayMode != 5
    && t.decayMode != 6
  }

  predicate TauPassesPt(t: Tau)
  {
    t.pt > CutTauPt
  }

  predicate MuonPasses(m: Muon)
  {
    && m.pt > CutMuPt
    && AbsReal(m.eta) < CutMuEta
    && AbsReal(m.dz) < CutMuDz
    && AbsReal(m.dxy) < CutMuDxy
    && m.mediumId
    && m.pfRelIso03All < CutMuIso
  }

  predicate ElectronPasses(e: Electron)
  {
    && e.pt > CutEPt
    && AbsReal(e.eta) < CutEEta
    && AbsReal(e.dz) < CutEDz
    && AbsReal(e.dxy) < CutEDxy
    && e.mvaNoIsoWP90
    && e.pfRelIso03All < CutEIso
  }

  /** The baseline tau cuts of one DeepTau version, as a mask. */
  function TauBaseline(v: DeepTauVersion): Tau -> bool
  {
    t => TauPassesBaseline(v, t)
  }

  /** The taus passing the baseline cuts, before energy correction. */
  function SelectTaus(v: DeepTauVersion, taus: seq<Tau>): (r: seq<Tau>)
    ensures forall k :: 0 <= k < |r| ==> r[k] in taus && TauPassesBaseline(v, r[k])
    ensures forall k :: 0 <= k < |taus| && TauPassesBaseline(v, taus[k]) ==> taus[k] in r
  {
    Filter(taus, TauBaseline(v))
  }

  /** `SelMuon`: every kept muon passes every cut and every muon passing every cut is kept. */
  function SelectMuons(muons: seq<Muon>): (r: seq<Muon>)
    ensures |r| <= |muons|
    ensures forall k :: 0 <= k < |r| ==> r[k] in muons && MuonPasses(r[k])
    ensures forall k :: 0 <= k < |muons| && MuonPasses(muons[k]) ==> muons[k] in r
  {
    Filter(muons, MuonPasses)
  }

  /** `SelElectron`: every kept electron passes every cut and every electron passing every cut is kept. */
  function SelectElectrons(electrons: seq<Electron>): (r: seq<Electron>)
    ensures |r| <= |electrons|
    ensures forall k :: 0 <= k < |r| ==> r[k] in electrons && ElectronPasses(r[k])
    ensures forall k :: 0 <= k < |electrons| && ElectronPasses(electrons[k]) ==> electrons[k] in r
  {
    Filter(electrons, ElectronPasses)
  }

  /** The tau, muon and electron selections keep the passing objects in their
      original order: the k-th selected object is the object at the k-th
      passing position of the input. */
  lemma SelectionKeepsOrder(v: DeepTauVersion, taus: seq<Tau>, muons: seq<Muon>, electrons: seq<Electron>)
    ensures var idx := KeptPositions(taus, TauBaseline(v));
      && |idx| == |SelectTaus(v, taus)|
      && (forall k :: 0 <= k < |idx| ==> idx[k] < |taus| && SelectTaus(v, taus)[k] == taus[idx[k]])
      && (forall k, l :: 0 <= k < l < |idx| ==> idx[k] < idx[l])
      && (forall i :: 0 <= i < |taus| ==> (TauPassesBaseline(v, taus[i]) <==> i in idx))
    ensures var idx := KeptPositions(muons, MuonPasses);
      && |idx| == |SelectMuons(muons)|
      && (forall k :: 0 <= k < |idx| ==> idx[k] < |muons| && SelectMuons(muons)[k] == muons[idx[k]])
      && (forall k, l :: 0 <= k < l < |idx| ==> idx[k] < idx[l])
      && (forall i :: 0 <= i < |muons| ==> (MuonPasses(muons[i]) <==> i in idx))
    ensures var idx := KeptPositions(electrons, ElectronPasses);
      && |idx| == |SelectElectrons(electrons)|
      && (forall k :: 0 <= k < |idx| ==> idx[k] < |electrons| && SelectElectrons(electrons)[k] == electrons[idx[k]])
      && (forall k, l :: 0 <= k < l < |idx| ==> idx[k] < idx[l])
      && (forall i :: 0 <= i < |electrons| ==> (ElectronPasses(electrons[i]) <==> i in idx))
  {
    FilterKeepsPositions(taus, TauBaseline(v));
    FilterKeepsPositions(muons, MuonPasses);
    FilterKeepsPositions(electrons, ElectronPasses);
  }

  /** Re-applying the muon and electron cuts to the selected collections changes nothing. */
  lemma SelectionIdempotent(muons: seq<Muon>, electrons: seq<Electron>)
    ensures SelectMuons(SelectMuons(muons)) == SelectMuons(muons)
    ensures SelectElectrons(SelectElectrons(electrons)) == SelectElectrons(electrons)
  {
    FilterIdempotent(muons, MuonPasses);
    FilterIdempotent(electrons, ElectronPasses);
  }

  // ---------------------------------------------------------------------
  // Systematic variations of the tau energy scale.

  datatype Bucket = DM0 | DM1 | ThreeProng

  /** Which taus a variation applies to: genuine taus or electrons faking
      taus in one decay-mode bucket, or muons faking taus (no bucket). */
  datatype Target = GenuineTau(bucket: Bucket) | GenuineElectron(bucket: Bucket) | GenuineMuon

  datatype Direction = Up | Down

  datatype Variation = Variation(target: Target, direction: Direction)

  function BucketName(b: Bucket): string
  {
    match b
    case DM0 => "DM0"
    case DM1 => "DM1"
    case ThreeProng => "3prong"
  }

  function BucketOf(part: string): (r: Option<Bucket>)
    ensures r.Some? <==> part == "DM0" || part == "DM1" || part == "3prong"
    ensures r.Some? ==> BucketName(r.value) == part
  {
    if part == "DM0" then Some(DM0)
    else if part == "DM1" then Some(DM1)
    else if part == "3prong" then Some(ThreeProng)
    else None
  }

  function DirectionName(d: Direction): string
  {
    match d
    case Up => "up"
    case Down => "down"
  }

  function DirectionOf(part: string): (r: Option<Direction>)
    ensures r.Some? <==> part == "up" || part == "down"
    ensures r.Some? ==> DirectionName(r.value) == part
  {
    if part == "up" then Some(Up)
    else if part == "down" then Some(Down)
    else None
  }

  function CategoryName(t: Target): string
  {
    match t
    case GenuineTau(_) => "GenuineTauES"
    case GenuineElectron(_) => "GenuineElectronES"
    case GenuineMuon => "GenuineMuonES"
  }

  /** Reads a variation name `<prefix>_<category>_<bucket>_<direction>` (no
      bucket for GenuineMuonES): the category is the second '_'-separated part,
      the bucket the third, the direction the last. Too few parts is an index
      error; a category, bucket or direction that is not recognised leaves the
      mask or the factor unbound, which is an error too. */
  function ParseVariation(name: string): (r: Result<Variation>)
    ensures var lst := Split(name, '_');
      r == Err(VariationIndexError) <==>
        |lst| < 2 || ((lst[1] == "GenuineTauES" || lst[1] == "GenuineElectronES") && |lst| < 3)
    ensures var lst := Split(name, '_');
      r.Ok? <==>
        && |lst| >= 2
        && DirectionOf(lst[|lst| - 1]).Some?
        && (|| lst[1] == "GenuineMuonES"
            || ((lst[1] == "GenuineTauES" || lst[1] == "GenuineElectronES") && |lst| >= 3 && BucketOf(lst[2]).Some?))
    ensures r.Ok? ==> var lst := Split(name, '_');
      && lst[1] == CategoryName(r.value.target)
      && lst[|lst| - 1] == DirectionName(r.value.direction)
      && (!r.value.target.GenuineMuon? ==> lst[2] == BucketName(r.value.target.bucket))
    ensures r.Err? ==> r.error == VariationIndexError || r.error == VariationUnbound
  {
    var lst := Split(name, '_');
    if |lst| < 2 then Err(VariationIndexError)
    else if (lst[1] == "GenuineTauES" || lst[1] == "GenuineElectronES") && |lst| < 3 then Err(VariationIndexError)
    else
      var target: Option<Target> :=
        if lst[1] == "GenuineTauES" then
          (match BucketOf(lst[2]) case Some(b) => Some(GenuineTau(b)) case None => None)
        else if lst[1] == "GenuineElectronES" then
          (match BucketOf(lst[2]) case Some(b) => Some(GenuineElectron(b)) case None => None)
        else if lst[1] == "GenuineMuonES" then Some(GenuineMuon)
        else None;
      var direction := DirectionOf(lst[|lst| - 1]);
      if target.None? || direction.None? then Err(VariationUnbound)
      else Ok(Variation(target.value, direction.value))
  }

  /** The name parts that spell a variation after its prefix. */
  function VariationParts(v: Variation): seq<string>
  {
    match v.target
    case GenuineMuon => [CategoryName(v.target), DirectionName(v.direction)]
    case _ => [CategoryName(v.target), BucketName(v.target.bucket), DirectionName(v.direction)]
  }

  /** The variation name `<prefix>_<category>[_<bucket>]_<direction>`. */
  function VariationName(prefix: string, v: Variation): string
  {
    Join([prefix] + VariationParts(v), '_')
  }

  /** No part of a variation name contains the separator. */
  lemma PartsWithoutSeparator(v: Variation)
    ensures forall k :: 0 <= k < |VariationParts(v)| ==> '_' !in VariationParts(v)[k]
  {
    assert '_' !in "GenuineTauES" && '_' !in "GenuineElectronES" && '_' !in "GenuineMuonES";
    assert '_' !in "DM0" && '_' !in "DM1" && '_' !in "3prong";
    assert '_' !in "up" && '_' !in "down";
  }

  /** Every variation survives the round trip through its name. */
  lemma ParseVariationName(prefix: string, v: Variation)
    requires '_' !in prefix
    ensures ParseVariation(VariationName(prefix, v)) == Ok(v)
  {
    var parts := [prefix] + VariationParts(v);
    PartsWithoutSeparator(v);
    SplitJoin(parts, '_');
    assert Split(VariationName(prefix, v), '_') == parts;
    match v.target {
      case GenuineTau(_) =>
        assert parts[1] == "GenuineTauES" && |parts| == 4;
      case GenuineElectron(_) =>
        assert parts[1] == "GenuineElectronES" && parts[1] != "GenuineTauES" && |parts| == 4;
      case GenuineMuon =>
        assert parts[1] == "GenuineMuonES" && parts[1] != "GenuineTauES" && parts[1] != "GenuineElectronES";
    }
  }

  /** The decay modes a bucket stands for (3prong: 10 or 11). */
  predicate DecayModeIn(b: Bucket, decayMode: int)
  {
    match b
    case DM0 => decayMode == 0
    case DM1 => decayMode == 1
    case ThreeProng => decayMode == 10 || decayMode == 11
  }

  /** Whether a variation applies to a tau, by its generator match and decay mode. */
  predicate InMask(target: Target, t: Tau)
  {
    match target
    case GenuineTau(b) => DecayModeIn(b, t.decayMode) && t.genPartFlav == 5
    case GenuineElectron(b) => DecayModeIn(b, t.decayMode) && (t.genPartFlav == 1 || t.genPartFlav == 3)
    case GenuineMuon => t.genPartFlav == 2 || t.genPartFlav == 4
  }

  /** Two different variation targets never select the same tau: the
      generator matches of the three categories are disjoint, and so are the
      decay modes of the three buckets. */
  lemma MasksDisjoint(a: Target, b: Target, t: Tau)
    requires a != b
    ensures !(InMask(a, t) && InMask(b, t))
  {
  }

  /** The per-tau energy-scale factors of the correction tables: nominal, up and down. */
  datatype TauEs = TauEs(nominal: real, up: real, down: real)

  function NominalFactor(esOf: Tau -> TauEs): Tau -> real
  {
    t => esOf(t).nominal
  }

  /** The up or down factor for the taus the variation applies to, the nominal factor elsewhere. */
  function VariedFactor(v: Variation, esOf: Tau -> TauEs): Tau -> real
  {
    t => if InMask(v.target, t) then (if v.direction == Up then esOf(t).up else esOf(t).down)
         else esOf(t).nominal
  }

  /** A tau with its pt and mass scaled by the same factor. */
  function Scale(t: Tau, f: real): Tau
  {
    t.(pt := t.pt * f, mass := t.mass * f)
  }

  function ScaleAll(taus: seq<Tau>, factor: Tau -> real): (r: seq<Tau>)
  {
    seq(|taus|, k requires 0 <= k < |taus| => Scale(taus[k], factor(taus[k])))
  }

  function SumPt(taus: seq<Tau>): real
    decreases |taus|
  {
    if |taus| == 0 then 0.0 else taus[0].pt + SumPt(taus[1..])
  }

  /** The per-event MET shift of a variation: the sum over taus of
      pt * varied factor - pt * nominal factor. */
  function MetShift(taus: seq<Tau>, v: Variation, esOf: Tau -> TauEs): real
    decreases |taus|
  {
    if |taus| == 0 then 0.0
    else
      var t := taus[0];
      t.pt * VariedFactor(v, esOf)(t) - t.pt * NominalFactor(esOf)(t) + MetShift(taus[1..], v, esOf)
  }

  /** The MET shift is exactly the change of the summed tau pt between the
      nominal and the varied correction, so lowering MET by it keeps
      MET + sum of tau pt equal to its value under the nominal correction. */
  lemma {:induction false} MetShiftBalance(taus: seq<Tau>, v: Variation, esOf: Tau -> TauEs)
    ensures SumPt(ScaleAll(taus, VariedFactor(v, esOf))) - SumPt(ScaleAll(taus, NominalFactor(esOf)))
            == MetShift(taus, v, esOf)
    decreases |taus|
  {
    if |taus| > 0 {
      MetShiftBalance(taus[1..], v, esOf);
      assert ScaleAll(taus, VariedFactor(v, esOf))[1..] == ScaleAll(taus[1..], VariedFactor(v, esOf));
      assert ScaleAll(taus, NominalFactor(esOf))[1..] == ScaleAll(taus[1..], NominalFactor(esOf));
    }
  }

  /** A variation whose mask selects no tau corrects like the nominal path and shifts MET by nothing. */
  lemma {:induction false} UnmaskedIsNominal(taus: seq<Tau>, v: Variation, esOf: Tau -> TauEs)
    requires forall k :: 0 <= k < |taus| ==> !InMask(v.target, taus[k])
    ensures ScaleAll(taus, VariedFactor(v, esOf)) == ScaleAll(taus, NominalFactor(esOf))
    ensures MetShift(taus, v, esOf) == 0.0
    decreases |taus|
  {
    if |taus| > 0 {
      UnmaskedIsNominal(taus[1..], v, esOf);
    }
  }

  // ---------------------------------------------------------------------
  // The selection of one event.

  /** The event with its three selected collections, before the tau correction. */
  function WithSelections(v: DeepTauVersion, e: Event): Event
  {
    e.(selTau := SelectTaus(v, e.tau), selMuon := SelectMuons(e.muon), selElectron := SelectElectrons(e.electron))
  }

  /** The tau energy correction: none for data; the nominal factors when no
      variation is named; otherwise the varied factors, with MET lowered by the
      resulting shift. */
  function Corrected(mode: Mode, variation: Option<Variation>, esOf: Tau -> TauEs, e: Event): (r: Event)
    ensures mode == Data ==> r == e
    ensures mode == Data || variation.None? ==> r.met == e.met
    ensures r.(selTau := e.selTau, met := e.met) == e && r.met.phi == e.met.phi
    ensures |r.selTau| == |e.selTau|
    ensures forall k :: 0 <= k < |r.selTau| ==>
      r.selTau[k].(pt := e.selTau[k].pt, mass := e.selTau[k].mass) == e.selTau[k]
    ensures mode != Data ==>
      r.selTau == ScaleAll(e.selTau, if variation.None? then NominalFactor(esOf) else VariedFactor(variation.value, esOf))
    ensures mode != Data && variation.Some? ==> r.met.pt == e.met.pt - MetShift(e.selTau, variation.value, esOf)
  {
    if mode == Data then e
    else match variation
      case None => e.(selTau := ScaleAll(e.selTau, NominalFactor(esOf)))
      case Some(v) =>
        e.(selTau := ScaleAll(e.selTau, VariedFactor(v, esOf)),
           met := e.met.(pt := e.met.pt - MetShift(e.selTau, v, esOf)))
  }

  /** The pt cut on the corrected taus. */
  function WithTauPtCut(e: Event): Event
  {
    e.(selTau := Filter(e.selTau, TauPassesPt))
  }

  /** The whole object selection of one event. */
  function SelectEvent(v: DeepTauVersion, mode: Mode, variation: Option<Variation>, esOf: Tau -> TauEs, e: Event)
    : (r: Event)
    ensures forall k :: 0 <= k < |r.selTau| ==> TauPassesBaseline(v, r.selTau[k]) && r.selTau[k].pt > CutTauPt
    ensures r.selMuon == SelectMuons(e.muon) && r.selElectron == SelectElectrons(e.electron)
    ensures r.met.phi == e.met.phi
    ensures mode == Data || variation.None? ==> r.met == e.met
    ensures mode != Data && variation.Some? ==>
      r.met.pt == e.met.pt - MetShift(SelectTaus(v, e.tau), variation.value, esOf)
    ensures mode == Data ==> r.selTau == Filter(SelectTaus(v, e.tau), TauPassesPt)
    ensures mode != Data ==>
      var factor := if variation.None? then NominalFactor(esOf) else VariedFactor(variation.value, esOf);
      r.selTau == Filter(ScaleAll(SelectTaus(v, e.tau), factor), TauPassesPt)
    ensures r.(selTau := e.selTau, selMuon := e.selMuon, selElectron := e.selElectron, met := e.met) == e
  {
    var base := WithSelections(v, e);
    var corrected := Corrected(mode, variation, esOf, base);
    assert forall k :: 0 <= k < |corrected.selTau| ==> TauPassesBaseline(v, corrected.selTau[k]);
    WithTauPtCut(corrected)
  }

  /** Re-applying every tau cut to the selected taus changes nothing. */
  lemma SelectedTausStable(v: DeepTauVersion, mode: Mode, variation: Option<Variation>, esOf: Tau -> TauEs, e: Event)
    ensures var r := SelectEvent(v, mode, variation, esOf, e);
      Filter(r.selTau, t => TauPassesBaseline(v, t) && TauPassesPt(t)) == r.selTau
  {
    var r := SelectEvent(v, mode, variation, esOf, e);
    FilterAllPass(r.selTau, t => TauPassesBaseline(v, t) && TauPassesPt(t));
  }

  /** A variation whose mask selects none of the event's selected taus gives
      the same event as the nominal path, MET included. */
  lemma UnmaskedVariationIsNominal(
    v: DeepTauVersion, mode: Mode, variation: Variation, esOf: Tau -> TauEs, e: Event)
    requires forall t :: t in SelectTaus(v, e.tau) ==> !InMask(variation.target, t)
    ensures SelectEvent(v, mode, Some(variation), esOf, e) == SelectEvent(v, mode, None, esOf, e)
  {
    UnmaskedIsNominal(SelectTaus(v, e.tau), variation, esOf);
  }

  /** What to do about the tau correction for a chunk: data is not corrected
      and no name is read; otherwise the named variation is parsed, or the
      nominal correction applies when no name is given. */
  function CorrectionPlan(mode: Mode, treeName: Option<string>): (r: Result<Option<Variation>>)
    ensures mode == Data ==> r == Ok(None)
    ensures r.Ok? && r.value.Some? <==> mode != Data && treeName.Some? && ParseVariation(treeName.value).Ok?
    ensures r.Err? <==> mode != Data && treeName.Some? && ParseVariation(treeName.value).Err?
    ensures r.Ok? && r.value.Some? ==> r.value.value == ParseVariation(treeName.value).value
    ensures r.Err? ==> r.error == ParseVariation(treeName.value).error
  {
    if mode == Data then Ok(None)
    else match treeName
      case None => Ok(None)
      case Some(name) =>
        match ParseVariation(name)
        case Ok(v) => Ok(Some(v))
        case Err(err) => Err(err)
  }
}
