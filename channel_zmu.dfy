/** The Zmu channel: a Z candidate from two same-flavour leptons plus a third
    lepton that is a muon. */
module AnalysisZmu {
  import opened Wrappers
  import opened Seqs
  import opened Events
  import opened Accumulators
  import opened Processing
  import opened Anatuple
  import AnalysisZe

  /** The three-lepton pre-selection of the channel: at least two selected
      electrons and one selected muon, or at least three selected muons. */
  predicate ZmuCandidate(e: Event)
  {
    (|e.selElectron| >= 2 && |e.selMuon| >= 1) || |e.selMuon| >= 3
  }

  /** The events kept by the pre-selection, in their order. Every kept event
      has at least one selected muon and three selected leptons. */
  function PreFilterZmu(rows: seq<Event>): (r: seq<Event>)
    ensures |r| <= |rows|
    ensures forall k :: 0 <= k < |r| ==>
      r[k] in rows && |r[k].selMuon| >= 1 && |r[k].selElectron| + |r[k].selMuon| >= 3
    ensures forall k :: 0 <= k < |rows| ==> (rows[k] in r <==> ZmuCandidate(rows[k]))
    ensures var idx := KeptPositions(rows, ZmuCandidate);
      && |idx| == |r|
      && (forall k :: 0 <= k < |idx| ==> idx[k] < |rows| && r[k] == rows[idx[k]])
      && (forall k, l :: 0 <= k < l < |idx| ==> idx[k] < idx[l])
      && (forall i :: 0 <= i < |rows| ==> (ZmuCandidate(rows[i]) <==> i in idx))
  {
    FilterKeepsPositions(rows, ZmuCandidate);
    Filter(rows, ZmuCandidate)
  }

  /** Together the two channels keep exactly the events with at least three
      selected leptons. */
  lemma ChannelsCoverThreeLeptons(e: Event)
    ensures AnalysisZe.ZeCandidate(e) || ZmuCandidate(e) <==> |e.selElectron| + |e.selMuon| >= 3
  {
  }

  /** An event enters both channels exactly when it has two selected leptons
      of each flavour, or three of one flavour and one of the other. */
  lemma ChannelOverlap(e: Event)
    ensures AnalysisZe.ZeCandidate(e) && ZmuCandidate(e) <==>
      var nE, nMu := |e.selElectron|, |e.selMuon|;
      (nE >= 2 && nMu >= 2) || (nE >= 3 && nMu >= 1) || (nMu >= 3 && nE >= 1)
  {
  }

  /** Two selected electrons and one selected muon: kept by this channel only. */
  lemma TwoElectronsOneMuon(e: Event)
    requires |e.selElectron| == 2 && |e.selMuon| == 1
    ensures AnalysisZe.PreFilterZe([e]) == [] && PreFilterZmu([e]) == [e]
  {
  }

  /** The pre-selection, then the Z pair selection, then the choice of the third muon. */
  function AnalyseZmu(sel: Selectors, rows: seq<Event>): seq<Triple>
  {
    sel.thirdSelect(sel.zSelect(PreFilterZmu(rows)), "muon")
  }

  /** Whatever pair and third-lepton choices are made, as long as they only
      return entries for events they were handed, every analysed event is an
      input event that passes the channel's pre-selection. */
  lemma AnalysedZmuAreCandidates(sel: Selectors, rows: seq<Event>)
    requires SelectorsKeepEvents(sel)
    ensures forall k :: 0 <= k < |AnalyseZmu(sel, rows)| ==>
      AnalyseZmu(sel, rows)[k].ev in rows && ZmuCandidate(AnalyseZmu(sel, rows)[k].ev)
  {
    var pre := PreFilterZmu(rows);
    var pairs := sel.zSelect(pre);
    var triples := sel.thirdSelect(pairs, "muon");
    forall k | 0 <= k < |triples|
      ensures triples[k].ev in rows && ZmuCandidate(triples[k].ev)
    {
      assert triples[k].ev in EventsOf(pairs);
      var j :| 0 <= j < |pairs| && EventsOf(pairs)[j] == triples[k].ev;
      var m :| 0 <= m < |pre| && pre[m] == pairs[j].ev;
      assert pre[m] in rows && ZmuCandidate(pre[m]);
    }
  }

  /** The Zmu analysis: a processor (configuration, dataset and mode of the
      chunk) and the counter template every chunk starts from. */
  class HNLAnalysisZmu {
    const processor: Processor
    const accumulator: Accumulator

    /** The configuration must already have passed `MakeConfig`; the template
        holds an empty per-dataset table for each counter of each stage. */
    constructor (config: Config)
      requires ValidConfig(config)
      ensures fresh(processor) && fresh(accumulator)
      ensures processor.config == config && !processor.initialised
      ensures accumulator.Valid()
      ensures forall name :: name in accumulator.counters ==> accumulator.counters[name] == map[]
    {
      processor := new Processor(config);
      accumulator := new Accumulator();
    }

    /** Chooses a free output file in `<root><period>/<tag>/Zmu/<ds>/` among
        the `existing` files and builds the record, with the third lepton
        written as "Muon". */
    method SaveAnatupleZmu(
      triples: seq<Triple>, electronFields: seq<string>, muonFields: seq<string>,
      tag: string, existing: set<string>) returns (r: Result<Saved>)
      ensures var ds, dir := processor.ds, OutputDir(processor.config.period, tag, "Zmu", processor.ds);
        && (r.Err? <==> processor.mode == Signal && ParseHnlMass(ds).Err?)
        && (r.Err? ==> r.error == BadMassSuffix(MassSuffix(ds)))
        && (r.Ok? ==>
              && r.value.file == AnatupleName(dir, ds, r.value.index)
              && r.value.file !in existing
              && (forall j :: 0 <= j < r.value.index ==> AnatupleName(dir, ds, j) in existing)
              && IsAnatuple(r.value.record, triples, processor.mode, ds, electronFields, muonFields, "Muon"))
    {
      var ds := processor.ds;
      var path := OutputDir(processor.config.period, tag, "Zmu", ds);
      var i, saveFile := ChooseSaveFile(existing, path, ds);
      var lst := AssembleRecord(triples, processor.mode, ds, electronFields, muonFields, "Muon");
      if lst.Err? {
        return Err(lst.error);
      }
      r := Ok(Saved(saveFile, i, lst.value));
    }

    /** After the initial processing: the lepton selection with the nominal
        tau correction, the channel analysis and the output record. */
    method SelectAndSaveZmu(batch: EventBatch, ext: Externals, sel: Selectors, existing: set<string>)
      returns (r: Result<Saved>)
      requires processor.initialised
      modifies batch
      ensures var ds, mode := processor.ds, processor.mode;
        var selected := SelectAll(processor.config.deepTau, mode, None, ext.tauEs, old(batch.rows));
        var dir := OutputDir(processor.config.period, processor.config.tag, "Zmu", ds);
        && batch.rows == selected
        && (r.Err? <==> mode == Signal && ParseHnlMass(ds).Err?)
        && (r.Err? ==> r.error == BadMassSuffix(MassSuffix(ds)))
        && (r.Ok? ==>
              && r.value.file == AnatupleName(dir, ds, r.value.index)
              && r.value.file !in existing
              && (forall j :: 0 <= j < r.value.index ==> AnatupleName(dir, ds, j) in existing)
              && IsAnatuple(r.value.record, AnalyseZmu(sel, selected), mode, ds,
                            batch.electronFields, batch.muonFields, "Muon"))
    {
      var _ := processor.LeptonSelection(batch, ext, None);
      var triples := AnalyseZmu(sel, batch.rows);
      r := SaveAnatupleZmu(triples, batch.electronFields, batch.muonFields, processor.config.tag, existing);
    }

    /** Processes one chunk on a fresh copy of the counter template: initial
        processing, lepton selection with the nominal tau correction, the
        channel analysis and the output record. The template is unchanged. */
    method Process(batch: EventBatch, ext: Externals, sel: Selectors, existing: set<string>)
      returns (out: Accumulator, r: Result<Saved>)
      requires accumulator.Valid()
      modifies processor, batch
      ensures fresh(out) && out.Valid()
      ensures accumulator.counters == old(accumulator.counters)
      ensures var t := TraceInit(processor.config, ext, batch.dataset, old(batch.rows));
        && out.counters == CountedInit(old(accumulator.counters), batch.dataset, t)
        && processor.ds == t.resolved.ds && processor.mode == t.resolved.mode
        && (t.xsecsMissing ==> r == Err(MissingXsecs) && batch.rows == t.counted)
        && (!t.xsecsMissing ==>
              var ds, mode := processor.ds, processor.mode;
              var selected := SelectAll(processor.config.deepTau, mode, None, ext.tauEs, t.metFiltered);
              var dir := OutputDir(processor.config.period, processor.config.tag, "Zmu", ds);
              && batch.rows == selected
              && (r.Err? <==> mode == Signal && ParseHnlMass(ds).Err?)
              && (r.Err? ==> r.error == BadMassSuffix(MassSuffix(ds)))
              && (r.Ok? ==>
                    && r.value.file == AnatupleName(dir, ds, r.value.index)
                    && r.value.file !in existing
                    && (forall j :: 0 <= j < r.value.index ==> AnatupleName(dir, ds, j) in existing)
                    && IsAnatuple(r.value.record, AnalyseZmu(sel, selected), mode, ds,
                                  batch.electronFields, batch.muonFields, "Muon")))
    {
      out := new Accumulator.Copy(accumulator);
      var init := processor.InitProcess(out, batch, ext);
      if init.Fail? {
        return out, Err(init.error);
      }
      r := SelectAndSaveZmu(batch, ext, sel, existing);
    }
  }
}
