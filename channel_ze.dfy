/** The Ze channel: a Z candidate from two same-flavour leptons plus a third
    lepton that is an electron. */
module AnalysisZe {
  import opened Wrappers
  import opened Strings
  import opened Seqs
  import opened Events
  import opened Accumulators
  import opened Processing
  import opened Anatuple

  /** The three-lepton pre-selection of the channel: at least two selected
      muons and one selected electron, or at least three selected electrons. */
  predicate ZeCandidate(e: Event)
  {
    (|e.selMuon| >= 2 && |e.selElectron| >= 1) || |e.selElectron| >= 3
  }

  /** The events kept by the pre-selection, in their order. Every kept event
      has at least one selected electron and three selected leptons. */
  function PreFilterZe(rows: seq<Event>): (r: seq<Event>)
    ensures |r| <= |rows|
    ensures forall k :: 0 <= k < |r| ==>
      r[k] in rows && |r[k].selElectron| >= 1 && |r[k].selElectron| + |r[k].selMuon| >= 3
    ensures forall k :: 0 <= k < |rows| ==> (rows[k] in r <==> ZeCandidate(rows[k]))
    ensures var idx := KeptPositions(rows, ZeCandidate);
      && |idx| == |r|
      && (forall k :: 0 <= k < |idx| ==> idx[k] < |rows| && r[k] == rows[idx[k]])
      && (forall k, l :: 0 <= k < l < |idx| ==> idx[k] < idx[l])
      && (forall i :: 0 <= i < |rows| ==> (ZeCandidate(rows[i]) <==> i in idx))
  {
    FilterKeepsPositions(rows, ZeCandidate);
    Filter(rows, ZeCandidate)
  }

  /** A signal dataset named "HNL-20" (without the data marker) is processed
      in signal mode and gets the HNL mass 20. */
  lemma SignalMassScenario(dataHLT: string)
    requires !Contains("HNL-20", dataHLT)
    ensures Resolve("HNL-20", dataHLT) == Resolved("HNL-20", Signal)
    ensures ParseHnlMass("HNL-20") == Ok(20)
  {
    assert "HNL-20"[..3] == "HNL";
    assert NatToString(20) == "20" by {
      assert NatToString(2) == "2";
    }
    HnlMassOfName("HNL", 20);
    assert "HNL" + "-" + "20" == "HNL-20";
  }

  /** A background dataset named "DY-50" (without the data marker) is
      processed as MC background, so its record has no HNL mass column. */
  lemma BackgroundScenario(dataHLT: string)
    requires !Contains("DY-50", dataHLT)
    ensures Resolve("DY-50", dataHLT) == Resolved("DY-50", MCbackground)
  {
    // No window of three characters spells "HNL".
    assert !Contains("50", "HNL");
    assert "-50"[..3][0] != "HNL"[0] && "-50"[1..] == "50";
    assert "Y-50"[..3][0] != "HNL"[0] && "Y-50"[1..] == "-50";
    assert "DY-50"[..3][0] != "HNL"[0] && "DY-50"[1..] == "Y-50";
  }

  /** The pre-selection, then the Z pair selection, then the choice of the third electron. */
  function AnalyseZe(sel: Selectors, rows: seq<Event>): seq<Triple>
  {
    sel.thirdSelect(sel.zSelect(PreFilterZe(rows)), "electron")
  }

  /** Whatever pair and third-lepton choices are made, as long as they only
      return entries for events they were handed, every analysed event is an
      input event that passes the channel's pre-selection. */
  lemma AnalysedZeAreCandidates(sel: Selectors, rows: seq<Event>)
    requires SelectorsKeepEvents(sel)
    ensures forall k :: 0 <= k < |AnalyseZe(sel, rows)| ==>
      AnalyseZe(sel, rows)[k].ev in rows && ZeCandidate(AnalyseZe(sel, rows)[k].ev)
  {
    var pre := PreFilterZe(rows);
    var pairs := sel.zSelect(pre);
    var triples := sel.thirdSelect(pairs, "electron");
    forall k | 0 <= k < |triples|
      ensures triples[k].ev in rows && ZeCandidate(triples[k].ev)
    {
      assert triples[k].ev in EventsOf(pairs);
      var j :| 0 <= j < |pairs| && EventsOf(pairs)[j] == triples[k].ev;
      var m :| 0 <= m < |pre| && pre[m] == pairs[j].ev;
      assert pre[m] in rows && ZeCandidate(pre[m]);
    }
  }

  /** The Ze analysis: a processor (configuration, dataset and mode of the
      chunk) and the counter template every chunk starts from. */
  class HNLAnalysisZe {
    const processor: Processor
    const accumulator: Accumulator

    /** The configuration must already have passed `MakeConfig`; the template
        holds an empty per-dataset table for each counter of each stage. */
    constructor (config: Config)
      requires ValidConfig(config)
      ensures fresh(processor) && fresh(accumulator)
      ensures processor.config == config && !processor.initialised
      ensures accumulator.Valid()
      ensures forall name :: name in accumulator.counters ==> accumulator.counters[name] == map[]
    {
      processor := new Processor(config);
      accumulator := new Accumulator();
    }

    /** Chooses a free output file in `<root><period>/<tag>/Ze/<ds>/` among
        the `existing` files and builds the record, with the third lepton
        written as "Electron". */
    method SaveAnatupleZe(
      triples: seq<Triple>, electronFields: seq<string>, muonFields: seq<string>,
      tag: string, existing: set<string>) returns (r: Result<Saved>)
      ensures var ds, dir := processor.ds, OutputDir(processor.config.period, tag, "Ze", processor.ds);
        && (r.Err? <==> processor.mode == Signal && ParseHnlMass(ds).Err?)
        && (r.Err? ==> r.error == BadMassSuffix(MassSuffix(ds)))
        && (r.Ok? ==>
              && r.value.file == AnatupleName(dir, ds, r.value.index)
              && r.value.file !in existing
              && (forall j :: 0 <= j < r.value.index ==> AnatupleName(dir, ds, j) in existing)
              && IsAnatuple(r.value.record, triples, processor.mode, ds, electronFields, muonFields, "Electron"))
    {
      var ds := processor.ds;
      var path := OutputDir(processor.config.period, tag, "Ze", ds);
      var i, saveFile := ChooseSaveFile(existing, path, ds);
      var lst := AssembleRecord(triples, processor.mode, ds, electronFields, muonFields, "Electron");
      if lst.Err? {
        return Err(lst.error);
      }
      r := Ok(Saved(saveFile, i, lst.value));
    }

    /** After the initial processing: the lepton selection with the nominal
        tau correction, the channel analysis and the output record. */
    method SelectAndSaveZe(batch: EventBatch, ext: Externals, sel: Selectors, existing: set<string>)
      returns (r: Result<Saved>)
      requires processor.initialised
      modifies batch
      ensures var ds, mode := processor.ds, processor.mode;
        var selected := SelectAll(processor.config.deepTau, mode, None, ext.tauEs, old(batch.rows));
        var dir := OutputDir(processor.config.period, processor.config.tag, "Ze", ds);
        && batch.rows == selected
        && (r.Err? <==> mode == Signal && ParseHnlMass(ds).Err?)
        && (r.Err? ==> r.error == BadMassSuffix(MassSuffix(ds)))
        && (r.Ok? ==>
              && r.value.file == AnatupleName(dir, ds, r.value.index)
              && r.value.file !in existing
              && (forall j :: 0 <= j < r.value.index ==> AnatupleName(dir, ds, j) in existing)
              && IsAnatuple(r.value.record, AnalyseZe(sel, selected), mode, ds,
                            batch.electronFields, batch.muonFields, "Electron"))
    {
      var _ := processor.LeptonSelection(batch, ext, None);
      var triples := AnalyseZe(sel, batch.rows);
      r := SaveAnatupleZe(triples, batch.electronFields, batch.muonFields, processor.config.tag, existing);
    }

    /** Processes one chunk on a fresh copy of the counter template: initial
        processing, lepton selection with the nominal tau correction, the
        channel analysis and the output record. The template is unchanged. */
    method Process(batch: EventBatch, ext: Externals, sel: Selectors, existing: set<string>)
      returns (out: Accumulator, r: Result<Saved>)
      requires accumulator.Valid()
      modifies processor, batch
      ensures fresh(out) && out.Valid()
      ensures accumulator.counters == old(accumulator.counters)
      ensures var t := TraceInit(processor.config, ext, batch.dataset, old(batch.rows));
        && out.counters == CountedInit(old(accumulator.counters), batch.dataset, t)
        && processor.ds == t.resolved.ds && processor.mode == t.resolved.mode
        && (t.xsecsMissing ==> r == Err(MissingXsecs) && batch.rows == t.counted)
        && (!t.xsecsMissing ==>
              var ds, mode := processor.ds, processor.mode;
              var selected := SelectAll(processor.config.deepTau, mode, None, ext.tauEs, t.metFiltered);
              var dir := OutputDir(processor.config.period, processor.config.tag, "Ze", ds);
              && batch.rows == selected
              && (r.Err? <==> mode == Signal && ParseHnlMass(ds).Err?)
              && (r.Err? ==> r.error == BadMassSuffix(MassSuffix(ds)))
              && (r.Ok? ==>
                    && r.value.file == AnatupleName(dir, ds, r.value.index)
                    && r.value.file !in existing
                    && (forall j :: 0 <= j < r.value.index ==> AnatupleName(dir, ds, j) in existing)
                    && IsAnatuple(r.value.record, AnalyseZe(sel, selected), mode, ds,
                                  batch.electronFields, batch.muonFields, "Electron")))
    {
      out := new Accumulator.Copy(accumulator);
      var init := processor.InitProcess(out, batch, ext);
      if init.Fail? {
        return out, Err(init.error);
      }
      r := SelectAndSaveZe(batch, ext, sel, existing);
    }
  }
}
