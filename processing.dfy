/** The shared processor: configuration checks, dataset and mode resolution,
    per-stage accounting, and the baseline lepton selection applied to a chunk
    of events in place. */
module Processing {
  import opened Wrappers
  import opened Strings
  import opened Seqs
  import opened Events
  import opened Selection
  import opened Accumulators

  /** Cross sections per dataset; its content is only read by the reweighting helper. */
  type XsecTable = map<string, real>

  /** A validated configuration. `dataHLT` is the marker that identifies data datasets. */
  datatype Config = Config(
    stitchedList: seq<string>, tag: string, xsecs: Option<XsecTable>,
    period: string, deepTau: DeepTauVersion, dataHLT: string)

  /** The configurations the constructor's checks let through: a non-empty
      stitched list and tag, and the DeepTau version that goes with the period. */
  predicate ValidConfig(c: Config)
  {
    |c.stitchedList| > 0 && |c.tag| > 0 && (c.deepTau == DeepTau2018v2p5 <==> c.period == "2018")
  }

  /** The configuration checks of the constructor: a null or empty stitched
      list fails first, then a null or empty tag. The DeepTau version is the
      2018 v2p5 one exactly for period "2018". */
  function MakeConfig(
    stitchedList: Option<seq<string>>, tag: Option<string>, xsecs: Option<XsecTable>,
    period: string, dataHLT: string): (r: Result<Config>)
    ensures r == Err(MissingStitchedList) <==> stitchedList.None? || |stitchedList.value| == 0
    ensures r == Err(MissingTag) <==>
      stitchedList.Some? && |stitchedList.value| > 0 && (tag.None? || |tag.value| == 0)
    ensures r.Ok? <==> stitchedList.Some? && |stitchedList.value| > 0 && tag.Some? && |tag.value| > 0
    ensures r.Ok? ==>
      && r.value.stitchedList == stitchedList.value && r.value.tag == tag.value
      && r.value.xsecs == xsecs && r.value.period == period && r.value.dataHLT == dataHLT
      && (r.value.deepTau == DeepTau2018v2p5 <==> period == "2018")
    ensures r.Ok? ==> ValidConfig(r.value)
  {
    if stitchedList.None? || |stitchedList.value| == 0 then Err(MissingStitchedList)
    else if tag.None? || |tag.value| == 0 then Err(MissingTag)
    else
      var deepTau := if period == "2018" then DeepTau2018v2p5 else DeepTau2017v2p1;
      Ok(Config(stitchedList.value, tag.value, xsecs, period, deepTau, dataHLT))
  }

  /** Every valid configuration is the one the checks build from its own parts. */
  lemma ValidConfigIsMade(c: Config)
    requires ValidConfig(c)
    ensures MakeConfig(Some(c.stitchedList), Some(c.tag), c.xsecs, c.period, c.dataHLT) == Ok(c)
  {
  }

  /** The dataset key and mode resolved from the raw dataset name. */
  datatype Resolved = Resolved(ds: string, mode: Mode)

  /** A dataset containing the data marker loses its last (era) character.
      The mode is signal when the resolved name contains "HNL", else Data when
      the marker matched, else MCbackground. */
  function Resolve(rawDs: string, dataHLT: string): (r: Resolved)
    ensures Contains(rawDs, dataHLT) && |rawDs| > 0 ==> rawDs == r.ds + [rawDs[|rawDs| - 1]]
    ensures Contains(rawDs, dataHLT) && |rawDs| == 0 ==> r.ds == []
    ensures !Contains(rawDs, dataHLT) ==> r.ds == rawDs
    ensures r.mode == Signal <==> Contains(r.ds, "HNL")
    ensures r.mode == Data <==> Contains(rawDs, dataHLT) && !Contains(r.ds, "HNL")
    ensures r.mode == MCbackground <==> !Contains(rawDs, dataHLT) && !Contains(r.ds, "HNL")
  {
    var isData := Contains(rawDs, dataHLT);
    var ds := if isData then DropLast(rawDs) else rawDs;
    var mode := if Contains(ds, "HNL") then Signal else if isData then Data else MCbackground;
    Resolved(ds, mode)
  }

  /** Era variants of one data dataset (the same name with a different last
      character) resolve to the same dataset key. */
  lemma EraVariantsMerge(base: string, era1: char, era2: char, dataHLT: string)
    requires Contains(base, dataHLT)
    ensures Resolve(base + [era1], dataHLT).ds == base
    ensures Resolve(base + [era1], dataHLT) == Resolve(base + [era2], dataHLT)
  {
    ContainsAppend(base, [era1], dataHLT);
    ContainsAppend(base, [era2], dataHLT);
  }

  /** The collaborators whose code is not part of this model: the golden-run
      filter and the MET filters keep the events these predicates accept, the
      reweighting gives each event its new generator weight, and the
      correction tables give each tau its energy-scale factors. */
  datatype Externals = Externals(
    isGolden: Event -> bool,
    reweight: Event -> real,
    passesMetFilters: Event -> bool,
    tauEs: Tau -> TauEs)

  /** Data has no generator weight: it becomes 1 for a positive run number, 0 otherwise. */
  function DataWeights(rows: seq<Event>): (r: seq<Event>)
    ensures |r| == |rows|
    ensures forall k :: 0 <= k < |r| ==> r[k].(genWeight := rows[k].genWeight) == rows[k]
    ensures forall k :: 0 <= k < |r| ==> (r[k].genWeight == 1.0 <==> PositiveRun(rows[k]))
    ensures forall k :: 0 <= k < |r| ==> (r[k].genWeight == 0.0 <==> !PositiveRun(rows[k]))
  {
    seq(|rows|, k requires 0 <= k < |rows| => rows[k].(genWeight := if rows[k].run > 0 then 1.0 else 0.0))
  }

  predicate PositiveRun(e: Event)
  {
    e.run > 0
  }

  /** With data weights set, the weight sum of a chunk is the number of its
      events with a positive run number. */
  lemma {:induction false} DataWeightSum(rows: seq<Event>)
    ensures SumWeights(DataWeights(rows)) == |Filter(rows, PositiveRun)| as real
    decreases |rows|
  {
    if |rows| > 0 {
      DataWeightSum(rows[1..]);
      assert DataWeights(rows)[1..] == DataWeights(rows[1..]);
    }
  }

  function Reweighted(rows: seq<Event>, reweight: Event -> real): seq<Event>
  {
    seq(|rows|, k requires 0 <= k < |rows| => rows[k].(genWeight := reweight(rows[k])))
  }

  function SumWeights(rows: seq<Event>): real
    decreases |rows|
  {
    if |rows| == 0 then 0.0 else rows[0].genWeight + SumWeights(rows[1..])
  }

  /** The intermediate event sets of the initial processing of a chunk. */
  datatype InitTrace = InitTrace(
    resolved: Resolved,
    counted: seq<Event>,      // events counted at the init checkpoint (data weights set)
    reweighted: seq<Event>,   // events counted at the reweight checkpoint
    metFiltered: seq<Event>,  // events counted at the MET_Filter checkpoint
    xsecsMissing: bool)       // processing stops before the reweight checkpoint

  function TraceInit(config: Config, ext: Externals, rawDs: string, rows: seq<Event>): (t: InitTrace)
    ensures t.resolved == Resolve(rawDs, config.dataHLT)
    ensures |t.counted| == |rows|
    ensures |t.metFiltered| <= |t.reweighted| <= |t.counted|
    ensures !Contains(rawDs, config.dataHLT) ==> |t.reweighted| == |t.counted|
    ensures t.xsecsMissing <==> t.resolved.mode != Data && config.xsecs.None?
    ensures Contains(rawDs, config.dataHLT) ==> t.counted == DataWeights(rows)
    ensures !Contains(rawDs, config.dataHLT) ==> t.counted == rows
    ensures var golden := if Contains(rawDs, config.dataHLT) then Filter(t.counted, ext.isGolden) else t.counted;
      && (t.resolved.mode == Data ==> t.reweighted == golden)
      && (t.resolved.mode != Data ==>
            |t.reweighted| == |golden| &&
            forall k :: 0 <= k < |golden| ==> t.reweighted[k] == golden[k].(genWeight := ext.reweight(golden[k])))
    ensures t.metFiltered == Filter(t.reweighted, ext.passesMetFilters)
  {
    var isData := Contains(rawDs, config.dataHLT);
    var counted := if isData then DataWeights(rows) else rows;
    var resolved := Resolve(rawDs, config.dataHLT);
    var golden := if isData then Filter(counted, ext.isGolden) else counted;
    var reweighted := if resolved.mode != Data then Reweighted(golden, ext.reweight) else golden;
    InitTrace(resolved, counted, reweighted, Filter(reweighted, ext.passesMetFilters),
              resolved.mode != Data && config.xsecs.None?)
  }

  /** The counters after the initial processing of a chunk: the init
      checkpoint is keyed by the raw dataset name, the other two by the
      resolved one; a missing cross-section table stops after init. */
  function CountedInit(counters: map<string, map<string, real>>, rawDs: string, t: InitTrace)
    : (r: map<string, map<string, real>>)
    requires counters.Keys == CounterNames()
    ensures r.Keys == CounterNames()
  {
    var afterInit := Recorded(counters, "init", rawDs, |t.counted|, SumWeights(t.counted));
    if t.xsecsMissing then afterInit
    else
      var afterReweight := Recorded(afterInit, "reweight", t.resolved.ds, |t.reweighted|, SumWeights(t.reweighted));
      Recorded(afterReweight, "MET_Filter", t.resolved.ds, |t.metFiltered|, SumWeights(t.metFiltered))
  }

  /** The three checkpoints recorded in order, init at `ds1` and the other
      two at `ds2`: each adds its own count and weight sum at its own key, and
      no counter changes at any other key. */
  lemma {:induction false} CheckpointChain(
    counters: map<string, map<string, real>>, ds1: string, n1: nat, w1: real,
    ds2: string, n2: nat, w2: real, n3: nat, w3: real)
    requires counters.Keys == CounterNames()
    ensures var r := Recorded(Recorded(Recorded(counters, "init", ds1, n1, w1), "reweight", ds2, n2, w2),
                              "MET_Filter", ds2, n3, w3);
      && Get(r[CountName("init")], ds1) == Get(counters[CountName("init")], ds1) + n1 as real
      && Get(r[SumName("init")], ds1) == Get(counters[SumName("init")], ds1) + w1
      && Get(r[CountName("reweight")], ds2) == Get(counters[CountName("reweight")], ds2) + n2 as real
      && Get(r[SumName("reweight")], ds2) == Get(counters[SumName("reweight")], ds2) + w2
      && Get(r[CountName("MET_Filter")], ds2) == Get(counters[CountName("MET_Filter")], ds2) + n3 as real
      && Get(r[SumName("MET_Filter")], ds2) == Get(counters[SumName("MET_Filter")], ds2) + w3
      && (forall name, k :: name in counters && k != ds1 && k != ds2 ==> Get(r[name], k) == Get(counters[name], k))
  {
    var a := Recorded(counters, "init", ds1, n1, w1);
    var b := Recorded(a, "reweight", ds2, n2, w2);
    StageCounters("init");
    StageCounters("reweight");
    StageCounters("MET_Filter");
    OtherStageNames("init", "reweight");
    OtherStageNames("init", "MET_Filter");
    OtherStageNames("reweight", "MET_Filter");
    // init: recorded first, untouched by the two later stages
    RecordedAt(counters, "init", ds1, n1, w1);
    RecordedUnchanged(a, "reweight", ds2, n2, w2, CountName("init"), ds1);
    RecordedUnchanged(a, "reweight", ds2, n2, w2, SumName("init"), ds1);
    RecordedUnchanged(b, "MET_Filter", ds2, n3, w3, CountName("init"), ds1);
    RecordedUnchanged(b, "MET_Filter", ds2, n3, w3, SumName("init"), ds1);
    // reweight: untouched by init, recorded, untouched by MET_Filter
    RecordedUnchanged(counters, "init", ds1, n1, w1, CountName("reweight"), ds2);
    RecordedUnchanged(counters, "init", ds1, n1, w1, SumName("reweight"), ds2);
    RecordedAt(a, "reweight", ds2, n2, w2);
    RecordedUnchanged(b, "MET_Filter", ds2, n3, w3, CountName("reweight"), ds2);
    RecordedUnchanged(b, "MET_Filter", ds2, n3, w3, SumName("reweight"), ds2);
    // MET_Filter: untouched by the two earlier stages, then recorded
    RecordedUnchanged(counters, "init", ds1, n1, w1, CountName("MET_Filter"), ds2);
    RecordedUnchanged(counters, "init", ds1, n1, w1, SumName("MET_Filter"), ds2);
    RecordedUnchanged(a, "reweight", ds2, n2, w2, CountName("MET_Filter"), ds2);
    RecordedUnchanged(a, "reweight", ds2, n2, w2, SumName("MET_Filter"), ds2);
    RecordedAt(b, "MET_Filter", ds2, n3, w3);
    forall name, k | name in counters && k != ds1 && k != ds2
      ensures Get(Recorded(b, "MET_Filter", ds2, n3, w3)[name], k) == Get(counters[name], k)
    {
      RecordedUnchanged(counters, "init", ds1, n1, w1, name, k);
      RecordedUnchanged(a, "reweight", ds2, n2, w2, name, k);
      RecordedUnchanged(b, "MET_Filter", ds2, n3, w3, name, k);
    }
  }

  /** Whatever the counters held before: the init checkpoint adds the chunk
      size and its weight sum (data weights already set) at the raw dataset
      name; unless the cross-section table is missing, the reweight and
      MET_Filter checkpoints add their event counts and weight sums at the
      resolved name; no counter changes at any other key. */
  lemma {:induction false} CheckpointIncrements(
    config: Config, ext: Externals, rawDs: string, rows: seq<Event>, counters: map<string, map<string, real>>)
    requires counters.Keys == CounterNames()
    ensures var t := TraceInit(config, ext, rawDs, rows);
      var r := CountedInit(counters, rawDs, t);
      && Get(r[CountName("init")], rawDs) == Get(counters[CountName("init")], rawDs) + |rows| as real
      && Get(r[SumName("init")], rawDs) == Get(counters[SumName("init")], rawDs) + SumWeights(t.counted)
      && (!t.xsecsMissing ==>
            && Get(r[CountName("reweight")], t.resolved.ds)
                 == Get(counters[CountName("reweight")], t.resolved.ds) + |t.reweighted| as real
            && Get(r[SumName("reweight")], t.resolved.ds)
                 == Get(counters[SumName("reweight")], t.resolved.ds) + SumWeights(t.reweighted)
            && Get(r[CountName("MET_Filter")], t.resolved.ds)
                 == Get(counters[CountName("MET_Filter")], t.resolved.ds) + |t.metFiltered| as real
            && Get(r[SumName("MET_Filter")], t.resolved.ds)
                 == Get(counters[SumName("MET_Filter")], t.resolved.ds) + SumWeights(t.metFiltered))
      && (forall name, k :: name in counters && k != rawDs && (t.xsecsMissing || k != t.resolved.ds) ==>
            Get(r[name], k) == Get(counters[name], k))
  {
    var t := TraceInit(config, ext, rawDs, rows);
    if t.xsecsMissing {
      RecordedOnlyAtKey(counters, "init", rawDs, |t.counted|, SumWeights(t.counted));
    } else {
      CheckpointChain(counters, rawDs, |t.counted|, SumWeights(t.counted), t.resolved.ds,
                      |t.reweighted|, SumWeights(t.reweighted), |t.metFiltered|, SumWeights(t.metFiltered));
    }
  }

  /** Three checkpoints recorded at one key, starting from empty counters:
      each count is found at its own stage and every other key stays at zero. */
  lemma {:induction false} CheckpointsAtOneKey(
    counters: map<string, map<string, real>>, ds: string, n1: nat, w1: real, n2: nat, w2: real, n3: nat, w3: real)
    requires counters.Keys == CounterNames()
    requires forall name :: name in counters ==> counters[name] == map[]
    ensures var r := Recorded(Recorded(Recorded(counters, "init", ds, n1, w1), "reweight", ds, n2, w2), "MET_Filter", ds, n3, w3);
      && r.Keys == CounterNames()
      && Get(r[CountName("init")], ds) == n1 as real
      && Get(r[CountName("reweight")], ds) == n2 as real
      && Get(r[CountName("MET_Filter")], ds) == n3 as real
      && forall name, k :: name in r && k != ds ==> Get(r[name], k) == 0.0
  {
    CheckpointChain(counters, ds, n1, w1, ds, n2, w2, n3, w3);
    StageCounters("init");
    StageCounters("reweight");
    StageCounters("MET_Filter");
    assert Get(counters[CountName("init")], ds) == 0.0;
    assert Get(counters[CountName("reweight")], ds) == 0.0;
    assert Get(counters[CountName("MET_Filter")], ds) == 0.0;
  }

  /** For a dataset that is not data, starting from empty counters, the event
      counts recorded at the three checkpoints never grow along the pipeline,
      the init count is the size of the chunk, and no key other than the
      dataset's own is touched. */
  lemma StageCountsShrink(
    config: Config, ext: Externals, rawDs: string, rows: seq<Event>, counters: map<string, map<string, real>>)
    requires counters.Keys == CounterNames()
    requires forall name :: name in counters ==> counters[name] == map[]
    requires !Contains(rawDs, config.dataHLT) && config.xsecs.Some?
    ensures var r := CountedInit(counters, rawDs, TraceInit(config, ext, rawDs, rows));
      && Get(r[CountName("MET_Filter")], rawDs) <= Get(r[CountName("reweight")], rawDs)
      && Get(r[CountName("reweight")], rawDs) <= Get(r[CountName("init")], rawDs)
      && Get(r[CountName("init")], rawDs) == |rows| as real
      && forall name, k :: name in r && k != rawDs ==> Get(r[name], k) == 0.0
  {
    var t := TraceInit(config, ext, rawDs, rows);
    CheckpointsAtOneKey(counters, rawDs, |t.counted|, SumWeights(t.counted), |t.reweighted|, SumWeights(t.reweighted),
                        |t.metFiltered|, SumWeights(t.metFiltered));
  }

  /** The batch-wide object selection: every event selected independently. */
  function SelectAll(v: DeepTauVersion, mode: Mode, variation: Option<Variation>, esOf: Tau -> TauEs, rows: seq<Event>)
    : seq<Event>
  {
    seq(|rows|, k requires 0 <= k < |rows| => SelectEvent(v, mode, variation, esOf, rows[k]))
  }

  /** The processor state: the configuration, and the dataset key and mode of
      the chunk being processed, which the initial processing sets. */
  class Processor {
    const config: Config
    var ds: string
    var mode: Mode
    var initialised: bool   // the initial processing of a chunk has completed

    constructor (config: Config)
      requires ValidConfig(config)
      ensures this.config == config && !initialised
    {
      this.config := config;
      ds := "";
      mode := MCbackground;
      initialised := false;
    }

    /** The reweight checkpoint, the MET filters, then the MET_Filter
        checkpoint, both keyed by the resolved dataset name. */
    method RecordLaterStages(out: Accumulator, events: seq<Event>, ext: Externals) returns (kept: seq<Event>)
      requires out.Valid()
      modifies out
      ensures kept == Filter(events, ext.passesMetFilters)
      ensures out.Valid()
      ensures out.counters == Recorded(Recorded(old(out.counters), "reweight", ds, |events|, SumWeights(events)),
                                       "MET_Filter", ds, |kept|, SumWeights(kept))
    {
      out.Record("reweight", ds, |events|, SumWeights(events));
      kept := Filter(events, ext.passesMetFilters);
      out.Record("MET_Filter", ds, |kept|, SumWeights(kept));
    }

    /** Resolves dataset and mode, records the three checkpoints in `out`, and
        leaves in `batch` the events that survive the golden-run filter (data)
        and the MET filters, with data weights set and MC weights rescaled.
        A missing cross-section table outside Data mode fails after the init
        checkpoint, leaving only the in-place weight change of data. */
    method InitProcess(out: Accumulator, batch: EventBatch, ext: Externals) returns (r: Outcome)
      requires out.Valid()
      modifies this, out, batch
      ensures out.Valid()
      ensures var t := TraceInit(config, ext, batch.dataset, old(batch.rows));
        && ds == t.resolved.ds && mode == t.resolved.mode
        && (r.Fail? <==> t.xsecsMissing)
        && (r.Fail? ==> r.error == MissingXsecs && batch.rows == t.counted && initialised == old(initialised))
        && (r.Pass? ==> batch.rows == t.metFiltered && initialised)
        && out.counters == CountedInit(old(out.counters), batch.dataset, t)
    {
      var rawDs, events := batch.dataset, batch.rows;
      var isData := Contains(rawDs, config.dataHLT);
      if isData {
        events := DataWeights(events);
        batch.rows := events;
      }
      out.Record("init", rawDs, |events|, SumWeights(events));

      if isData {
        events := Filter(events, ext.isGolden);
      }
      var resolved := Resolve(rawDs, config.dataHLT);
      ds, mode := resolved.ds, resolved.mode;

      if mode != Data {
        if config.xsecs.None? {
          return Fail(MissingXsecs);
        }
        events := Reweighted(events, ext.reweight);
      }
      events := RecordLaterStages(out, events, ext);
      batch.rows := events;
      initialised := true;
      r := Pass;
    }

    /** Builds the selected collections of every event, applies the tau energy
        correction (nominal, or the named variation with its MET shift; none
        for data) and then the tau pt cut. An unreadable variation name fails
        after the selected collections were written and before any correction. */
    method LeptonSelection(batch: EventBatch, ext: Externals, treeName: Option<string>) returns (r: Outcome)
      requires initialised
      modifies batch
      ensures var plan := CorrectionPlan(mode, treeName);
        && (plan.Err? ==>
              && r == Fail(plan.error)
              && batch.rows == seq(|old(batch.rows)|, k requires 0 <= k < |old(batch.rows)| =>
                                   WithSelections(config.deepTau, old(batch.rows)[k])))
        && (plan.Ok? ==>
              && r == Pass
              && batch.rows == SelectAll(config.deepTau, mode, plan.value, ext.tauEs, old(batch.rows)))
    {
      var rows, v, m := batch.rows, config.deepTau, mode;
      batch.rows := seq(|rows|, k requires 0 <= k < |rows| => WithSelections(v, rows[k]));

      var variation: Option<Variation> := None;
      if m != Data {
        if treeName.Some? {
          var parsed := ParseVariation(treeName.value);
          if parsed.Err? {
            return Fail(parsed.error);
          }
          variation := Some(parsed.value);
        }
        var selected := batch.rows;
        batch.rows := seq(|selected|, k requires 0 <= k < |selected| => Corrected(m, variation, ext.tauEs, selected[k]));
      }

      var corrected := batch.rows;
      batch.rows := seq(|corrected|, k requires 0 <= k < |corrected| => WithTauPtCut(corrected[k]));
      forall k | 0 <= k < |rows|
        ensures batch.rows[k] == SelectEvent(v, m, variation, ext.tauEs, rows[k])
      {
        assert batch.rows[k] == WithTauPtCut(corrected[k]);
      }
      r := Pass;
    }
  }
}
