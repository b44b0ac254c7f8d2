/** The per-stage, per-dataset counters a channel processor accumulates:
    `n_ev_<stage>` (event count) and `sumw_<stage>` (sum of generator weights)
    for the stages init, reweight and MET_Filter. Every counter is a map from
    dataset name to a value that defaults to zero. Event counts are kept as
    reals so that both kinds of counter share one representation. */
module Accumulators {

  /** The checkpoint names, in pipeline order. */
  function Selections(): seq<string>
  {
    ["init", "reweight", "MET_Filter"]
  }

  function CountName(stage: string): string
  {
    "n_ev_" + stage
  }

  function SumName(stage: string): string
  {
    "sumw_" + stage
  }

  /** The counter names: `n_ev_<stage>` and `sumw_<stage>` for every stage. */
  function CounterNames(): set<string>
  {
    (set s | s in Selections() :: CountName(s)) + (set s | s in Selections() :: SumName(s))
  }

  /** There are exactly six counters, two per stage. */
  lemma SixCounters()
    ensures CounterNames() ==
      {"n_ev_init", "sumw_init", "n_ev_reweight", "sumw_reweight", "n_ev_MET_Filter", "sumw_MET_Filter"}
  {
    assert CountName("init") == "n_ev_init" && SumName("init") == "sumw_init";
    assert CountName("reweight") == "n_ev_reweight" && SumName("reweight") == "sumw_reweight";
    assert CountName("MET_Filter") == "n_ev_MET_Filter" && SumName("MET_Filter") == "sumw_MET_Filter";
  }

  lemma StageCounters(stage: string)
    requires stage in Selections()
    ensures CountName(stage) in CounterNames() && SumName(stage) in CounterNames()
  {
  }

  /** The counters of two different stages have four different names. */
  lemma OtherStageNames(s1: string, s2: string)
    requires s1 != s2
    ensures CountName(s1) != CountName(s2) && SumName(s1) != SumName(s2)
    ensures CountName(s1) != SumName(s2) && SumName(s1) != CountName(s2)
  {
    assert CountName(s1)[5..] == s1 && CountName(s2)[5..] == s2;
    assert SumName(s1)[5..] == s1 && SumName(s2)[5..] == s2;
    assert CountName(s1)[0] == 'n' && SumName(s2)[0] == 's';
    assert CountName(s2)[0] == 'n' && SumName(s1)[0] == 's';
  }

  /** Reading a zero-defaulting counter. */
  function Get(m: map<string, real>, key: string): real
  {
    if key in m then m[key] else 0.0
  }

  /** `counters[name][key] += amount` on zero-defaulting counters. */
  function Bumped(counters: map<string, map<string, real>>, name: string, key: string, amount: real)
    : (r: map<string, map<string, real>>)
    requires name in counters
    ensures r.Keys == counters.Keys
    ensures Get(r[name], key) == Get(counters[name], key) + amount
    ensures forall n, k :: n in counters && (n != name || k != key) ==> Get(r[n], k) == Get(counters[n], k)
  {
    counters[name := counters[name][key := Get(counters[name], key) + amount]]
  }

  /** The counters after recording one checkpoint: `n` events of total weight `w` for dataset `ds`. */
  function Recorded(counters: map<string, map<string, real>>, stage: string, ds: string, n: nat, w: real)
    : (r: map<string, map<string, real>>)
    requires counters.Keys == CounterNames() && stage in Selections()
    ensures r.Keys == counters.Keys
  {
    StageCounters(stage);
    Bumped(Bumped(counters, SumName(stage), ds, w), CountName(stage), ds, n as real)
  }

  /** The two counters of the recorded stage grow at the recorded key. */
  lemma RecordedAt(counters: map<string, map<string, real>>, stage: string, ds: string, n: nat, w: real)
    requires stage in Selections() && counters.Keys == CounterNames()
    ensures var r := Recorded(counters, stage, ds, n, w);
      && Get(r[CountName(stage)], ds) == Get(counters[CountName(stage)], ds) + n as real
      && Get(r[SumName(stage)], ds) == Get(counters[SumName(stage)], ds) + w
  {
    StageCounters(stage);
    assert CountName(stage)[0] == 'n' && SumName(stage)[0] == 's';
  }

  /** Any other counter, and any other key, reads the same after recording. */
  lemma RecordedUnchanged(
    counters: map<string, map<string, real>>, stage: string, ds: string, n: nat, w: real, name: string, k: string)
    requires stage in Selections() && counters.Keys == CounterNames() && name in counters
    requires (name != CountName(stage) && name != SumName(stage)) || k != ds
    ensures Get(Recorded(counters, stage, ds, n, w)[name], k) == Get(counters[name], k)
  {
    StageCounters(stage);
  }

  /** Recording a checkpoint adds exactly `n` and `w` to the two counters of
      that stage at key `ds`, and changes no other counter at any key. */
  lemma RecordedOnlyAtKey(counters: map<string, map<string, real>>, stage: string, ds: string, n: nat, w: real)
    requires stage in Selections() && counters.Keys == CounterNames()
    ensures var r := Recorded(counters, stage, ds, n, w);
      && Get(r[CountName(stage)], ds) == Get(counters[CountName(stage)], ds) + n as real
      && Get(r[SumName(stage)], ds) == Get(counters[SumName(stage)], ds) + w
      && (forall name, k :: name in counters && name != CountName(stage) && name != SumName(stage) ==>
            Get(r[name], k) == Get(counters[name], k))
      && (forall name, k :: name in counters && k != ds ==> Get(r[name], k) == Get(counters[name], k))
  {
    RecordedAt(counters, stage, ds, n, w);
    forall name, k | name in counters && ((name != CountName(stage) && name != SumName(stage)) || k != ds)
      ensures Get(Recorded(counters, stage, ds, n, w)[name], k) == Get(counters[name], k)
    {
      RecordedUnchanged(counters, stage, ds, n, w, name, k);
    }
  }

  class Accumulator {
    var counters: map<string, map<string, real>>

    ghost predicate Valid()
      reads this
    {
      counters.Keys == CounterNames()
    }

    /** One empty counter per name, filled stage by stage. */
    constructor ()
      ensures Valid()
      ensures forall name :: name in counters ==> counters[name] == map[]
    {
      var acc: map<string, map<string, real>> := map[];
      var stages := Selections();
      for i := 0 to |stages|
        invariant acc.Keys == (set s | s in stages[..i] :: CountName(s)) + (set s | s in stages[..i] :: SumName(s))
        invariant forall name :: name in acc ==> acc[name] == map[]
      {
        acc := acc[CountName(stages[i]) := map[]][SumName(stages[i]) := map[]];
      }
      assert stages[..|stages|] == stages;
      counters := acc;
    }

    /** A deep copy: the new accumulator shares no state with `other`. */
    constructor Copy(other: Accumulator)
      ensures counters == other.counters
    {
      counters := other.counters;
    }

    /** Adds `w` to `sumw_<stage>[ds]` and `n` to `n_ev_<stage>[ds]`. */
    method Record(stage: string, ds: string, n: nat, w: real)
      requires Valid() && stage in Selections()
      modifies this
      ensures Valid()
      ensures counters == Recorded(old(counters), stage, ds, n, w)
    {
      StageCounters(stage);
      counters := Bumped(counters, SumName(stage), ds, w);
      counters := Bumped(counters, CountName(stage), ds, n as real);
    }
  }
}
