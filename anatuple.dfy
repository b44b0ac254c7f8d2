/** Assembly of the per-event output record of a channel and the choice of a
    file name that does not overwrite an earlier output. */
module Anatuple {
  import opened Wrappers
  import opened Strings
  import opened Seqs
  import opened Events

  /** A surviving event with its Z-candidate lepton pair (from the pair selection). */
  datatype PairSel = PairSel(ev: Event, lepton1: Lepton, lepton2: Lepton)

  /** A surviving event with its pair and its third lepton (from the third-lepton selection). */
  datatype Triple = Triple(ev: Event, lepton1: Lepton, lepton2: Lepton, third: Lepton)

  /** The pair and third-lepton selections, whose code is not part of this
      model; each returns one entry per surviving event. The third-lepton
      selection is told the target flavour by name. */
  datatype Selectors = Selectors(
    zSelect: seq<Event> -> seq<PairSel>,
    thirdSelect: (seq<PairSel>, string) -> seq<Triple>)

  /** The events of a list of pair selections, in order. */
  function EventsOf(pairs: seq<PairSel>): (r: seq<Event>)
    ensures |r| == |pairs| && forall j :: 0 <= j < |pairs| ==> r[j] == pairs[j].ev
  {
    seq(|pairs|, j requires 0 <= j < |pairs| => pairs[j].ev)
  }

  /** Selections that only return entries for events they were handed. */
  ghost predicate SelectorsKeepEvents(sel: Selectors)
  {
    && (forall evs: seq<Event>, k :: 0 <= k < |sel.zSelect(evs)| ==> sel.zSelect(evs)[k].ev in evs)
    && (forall pairs: seq<PairSel>, flavour: string, k :: 0 <= k < |sel.thirdSelect(pairs, flavour)| ==>
          sel.thirdSelect(pairs, flavour)[k].ev in EventsOf(pairs))
  }

  datatype Column = Ints(ints: seq<int>) | Reals(reals: seq<real>) | Bools(bools: seq<bool>)
  {
    function Length(): nat
    {
      match this
      case Ints(s) => |s|
      case Reals(s) => |s|
      case Bools(s) => |s|
    }
  }

  /** A request to write every field of `leptons` except those in `exclude`,
      each under the name `<prefix>_<field>`; the writing helper is not part
      of this model. */
  datatype LeptonBlock = LeptonBlock(leptons: seq<Lepton>, exclude: seq<string>, prefix: string)

  datatype Record = Record(columns: map<string, Column>, blocks: seq<LeptonBlock>)

  /** The chosen output file, its index and the record to write into it. */
  datatype Saved = Saved(file: string, index: nat, record: Record)

  /** The fixed root of all output directories. */
  const OutputRoot: string := "/afs/cern.ch/work/p/pdebryas/HNL/tmp/"

  function OutputDir(period: string, tag: string, channel: string, ds: string): string
  {
    OutputRoot + period + "/" + tag + "/" + channel + "/" + ds + "/"
  }

  /** `<dir><ds>_anatuple_<i>.root` */
  function AnatupleName(dir: string, ds: string, i: nat): string
  {
    dir + ds + "_anatuple_" + NatToString(i) + ".root"
  }

  /** Different indices give different file names. */
  lemma AnatupleNameInjective(dir: string, ds: string, i: nat, j: nat)
    requires AnatupleName(dir, ds, i) == AnatupleName(dir, ds, j)
    ensures i == j
  {
    var prefix := dir + ds + "_anatuple_";
    var a, b := NatToString(i), NatToString(j);
    assert AnatupleName(dir, ds, i) == prefix + a + ".root";
    assert AnatupleName(dir, ds, j) == prefix + b + ".root";
    assert |a| == |b|;
    assert (prefix + a + ".root")[|prefix|..|prefix| + |a|] == a;
    assert (prefix + b + ".root")[|prefix|..|prefix| + |b|] == b;
    NatToStringInjective(i, j);
  }

  lemma {:induction false} NamesBelowCount(dir: string, ds: string, n: nat)
    ensures |set j | 0 <= j < n :: AnatupleName(dir, ds, j)| == n
  {
    if n > 0 {
      var below := set j | 0 <= j < n - 1 :: AnatupleName(dir, ds, j);
      NamesBelowCount(dir, ds, n - 1);
      assert AnatupleName(dir, ds, n - 1) !in below by {
        if AnatupleName(dir, ds, n - 1) in below {
          var j :| 0 <= j < n - 1 && AnatupleName(dir, ds, j) == AnatupleName(dir, ds, n - 1);
          AnatupleNameInjective(dir, ds, j, n - 1);
        }
      }
      assert (set j | 0 <= j < n :: AnatupleName(dir, ds, j)) == below + {AnatupleName(dir, ds, n - 1)};
    }
  }

  lemma {:induction false} SubsetCard(a: set<string>, b: set<string>)
    requires a <= b
    ensures |a| <= |b|
  {
    if a != {} {
      var x :| x in a;
      SubsetCard(a - {x}, b - {x});
    }
  }

  /** The first index whose file name is not taken: the chosen name is free
      and every smaller index names an existing file. */
  method ChooseSaveFile(existing: set<string>, dir: string, ds: string) returns (i: nat, saveFile: string)
    ensures saveFile == AnatupleName(dir, ds, i)
    ensures saveFile !in existing
    ensures forall j :: 0 <= j < i ==> AnatupleName(dir, ds, j) in existing
  {
    i := 0;
    saveFile := AnatupleName(dir, ds, 0);
    while saveFile in existing
      invariant saveFile == AnatupleName(dir, ds, i)
      invariant forall j :: 0 <= j < i ==> AnatupleName(dir, ds, j) in existing
      invariant i <= |existing|
      decreases |existing| - i
    {
      var taken := set j | 0 <= j < i + 1 :: AnatupleName(dir, ds, j);
      assert taken <= existing;
      NamesBelowCount(dir, ds, i + 1);
      SubsetCard(taken, existing);
      i := i + 1;
      saveFile := AnatupleName(dir, ds, i);
    }
  }

  /** The fields of `xs` that are not in `ys`, in the order of `xs`. */
  function Without(xs: seq<string>, ys: seq<string>): seq<string>
  {
    Filter(xs, f => f !in ys)
  }

  /** The fields excluded from the pair blocks: those of the Electron
      collection missing from the Muon collection, then those of the Muon
      collection missing from the Electron collection. A field is excluded
      exactly when it belongs to one collection only. */
  function ExcludeList(electronFields: seq<string>, muonFields: seq<string>): (r: seq<string>)
    ensures forall k :: 0 <= k < |r| ==>
      (r[k] in electronFields && r[k] !in muonFields) || (r[k] in muonFields && r[k] !in electronFields)
    ensures forall k :: 0 <= k < |electronFields| && electronFields[k] !in muonFields ==> electronFields[k] in r
    ensures forall k :: 0 <= k < |muonFields| && muonFields[k] !in electronFields ==> muonFields[k] in r
  {
    Without(electronFields, muonFields) + Without(muonFields, electronFields)
  }

  /** Swapping the two collections excludes the same fields. */
  lemma ExcludeListSymmetric(electronFields: seq<string>, muonFields: seq<string>, f: string)
    ensures f in ExcludeList(electronFields, muonFields) <==> f in ExcludeList(muonFields, electronFields)
  {
    var r, s := ExcludeList(electronFields, muonFields), ExcludeList(muonFields, electronFields);
    if f in r {
      var k :| 0 <= k < |r| && r[k] == f;
      if f in electronFields {
        var i :| 0 <= i < |electronFields| && electronFields[i] == f;
      } else {
        var i :| 0 <= i < |muonFields| && muonFields[i] == f;
      }
    }
    if f in s {
      var k :| 0 <= k < |s| && s[k] == f;
      if f in electronFields {
        var i :| 0 <= i < |electronFields| && electronFields[i] == f;
      } else {
        var i :| 0 <= i < |muonFields| && muonFields[i] == f;
      }
    }
  }

  /** The text after the last '-' of the dataset name, or the whole name when it has none. */
  function MassSuffix(ds: string): (r: string)
    ensures '-' !in r
    ensures |r| <= |ds| && ds[|ds| - |r|..] == r
    ensures |r| < |ds| ==> ds[|ds| - |r| - 1] == '-'
  {
    ds[LastIndexOf(ds, '-') + 1..]
  }

  /** The HNL mass of a signal dataset: the integer after its last '-'. */
  function ParseHnlMass(ds: string): (r: Result<nat>)
    ensures r.Ok? <==> ParseNat(MassSuffix(ds)).Some?
    ensures r.Ok? ==> ParseNat(MassSuffix(ds)) == Some(r.value)
    ensures r.Err? ==> r.error == BadMassSuffix(MassSuffix(ds))
  {
    match ParseNat(MassSuffix(ds))
    case Some(m) => Ok(m)
    case None => Err(BadMassSuffix(MassSuffix(ds)))
  }

  /** A dataset named `<prefix>-<n>` has HNL mass n, whatever the prefix holds. */
  lemma HnlMassOfName(prefix: string, n: nat)
    ensures ParseHnlMass(prefix + "-" + NatToString(n)) == Ok(n)
  {
    var digits := NatToString(n);
    var ds := prefix + "-" + digits;
    assert '-' !in digits by {
      assert forall k :: 0 <= k < |digits| ==> IsDigit(digits[k]);
    }
    var i := LastIndexOf(ds, '-');
    assert ds[|prefix|] == '-';
    assert forall k :: |prefix| < k < |ds| ==> ds[k] == digits[k - |prefix| - 1];
    assert i == |prefix|;
    assert ds[i + 1..] == digits;
    ParseNatToString(n);
  }

  /** The names of the columns every record holds. */
  function BaseNames(): set<string>
  {
    {"event", "genWeight", "luminosityBlock", "run", "MET_pt", "MET_phi", "IsLeptonPairMuons"}
  }

  /** The event-level columns, one entry per surviving event. */
  function BaseColumns(triples: seq<Triple>): (r: map<string, Column>)
    ensures r.Keys == BaseNames()
    ensures forall name :: name in r ==> r[name].Length() == |triples|
    ensures r["IsLeptonPairMuons"].Bools? && |r["IsLeptonPairMuons"].bools| == |triples|
    ensures forall k :: 0 <= k < |triples| ==>
      (r["IsLeptonPairMuons"].bools[k] <==> AbsInt(triples[k].lepton1.PdgId()) == 13)
    ensures r["event"] == Ints(seq(|triples|, k requires 0 <= k < |triples| => triples[k].ev.event))
    ensures r["genWeight"] == Reals(seq(|triples|, k requires 0 <= k < |triples| => triples[k].ev.genWeight))
    ensures r["luminosityBlock"] == Ints(seq(|triples|, k requires 0 <= k < |triples| => triples[k].ev.luminosityBlock))
    ensures r["run"] == Ints(seq(|triples|, k requires 0 <= k < |triples| => triples[k].ev.run))
    ensures r["MET_pt"] == Reals(seq(|triples|, k requires 0 <= k < |triples| => triples[k].ev.met.pt))
    ensures r["MET_phi"] == Reals(seq(|triples|, k requires 0 <= k < |triples| => triples[k].ev.met.phi))
  {
    var n := |triples|;
    map[
      "event" := Ints(seq(n, k requires 0 <= k < n => triples[k].ev.event)),
      "genWeight" := Reals(seq(n, k requires 0 <= k < n => triples[k].ev.genWeight)),
      "luminosityBlock" := Ints(seq(n, k requires 0 <= k < n => triples[k].ev.luminosityBlock)),
      "run" := Ints(seq(n, k requires 0 <= k < n => triples[k].ev.run)),
      "MET_pt" := Reals(seq(n, k requires 0 <= k < n => triples[k].ev.met.pt)),
      "MET_phi" := Reals(seq(n, k requires 0 <= k < n => triples[k].ev.met.phi)),
      "IsLeptonPairMuons" := Bools(seq(n, k requires 0 <= k < n => AbsInt(triples[k].lepton1.PdgId()) == 13))
    ]
  }

  /** What the output record of a channel holds: the event-level columns, the
      HNL mass column exactly for signal (the mass repeated for every event),
      and the three lepton blocks. */
  ghost predicate IsAnatuple(
    rec: Record, triples: seq<Triple>, mode: Mode, ds: string,
    electronFields: seq<string>, muonFields: seq<string>, thirdPrefix: string)
  {
    var n := |triples|;
    && rec.columns.Keys == BaseNames() + (if mode == Signal then {"HNLmass"} else {})
    && (forall name :: name in BaseNames() ==> rec.columns[name] == BaseColumns(triples)[name])
    && (mode == Signal ==>
          ParseHnlMass(ds).Ok? && rec.columns["HNLmass"] == Reals(seq(n, k => ParseHnlMass(ds).value as real)))
    && rec.blocks == [
         LeptonBlock(seq(n, k requires 0 <= k < n => triples[k].lepton1), ExcludeList(electronFields, muonFields), "Lepton1"),
         LeptonBlock(seq(n, k requires 0 <= k < n => triples[k].lepton2), ExcludeList(electronFields, muonFields), "Lepton2"),
         LeptonBlock(seq(n, k requires 0 <= k < n => triples[k].third), ["genPartIdx"], thirdPrefix)]
  }

  /** Builds the record of a channel: the event-level columns, the HNL mass
      for signal, then the Lepton1 and Lepton2 blocks without the fields
      proper to one flavour, then the third-lepton block without
      `genPartIdx`. Fails only when a signal dataset has no integer mass suffix. */
  method AssembleRecord(
    triples: seq<Triple>, mode: Mode, ds: string,
    electronFields: seq<string>, muonFields: seq<string>, thirdPrefix: string) returns (r: Result<Record>)
    ensures r.Err? <==> mode == Signal && ParseHnlMass(ds).Err?
    ensures r.Err? ==> r.error == BadMassSuffix(MassSuffix(ds))
    ensures r.Ok? ==> IsAnatuple(r.value, triples, mode, ds, electronFields, muonFields, thirdPrefix)
    ensures r.Ok? ==> forall name :: name in r.value.columns ==> r.value.columns[name].Length() == |triples|
  {
    var n := |triples|;
    var lst := BaseColumns(triples);
    if mode == Signal {
      var mass := ParseHnlMass(ds);
      if mass.Err? {
        return Err(mass.error);
      }
      lst := lst["HNLmass" := Reals(seq(n, k => mass.value as real))];
    }
    var excludeList := ExcludeList(electronFields, muonFields);
    var blocks := [LeptonBlock(seq(n, k requires 0 <= k < n => triples[k].lepton1), excludeList, "Lepton1")];
    blocks := blocks + [LeptonBlock(seq(n, k requires 0 <= k < n => triples[k].lepton2), excludeList, "Lepton2")];
    blocks := blocks + [LeptonBlock(seq(n, k requires 0 <= k < n => triples[k].third), ["genPartIdx"], thirdPrefix)];
    r := Ok(Record(lst, blocks));
  }
}
