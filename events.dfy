/** The event records the analysis reads: one collision with its tau, muon and
    electron collections, the selected subsets the object selection adds, and
    the missing transverse momentum (MET). Kinematic quantities are reals. */
module Events {

  /** The analysis mode resolved from the dataset name. */
  datatype Mode = Data | MCbackground | Signal

  /** DeepTau discriminator working points of one DeepTau version. */
  datatype TauId = TauId(vsMu: int, vsE: int, vsJet: int)

  datatype Tau = Tau(
    pt: real, eta: real, phi: real, mass: real, dz: real,
    decayMode: int, genPartFlav: int,
    id2018v2p5: TauId,   // idDeepTau2018v2p5VSmu / VSe / VSjet
    id2017v2p1: TauId)   // idDeepTau2017v2p1VSmu / VSe / VSjet

  datatype Muon = Muon(
    pt: real, eta: real, phi: real, mass: real, dz: real, dxy: real,
    mediumId: bool, pfRelIso03All: real, charge: int, pdgId: int)

  datatype Electron = Electron(
    pt: real, eta: real, phi: real, mass: real, dz: real, dxy: real,
    mvaNoIsoWP90: bool, pfRelIso03All: real, charge: int, pdgId: int)

  datatype Met = Met(pt: real, phi: real)

  /** One collision. `selTau`, `selMuon` and `selElectron` are the collections
      the object selection writes into the event. */
  datatype Event = Event(
    run: int, luminosityBlock: int, event: int, genWeight: real, met: Met,
    tau: seq<Tau>, muon: seq<Muon>, electron: seq<Electron>,
    selTau: seq<Tau>, selMuon: seq<Muon>, selElectron: seq<Electron>)

  /** A lepton of either flavour, as the Z-pair and third-lepton selections return it. */
  datatype Lepton = ElectronLepton(electron: Electron) | MuonLepton(muon: Muon)
  {
    function PdgId(): int
    {
      match this
      case ElectronLepton(e) => e.pdgId
      case MuonLepton(m) => m.pdgId
    }
  }

  function AbsInt(x: int): nat
  {
    if x < 0 then -x else x
  }

  function AbsReal(x: real): real
  {
    if x < 0.0 then -x else x
  }

  /** A chunk of events of one dataset. The rows are updated in place by the
      processing steps; the field names of the Electron and Muon collections
      come with the file the chunk was read from. */
  class EventBatch {
    const dataset: string
    const electronFields: seq<string>
    const muonFields: seq<string>
    var rows: seq<Event>

    constructor (dataset: string, electronFields: seq<string>, muonFields: seq<string>, rows: seq<Event>)
      ensures this.dataset == dataset && this.rows == rows
      ensures this.electronFields == electronFields && this.muonFields == muonFields
    {
      this.dataset := dataset;
      this.electronFields := electronFields;
      this.muonFields := muonFields;
      this.rows := rows;
    }
  }
}
