/**
 * The records the converters read from the generator's truth information:
 * particles, the incoming neutrino, one truth record per interaction, and the
 * seven flattened per-particle columns written to the output tree.
 */
module Events {
  import opened Geometry

  /** One generator particle: PDG code, status, index of its mother (-1 if none), four-momentum. */
  datatype Particle = Particle(pdg: int, status: int, mother: int, px: real, py: real, pz: real, energy: real)

  function Momentum(p: Particle): Vector3D {
    Vector3D(p.px, p.py, p.pz)
  }

  /**
   * The incoming neutrino of a truth record: its PDG code, CCNC() (0 for charged
   * current, 1 for neutral current), the generator's Mode() and InteractionType().
   */
  datatype Neutrino = Neutrino(nuPdg: int, ccnc: int, mode: int, interactionType: int)

  /** One generator truth record: the neutrino and its positional particle list. */
  datatype MCTruth = MCTruth(neutrino: Neutrino, particles: seq<Particle>)

  /** Every mother index is -1 or a position in the same list (indexing outside it is undefined in the source). */
  predicate MothersInRange(ps: seq<Particle>) {
    forall i :: 0 <= i < |ps| ==> ps[i].mother == -1 || 0 <= ps[i].mother < |ps|
  }

  predicate TruthMothersInRange(truths: seq<MCTruth>) {
    forall j :: 0 <= j < |truths| ==> MothersInRange(truths[j].particles)
  }

  /** The seven parallel per-particle vectors of the output tree. */
  datatype Columns = Columns(
    pdgCodes: seq<int>,
    statusCodes: seq<int>,
    momentumX: seq<real>,
    momentumY: seq<real>,
    momentumZ: seq<real>,
    energies: seq<real>,
    mothers: seq<real>)

  /** Entry i of every column is taken from the same particle i. */
  predicate ColumnsDescribe(c: Columns, ps: seq<Particle>) {
    && |c.pdgCodes| == |ps| && |c.statusCodes| == |ps|
    && |c.momentumX| == |ps| && |c.momentumY| == |ps| && |c.momentumZ| == |ps|
    && |c.energies| == |ps| && |c.mothers| == |ps|
    && forall i :: 0 <= i < |ps| ==>
         && c.pdgCodes[i] == ps[i].pdg
         && c.statusCodes[i] == ps[i].status
         && c.momentumX[i] == ps[i].px
         && c.momentumY[i] == ps[i].py
         && c.momentumZ[i] == ps[i].pz
         && c.energies[i] == ps[i].energy
         && c.mothers[i] == ps[i].mother as real
  }

  const NoColumns := Columns([], [], [], [], [], [], [])

  /** Column-wise concatenation: what pushing the entries of `d` after those of `c` gives. */
  function AppendColumns(c: Columns, d: Columns): Columns {
    Columns(
      c.pdgCodes + d.pdgCodes,
      c.statusCodes + d.statusCodes,
      c.momentumX + d.momentumX,
      c.momentumY + d.momentumY,
      c.momentumZ + d.momentumZ,
      c.energies + d.energies,
      c.mothers + d.mothers)
  }

  /** The one entry per column that a particle contributes. */
  function ParticleColumns(p: Particle): Columns {
    Columns([p.pdg], [p.status], [p.px], [p.py], [p.pz], [p.energy], [p.mother as real])
  }

  /** The columns that flattening `ps` produces, particle after particle. */
  function ColumnsOf(ps: seq<Particle>): Columns {
    if ps == [] then NoColumns else AppendColumns(ColumnsOf(ps[..|ps| - 1]), ParticleColumns(ps[|ps| - 1]))
  }

  /** All particles of the given truth records, record after record. */
  function Flatten(truths: seq<MCTruth>): (ps: seq<Particle>)
  {
    if truths == [] then [] else Flatten(truths[..|truths| - 1]) + truths[|truths| - 1].particles
  }
}
