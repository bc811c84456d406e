/**
 * The per-event pass of the analysis step: the counters are reset, then one
 * scan over the event's particles counts visible leptons and pions, tracks the
 * leading negative pion, sums the remaining visible energy and accumulates the
 * missing momentum, whose part transverse to the beam line is stored.
 */
module Analysis {
  import opened Geometry
  import opened Events
  import opened Visibility

  predicate Visible(p: Particle) {
    IsVisibleAndSufficientEnergy(p.pdg, p.status, p.energy)
  }

  predicate IsLeptonCode(pdg: int) {
    pdg == 11 || pdg == -11 || pdg == 13 || pdg == -13
  }

  predicate IsChargedPionCode(pdg: int) {
    pdg == 211 || pdg == -211
  }

  predicate IsVisibleNegPion(p: Particle) {
    Visible(p) && p.pdg == -211
  }

  /** Number of visible electrons, positrons and muons of either charge. */
  function CountVisibleLeptons(ps: seq<Particle>): (n: nat)
    ensures n <= |ps|
  {
    if ps == [] then 0
    else CountVisibleLeptons(ps[..|ps| - 1]) + (if Visible(ps[|ps| - 1]) && IsLeptonCode(ps[|ps| - 1].pdg) then 1 else 0)
  }

  /** Number of visible pi-. */
  function CountVisibleNegPions(ps: seq<Particle>): (n: nat)
    ensures n <= |ps|
  {
    if ps == [] then 0
    else CountVisibleNegPions(ps[..|ps| - 1]) + (if IsVisibleNegPion(ps[|ps| - 1]) then 1 else 0)
  }

  /** Number of visible pi+ and pi-. */
  function CountVisibleChargedPions(ps: seq<Particle>): (n: nat)
    ensures n <= |ps|
  {
    if ps == [] then 0
    else CountVisibleChargedPions(ps[..|ps| - 1]) + (if Visible(ps[|ps| - 1]) && IsChargedPionCode(ps[|ps| - 1].pdg) then 1 else 0)
  }

  /** Sum of the energies of the visible particles. */
  function VisibleEnergy(ps: seq<Particle>): real {
    if ps == [] then 0.0
    else VisibleEnergy(ps[..|ps| - 1]) + (if Visible(ps[|ps| - 1]) then ps[|ps| - 1].energy else 0.0)
  }

  /** Vector sum of the momenta of the visible particles. */
  function VisibleMomentum(ps: seq<Particle>): Vector3D {
    if ps == [] then Zero
    else if Visible(ps[|ps| - 1]) then Plus(VisibleMomentum(ps[..|ps| - 1]), Momentum(ps[|ps| - 1]))
    else VisibleMomentum(ps[..|ps| - 1])
  }

  /** The running leading energy: replaced by a visible pi- whose energy exceeds it, starting at 0. */
  function LeadingNegPionEnergy(ps: seq<Particle>): real {
    if ps == [] then 0.0
    else
      var lead := LeadingNegPionEnergy(ps[..|ps| - 1]);
      var p := ps[|ps| - 1];
      if IsVisibleNegPion(p) && p.energy > lead then p.energy else lead
  }

  /** Every visible pi- is also a visible charged pion. */
  lemma {:induction false} NegPionsAtMostChargedPions(ps: seq<Particle>)
    ensures CountVisibleNegPions(ps) <= CountVisibleChargedPions(ps)
  {
    if ps != [] {
      NegPionsAtMostChargedPions(ps[..|ps| - 1]);
    }
  }

  /**
   * The leading energy is the largest energy of a visible pi-, and 0 exactly
   * when the event has none (a visible pion carries more than 0.1).
   */
  lemma {:induction false} LeadingIsMaximum(ps: seq<Particle>)
    ensures forall i :: 0 <= i < |ps| && IsVisibleNegPion(ps[i]) ==> ps[i].energy <= LeadingNegPionEnergy(ps)
    ensures LeadingNegPionEnergy(ps) == 0.0 <==> forall i :: 0 <= i < |ps| ==> !IsVisibleNegPion(ps[i])
    ensures LeadingNegPionEnergy(ps) != 0.0 ==>
      exists i :: 0 <= i < |ps| && IsVisibleNegPion(ps[i]) && ps[i].energy == LeadingNegPionEnergy(ps)
  {
    if ps != [] {
      var init := ps[..|ps| - 1];
      var p := ps[|ps| - 1];
      LeadingIsMaximum(init);
      assert forall i :: 0 <= i < |init| ==> init[i] == ps[i];
      if IsVisibleNegPion(p) {
        EnergyThresholds(p.pdg, p.status, p.energy);
      }
      if LeadingNegPionEnergy(ps) != 0.0 && LeadingNegPionEnergy(ps) == LeadingNegPionEnergy(init) {
        var i :| 0 <= i < |init| && IsVisibleNegPion(init[i]) && init[i].energy == LeadingNegPionEnergy(init);
        assert ps[i] == init[i];
      }
    }
  }

  /** The source's `missingMomentum - particleMomentum` step keeps the running vector the negated sum. */
  lemma SubtractExtendsNegatedSum(sum: Vector3D, p: Vector3D)
    ensures Minus(Negate(sum), p) == Negate(Plus(sum, p))
  {
  }

  /**
   * The loop `for (size_t j = 0; j < particleCount; j++)` reads entry j of the
   * code, status, momentum and energy vectors: the count, converted to
   * `size_t`, must not be negative and must not exceed any of those vectors
   * (an out-of-range read is undefined behaviour). The mother vector is not read.
   */
  predicate ColumnsCover(c: Columns, count: int) {
    && 0 <= count
    && count <= |c.pdgCodes| && count <= |c.statusCodes|
    && count <= |c.momentumX| && count <= |c.momentumY| && count <= |c.momentumZ|
    && count <= |c.energies|
  }

  /**
   * Particle j as the loop sees it. The mother is not a branch the analysis
   * reads; it is taken from the mother vector when that has an entry j, so that
   * reading back the vectors a converter wrote gives its particles back.
   */
  function ReadParticle(c: Columns, j: nat): (p: Particle)
    requires ColumnsCover(c, j + 1)
    ensures p.pdg == c.pdgCodes[j] && p.status == c.statusCodes[j] && p.energy == c.energies[j]
    ensures Momentum(p) == Vector3D(c.momentumX[j], c.momentumY[j], c.momentumZ[j])
  {
    Particle(c.pdgCodes[j], c.statusCodes[j], if j < |c.mothers| then c.mothers[j].Floor else -1,
      c.momentumX[j], c.momentumY[j], c.momentumZ[j], c.energies[j])
  }

  /** The first `count` particles of an entry, in the order the loop visits them. */
  function EntryParticles(c: Columns, count: nat): (ps: seq<Particle>)
    requires ColumnsCover(c, count)
    ensures |ps| == count
    ensures forall j :: 0 <= j < count ==> ps[j] == ReadParticle(c, j)
  {
    seq(count, j requires 0 <= j < count => ReadParticle(c, j))
  }

  /**
   * The output branches of the analysis tree that the per-event pass writes
   * through references (`resetCounts`) and updates particle by particle.
   */
  class EventSummary {
    var leptonCount: int
    var negPionCount: int
    var chargedPionCount: int
    var leadingPionEnergy: real
    var otherParticleEnergySum: real
    var missingTransverseMomentumSquared: real
    var weight: real

    constructor ()
      ensures leptonCount == 0 && negPionCount == 0 && chargedPionCount == 0
      ensures leadingPionEnergy == 0.0 && otherParticleEnergySum == 0.0
      ensures missingTransverseMomentumSquared == 0.0 && weight == 0.0
    {
      leptonCount, negPionCount, chargedPionCount := 0, 0, 0;
      leadingPionEnergy, otherParticleEnergySum := 0.0, 0.0;
      missingTransverseMomentumSquared, weight := 0.0, 0.0;
    }

    /** `resetCounts`: every output branch back to zero. */
    method ResetCounts()
      modifies this
      ensures leptonCount == 0 && negPionCount == 0 && chargedPionCount == 0
      ensures leadingPionEnergy == 0.0 && otherParticleEnergySum == 0.0
      ensures missingTransverseMomentumSquared == 0.0 && weight == 0.0
    {
      leptonCount := 0;
      negPionCount := 0;
      chargedPionCount := 0;
      leadingPionEnergy := 0.0;
      otherParticleEnergySum := 0.0;
      missingTransverseMomentumSquared := 0.0;
      weight := 0.0;
    }

    /**
     * One iteration of the entry loop: reset the branches and scan the first
     * `particleCount` entries of the vectors, store the flux weight found in
     * the histogram bin of the entry's first energy, then take the missing
     * momentum transverse to the beam line. Nothing from an earlier entry
     * survives. `binContent` stands for `GetBinContent(FindBin(·))` on the flux
     * histogram. The source stores the weight between the reset and the scan;
     * the scan touches neither the weight nor the transverse momentum, so every
     * branch ends with the same value.
     */
    method ProcessEvent(columns: Columns, particleCount: int, beamline: Vector3D, binContent: real -> real)
      requires ColumnsCover(columns, particleCount) && columns.energies != []
      modifies this
      ensures leptonCount == CountVisibleLeptons(EntryParticles(columns, particleCount))
      ensures negPionCount == CountVisibleNegPions(EntryParticles(columns, particleCount))
      ensures chargedPionCount == CountVisibleChargedPions(EntryParticles(columns, particleCount))
      ensures leadingPionEnergy == LeadingNegPionEnergy(EntryParticles(columns, particleCount))
      ensures leadingPionEnergy + otherParticleEnergySum == VisibleEnergy(EntryParticles(columns, particleCount))
      ensures missingTransverseMomentumSquared ==
        TransverseSquared(Negate(VisibleMomentum(EntryParticles(columns, particleCount))), beamline)
      ensures weight == binContent(columns.energies[0])
    {
      var missingMomentum := ScanParticles(columns, particleCount);
      weight := binContent(columns.energies[0]);
      missingTransverseMomentumSquared := TransverseSquared(missingMomentum, beamline);
    }

    /**
     * `resetCounts`, then the particle loop `for (size_t j = 0; j < particleCount; j++)`:
     * it leaves the counts, the leading pi- energy and the remaining visible
     * energy of the first `particleCount` particles in the branches and returns
     * the negated sum of their visible momenta.
     */
    method ScanParticles(columns: Columns, particleCount: int) returns (missingMomentum: Vector3D)
      requires ColumnsCover(columns, particleCount)
      modifies this
      ensures leptonCount == CountVisibleLeptons(EntryParticles(columns, particleCount))
      ensures negPionCount == CountVisibleNegPions(EntryParticles(columns, particleCount))
      ensures chargedPionCount == CountVisibleChargedPions(EntryParticles(columns, particleCount))
      ensures leadingPionEnergy == LeadingNegPionEnergy(EntryParticles(columns, particleCount))
      ensures leadingPionEnergy + otherParticleEnergySum == VisibleEnergy(EntryParticles(columns, particleCount))
      ensures missingMomentum == Negate(VisibleMomentum(EntryParticles(columns, particleCount)))
    {
      ResetCounts();
      missingMomentum := Zero;
      ghost var particles := EntryParticles(columns, particleCount);
      var j := 0;
      while j < particleCount
        invariant 0 <= j <= particleCount
        invariant leptonCount == CountVisibleLeptons(particles[..j])
        invariant negPionCount == CountVisibleNegPions(particles[..j])
        invariant chargedPionCount == CountVisibleChargedPions(particles[..j])
        invariant leadingPionEnergy == LeadingNegPionEnergy(particles[..j])
        invariant leadingPionEnergy + otherParticleEnergySum == VisibleEnergy(particles[..j])
        invariant missingMomentum == Negate(VisibleMomentum(particles[..j]))
      {
        var p := ReadParticle(columns, j);
        assert particles[..j + 1][..j] == particles[..j];
        var isVisible := IsVisibleAndSufficientEnergy(p.pdg, p.status, p.energy);
        if isVisible {
          if p.pdg == 11 || p.pdg == -11 || p.pdg == 13 || p.pdg == -13 {
            leptonCount := leptonCount + 1;
          }
          if p.pdg == -211 {
            negPionCount := negPionCount + 1;
          }
          if p.pdg == 211 || p.pdg == -211 {
            chargedPionCount := chargedPionCount + 1;
          }
          if p.pdg == -211 && p.energy > leadingPionEnergy {
            otherParticleEnergySum := otherParticleEnergySum + leadingPionEnergy;
            leadingPionEnergy := p.energy;
          } else {
            otherParticleEnergySum := otherParticleEnergySum + p.energy;
          }
          SubtractExtendsNegatedSum(VisibleMomentum(particles[..j]), Momentum(p));
          missingMomentum := Minus(missingMomentum, Momentum(p));
        }
        j := j + 1;
      }
      assert particles[..j] == particles;
    }
  }
}
