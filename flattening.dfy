/**
 * The per-event flattening shared by both art converters: seven parallel
 * vectors that are cleared at the start of each art event and receive one entry
 * per particle of every truth record the event holds.
 */
module Flattening {
  import opened Events

  /** The columns of `ps` describe `ps`: equal lengths, and entry i of each column comes from particle i. */
  lemma {:induction false} ColumnsOfDescribes(ps: seq<Particle>)
    ensures ColumnsDescribe(ColumnsOf(ps), ps)
  {
    if ps != [] {
      var init := ps[..|ps| - 1];
      ColumnsOfDescribes(init);
      AppendDescribes(ColumnsOf(init), init, ParticleColumns(ps[|ps| - 1]), [ps[|ps| - 1]]);
      assert init + [ps[|ps| - 1]] == ps;
    }
  }

  /** Columns are determined by the particles they describe. */
  lemma DescribeUnique(c: Columns, ps: seq<Particle>)
    requires ColumnsDescribe(c, ps)
    ensures c == ColumnsOf(ps)
  {
    ColumnsOfDescribes(ps);
    var e := ColumnsOf(ps);
    assert c.pdgCodes == e.pdgCodes;
    assert c.statusCodes == e.statusCodes;
    assert c.momentumX == e.momentumX;
    assert c.momentumY == e.momentumY;
    assert c.momentumZ == e.momentumZ;
    assert c.energies == e.energies;
    assert c.mothers == e.mothers;
  }

  /** Appending the columns of `b` to columns describing `a` describes `a + b`: the vectors stay index-aligned. */
  lemma AppendDescribes(c: Columns, a: seq<Particle>, d: Columns, b: seq<Particle>)
    requires ColumnsDescribe(c, a) && ColumnsDescribe(d, b)
    ensures ColumnsDescribe(AppendColumns(c, d), a + b)
  {
    var r := AppendColumns(c, d);
    forall i | 0 <= i < |a + b|
      ensures r.pdgCodes[i] == (a + b)[i].pdg && r.mothers[i] == (a + b)[i].mother as real
    {
      if i < |a| {
      } else {
        assert (a + b)[i] == b[i - |a|];
      }
    }
  }

  /** Flattening a concatenation is concatenating the flattenings. */
  lemma ColumnsOfAppend(a: seq<Particle>, b: seq<Particle>)
    ensures ColumnsOf(a + b) == AppendColumns(ColumnsOf(a), ColumnsOf(b))
  {
    ColumnsOfDescribes(a);
    ColumnsOfDescribes(b);
    AppendDescribes(ColumnsOf(a), a, ColumnsOf(b), b);
    DescribeUnique(AppendColumns(ColumnsOf(a), ColumnsOf(b)), a + b);
  }

  /** The columns of the particles of several truth records, record after record. */
  lemma {:induction false} FlattenColumns(truths: seq<MCTruth>)
    ensures truths != [] ==>
      ColumnsOf(Flatten(truths)) == AppendColumns(ColumnsOf(Flatten(truths[..|truths| - 1])), ColumnsOf(truths[|truths| - 1].particles))
  {
    if truths != [] {
      ColumnsOfAppend(Flatten(truths[..|truths| - 1]), truths[|truths| - 1].particles);
    }
  }

  lemma AppendColumnsAssociative(a: Columns, b: Columns, c: Columns)
    ensures AppendColumns(AppendColumns(a, b), c) == AppendColumns(a, AppendColumns(b, c))
  {
  }

  lemma AppendNoColumns(c: Columns)
    ensures AppendColumns(c, NoColumns) == c
  {
  }

  lemma AppendToNoColumns(c: Columns)
    ensures AppendColumns(NoColumns, c) == c
  {
  }

  /** The seven parallel vectors `particlePdgCodes` ... `particleMothers`. */
  class ParticleVectors {
    var pdgCodes: seq<int>
    var statusCodes: seq<int>
    var momentumX: seq<real>
    var momentumY: seq<real>
    var momentumZ: seq<real>
    var energies: seq<real>
    var mothers: seq<real>

    function Contents(): Columns
      reads this
    {
      Columns(pdgCodes, statusCodes, momentumX, momentumY, momentumZ, energies, mothers)
    }

    constructor ()
      ensures Contents() == NoColumns
    {
      pdgCodes, statusCodes := [], [];
      momentumX, momentumY, momentumZ := [], [], [];
      energies, mothers := [], [];
    }

    /** The seven `clear()` calls at the start of an art event. */
    method Clear()
      modifies this
      ensures Contents() == NoColumns
    {
      pdgCodes := [];
      statusCodes := [];
      momentumX := [];
      momentumY := [];
      momentumZ := [];
      energies := [];
      mothers := [];
    }

    /** One `push_back` per vector for each particle of a truth record, in list order. */
    method Append(particles: seq<Particle>)
      modifies this
      ensures Contents() == AppendColumns(old(Contents()), ColumnsOf(particles))
    {
      ghost var start := Contents();
      for i := 0 to |particles|
        invariant Contents() == AppendColumns(start, ColumnsOf(particles[..i]))
      {
        var particle := particles[i];
        pdgCodes := pdgCodes + [particle.pdg];
        statusCodes := statusCodes + [particle.status];
        momentumX := momentumX + [particle.px];
        momentumY := momentumY + [particle.py];
        momentumZ := momentumZ + [particle.pz];
        energies := energies + [particle.energy];
        mothers := mothers + [particle.mother as real];
        assert particles[..i + 1][..i] == particles[..i];
        AppendColumnsAssociative(start, ColumnsOf(particles[..i]), ParticleColumns(particle));
      }
      assert particles[..|particles|] == particles;
    }
  }
}
