/**
 * What the analysis pass reads from the trees the two converters write. The
 * analysis scans the first `ParticleCount` entries of the particle vectors of
 * an entry. The converters clear those vectors once per art event, not once
 * per truth record, and the reconstruction converter's particle and shower
 * entries repeat the count of the last kept record; so the particles scanned
 * are the entry's own record's for the first truth entry of an event and, in
 * general, not for the later ones: those read a prefix of the particles of the
 * event's first records.
 */
module ReadBack {
  import opened Results
  import opened Events
  import opened Flattening
  import opened Analysis
  import Art = ArtConversion
  import Reco = RecoConversion

  /** Entry j of the columns of `ps` reads back as particle j, its mother index included. */
  lemma ReadParticleOfColumns(ps: seq<Particle>, j: nat)
    requires j < |ps|
    ensures ColumnsCover(ColumnsOf(ps), j + 1)
    ensures ReadParticle(ColumnsOf(ps), j) == ps[j]
  {
    ColumnsOfDescribes(ps);
    var c := ColumnsOf(ps);
    assert c.pdgCodes[j] == ps[j].pdg && c.statusCodes[j] == ps[j].status && c.mothers[j] == ps[j].mother as real;
    assert c.momentumX[j] == ps[j].px && c.momentumY[j] == ps[j].py && c.momentumZ[j] == ps[j].pz;
  }

  /** Reading back flattened particles: the first m entries of the columns of `ps` are the first m particles of `ps`. */
  lemma EntryParticlesOfColumns(ps: seq<Particle>, m: nat)
    requires m <= |ps|
    ensures ColumnsCover(ColumnsOf(ps), m)
    ensures EntryParticles(ColumnsOf(ps), m) == ps[..m]
  {
    var c := ColumnsOf(ps);
    if m > 0 {
      ReadParticleOfColumns(ps, m - 1);
    }
    forall j | 0 <= j < m
      ensures EntryParticles(c, m)[j] == ps[..m][j]
    {
      ReadParticleOfColumns(ps, j);
    }
  }

  /** The particles of the first m >= 1 records start with those of the first record. */
  lemma {:induction false} FlattenStartsWithFirst(ts: seq<MCTruth>, m: nat)
    requires 1 <= m <= |ts|
    ensures |ts[0].particles| <= |Flatten(ts[..m])|
    ensures Flatten(ts[..m])[..|ts[0].particles|] == ts[0].particles
  {
    var prefix := ts[..m];
    assert prefix[..m - 1] == ts[..m - 1];
    if m == 1 {
      assert Flatten(prefix) == Flatten([]) + ts[0].particles;
    } else {
      FlattenStartsWithFirst(ts, m - 1);
      assert Flatten(prefix) == Flatten(ts[..m - 1]) + ts[m - 1].particles;
    }
  }

  /**
   * An entry whose vectors hold the particles of records `ts` and whose count
   * is the last record's: the read stays inside the vectors, and it yields the
   * first `count` particles of all the records, which start with those of the
   * first record; with a single record it is that record's particle list.
   */
  lemma FlattenedRead(ts: seq<MCTruth>, c: Columns, count: int)
    requires ts != [] && c == ColumnsOf(Flatten(ts)) && count == |ts[|ts| - 1].particles|
    ensures ColumnsCover(c, count)
    ensures EntryParticles(c, count) == Flatten(ts)[..count]
    ensures count <= |ts[0].particles| ==> EntryParticles(c, count) == ts[0].particles[..count]
    ensures |ts| == 1 ==> EntryParticles(c, count) == ts[0].particles
  {
    var init := ts[..|ts| - 1];
    assert Flatten(ts) == Flatten(init) + ts[|ts| - 1].particles;
    EntryParticlesOfColumns(Flatten(ts), count);
    FlattenStartsWithFirst(ts, |ts|);
    assert ts[..|ts|] == ts;
  }

  /**
   * Entry j of an art event (truth converter) is read as the first particles
   * of records 0..j of the event: record j's own list when j is 0, and a
   * prefix of record 0's list when record j has no more particles than record 0.
   */
  lemma ArtRowRead(s: Art.ArtState, n: int, ts: seq<MCTruth>, j: nat)
    requires TruthMothersInRange(ts) && j < |ts|
    ensures |s.rows| + j < |Art.EventStep(s, Art.ArtEvent(n, Some(ts))).rows|
    ensures var row := Art.EventStep(s, Art.ArtEvent(n, Some(ts))).rows[|s.rows| + j];
      && ColumnsCover(row.columns, row.branches.particleCount)
      && EntryParticles(row.columns, row.branches.particleCount) == Flatten(ts[..j + 1])[..|ts[j].particles|]
      && (j == 0 ==> EntryParticles(row.columns, row.branches.particleCount) == ts[0].particles)
      && (|ts[j].particles| <= |ts[0].particles| ==>
            EntryParticles(row.columns, row.branches.particleCount) == ts[0].particles[..|ts[j].particles|])
  {
    Art.EventRowBranches(s, n, ts, j);
    Art.EventRowColumnsAre(s, n, ts, j);
    var prefix := ts[..j + 1];
    assert prefix[|prefix| - 1] == ts[j] && prefix[0] == ts[0];
    FlattenedRead(prefix, ColumnsOf(Flatten(prefix)), |ts[j].particles|);
  }

  /**
   * The same for the i-th truth entry of an event in the reconstruction
   * converter's tree, over the records the selection keeps.
   */
  lemma RecoTruthRowRead(s: Reco.RecoState, sel: Reco.Selection, e: Reco.RecoEvent, i: nat)
    requires Reco.RecoEventWellFormed(sel, e) && i < |Reco.EventKeptTruths(sel, e)|
    ensures |s.rows| + i < |Reco.EventStep(s, sel, e).rows|
    ensures var kept := Reco.EventKeptTruths(sel, e);
      var row := Reco.EventStep(s, sel, e).rows[|s.rows| + i];
      && ColumnsCover(row.columns, row.branches.truth.particleCount)
      && EntryParticles(row.columns, row.branches.truth.particleCount) == Flatten(kept[..i + 1])[..|kept[i].particles|]
      && (i == 0 ==> EntryParticles(row.columns, row.branches.truth.particleCount) == kept[0].particles)
  {
    var kept := Reco.EventKeptTruths(sel, e);
    Reco.EventTruthRow(s, sel, e, i);
    var prefix := kept[..i + 1];
    assert prefix[|prefix| - 1] == kept[i] && prefix[0] == kept[0];
    FlattenedRead(prefix, ColumnsOf(Flatten(prefix)), |kept[i].particles|);
  }

  /**
   * The entry of the k-th reconstructed particle of an event is read with the
   * count of the last kept record over the vectors of all kept records. With
   * no record kept the vectors are empty: the read stays inside them only for
   * a count of zero, and the energy vector has no first entry for the flux lookup.
   */
  lemma RecoParticleRowRead(s: Reco.RecoState, sel: Reco.Selection, e: Reco.RecoEvent, k: nat)
    requires Reco.RecoEventWellFormed(sel, e) && e.pfParticles.Some? && k < |e.pfParticles.value|
    ensures |s.rows| + |Reco.EventKeptTruths(sel, e)| + k < |Reco.EventStep(s, sel, e).rows|
    ensures var kept := Reco.EventKeptTruths(sel, e);
      var row := Reco.EventStep(s, sel, e).rows[|s.rows| + |kept| + k];
      && (kept != [] ==>
            && row.branches.truth.particleCount == |kept[|kept| - 1].particles|
            && ColumnsCover(row.columns, row.branches.truth.particleCount)
            && EntryParticles(row.columns, row.branches.truth.particleCount) == Flatten(kept)[..|kept[|kept| - 1].particles|])
      && (kept == [] ==>
            && row.columns.energies == []
            && (ColumnsCover(row.columns, row.branches.truth.particleCount) <==> row.branches.truth.particleCount == 0))
  {
    var kept := Reco.EventKeptTruths(sel, e);
    Reco.EventParticleRow(s, sel, e, k);
    var row := Reco.EventStep(s, sel, e).rows[|s.rows| + |kept| + k];
    if kept != [] {
      FlattenedRead(kept, row.columns, |kept[|kept| - 1].particles|);
    } else {
      assert row.columns == NoColumns;
    }
  }

  /** The same for the entry of the k-th shower of an event. */
  lemma RecoShowerRowRead(s: Reco.RecoState, sel: Reco.Selection, e: Reco.RecoEvent, k: nat)
    requires Reco.RecoEventWellFormed(sel, e) && e.showers.Some? && k < |e.showers.value|
    ensures var before := |s.rows| + |Reco.EventKeptTruths(sel, e)| + (if e.pfParticles.Some? then |e.pfParticles.value| else 0);
      && before + k < |Reco.EventStep(s, sel, e).rows|
      && var kept := Reco.EventKeptTruths(sel, e);
      && var row := Reco.EventStep(s, sel, e).rows[before + k];
      && (kept != [] ==>
            && row.branches.truth.particleCount == |kept[|kept| - 1].particles|
            && ColumnsCover(row.columns, row.branches.truth.particleCount)
            && EntryParticles(row.columns, row.branches.truth.particleCount) == Flatten(kept)[..|kept[|kept| - 1].particles|])
      && (kept == [] ==>
            && row.columns.energies == []
            && (ColumnsCover(row.columns, row.branches.truth.particleCount) <==> row.branches.truth.particleCount == 0))
  {
    var kept := Reco.EventKeptTruths(sel, e);
    Reco.EventShowerRow(s, sel, e, k);
    var before := |s.rows| + |kept| + (if e.pfParticles.Some? then |e.pfParticles.value| else 0);
    var row := Reco.EventStep(s, sel, e).rows[before + k];
    if kept != [] {
      FlattenedRead(kept, row.columns, |kept[|kept| - 1].particles|);
    } else {
      assert row.columns == NoColumns;
    }
  }
}
