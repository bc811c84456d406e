/**
 * The event loop of `convertArtToRootReco`: one output tree receives three
 * kinds of entries per art event. Truth entries are written only for the truth
 * records that pass the current-type and neutrino-flavour selection; then one
 * entry per reconstructed particle, whose track fields are copied from the
 * first track carrying the particle's ID; then one entry per shower.
 *
 * Every entry is a snapshot of all branches at the moment of `Fill()`, so a
 * branch that a loop does not set keeps the value it was last given.
 */
module RecoConversion {
  import opened Results
  import opened Events
  import opened Classifier
  import opened Flattening
  import opened RootFiles
  import Art = ArtConversion

  /** The two arguments that choose the truth records to keep. */
  datatype Selection = Selection(requiredCurrentType: int, requiredNeutrinoPdgCode: int)

  /** A reconstructed track: `ID()`, `Length()` and `VertexMomentumVector()`. */
  datatype Track = Track(id: int, length: real, momentumX: real, momentumY: real, momentumZ: real)

  /** A reconstructed particle: `Self()` and `PdgCode()`. */
  datatype PFParticle = PFParticle(self: int, pdg: int)

  /** A reconstructed shower: `ID()`, the per-plane `Energy()` vector and `Length()`. */
  datatype Shower = Shower(id: int, energies: seq<real>, length: real)

  /** An art event with its four handles; `None` marks an invalid handle. */
  datatype RecoEvent = RecoEvent(
    number: int,
    truths: Option<seq<MCTruth>>,
    pfParticles: Option<seq<PFParticle>>,
    tracks: Option<seq<Track>>,
    showers: Option<seq<Shower>>)

  /** `Energy()[0]` needs a non-empty energy vector. */
  predicate ShowersHaveEnergy(shs: seq<Shower>) {
    forall k :: 0 <= k < |shs| ==> shs[k].energies != []
  }

  /**
   * Mother indices stay inside their lists in every record the selection keeps
   * (a rejected record's particles are never read), and every shower has a
   * first energy entry.
   */
  predicate RecoEventWellFormed(sel: Selection, e: RecoEvent) {
    && (e.truths.Some? ==> KeptMothersInRange(sel, e.truths.value))
    && (e.showers.Some? ==> ShowersHaveEnergy(e.showers.value))
  }

  predicate RecoEventsWellFormed(sel: Selection, events: seq<RecoEvent>) {
    forall j :: 0 <= j < |events| ==> RecoEventWellFormed(sel, events[j])
  }

  /** The reconstructed-particle branches. */
  datatype ParticleBranches = ParticleBranches(
    index: int,
    pdg: int,
    momentumX: real,
    momentumY: real,
    momentumZ: real,
    trackLength: real)

  /** The shower branches. */
  datatype ShowerBranches = ShowerBranches(index: int, energy: real, length: real)

  /** All scalar branches of the reco tree. */
  datatype RecoBranches = RecoBranches(truth: Art.TruthBranches, particle: ParticleBranches, shower: ShowerBranches)

  /** One tree entry: the scalar branches and the seven particle vectors. */
  datatype RecoRow = RecoRow(branches: RecoBranches, columns: Columns)

  datatype RecoState = RecoState(branches: RecoBranches, columns: Columns, rows: seq<RecoRow>)

  /** The snapshot `Fill()` appends. */
  function Filled(s: RecoState): RecoState {
    s.(rows := s.rows + [RecoRow(s.branches, s.columns)])
  }

  // ---------------------------------------------------------------- truth records

  /** A truth record passes when its current type and its neutrino's PDG code are the required ones. */
  predicate Selected(sel: Selection, t: MCTruth) {
    ChargedCurrentFlag(t.neutrino) == sel.requiredCurrentType && t.neutrino.nuPdg == sel.requiredNeutrinoPdgCode
  }

  /** The records whose particles the truth loop reads, those that pass the selection, have in-range mothers. */
  predicate KeptMothersInRange(sel: Selection, ts: seq<MCTruth>) {
    forall j :: 0 <= j < |ts| && Selected(sel, ts[j]) ==> MothersInRange(ts[j].particles)
  }

  /** The requirement passes to the records before the last one. */
  lemma KeptMothersInit(sel: Selection, ts: seq<MCTruth>)
    requires ts != [] && KeptMothersInRange(sel, ts)
    ensures KeptMothersInRange(sel, ts[..|ts| - 1])
    ensures Selected(sel, ts[|ts| - 1]) ==> MothersInRange(ts[|ts| - 1].particles)
  {
    var init := ts[..|ts| - 1];
    assert forall j :: 0 <= j < |init| ==> init[j] == ts[j];
  }

  /**
   * One truth record. The event index, the flavour and the current type are
   * assigned before the selection condition is evaluated, so a rejected record still
   * overwrites those three branches; a kept one sets every truth branch,
   * appends its particles and fills.
   */
  function TruthStep(s: RecoState, sel: Selection, n: int, t: MCTruth): RecoState
    requires Selected(sel, t) ==> MothersInRange(t.particles)
  {
    if !Selected(sel, t) then
      var header := s.branches.truth.(
        eventIndex := n,
        initialNeutrinoFlavor := t.neutrino.nuPdg,
        currentFlag := ChargedCurrentFlag(t.neutrino));
      s.(branches := s.branches.(truth := header))
    else
      Filled(RecoState(
        s.branches.(truth := Art.ClassifyTruth(n, t)),
        AppendColumns(s.columns, ColumnsOf(t.particles)),
        s.rows))
  }

  /** The truth records of one event, in order. */
  function TruthPhase(s: RecoState, sel: Selection, n: int, ts: seq<MCTruth>): RecoState
    requires KeptMothersInRange(sel, ts)
  {
    if ts == [] then s
    else TruthStep(TruthPhase(s, sel, n, ts[..|ts| - 1]), sel, n, ts[|ts| - 1])
  }

  /** The records that pass the selection, in order. */
  function SelectedTruths(sel: Selection, ts: seq<MCTruth>): (r: seq<MCTruth>)
    ensures |r| <= |ts|
    ensures forall i :: 0 <= i < |r| ==> Selected(sel, r[i]) && r[i] in ts
    ensures KeptMothersInRange(sel, ts) ==> TruthMothersInRange(r)
  {
    if ts == [] then []
    else SelectedTruths(sel, ts[..|ts| - 1]) + (if Selected(sel, ts[|ts| - 1]) then [ts[|ts| - 1]] else [])
  }

  /** The kept records are exactly the records of the input that pass the selection. */
  lemma {:induction false} SelectedTruthsMembership(sel: Selection, ts: seq<MCTruth>, t: MCTruth)
    ensures t in SelectedTruths(sel, ts) <==> t in ts && Selected(sel, t)
  {
    if ts != [] {
      var init, last := ts[..|ts| - 1], ts[|ts| - 1];
      SelectedTruthsMembership(sel, init, t);
      assert ts == init + [last];
    }
  }

  /** A rejected record fills nothing and appends nothing; besides the three header branches nothing changes. */
  lemma RejectedTruthFillsNothing(s: RecoState, sel: Selection, n: int, t: MCTruth)
    requires !Selected(sel, t)
    ensures TruthStep(s, sel, n, t).rows == s.rows
    ensures TruthStep(s, sel, n, t).columns == s.columns
    ensures TruthStep(s, sel, n, t).branches.particle == s.branches.particle
    ensures TruthStep(s, sel, n, t).branches.shower == s.branches.shower
    ensures TruthStep(s, sel, n, t).branches.truth.eventIndex == n
    ensures TruthStep(s, sel, n, t).branches.truth.initialNeutrinoFlavor == t.neutrino.nuPdg
    ensures TruthStep(s, sel, n, t).branches.truth.currentFlag == 1 <==> t.neutrino.ccnc == 0
    ensures TruthStep(s, sel, n, t).branches.truth.tauDecayMode == s.branches.truth.tauDecayMode
    ensures TruthStep(s, sel, n, t).branches.truth.interactionType == s.branches.truth.interactionType
    ensures TruthStep(s, sel, n, t).branches.truth.particleCount == s.branches.truth.particleCount
  {
  }

  /** A kept record fills one entry holding its classification and the vectors extended by its particles. */
  lemma SelectedTruthFills(s: RecoState, sel: Selection, n: int, t: MCTruth)
    requires MothersInRange(t.particles) && Selected(sel, t)
    ensures TruthStep(s, sel, n, t).rows ==
      s.rows + [RecoRow(s.branches.(truth := Art.ClassifyTruth(n, t)), AppendColumns(s.columns, ColumnsOf(t.particles)))]
    ensures TruthStep(s, sel, n, t).rows[|s.rows|].branches.truth.currentFlag == sel.requiredCurrentType
    ensures TruthStep(s, sel, n, t).rows[|s.rows|].branches.truth.initialNeutrinoFlavor == sel.requiredNeutrinoPdgCode
  {
    var c := Art.ClassifyTruth(n, t);
    assert c.currentFlag == ChargedCurrentFlag(t.neutrino);
  }

  lemma KeptTruthStep(s: RecoState, sel: Selection, n: int, t: MCTruth)
    requires MothersInRange(t.particles) && Selected(sel, t)
    ensures TruthStep(s, sel, n, t) ==
      Filled(RecoState(s.branches.(truth := Art.ClassifyTruth(n, t)), AppendColumns(s.columns, ColumnsOf(t.particles)), s.rows))
  {
  }

  lemma RejectedTruthStep(s: RecoState, sel: Selection, n: int, t: MCTruth)
    requires !Selected(sel, t)
    ensures TruthStep(s, sel, n, t) == s.(branches := s.branches.(truth := s.branches.truth.(
      eventIndex := n, initialNeutrinoFlavor := t.neutrino.nuPdg, currentFlag := ChargedCurrentFlag(t.neutrino))))
  {
  }

  /** A truth entry of the selected kind. */
  predicate RowMatches(sel: Selection, row: RecoRow) {
    row.branches.truth.currentFlag == sel.requiredCurrentType &&
    row.branches.truth.initialNeutrinoFlavor == sel.requiredNeutrinoPdgCode
  }

  /**
   * The truth records of an event fill one entry per kept record, after the
   * entries already there; every such entry is of the selected kind, and the
   * vectors end up holding the particles of the kept records only.
   */
  lemma {:induction false} TruthPhaseShape(s: RecoState, sel: Selection, n: int, ts: seq<MCTruth>)
    requires KeptMothersInRange(sel, ts)
    ensures |TruthPhase(s, sel, n, ts).rows| == |s.rows| + |SelectedTruths(sel, ts)|
    ensures TruthPhase(s, sel, n, ts).rows[..|s.rows|] == s.rows
  {
    if ts != [] {
      var init, last := ts[..|ts| - 1], ts[|ts| - 1];
      var p := TruthPhase(s, sel, n, init);
      TruthPhaseShape(s, sel, n, init);
      if Selected(sel, last) {
        assert TruthPhase(s, sel, n, ts).rows[..|p.rows|] == p.rows;
      }
    }
  }

  lemma {:induction false} TruthPhaseColumns(s: RecoState, sel: Selection, n: int, ts: seq<MCTruth>)
    requires KeptMothersInRange(sel, ts)
    ensures TruthPhase(s, sel, n, ts).columns == AppendColumns(s.columns, ColumnsOf(Flatten(SelectedTruths(sel, ts))))
  {
    if ts == [] {
      AppendNoColumns(s.columns);
    } else {
      var init, last := ts[..|ts| - 1], ts[|ts| - 1];
      TruthPhaseColumns(s, sel, n, init);
      var kept := SelectedTruths(sel, init);
      if Selected(sel, last) {
        assert SelectedTruths(sel, ts) == kept + [last];
        assert Flatten(kept + [last]) == Flatten(kept) + last.particles by {
          assert (kept + [last])[..|kept|] == kept;
          assert (kept + [last])[|kept|] == last;
        }
        ColumnsOfAppend(Flatten(kept), last.particles);
        AppendColumnsAssociative(s.columns, ColumnsOf(Flatten(kept)), ColumnsOf(last.particles));
        var p := TruthPhase(s, sel, n, init);
        assert TruthPhase(s, sel, n, ts).columns == AppendColumns(p.columns, ColumnsOf(last.particles));
      } else {
        assert SelectedTruths(sel, ts) == kept;
      }
    }
  }

  lemma {:induction false} TruthPhaseRowsMatch(s: RecoState, sel: Selection, n: int, ts: seq<MCTruth>)
    requires KeptMothersInRange(sel, ts)
    ensures forall k :: |s.rows| <= k < |TruthPhase(s, sel, n, ts).rows| ==> RowMatches(sel, TruthPhase(s, sel, n, ts).rows[k])
  {
    if ts != [] {
      var init, last := ts[..|ts| - 1], ts[|ts| - 1];
      var p := TruthPhase(s, sel, n, init);
      TruthPhaseRowsMatch(s, sel, n, init);
      if Selected(sel, last) {
        SelectedTruthFills(p, sel, n, last);
      }
    }
  }

  /** A truth record leaves the entries already filled in place. */
  lemma TruthStepKeepsRows(s: RecoState, sel: Selection, n: int, t: MCTruth, k: nat)
    requires (Selected(sel, t) ==> MothersInRange(t.particles)) && k < |s.rows|
    ensures k < |TruthStep(s, sel, n, t).rows| && TruthStep(s, sel, n, t).rows[k] == s.rows[k]
  {
  }

  /**
   * The i-th entry the truth records fill belongs to the i-th kept record: it
   * holds that record's classification, and the vectors hold the particles of
   * the kept records up to and including that one.
   */
  lemma {:induction false} TruthPhaseRow(s: RecoState, sel: Selection, n: int, ts: seq<MCTruth>, i: nat)
    requires KeptMothersInRange(sel, ts) && i < |SelectedTruths(sel, ts)|
    ensures |s.rows| + i < |TruthPhase(s, sel, n, ts).rows|
    ensures TruthPhase(s, sel, n, ts).rows[|s.rows| + i].branches.truth == Art.ClassifyTruth(n, SelectedTruths(sel, ts)[i])
    ensures TruthPhase(s, sel, n, ts).rows[|s.rows| + i].columns ==
      AppendColumns(s.columns, ColumnsOf(Flatten(SelectedTruths(sel, ts)[..i + 1])))
  {
    var init, last := ts[..|ts| - 1], ts[|ts| - 1];
    KeptMothersInit(sel, ts);
    var kept := SelectedTruths(sel, init);
    var p := TruthPhase(s, sel, n, init);
    var q := TruthStep(p, sel, n, last);
    assert TruthPhase(s, sel, n, ts) == q;
    assert SelectedTruths(sel, ts) == kept + (if Selected(sel, last) then [last] else []);
    TruthPhaseShape(s, sel, n, init);
    if i < |kept| {
      TruthPhaseRow(s, sel, n, init, i);
      assert SelectedTruths(sel, ts)[..i + 1] == kept[..i + 1];
      TruthStepKeepsRows(p, sel, n, last, |s.rows| + i);
    } else {
      assert Selected(sel, last) && i == |kept|;
      SelectedTruthFills(p, sel, n, last);
      TruthPhaseColumns(s, sel, n, ts);
      assert q.columns == AppendColumns(p.columns, ColumnsOf(last.particles));
      assert SelectedTruths(sel, ts)[..i + 1] == SelectedTruths(sel, ts);
    }
  }

  /**
   * The particle-count branch after the truth records is the last kept
   * record's particle count; with no record kept it keeps its earlier value.
   */
  lemma {:induction false} TruthPhaseParticleCount(s: RecoState, sel: Selection, n: int, ts: seq<MCTruth>)
    requires KeptMothersInRange(sel, ts)
    ensures var kept := SelectedTruths(sel, ts);
      TruthPhase(s, sel, n, ts).branches.truth.particleCount ==
        if kept == [] then s.branches.truth.particleCount else |kept[|kept| - 1].particles|
  {
    if ts != [] {
      TruthPhaseParticleCount(s, sel, n, ts[..|ts| - 1]);
    }
  }

  /** A current type other than 0 or 1 keeps no truth record at all. */
  lemma {:induction false} ImpossibleCurrentTypeKeepsNothing(sel: Selection, ts: seq<MCTruth>)
    requires sel.requiredCurrentType != 0 && sel.requiredCurrentType != 1
    ensures SelectedTruths(sel, ts) == []
  {
    if ts != [] {
      ImpossibleCurrentTypeKeepsNothing(sel, ts[..|ts| - 1]);
      assert !Selected(sel, ts[|ts| - 1]);
    }
  }

  // ---------------------------------------------------------------- reconstructed particles

  /** Position of the first track whose ID is `id`; `None` when no track has it. */
  function FirstTrack(tracks: seq<Track>, id: int): (r: Option<nat>)
    ensures r.Some? ==> r.value < |tracks|
  {
    if tracks == [] then None
    else if tracks[0].id == id then Some(0)
    else match FirstTrack(tracks[1..], id)
      case None => None
      case Some(k) => Some(k + 1)
  }

  /** The found track carries the ID and no earlier one does; `None` means no track carries it. */
  lemma {:induction false} FirstTrackMeaning(tracks: seq<Track>, id: int)
    ensures FirstTrack(tracks, id).Some? ==>
      tracks[FirstTrack(tracks, id).value].id == id &&
      forall k :: 0 <= k < FirstTrack(tracks, id).value ==> tracks[k].id != id
    ensures FirstTrack(tracks, id).None? ==> forall k :: 0 <= k < |tracks| ==> tracks[k].id != id
  {
    if tracks != [] && tracks[0].id != id {
      FirstTrackMeaning(tracks[1..], id);
      forall k | 1 <= k < |tracks|
        ensures tracks[k] == tracks[1..][k - 1]
      {
      }
    }
  }

  /** Conversely, the first position carrying the ID is what `FirstTrack` finds. */
  lemma {:induction false} FirstTrackAt(tracks: seq<Track>, id: int, i: nat)
    requires i < |tracks| && tracks[i].id == id
    requires forall k :: 0 <= k < i ==> tracks[k].id != id
    ensures FirstTrack(tracks, id) == Some(i)
  {
    if i > 0 {
      assert tracks[0].id != id;
      FirstTrackAt(tracks[1..], id, i - 1);
    }
  }

  /** Conversely, no track carrying the ID means `None`. */
  lemma {:induction false} FirstTrackAbsent(tracks: seq<Track>, id: int)
    requires forall k :: 0 <= k < |tracks| ==> tracks[k].id != id
    ensures FirstTrack(tracks, id) == None
  {
    if tracks != [] {
      assert tracks[0].id != id;
      FirstTrackAbsent(tracks[1..], id);
    }
  }

  /** The scan over the tracks, stopping (`break`) at the first whose ID is `id`. */
  method FindTrack(tracks: seq<Track>, id: int) returns (found: Option<nat>)
    ensures found == FirstTrack(tracks, id)
  {
    found := None;
    var i := 0;
    while i < |tracks|
      invariant 0 <= i <= |tracks|
      invariant forall k :: 0 <= k < i ==> tracks[k].id != id
    {
      if tracks[i].id == id {
        found := Some(i);
        FirstTrackAt(tracks, id, i);
        break;
      }
      i := i + 1;
    }
    if found.None? {
      FirstTrackAbsent(tracks, id);
    }
  }

  /** The particle branches after one reconstructed particle: index and code set, track fields copied from the first matching track if any. */
  function MatchedParticle(p: ParticleBranches, pf: PFParticle, tracks: Option<seq<Track>>): ParticleBranches {
    var q := p.(index := pf.self, pdg := pf.pdg);
    if tracks.None? then q
    else match FirstTrack(tracks.value, pf.self)
      case None => q
      case Some(k) =>
        var t := tracks.value[k];
        q.(trackLength := t.length, momentumX := t.momentumX, momentumY := t.momentumY, momentumZ := t.momentumZ)
  }

  /** One reconstructed particle: the event index and the particle branches are set, then one entry is filled. */
  function ParticleStep(s: RecoState, n: int, pf: PFParticle, tracks: Option<seq<Track>>): RecoState {
    Filled(s.(branches := s.branches.(
      truth := s.branches.truth.(eventIndex := n),
      particle := MatchedParticle(s.branches.particle, pf, tracks))))
  }

  /** The entry of a particle with a matching track holds that first matching track's length and momentum. */
  lemma ParticleRowWithTrack(s: RecoState, n: int, pf: PFParticle, tracks: seq<Track>, i: nat)
    requires i < |tracks| && tracks[i].id == pf.self
    requires forall k :: 0 <= k < i ==> tracks[k].id != pf.self
    ensures |ParticleStep(s, n, pf, Some(tracks)).rows| == |s.rows| + 1
    ensures ParticleStep(s, n, pf, Some(tracks)).rows[|s.rows|].branches.particle ==
      ParticleBranches(pf.self, pf.pdg, tracks[i].momentumX, tracks[i].momentumY, tracks[i].momentumZ, tracks[i].length)
    ensures ParticleStep(s, n, pf, Some(tracks)).rows[|s.rows|].branches.truth.eventIndex == n
  {
    FirstTrackAt(tracks, pf.self, i);
  }

  /**
   * Without a valid track handle or a track carrying its ID, the entry of a
   * particle repeats the track fields last set, from an earlier particle.
   */
  lemma ParticleRowWithoutTrack(s: RecoState, n: int, pf: PFParticle, tracks: Option<seq<Track>>)
    requires tracks.Some? ==> forall k :: 0 <= k < |tracks.value| ==> tracks.value[k].id != pf.self
    ensures |ParticleStep(s, n, pf, tracks).rows| == |s.rows| + 1
    ensures ParticleStep(s, n, pf, tracks).rows[|s.rows|].branches.particle ==
      s.branches.particle.(index := pf.self, pdg := pf.pdg)
  {
    if tracks.Some? {
      FirstTrackAbsent(tracks.value, pf.self);
    }
  }

  /** A particle entry leaves the vectors, the shower branches and the truth branches other than the event index alone. */
  lemma ParticleStepKeeps(s: RecoState, n: int, pf: PFParticle, tracks: Option<seq<Track>>)
    ensures ParticleStep(s, n, pf, tracks).rows[..|s.rows|] == s.rows
    ensures ParticleStep(s, n, pf, tracks).columns == s.columns
    ensures ParticleStep(s, n, pf, tracks).branches.shower == s.branches.shower
    ensures ParticleStep(s, n, pf, tracks).branches.truth == s.branches.truth.(eventIndex := n)
  {
    assert ParticleStep(s, n, pf, tracks).rows[..|s.rows|] == s.rows;
  }

  /** The reconstructed particles of one event, in order. */
  function ParticlePhase(s: RecoState, n: int, pfs: seq<PFParticle>, tracks: Option<seq<Track>>): RecoState {
    if pfs == [] then s
    else ParticleStep(ParticlePhase(s, n, pfs[..|pfs| - 1], tracks), n, pfs[|pfs| - 1], tracks)
  }

  /** One entry per reconstructed particle; earlier entries and the vectors are kept. */
  lemma {:induction false} ParticlePhaseShape(s: RecoState, n: int, pfs: seq<PFParticle>, tracks: Option<seq<Track>>)
    ensures |ParticlePhase(s, n, pfs, tracks).rows| == |s.rows| + |pfs|
    ensures ParticlePhase(s, n, pfs, tracks).rows[..|s.rows|] == s.rows
    ensures ParticlePhase(s, n, pfs, tracks).columns == s.columns
    ensures ParticlePhase(s, n, pfs, tracks).branches.shower == s.branches.shower
  {
    if pfs != [] {
      var p := ParticlePhase(s, n, pfs[..|pfs| - 1], tracks);
      ParticlePhaseShape(s, n, pfs[..|pfs| - 1], tracks);
      ParticleStepKeeps(p, n, pfs[|pfs| - 1], tracks);
      assert ParticlePhase(s, n, pfs, tracks).rows[..|s.rows|] == p.rows[..|s.rows|];
    }
  }

  /**
   * The k-th entry the particle loop fills belongs to the k-th particle: its
   * index and PDG code, the current event index, the first matching track's
   * length and momentum when there is one, and the vectors and shower branches
   * as they were before the loop.
   */
  lemma {:induction false} ParticlePhaseRow(s: RecoState, n: int, pfs: seq<PFParticle>, tracks: Option<seq<Track>>, k: nat)
    requires k < |pfs|
    ensures |s.rows| + k < |ParticlePhase(s, n, pfs, tracks).rows|
    ensures var row := ParticlePhase(s, n, pfs, tracks).rows[|s.rows| + k];
      && row.branches.particle.index == pfs[k].self
      && row.branches.particle.pdg == pfs[k].pdg
      && row.branches.truth == s.branches.truth.(eventIndex := n)
      && row.branches.shower == s.branches.shower
      && row.columns == s.columns
    ensures tracks.Some? && FirstTrack(tracks.value, pfs[k].self).Some? ==>
      var t := tracks.value[FirstTrack(tracks.value, pfs[k].self).value];
      var b := ParticlePhase(s, n, pfs, tracks).rows[|s.rows| + k].branches.particle;
      b.trackLength == t.length && b.momentumX == t.momentumX && b.momentumY == t.momentumY && b.momentumZ == t.momentumZ
  {
    var init := pfs[..|pfs| - 1];
    var p := ParticlePhase(s, n, init, tracks);
    ParticlePhaseShape(s, n, init, tracks);
    ParticleStepKeeps(p, n, pfs[|pfs| - 1], tracks);
    if k < |init| {
      ParticlePhaseRow(s, n, init, tracks, k);
      assert ParticlePhase(s, n, pfs, tracks).rows[|s.rows| + k] == p.rows[|s.rows| + k];
    } else {
      ParticlePhaseTruth(s, n, init, tracks);
    }
  }

  /** After at least one reconstructed particle, the truth branches are the earlier ones with the event index set. */
  lemma {:induction false} ParticlePhaseTruth(s: RecoState, n: int, pfs: seq<PFParticle>, tracks: Option<seq<Track>>)
    ensures ParticlePhase(s, n, pfs, tracks).branches.truth ==
      if pfs == [] then s.branches.truth else s.branches.truth.(eventIndex := n)
  {
    if pfs != [] {
      ParticlePhaseTruth(s, n, pfs[..|pfs| - 1], tracks);
    }
  }

  // ---------------------------------------------------------------- showers

  /** One shower: the shower branches are set from it (the first entry of its energy vector), then one entry is filled. */
  function ShowerStep(s: RecoState, sh: Shower): RecoState
    requires sh.energies != []
  {
    Filled(s.(branches := s.branches.(shower := ShowerBranches(sh.id, sh.energies[0], sh.length))))
  }

  /**
   * A shower entry carries the shower's ID, first energy and length; the event
   * index, like every truth and particle branch, is not touched by the shower
   * loop and keeps the value last set.
   */
  lemma ShowerRow(s: RecoState, sh: Shower)
    requires sh.energies != []
    ensures ShowerStep(s, sh).rows == s.rows + [ShowerStep(s, sh).rows[|s.rows|]]
    ensures ShowerStep(s, sh).rows[|s.rows|].branches.shower.index == sh.id
    ensures ShowerStep(s, sh).rows[|s.rows|].branches.shower.energy == sh.energies[0]
    ensures ShowerStep(s, sh).rows[|s.rows|].branches.shower.length == sh.length
    ensures ShowerStep(s, sh).rows[|s.rows|].branches.truth == s.branches.truth
    ensures ShowerStep(s, sh).rows[|s.rows|].branches.particle == s.branches.particle
    ensures ShowerStep(s, sh).rows[|s.rows|].columns == s.columns
  {
  }

  /** The showers of one event, in order. */
  function ShowerPhase(s: RecoState, shs: seq<Shower>): RecoState
    requires ShowersHaveEnergy(shs)
  {
    if shs == [] then s
    else ShowerStep(ShowerPhase(s, shs[..|shs| - 1]), shs[|shs| - 1])
  }

  /** One entry per shower; earlier entries, the vectors and the truth and particle branches are kept. */
  lemma {:induction false} ShowerPhaseShape(s: RecoState, shs: seq<Shower>)
    requires ShowersHaveEnergy(shs)
    ensures |ShowerPhase(s, shs).rows| == |s.rows| + |shs|
    ensures ShowerPhase(s, shs).rows[..|s.rows|] == s.rows
    ensures ShowerPhase(s, shs).columns == s.columns
    ensures ShowerPhase(s, shs).branches.truth == s.branches.truth
    ensures ShowerPhase(s, shs).branches.particle == s.branches.particle
  {
    if shs != [] {
      var p := ShowerPhase(s, shs[..|shs| - 1]);
      ShowerPhaseShape(s, shs[..|shs| - 1]);
      ShowerRow(p, shs[|shs| - 1]);
      assert ShowerPhase(s, shs).rows[..|s.rows|] == p.rows[..|s.rows|];
    }
  }

  /**
   * The k-th entry the shower loop fills carries the k-th shower's ID, first
   * energy and length, with the vectors and the truth and particle branches as
   * they were before the loop.
   */
  lemma {:induction false} ShowerPhaseRow(s: RecoState, shs: seq<Shower>, k: nat)
    requires ShowersHaveEnergy(shs) && k < |shs|
    ensures |s.rows| + k < |ShowerPhase(s, shs).rows|
    ensures var row := ShowerPhase(s, shs).rows[|s.rows| + k];
      && row.branches.shower == ShowerBranches(shs[k].id, shs[k].energies[0], shs[k].length)
      && row.branches.truth == s.branches.truth
      && row.branches.particle == s.branches.particle
      && row.columns == s.columns
  {
    var init := shs[..|shs| - 1];
    var p := ShowerPhase(s, init);
    ShowerPhaseShape(s, init);
    ShowerRow(p, shs[|shs| - 1]);
    if k < |init| {
      ShowerPhaseRow(s, init, k);
      assert ShowerPhase(s, shs).rows[|s.rows| + k] == p.rows[|s.rows| + k];
    }
  }

  // ---------------------------------------------------------------- events

  /** The state after the truth records of an event: vectors cleared, then the kept records. */
  function AfterTruths(s: RecoState, sel: Selection, e: RecoEvent): RecoState
    requires RecoEventWellFormed(sel, e)
  {
    var cleared := s.(columns := NoColumns);
    if e.truths.Some? then TruthPhase(cleared, sel, e.number, e.truths.value) else cleared
  }

  /** The state after the reconstructed particles of an event. */
  function AfterParticles(s: RecoState, sel: Selection, e: RecoEvent): RecoState
    requires RecoEventWellFormed(sel, e)
  {
    var t := AfterTruths(s, sel, e);
    if e.pfParticles.Some? then ParticlePhase(t, e.number, e.pfParticles.value, e.tracks) else t
  }

  /** One art event: truth records, then reconstructed particles, then showers. */
  function EventStep(s: RecoState, sel: Selection, e: RecoEvent): RecoState
    requires RecoEventWellFormed(sel, e)
  {
    var p := AfterParticles(s, sel, e);
    if e.showers.Some? then ShowerPhase(p, e.showers.value) else p
  }

  /** All art events, in order. */
  function EventsStep(s: RecoState, sel: Selection, events: seq<RecoEvent>): RecoState
    requires RecoEventsWellFormed(sel, events)
  {
    if events == [] then s
    else EventStep(EventsStep(s, sel, events[..|events| - 1]), sel, events[|events| - 1])
  }

  /** Entries one event fills: its kept truth records, its reconstructed particles and its showers. */
  function EventEntryCount(sel: Selection, e: RecoEvent): nat {
    (if e.truths.Some? then |SelectedTruths(sel, e.truths.value)| else 0) +
    (if e.pfParticles.Some? then |e.pfParticles.value| else 0) +
    (if e.showers.Some? then |e.showers.value| else 0)
  }

  function EntryCount(sel: Selection, events: seq<RecoEvent>): nat {
    if events == [] then 0
    else EntryCount(sel, events[..|events| - 1]) + EventEntryCount(sel, events[|events| - 1])
  }

  /**
   * An event fills exactly its entry count after the entries already present,
   * and every entry it fills carries the particles of its kept truth records:
   * the particle and shower loops do not touch the vectors.
   */
  lemma EventStepShape(s: RecoState, sel: Selection, e: RecoEvent)
    requires RecoEventWellFormed(sel, e)
    ensures |EventStep(s, sel, e).rows| == |s.rows| + EventEntryCount(sel, e)
    ensures EventStep(s, sel, e).rows[..|s.rows|] == s.rows
    ensures EventStep(s, sel, e).columns ==
      if e.truths.Some? then ColumnsOf(Flatten(SelectedTruths(sel, e.truths.value))) else NoColumns
  {
    var cleared := s.(columns := NoColumns);
    var t := AfterTruths(s, sel, e);
    if e.truths.Some? {
      TruthPhaseShape(cleared, sel, e.number, e.truths.value);
      TruthPhaseColumns(cleared, sel, e.number, e.truths.value);
      AppendToNoColumns(ColumnsOf(Flatten(SelectedTruths(sel, e.truths.value))));
    }
    var p := AfterParticles(s, sel, e);
    if e.pfParticles.Some? {
      ParticlePhaseShape(t, e.number, e.pfParticles.value, e.tracks);
      assert p.rows[..|s.rows|] == t.rows[..|s.rows|];
    }
    if e.showers.Some? {
      ShowerPhaseShape(p, e.showers.value);
      assert EventStep(s, sel, e).rows[..|s.rows|] == p.rows[..|s.rows|];
    }
  }

  /** The truth records of an event that pass the selection; none without a valid handle. */
  function EventKeptTruths(sel: Selection, e: RecoEvent): (kept: seq<MCTruth>)
    requires RecoEventWellFormed(sel, e)
    ensures TruthMothersInRange(kept)
    ensures forall i :: 0 <= i < |kept| ==> Selected(sel, kept[i])
  {
    if e.truths.Some? then SelectedTruths(sel, e.truths.value) else []
  }

  /** The particle-count branch once an event's truth records are done: stale for every later entry of the event. */
  function CountAfterTruths(s: RecoState, sel: Selection, e: RecoEvent): int
    requires RecoEventWellFormed(sel, e)
  {
    var kept := EventKeptTruths(sel, e);
    if kept == [] then s.branches.truth.particleCount else |kept[|kept| - 1].particles|
  }

  /**
   * The i-th entry of an event belongs to its i-th kept truth record: that
   * record's classification, and the vectors holding the kept records' particles
   * up to and including that one, since the vectors are cleared per event.
   */
  lemma EventTruthRow(s: RecoState, sel: Selection, e: RecoEvent, i: nat)
    requires RecoEventWellFormed(sel, e) && i < |EventKeptTruths(sel, e)|
    ensures |s.rows| + i < |EventStep(s, sel, e).rows|
    ensures EventStep(s, sel, e).rows[|s.rows| + i].branches.truth == Art.ClassifyTruth(e.number, EventKeptTruths(sel, e)[i])
    ensures EventStep(s, sel, e).rows[|s.rows| + i].columns == ColumnsOf(Flatten(EventKeptTruths(sel, e)[..i + 1]))
  {
    AfterTruthsRow(s, sel, e, i);
    EventKeepsTruthRows(s, sel, e, |s.rows| + i);
  }

  /** The i-th entry of the truth loop of an event, the vectors having been cleared first. */
  lemma AfterTruthsRow(s: RecoState, sel: Selection, e: RecoEvent, i: nat)
    requires RecoEventWellFormed(sel, e) && i < |EventKeptTruths(sel, e)|
    ensures |s.rows| + i < |AfterTruths(s, sel, e).rows|
    ensures AfterTruths(s, sel, e).rows[|s.rows| + i].branches.truth == Art.ClassifyTruth(e.number, EventKeptTruths(sel, e)[i])
    ensures AfterTruths(s, sel, e).rows[|s.rows| + i].columns == ColumnsOf(Flatten(EventKeptTruths(sel, e)[..i + 1]))
  {
    TruthPhaseRow(s.(columns := NoColumns), sel, e.number, e.truths.value, i);
    AppendToNoColumns(ColumnsOf(Flatten(EventKeptTruths(sel, e)[..i + 1])));
  }

  /** The particle and shower loops leave the entries of the truth loop in place. */
  lemma EventKeepsTruthRows(s: RecoState, sel: Selection, e: RecoEvent, k: nat)
    requires RecoEventWellFormed(sel, e) && k < |AfterTruths(s, sel, e).rows|
    ensures k < |EventStep(s, sel, e).rows|
    ensures EventStep(s, sel, e).rows[k] == AfterTruths(s, sel, e).rows[k]
  {
    var t := AfterTruths(s, sel, e);
    var p := AfterParticles(s, sel, e);
    if e.pfParticles.Some? {
      ParticlePhaseShape(t, e.number, e.pfParticles.value, e.tracks);
      assert p.rows[k] == p.rows[..|t.rows|][k];
    }
    if e.showers.Some? {
      ShowerPhaseShape(p, e.showers.value);
      assert EventStep(s, sel, e).rows[k] == EventStep(s, sel, e).rows[..|p.rows|][k];
    }
  }

  /** After the truth records of an event: one entry per kept record, the kept records' particles, the stale count. */
  lemma AfterTruthsShape(s: RecoState, sel: Selection, e: RecoEvent)
    requires RecoEventWellFormed(sel, e)
    ensures |AfterTruths(s, sel, e).rows| == |s.rows| + |EventKeptTruths(sel, e)|
    ensures AfterTruths(s, sel, e).columns == ColumnsOf(Flatten(EventKeptTruths(sel, e)))
    ensures AfterTruths(s, sel, e).branches.truth.particleCount == CountAfterTruths(s, sel, e)
    ensures AfterTruths(s, sel, e).branches.particle == s.branches.particle
    ensures AfterTruths(s, sel, e).branches.shower == s.branches.shower
  {
    var cleared := s.(columns := NoColumns);
    if e.truths.Some? {
      TruthPhaseShape(cleared, sel, e.number, e.truths.value);
      TruthPhaseColumns(cleared, sel, e.number, e.truths.value);
      TruthPhaseParticleCount(cleared, sel, e.number, e.truths.value);
      TruthPhaseKeeps(cleared, sel, e.number, e.truths.value);
      AppendToNoColumns(ColumnsOf(Flatten(EventKeptTruths(sel, e))));
    }
  }

  /** The truth records leave the particle and shower branches alone. */
  lemma {:induction false} TruthPhaseKeeps(s: RecoState, sel: Selection, n: int, ts: seq<MCTruth>)
    requires KeptMothersInRange(sel, ts)
    ensures TruthPhase(s, sel, n, ts).branches.particle == s.branches.particle
    ensures TruthPhase(s, sel, n, ts).branches.shower == s.branches.shower
  {
    if ts != [] {
      TruthPhaseKeeps(s, sel, n, ts[..|ts| - 1]);
    }
  }

  /**
   * The entry of the k-th reconstructed particle comes after the kept truth
   * entries: the particle's index and code under the event's index, the vectors
   * of the kept records, and the particle count the last kept record left.
   */
  lemma EventParticleRow(s: RecoState, sel: Selection, e: RecoEvent, k: nat)
    requires RecoEventWellFormed(sel, e) && e.pfParticles.Some? && k < |e.pfParticles.value|
    ensures |s.rows| + |EventKeptTruths(sel, e)| + k < |EventStep(s, sel, e).rows|
    ensures var row := EventStep(s, sel, e).rows[|s.rows| + |EventKeptTruths(sel, e)| + k];
      && row.branches.particle.index == e.pfParticles.value[k].self
      && row.branches.particle.pdg == e.pfParticles.value[k].pdg
      && row.branches.truth.eventIndex == e.number
      && row.branches.truth.particleCount == CountAfterTruths(s, sel, e)
      && row.columns == ColumnsOf(Flatten(EventKeptTruths(sel, e)))
  {
    var t := AfterTruths(s, sel, e);
    AfterTruthsShape(s, sel, e);
    ParticlePhaseRow(t, e.number, e.pfParticles.value, e.tracks, k);
    var p := AfterParticles(s, sel, e);
    var r := |s.rows| + |EventKeptTruths(sel, e)| + k;
    if e.showers.Some? {
      ShowerPhaseShape(p, e.showers.value);
      assert EventStep(s, sel, e).rows[r] == EventStep(s, sel, e).rows[..|p.rows|][r];
    }
  }

  /**
   * The entry of the k-th shower comes after the truth and particle entries:
   * the shower's ID, first energy and length, the vectors of the kept records,
   * and the particle count the last kept record left.
   */
  lemma EventShowerRow(s: RecoState, sel: Selection, e: RecoEvent, k: nat)
    requires RecoEventWellFormed(sel, e) && e.showers.Some? && k < |e.showers.value|
    ensures var before := |s.rows| + |EventKeptTruths(sel, e)| + (if e.pfParticles.Some? then |e.pfParticles.value| else 0);
      && before + k < |EventStep(s, sel, e).rows|
      && var row := EventStep(s, sel, e).rows[before + k];
      && row.branches.shower == ShowerBranches(e.showers.value[k].id, e.showers.value[k].energies[0], e.showers.value[k].length)
      && row.branches.truth.particleCount == CountAfterTruths(s, sel, e)
      && row.columns == ColumnsOf(Flatten(EventKeptTruths(sel, e)))
  {
    var t := AfterTruths(s, sel, e);
    AfterTruthsShape(s, sel, e);
    var p := AfterParticles(s, sel, e);
    if e.pfParticles.Some? {
      ParticlePhaseShape(t, e.number, e.pfParticles.value, e.tracks);
      ParticlePhaseTruth(t, e.number, e.pfParticles.value, e.tracks);
    }
    ShowerPhaseRow(p, e.showers.value, k);
  }

  /** The truth entries an event fills are all of the selected kind. */
  lemma EventTruthRowsMatch(s: RecoState, sel: Selection, e: RecoEvent)
    requires RecoEventWellFormed(sel, e) && e.truths.Some?
    ensures forall k :: |s.rows| <= k < |AfterTruths(s, sel, e).rows| ==> RowMatches(sel, AfterTruths(s, sel, e).rows[k])
  {
    TruthPhaseRowsMatch(s.(columns := NoColumns), sel, e.number, e.truths.value);
  }

  /** The tree receives the entry counts of all events, in order, after what it held. */
  lemma {:induction false} EventsStepShape(s: RecoState, sel: Selection, events: seq<RecoEvent>)
    requires RecoEventsWellFormed(sel, events)
    ensures |EventsStep(s, sel, events).rows| == |s.rows| + EntryCount(sel, events)
    ensures EventsStep(s, sel, events).rows[..|s.rows|] == s.rows
  {
    if events != [] {
      var init := events[..|events| - 1];
      var p := EventsStep(s, sel, init);
      EventsStepShape(s, sel, init);
      EventStepShape(p, sel, events[|events| - 1]);
      assert EventsStep(s, sel, events).rows[..|s.rows|] == p.rows[..|s.rows|];
    }
  }

  // ---------------------------------------------------------------- the converter

  /** The variables of `convertArtToRootReco`: truth branches, particle vectors, reco branches and the tree. */
  class RecoConverter {
    var eventIndex: int
    var initialNeutrinoFlavor: int
    var currentType: int
    var tauDecayMode: int
    var interactionType: int
    var particleCount: int
    const vectors: ParticleVectors
    var recoParticleIndex: int
    var recoParticlePdgCode: int
    var recoParticleMomentumX: real
    var recoParticleMomentumY: real
    var recoParticleMomentumZ: real
    var recoParticleTrackLength: real
    var recoShowerIndex: int
    var recoShowerEnergy: real
    var recoShowerLength: real
    var rows: seq<RecoRow>

    function ParticleFields(): ParticleBranches
      reads this
    {
      ParticleBranches(recoParticleIndex, recoParticlePdgCode,
        recoParticleMomentumX, recoParticleMomentumY, recoParticleMomentumZ, recoParticleTrackLength)
    }

    function Branches(): RecoBranches
      reads this
    {
      RecoBranches(
        Art.TruthBranches(eventIndex, initialNeutrinoFlavor, currentType, tauDecayMode, interactionType, particleCount),
        ParticleFields(),
        ShowerBranches(recoShowerIndex, recoShowerEnergy, recoShowerLength))
    }

    function State(): RecoState
      reads this, vectors
    {
      RecoState(Branches(), vectors.Contents(), rows)
    }

    /** The branch variables start with whatever `initial` holds (they are declared uninitialised). */
    constructor (initial: RecoBranches)
      ensures State() == RecoState(initial, NoColumns, [])
      ensures fresh(vectors)
    {
      eventIndex := initial.truth.eventIndex;
      initialNeutrinoFlavor := initial.truth.initialNeutrinoFlavor;
      currentType := initial.truth.currentFlag;
      tauDecayMode := initial.truth.tauDecayMode;
      interactionType := initial.truth.interactionType;
      particleCount := initial.truth.particleCount;
      vectors := new ParticleVectors();
      recoParticleIndex := initial.particle.index;
      recoParticlePdgCode := initial.particle.pdg;
      recoParticleMomentumX := initial.particle.momentumX;
      recoParticleMomentumY := initial.particle.momentumY;
      recoParticleMomentumZ := initial.particle.momentumZ;
      recoParticleTrackLength := initial.particle.trackLength;
      recoShowerIndex := initial.shower.index;
      recoShowerEnergy := initial.shower.energy;
      recoShowerLength := initial.shower.length;
      rows := [];
    }

    /** `dataTree->Fill()`. */
    method Fill()
      modifies this
      ensures State() == Filled(old(State()))
    {
      rows := rows + [RecoRow(Branches(), vectors.Contents())];
    }

    /** The body of the loop over truth records, `continue` on a rejected record. */
    method ProcessTruth(sel: Selection, eventNumber: int, truth: MCTruth)
      requires Selected(sel, truth) ==> MothersInRange(truth.particles)
      modifies this, vectors
      ensures State() == TruthStep(old(State()), sel, eventNumber, truth)
    {
      ghost var s := State();
      eventIndex := eventNumber;
      initialNeutrinoFlavor := truth.neutrino.nuPdg;
      currentType := ChargedCurrentFlag(truth.neutrino);
      if sel.requiredCurrentType != currentType || initialNeutrinoFlavor != sel.requiredNeutrinoPdgCode {
        RejectedTruthStep(s, sel, eventNumber, truth);
        return;
      }
      ProcessKeptTruth(eventNumber, truth);
      KeptTruthStep(s, sel, eventNumber, truth);
    }

    /** The rest of the truth loop body for a kept record: classify, flatten its particles, fill. */
    method ProcessKeptTruth(eventNumber: int, truth: MCTruth)
      requires MothersInRange(truth.particles)
      requires eventIndex == eventNumber && initialNeutrinoFlavor == truth.neutrino.nuPdg
      requires currentType == ChargedCurrentFlag(truth.neutrino)
      modifies this, vectors
      ensures State() == Filled(RecoState(
        old(Branches()).(truth := Art.ClassifyTruth(eventNumber, truth)),
        AppendColumns(old(vectors.Contents()), ColumnsOf(truth.particles)),
        old(rows)))
    {
      var decayProducts := IdentifyDecayProducts(truth.particles);
      tauDecayMode := IdentifyTauDecayMode(decayProducts);
      interactionType := IdentifyInteractionType(truth.neutrino);
      particleCount := |truth.particles|;
      vectors.Append(truth.particles);
      Fill();
    }

    /** The four assignments from a matched track. */
    method CopyTrack(track: Track)
      modifies this
      ensures ParticleFields() == old(ParticleFields()).(
        trackLength := track.length, momentumX := track.momentumX, momentumY := track.momentumY, momentumZ := track.momentumZ)
      ensures Branches() == old(Branches()).(particle := ParticleFields())
      ensures rows == old(rows)
    {
      recoParticleTrackLength := track.length;
      recoParticleMomentumX := track.momentumX;
      recoParticleMomentumY := track.momentumY;
      recoParticleMomentumZ := track.momentumZ;
    }

    /** The body of the loop over reconstructed particles: scan the tracks, copy from the first with the particle's ID, fill. */
    method ProcessParticle(eventNumber: int, pf: PFParticle, tracks: Option<seq<Track>>)
      modifies this
      ensures State() == ParticleStep(old(State()), eventNumber, pf, tracks)
    {
      ghost var s := State();
      eventIndex := eventNumber;
      recoParticleIndex := pf.self;
      recoParticlePdgCode := pf.pdg;
      if tracks.Some? {
        var found := FindTrack(tracks.value, recoParticleIndex);
        if found.Some? {
          CopyTrack(tracks.value[found.value]);
        }
      }
      assert ParticleFields() == MatchedParticle(s.branches.particle, pf, tracks);
      assert Branches() == s.branches.(
        truth := s.branches.truth.(eventIndex := eventNumber),
        particle := MatchedParticle(s.branches.particle, pf, tracks));
      Fill();
    }

    /** The body of the loop over showers. */
    method ProcessShower(sh: Shower)
      requires sh.energies != []
      modifies this
      ensures State() == ShowerStep(old(State()), sh)
    {
      recoShowerIndex := sh.id;
      recoShowerEnergy := sh.energies[0];
      recoShowerLength := sh.length;
      Fill();
    }

    /** The loop over the truth records of one event. */
    method ProcessTruths(sel: Selection, eventNumber: int, truths: seq<MCTruth>)
      requires KeptMothersInRange(sel, truths)
      modifies this, vectors
      ensures State() == TruthPhase(old(State()), sel, eventNumber, truths)
    {
      ghost var start := State();
      for j := 0 to |truths|
        invariant State() == TruthPhase(start, sel, eventNumber, truths[..j])
      {
        assert truths[..j + 1][..j] == truths[..j];
        ProcessTruth(sel, eventNumber, truths[j]);
      }
      assert truths[..|truths|] == truths;
    }

    /** The loop over the reconstructed particles of one event. */
    method ProcessParticles(eventNumber: int, pfs: seq<PFParticle>, tracks: Option<seq<Track>>)
      modifies this
      ensures State() == ParticlePhase(old(State()), eventNumber, pfs, tracks)
    {
      ghost var start := State();
      for j := 0 to |pfs|
        invariant State() == ParticlePhase(start, eventNumber, pfs[..j], tracks)
      {
        assert pfs[..j + 1][..j] == pfs[..j];
        ProcessParticle(eventNumber, pfs[j], tracks);
      }
      assert pfs[..|pfs|] == pfs;
    }

    /** The loop over the showers of one event. */
    method ProcessShowers(showers: seq<Shower>)
      requires ShowersHaveEnergy(showers)
      modifies this
      ensures State() == ShowerPhase(old(State()), showers)
    {
      ghost var start := State();
      for j := 0 to |showers|
        invariant State() == ShowerPhase(start, showers[..j])
      {
        assert showers[..j + 1][..j] == showers[..j];
        ProcessShower(showers[j]);
      }
      assert showers[..|showers|] == showers;
    }

    /** The body of the loop over art events. */
    method ProcessEvent(sel: Selection, e: RecoEvent)
      requires RecoEventWellFormed(sel, e)
      modifies this, vectors
      ensures State() == EventStep(old(State()), sel, e)
    {
      vectors.Clear();
      if e.truths.Some? {
        ProcessTruths(sel, e.number, e.truths.value);
      }
      assert State() == AfterTruths(old(State()), sel, e);
      if e.pfParticles.Some? {
        ProcessParticles(e.number, e.pfParticles.value, e.tracks);
      }
      assert State() == AfterParticles(old(State()), sel, e);
      if e.showers.Some? {
        ProcessShowers(e.showers.value);
      }
    }

    /** `while (!events.atEnd()) { ...; events.next(); }` */
    method ProcessEvents(sel: Selection, events: seq<RecoEvent>)
      requires RecoEventsWellFormed(sel, events)
      modifies this, vectors
      ensures State() == EventsStep(old(State()), sel, events)
    {
      ghost var start := State();
      for i := 0 to |events|
        invariant State() == EventsStep(start, sel, events[..i])
      {
        assert events[..i + 1][..i] == events[..i];
        ProcessEvent(sel, events[i]);
      }
      assert events[..|events|] == events;
    }
  }

  /**
   * `convertArtToRootReco`: gather the input files; with none, stop before
   * writing anything; otherwise return the entries of the output tree. `events`
   * are the art events the gathered files hold, in reading order.
   */
  method ConvertArtToRootReco(
    inputDirectory: Name, listing: Option<seq<Name>>,
    requiredCurrentType: int, requiredNeutrinoPdgCode: int,
    events: seq<RecoEvent>, initial: RecoBranches)
    returns (r: Result<seq<RecoRow>, Art.ConversionError>)
    requires listing.Some? ==> NamesFit(listing.value)
    requires RecoEventsWellFormed(Selection(requiredCurrentType, requiredNeutrinoPdgCode), events)
    ensures r.Failure? <==> GatheredPaths(inputDirectory, listing) == []
    ensures r.Success? ==>
      r.value == EventsStep(RecoState(initial, NoColumns, []), Selection(requiredCurrentType, requiredNeutrinoPdgCode), events).rows
    ensures r.Success? ==> |r.value| == EntryCount(Selection(requiredCurrentType, requiredNeutrinoPdgCode), events)
  {
    var fileNames := GatherRootFilePaths(inputDirectory, listing);
    if fileNames == [] {
      return Failure(Art.NoRootFiles);
    }
    var sel := Selection(requiredCurrentType, requiredNeutrinoPdgCode);
    var converter := new RecoConverter(initial);
    converter.ProcessEvents(sel, events);
    EventsStepShape(RecoState(initial, NoColumns, []), sel, events);
    return Success(converter.rows);
  }
}
