/**
 * The event loop of `convertArtToRoot`: for every art event the seven particle
 * vectors are cleared; then, for every generator truth record of the event, the
 * scalar branches are set from the record, its particles are appended to the
 * vectors and one tree entry is filled.
 *
 * The output tree is modelled as the sequence of rows it receives; each row is a
 * snapshot of every branch at the moment of `Fill()`.
 */
module ArtConversion {
  import opened Results
  import opened Events
  import opened Classifier
  import opened Flattening
  import opened RootFiles

  /** The scalar branches of one truth entry. `currentFlag` is `IsChargedCurrent` (`CurrentType` in the reco converter). */
  datatype TruthBranches = TruthBranches(
    eventIndex: int,
    initialNeutrinoFlavor: int,
    currentFlag: int,
    tauDecayMode: int,
    interactionType: int,
    particleCount: int)

  /** The scalar branches a truth record sets in an event numbered `eventNumber`. */
  function ClassifyTruth(eventNumber: int, truth: MCTruth): (b: TruthBranches)
    requires MothersInRange(truth.particles)
    ensures b.eventIndex == eventNumber && b.initialNeutrinoFlavor == truth.neutrino.nuPdg
    ensures b.currentFlag == 1 <==> truth.neutrino.ccnc == 0
    ensures b.currentFlag == 0 || b.currentFlag == 1
    ensures -1 <= b.tauDecayMode <= 6
    ensures 0 <= b.interactionType <= 5
    ensures b.particleCount == |truth.particles|
  {
    var ps := truth.particles;
    var products := DecayProductsOf(ps, |ps|);
    TauDecayModeRange(products);
    TruthBranches(
      eventNumber,
      truth.neutrino.nuPdg,
      ChargedCurrentFlag(truth.neutrino),
      TauDecayMode(products),
      IdentifyInteractionType(truth.neutrino),
      |ps|)
  }

  /** One filled tree entry: the scalar branches and the seven vectors. */
  datatype TruthRow = TruthRow(branches: TruthBranches, columns: Columns)

  /** An art event: its number and the generator truth records, `None` when the handle is invalid. */
  datatype ArtEvent = ArtEvent(number: int, truths: Option<seq<MCTruth>>)

  predicate EventMothersInRange(e: ArtEvent) {
    e.truths.Some? ==> TruthMothersInRange(e.truths.value)
  }

  predicate EventsMothersInRange(events: seq<ArtEvent>) {
    forall j :: 0 <= j < |events| ==> EventMothersInRange(events[j])
  }

  /** Everything the converter holds: the branch variables, the particle vectors and the rows filled so far. */
  datatype ArtState = ArtState(branches: TruthBranches, columns: Columns, rows: seq<TruthRow>)

  /** One truth record: set the branches to `b`, append the particles `ps`, fill. */
  function TruthStep(s: ArtState, b: TruthBranches, ps: seq<Particle>): ArtState {
    var c := AppendColumns(s.columns, ColumnsOf(ps));
    ArtState(b, c, s.rows + [TruthRow(b, c)])
  }

  /** The records `ts` in order, record j setting the branches to `bs[j]`. */
  function Fills(s: ArtState, bs: seq<TruthBranches>, ts: seq<MCTruth>): ArtState
    requires |bs| == |ts|
  {
    if ts == [] then s
    else TruthStep(Fills(s, bs[..|bs| - 1], ts[..|ts| - 1]), bs[|bs| - 1], ts[|ts| - 1].particles)
  }

  /** The branches each truth record of an event sets. */
  function Classifications(eventNumber: int, ts: seq<MCTruth>): (bs: seq<TruthBranches>)
    requires TruthMothersInRange(ts)
    ensures |bs| == |ts|
  {
    if ts == [] then []
    else Classifications(eventNumber, ts[..|ts| - 1]) + [ClassifyTruth(eventNumber, ts[|ts| - 1])]
  }

  /** Entry j is what record j sets. */
  lemma {:induction false} ClassificationAt(eventNumber: int, ts: seq<MCTruth>, j: nat)
    requires TruthMothersInRange(ts) && j < |ts|
    ensures Classifications(eventNumber, ts)[j] == ClassifyTruth(eventNumber, ts[j])
  {
    if j < |ts| - 1 {
      ClassificationAt(eventNumber, ts[..|ts| - 1], j);
    }
  }

  /** The truth records of one event, in order. */
  function TruthPhase(s: ArtState, eventNumber: int, ts: seq<MCTruth>): ArtState
    requires TruthMothersInRange(ts)
  {
    Fills(s, Classifications(eventNumber, ts), ts)
  }

  /** One art event: clear the vectors, then process the truth records if the handle is valid. */
  function EventStep(s: ArtState, e: ArtEvent): ArtState
    requires EventMothersInRange(e)
  {
    var cleared := ArtState(s.branches, NoColumns, s.rows);
    if e.truths.None? then cleared else TruthPhase(cleared, e.number, e.truths.value)
  }

  /** All art events, in order. */
  function EventsStep(s: ArtState, events: seq<ArtEvent>): ArtState
    requires EventsMothersInRange(events)
  {
    if events == [] then s
    else EventStep(EventsStep(s, events[..|events| - 1]), events[|events| - 1])
  }

  /** Number of truth records over all events whose handle is valid. */
  function TruthRecordCount(events: seq<ArtEvent>): nat {
    if events == [] then 0
    else
      var e := events[|events| - 1];
      TruthRecordCount(events[..|events| - 1]) + (if e.truths.Some? then |e.truths.value| else 0)
  }

  /**
   * Processing truth records fills one row per record and keeps the rows
   * already filled; afterwards the vectors hold the particles of all the
   * records, appended to what they held before, and the branches are those of
   * the last record.
   */
  lemma {:induction false} FillsShape(s: ArtState, bs: seq<TruthBranches>, ts: seq<MCTruth>)
    requires |bs| == |ts|
    ensures |Fills(s, bs, ts).rows| == |s.rows| + |ts|
    ensures Fills(s, bs, ts).rows[..|s.rows|] == s.rows
    ensures Fills(s, bs, ts).columns == AppendColumns(s.columns, ColumnsOf(Flatten(ts)))
    ensures ts != [] ==> Fills(s, bs, ts).branches == bs[|bs| - 1]
    ensures ts != [] ==> Fills(s, bs, ts).rows[|s.rows| + |ts| - 1] == TruthRow(bs[|bs| - 1], Fills(s, bs, ts).columns)
  {
    if ts == [] {
      AppendNoColumns(s.columns);
    } else {
      var init := ts[..|ts| - 1];
      FillsShape(s, bs[..|bs| - 1], init);
      ColumnsOfAppend(Flatten(init), ts[|ts| - 1].particles);
      AppendColumnsAssociative(s.columns, ColumnsOf(Flatten(init)), ColumnsOf(ts[|ts| - 1].particles));
    }
  }

  /** The rows filled for the first m records are the first rows filled for all of them. */
  lemma {:induction false} FillsPrefix(s: ArtState, bs: seq<TruthBranches>, ts: seq<MCTruth>, m: nat)
    requires |bs| == |ts| && m <= |ts|
    ensures |s.rows| + m <= |Fills(s, bs, ts).rows|
    ensures Fills(s, bs, ts).rows[..|s.rows| + m] == Fills(s, bs[..m], ts[..m]).rows
  {
    FillsShape(s, bs, ts);
    if m == |ts| {
      assert bs[..m] == bs && ts[..m] == ts;
    } else {
      var p := Fills(s, bs[..|bs| - 1], ts[..|ts| - 1]);
      FillsShape(s, bs[..|bs| - 1], ts[..|ts| - 1]);
      FillsPrefix(s, bs[..|bs| - 1], ts[..|ts| - 1], m);
      assert bs[..|bs| - 1][..m] == bs[..m];
      assert ts[..|ts| - 1][..m] == ts[..m];
      assert Fills(s, bs, ts).rows[..|p.rows|] == p.rows;
    }
  }

  /** Row j holds branches `bs[j]` and the vectors as they stand after record j's particles were appended. */
  lemma {:induction false} FillsRow(s: ArtState, bs: seq<TruthBranches>, ts: seq<MCTruth>, j: nat)
    requires |bs| == |ts| && j < |ts|
    ensures |s.rows| + j < |Fills(s, bs, ts).rows|
    ensures Fills(s, bs, ts).rows[|s.rows| + j] ==
      TruthRow(bs[j], AppendColumns(s.columns, ColumnsOf(Flatten(ts[..j + 1]))))
  {
    FillsShape(s, bs, ts);
    if j == |ts| - 1 {
      assert ts[..j + 1] == ts;
    } else {
      var bs', ts' := bs[..|bs| - 1], ts[..|ts| - 1];
      FillsRow(s, bs', ts', j);
      FillsShape(s, bs', ts');
      assert ts'[..j + 1] == ts[..j + 1];
      assert bs'[j] == bs[j];
    }
  }

  /** An art event with an invalid truth handle fills nothing; it only clears the vectors. */
  lemma InvalidHandleFillsNothing(s: ArtState, n: int)
    ensures EventStep(s, ArtEvent(n, None)).rows == s.rows
    ensures EventStep(s, ArtEvent(n, None)).columns == NoColumns
    ensures EventStep(s, ArtEvent(n, None)).branches == s.branches
  {
  }

  /** Appending one more record to the processed prefix is one more truth step. */
  lemma FillsSnoc(s: ArtState, bs: seq<TruthBranches>, ts: seq<MCTruth>, j: nat)
    requires |bs| == |ts| && j < |ts|
    ensures Fills(s, bs[..j + 1], ts[..j + 1]) == TruthStep(Fills(s, bs[..j], ts[..j]), bs[j], ts[j].particles)
  {
    assert bs[..j + 1][..j] == bs[..j];
    assert ts[..j + 1][..j] == ts[..j];
  }

  /** The truth records of an event with a valid handle fill one row each. */
  lemma EventStepRowCount(s: ArtState, e: ArtEvent)
    requires EventMothersInRange(e)
    ensures |EventStep(s, e).rows| == |s.rows| + (if e.truths.Some? then |e.truths.value| else 0)
    ensures EventStep(s, e).rows[..|s.rows|] == s.rows
  {
    if e.truths.Some? {
      var ts := e.truths.value;
      FillsShape(ArtState(s.branches, NoColumns, s.rows), Classifications(e.number, ts), ts);
    }
  }

  /** The row an art event fills for its truth record j holds that record's branches. */
  lemma EventRowBranches(s: ArtState, n: int, ts: seq<MCTruth>, j: nat)
    requires TruthMothersInRange(ts) && j < |ts|
    ensures |s.rows| + j < |EventStep(s, ArtEvent(n, Some(ts))).rows|
    ensures EventStep(s, ArtEvent(n, Some(ts))).rows[|s.rows| + j].branches == ClassifyTruth(n, ts[j])
  {
    var bs := Classifications(n, ts);
    EventStepIsFills(s, n, ts);
    FillsRow(ArtState(s.branches, NoColumns, s.rows), bs, ts, j);
    ClassificationAt(n, ts, j);
  }

  /** A valid handle: the cleared state, then the records' own classifications. */
  lemma EventStepIsFills(s: ArtState, n: int, ts: seq<MCTruth>)
    requires TruthMothersInRange(ts)
    ensures EventStep(s, ArtEvent(n, Some(ts))) == Fills(ArtState(s.branches, NoColumns, s.rows), Classifications(n, ts), ts)
  {
  }

  /**
   * The vectors in the row an art event fills for its truth record j describe,
   * index by index, the particles of records 0..j, ending with record j's own
   * particles: they accumulate over the records of an event, because they are
   * cleared only once per event.
   */
  lemma EventRowColumns(s: ArtState, n: int, ts: seq<MCTruth>, j: nat)
    requires TruthMothersInRange(ts) && j < |ts|
    ensures |s.rows| + j < |EventStep(s, ArtEvent(n, Some(ts))).rows|
    ensures ColumnsDescribe(EventStep(s, ArtEvent(n, Some(ts))).rows[|s.rows| + j].columns, Flatten(ts[..j + 1]))
    ensures EventStep(s, ArtEvent(n, Some(ts))).rows[|s.rows| + j].columns ==
      AppendColumns(ColumnsOf(Flatten(ts[..j])), ColumnsOf(ts[j].particles))
  {
    var c := ColumnsOf(Flatten(ts[..j + 1]));
    EventRowColumnsAre(s, n, ts, j);
    ColumnsOfDescribes(Flatten(ts[..j + 1]));
    ColumnsOfAppend(Flatten(ts[..j]), ts[j].particles);
    assert ts[..j + 1][..j] == ts[..j];
  }

  lemma EventRowColumnsAre(s: ArtState, n: int, ts: seq<MCTruth>, j: nat)
    requires TruthMothersInRange(ts) && j < |ts|
    ensures |s.rows| + j < |EventStep(s, ArtEvent(n, Some(ts))).rows|
    ensures EventStep(s, ArtEvent(n, Some(ts))).rows[|s.rows| + j].columns == ColumnsOf(Flatten(ts[..j + 1]))
  {
    EventStepIsFills(s, n, ts);
    FillsRow(ArtState(s.branches, NoColumns, s.rows), Classifications(n, ts), ts, j);
    AppendToNoColumns(ColumnsOf(Flatten(ts[..j + 1])));
  }

  /** In the usual case of one truth record per event, its row holds exactly that record's particles. */
  lemma SingleTruthEvent(s: ArtState, n: int, t: MCTruth)
    requires MothersInRange(t.particles)
    ensures EventStep(s, ArtEvent(n, Some([t]))).rows == s.rows + [TruthRow(ClassifyTruth(n, t), ColumnsOf(t.particles))]
    ensures |EventStep(s, ArtEvent(n, Some([t]))).rows[|s.rows|].columns.pdgCodes| == ClassifyTruth(n, t).particleCount
  {
    var cleared := ArtState(s.branches, NoColumns, s.rows);
    var ts := [t];
    var bs := Classifications(n, ts);
    assert ts[..0] == [];
    assert bs == [ClassifyTruth(n, t)];
    assert Fills(cleared, bs, ts) == TruthStep(cleared, ClassifyTruth(n, t), t.particles);
    AppendToNoColumns(ColumnsOf(t.particles));
    ColumnsOfDescribes(t.particles);
  }

  /** The tree receives one entry per truth record of every event with a valid handle, and keeps earlier entries. */
  lemma {:induction false} EventsStepRowCount(s: ArtState, events: seq<ArtEvent>)
    requires EventsMothersInRange(events)
    ensures |EventsStep(s, events).rows| == |s.rows| + TruthRecordCount(events)
    ensures EventsStep(s, events).rows[..|s.rows|] == s.rows
  {
    if events != [] {
      var init := events[..|events| - 1];
      EventsStepRowCount(s, init);
      EventStepRowCount(EventsStep(s, init), events[|events| - 1]);
    }
  }

  /** The variables of `convertArtToRoot`: the branch variables, the particle vectors and the tree. */
  class ArtConverter {
    var eventIndex: int
    var initialNeutrinoFlavor: int
    var isChargedCurrent: int
    var tauDecayMode: int
    var interactionType: int
    var particleCount: int
    const vectors: ParticleVectors
    var rows: seq<TruthRow>

    function Branches(): TruthBranches
      reads this
    {
      TruthBranches(eventIndex, initialNeutrinoFlavor, isChargedCurrent, tauDecayMode, interactionType, particleCount)
    }

    function State(): ArtState
      reads this, vectors
    {
      ArtState(Branches(), vectors.Contents(), rows)
    }

    /** The branch variables start with whatever `initial` holds (they are declared uninitialised). */
    constructor (initial: TruthBranches)
      ensures State() == ArtState(initial, NoColumns, [])
      ensures fresh(vectors)
    {
      eventIndex := initial.eventIndex;
      initialNeutrinoFlavor := initial.initialNeutrinoFlavor;
      isChargedCurrent := initial.currentFlag;
      tauDecayMode := initial.tauDecayMode;
      interactionType := initial.interactionType;
      particleCount := initial.particleCount;
      vectors := new ParticleVectors();
      rows := [];
    }

    /** `dataTree->Fill()`: append a snapshot of every branch. */
    method Fill()
      modifies this
      ensures rows == old(rows) + [TruthRow(Branches(), vectors.Contents())]
      ensures Branches() == old(Branches())
    {
      rows := rows + [TruthRow(Branches(), vectors.Contents())];
    }

    /** The body of the loop over the truth records of an event. */
    method ProcessTruth(eventNumber: int, truth: MCTruth)
      requires MothersInRange(truth.particles)
      modifies this, vectors
      ensures State() == TruthStep(old(State()), ClassifyTruth(eventNumber, truth), truth.particles)
    {
      eventIndex := eventNumber;
      initialNeutrinoFlavor := truth.neutrino.nuPdg;
      isChargedCurrent := ChargedCurrentFlag(truth.neutrino);
      var decayProducts := IdentifyDecayProducts(truth.particles);
      tauDecayMode := IdentifyTauDecayMode(decayProducts);
      interactionType := IdentifyInteractionType(truth.neutrino);
      particleCount := |truth.particles|;
      vectors.Append(truth.particles);
      Fill();
    }

    /** The loop over the truth records of one event. */
    method ProcessTruths(eventNumber: int, truths: seq<MCTruth>)
      requires TruthMothersInRange(truths)
      modifies this, vectors
      ensures State() == TruthPhase(old(State()), eventNumber, truths)
    {
      ghost var start := State();
      ghost var bs := Classifications(eventNumber, truths);
      for j := 0 to |truths|
        invariant State() == Fills(start, bs[..j], truths[..j])
      {
        FillsSnoc(start, bs, truths, j);
        ClassificationAt(eventNumber, truths, j);
        ProcessTruth(eventNumber, truths[j]);
      }
      assert bs[..|truths|] == bs && truths[..|truths|] == truths;
    }

    /** The body of the loop over art events. */
    method ProcessEvent(e: ArtEvent)
      requires EventMothersInRange(e)
      modifies this, vectors
      ensures State() == EventStep(old(State()), e)
    {
      vectors.Clear();
      if e.truths.Some? {
        ProcessTruths(e.number, e.truths.value);
      }
    }

    /** `while (!events.atEnd()) { ...; events.next(); }` */
    method ProcessEvents(events: seq<ArtEvent>)
      requires EventsMothersInRange(events)
      modifies this, vectors
      ensures State() == EventsStep(old(State()), events)
    {
      ghost var start := State();
      for i := 0 to |events|
        invariant State() == EventsStep(start, events[..i])
      {
        assert events[..i + 1][..i] == events[..i];
        ProcessEvent(events[i]);
      }
      assert events[..|events|] == events;
    }
  }

  datatype ConversionError = NoRootFiles

  /**
   * `convertArtToRoot`: gather the input files; with none, stop before writing
   * anything; otherwise return the rows of the output tree. `events` are the art
   * events the gathered files hold, in reading order.
   */
  method ConvertArtToRoot(inputDirectory: Name, listing: Option<seq<Name>>, events: seq<ArtEvent>, initial: TruthBranches)
    returns (r: Result<seq<TruthRow>, ConversionError>)
    requires listing.Some? ==> NamesFit(listing.value)
    requires EventsMothersInRange(events)
    ensures r.Failure? <==> GatheredPaths(inputDirectory, listing) == []
    ensures r.Success? ==> r.value == EventsStep(ArtState(initial, NoColumns, []), events).rows
    ensures r.Success? ==> |r.value| == TruthRecordCount(events)
  {
    var fileNames := GatherRootFilePaths(inputDirectory, listing);
    if fileNames == [] {
      return Failure(NoRootFiles);
    }
    var converter := new ArtConverter(initial);
    converter.ProcessEvents(events);
    EventsStepRowCount(ArtState(initial, NoColumns, []), events);
    return Success(converter.rows);
  }
}
