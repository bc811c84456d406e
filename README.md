# nutau-study conversion macros, modelled in Dafny

The nutau-study repository turns simulated neutrino events into flat ROOT trees and analyses them. Three ROOT/gallery macros form its core:

- `convertArtToRoot.C` does three things:
  - it collects the `.root` files of a directory;
  - it reads the generator `MCTruth` records of each art event;
  - it writes one tree entry per truth record. Each entry holds a classification (event index, initial neutrino flavour, charged/neutral current, tau decay mode, interaction type, particle count) and the particle vectors (PDG codes, status codes, momenta, energies, mother indices).
- `convertArtToRootReco.C` does the same with two changes:
  - it keeps only the truth records that match a requested current type and neutrino flavour;
  - after the truth records, it adds one entry per reconstructed Pandora particle (with the first track whose ID equals the particle's `Self()`) and one entry per reconstructed shower.
- `convertRootToAnalysis.C` reads the flat tree back, one entry at a time. For each entry it works out:
  - the visible leptons and charged pions;
  - the leading negative pion's energy;
  - the rest of the visible energy;
  - the missing momentum transverse to the beam line;
  - a flux weight.

The model has one Dafny module per concern:

| module | file | contents |
|---|---|---|
| `Results` | results.dfy | `Option`, `Result` and the zero-length-vector error |
| `Geometry` | geometry.dfy | `Vector3D`, dot and cross products, longitudinal and transverse parts, normalisation and unit vectors |
| `Events` | events.dfy | particles, neutrino records, `MCTruth` records, the seven particle column vectors |
| `Visibility` | visibility.dfy | the nuclear-code test on the decimal string, the visibility and energy-threshold rule, the flux histogram name |
| `Analysis` | analysis.dfy | the per-entry pass of the analysis step, as a class whose fields are the output branches, reading the entry's particle vectors up to its stored count |
| `Flattening` | flattening.dfy | the column vectors as a class that is cleared and appended to, and their algebra |
| `RootFiles` | root_files.dfy | the `.root` filter, including the `size_t` wrap-around of `length() - 5`, and path gathering |
| `Classifier` | classifier.dfy | tau decay products, the decay-mode table in `std::map` order with `std::is_permutation`, interaction type, current flag |
| `ArtConversion` | art_conversion.dfy | the truth-level converter as a class, with the tree it produces specified as a fold over events |
| `RecoConversion` | reco_conversion.dfy | the reconstruction-level converter: selection, track matching, showers |
| `ReadBack` | read_back.dfy | what the analysis pass reads from the entries each converter writes |

The imperative parts stay imperative:
- the analysis pass, the column vectors and both converters are classes with `modifies` clauses;
- each loop of the source becomes a Dafny `while` or `for` loop proved against a specification function: `State() == EventsStep(old(State()), events)` and the like.

The lemmas then state what those specification functions mean:
- how many entries are written, and in what order;
- what each entry's branches and columns hold;
- that the selection lets through only matching records;
- that the decay-mode lookup gives the same mode for every order of the products, and the same mode whether the table is scanned in declared order or in `std::map` order;
- which particles the analysis pass reads from each entry, given that the vectors are cleared per event and the count is per record.

Where the two art macros share a helper function word for word, the model defines it once and cites `convertArtToRoot.C`.

## Model

| member | source | states |
|---|---|---|
| Geometry.MagnitudeSquared | convertRootToAnalysis.C:22-24 | the squared magnitude is non-negative, and zero exactly for the zero vector |
| Geometry.SumOfSquares | convertRootToAnalysis.C:36-38 | a vector's dot product with itself is non-negative, and zero exactly for the zero vector |
| Geometry.Cross | convertRootToAnalysis.C:32-34 | the cross product is orthogonal to both operands |
| Geometry.CrossOrthogonal | convertRootToAnalysis.C:32-34 | the component formula of `cross` gives a vector orthogonal to both operands |
| Geometry.DotSymmetric | convertRootToAnalysis.C:36-38 | the dot product is symmetric |
| Geometry.Longitudinal | convertRootToAnalysis.C:40-42 | the longitudinal part is non-negative and its square is the squared projection on the axis |
| Geometry.TransverseSquared | convertRootToAnalysis.C:44-48 | the squared transverse part is non-negative |
| Geometry.TransverseOrthogonal | convertRootToAnalysis.C:44-48 | for a unit axis, the transverse component is orthogonal to the axis |
| Geometry.PythagoreanDecomposition | convertRootToAnalysis.C:40-48 | for a unit axis, longitudinal² + transverse² equals the squared magnitude |
| Geometry.Normalized | convertRootToAnalysis.C:26-30 | normalisation fails exactly for the zero vector, which is the `runtime_error` path |
| Geometry.NormalizedIsUnit | convertRootToAnalysis.C:26-30 | a normalised non-zero vector has unit length, and scaling it back by the magnitude gives the original |
| Geometry.ZeroMagnitude | convertRootToAnalysis.C:22-28 | the magnitude is zero exactly for the zero vector, so the `mag == 0` test is the zero-vector test |
| Geometry.DivideUnit | convertRootToAnalysis.C:78-84 | dividing each component by a non-zero magnitude gives a unit vector that scales back to the input |
| Geometry.UnitLength | convertRootToAnalysis.C:81-83 | the three in-place divisions yield a unit vector that scales back to the input |
| Geometry.MakeUnitVector | convertRootToAnalysis.C:77-85 | the `UnitVector` constructor throws for a zero vector and otherwise normalises, matching `Normalized` |
| Geometry.BeamlineUnitVectorExists | convertRootToAnalysis.C:13-15 | the beam-line constants make a non-zero vector, so building `beamlineDir` cannot throw |
| Visibility.DigitsLength | convertRootToAnalysis.C:88-89 | the decimal string of n has at most k digits exactly when n < 10^k |
| Visibility.NuclearCodeRange | convertRootToAnalysis.C:87-90 | a code is nuclear (its `to_string` has ten characters) exactly for 10^9 ≤ code < 10^10 or −999999999 ≤ code ≤ −10^8 |
| Visibility.NuclearCodeRangeInt32 | convertRootToAnalysis.C:87-90 | restricted to 32-bit `int`, a code is nuclear exactly when it is ≥ 10^9 or in [−999999999, −10^8] |
| Visibility.IsVisibleAndSufficientEnergy | convertRootToAnalysis.C:96-115 | a visible particle is in a final state (status 1 or 15) and is not a neutrino, a neutron or a nucleus |
| Visibility.NotFinalStateInvisible | convertRootToAnalysis.C:97 | any status other than 1 and 15 is invisible |
| Visibility.ExcludedSpeciesInvisible | convertRootToAnalysis.C:98 | neutrinos, neutrons and nuclear codes are invisible at every energy |
| Visibility.EnergyThresholds | convertRootToAnalysis.C:100-111 | in a final state, charged pions need more than 0.1, protons more than 0.05, and photons, electrons and muons more than 0.03 (each an if-and-only-if) |
| Visibility.OtherSpeciesAlwaysVisible | convertRootToAnalysis.C:112-113 | every other non-excluded final-state code is visible at every energy |
| Visibility.HistogramName | convertRootToAnalysis.C:118-123 | the name always ends in "_cc" when `cc` is non-zero and in "_nc" otherwise |
| Visibility.HistogramNames | convertRootToAnalysis.C:118-123 | the six flux histogram names of the three flavours; any other flavour gives a bare "_cc" or "_nc" |
| Visibility.HistogramNameInjective | convertRootToAnalysis.C:118-123 | for the three flavours, different (flavour, current) pairs select different histograms |
| Analysis.NegPionsAtMostChargedPions | convertRootToAnalysis.C:237-242 | the visible π⁻ count never exceeds the visible charged-pion count |
| Analysis.LeadingIsMaximum | convertRootToAnalysis.C:243-248 | the leading energy is at least every visible π⁻ energy; it is zero iff no visible π⁻ exists; otherwise it is the energy of one of them |
| Analysis.SubtractExtendsNegatedSum | convertRootToAnalysis.C:249 | subtracting a momentum from the negated sum is the negation of the extended sum |
| Analysis.EventSummary.ResetCounts | convertRootToAnalysis.C:125-133 | every output branch is zero afterwards |
| Analysis.ReadParticle | convertRootToAnalysis.C:229-231 | particle j takes entry j of the code, status, energy and momentum vectors |
| Analysis.EntryParticles | convertRootToAnalysis.C:229-231 | the loop visits `ParticleCount` particles, the j-th being entry j of the vectors |
| Analysis.EventSummary.ScanParticles | convertRootToAnalysis.C:223-251 | after the reset and the particle loop over the first `ParticleCount` entries, the counters are the visible-lepton, π⁻ and charged-pion counts of those particles, the leading π⁻ energy is as `LeadingNegPionEnergy` defines it, leading + other energy is their total visible energy, and the returned missing momentum is the negated sum of their visible momenta |
| Analysis.EventSummary.ProcessEvent | convertRootToAnalysis.C:221-252 | after one entry, the branches are those of the scan of its first `ParticleCount` particles; the stored transverse part is that of the negated visible momentum; the weight is the bin content looked up at the entry's first energy |
| Flattening.ColumnsOfDescribes | convertArtToRoot.C:142-151 | pushing back each particle yields seven columns whose k-th entries are the k-th particle's fields |
| Flattening.DescribeUnique | convertArtToRoot.C:142-151 | seven columns that describe a particle list are uniquely determined by it |
| Flattening.AppendDescribes | convertArtToRoot.C:142-151 | appending the columns of two lists describes the concatenated list |
| Flattening.ColumnsOfAppend | convertArtToRoot.C:142-151 | the columns of a concatenation are the concatenated columns |
| Flattening.FlattenColumns | convertArtToRoot.C:133-151 | appending per truth record gives the columns of all their particles, record after record |
| Flattening.ParticleVectors.constructor | convertArtToRoot.C:98-104 | the seven vectors start empty |
| Flattening.ParticleVectors.Clear | convertArtToRoot.C:121-127 | all seven vectors are empty afterwards |
| Flattening.ParticleVectors.Append | convertArtToRoot.C:142-151 | the vectors are the old contents followed by the columns of the pushed particles |
| RootFiles.SizeSub | convertArtToRoot.C:23 | `size_t` subtraction: exact when no underflow, wraps modulo 2^64 otherwise |
| RootFiles.FindMeaning | convertArtToRoot.C:23 | `find` returns the first occurrence at or after the start position, and `npos` iff there is none |
| RootFiles.KeptByFindIffSuffix | convertArtToRoot.C:23 | the `find(".root", length() - 5)` test keeps a name iff it ends in ".root"; names shorter than five characters are never kept, despite the wrap-around |
| RootFiles.GatherRootFilePaths | convertArtToRoot.C:16-32 | an unreadable directory gives no paths; otherwise the directory prefix plus each listed name that passes the test, in listing order |
| RootFiles.RootFilePathsAppend | convertArtToRoot.C:21-26 | gathering distributes over concatenated listings |
| RootFiles.RootFilePathsMembership | convertArtToRoot.C:21-26 | a path is gathered iff it is the directory plus some listed name ending in ".root" |
| RootFiles.RootFilePathsLength | convertArtToRoot.C:21-26 | at most one path per listed name, and one for each exactly when every name ends in ".root" |
| Classifier.DecayProductsOf | convertArtToRoot.C:35-45 | there are at most as many products as particles scanned |
| Classifier.TauDaughterIndices | convertArtToRoot.C:35-45 | the indices are increasing, and they are exactly the particles whose mother exists and is a tau |
| Classifier.DecayProductsAreDaughterCodes | convertArtToRoot.C:35-45 | the products are the PDG codes of the tau daughters, in particle order |
| Classifier.NoTauNoProducts | convertArtToRoot.C:35-45 | a record with no tau has no decay products |
| Classifier.IdentifyDecayProducts | convertArtToRoot.C:35-45 | the loop pushes back exactly the tau daughters' codes |
| Classifier.DecayModeTableInMapOrder | convertArtToRoot.C:49-59 | the table is iterated in `std::map` key order (lexicographic on the product vectors) |
| Classifier.IsPermutationIsMultiset | convertArtToRoot.C:60 | the pairing definition of `is_permutation` agrees with multiset equality |
| Classifier.FirstMatchMeaning | convertArtToRoot.C:59-64 | the lookup returns −1 or the mode of a template that permutes the products, and returns −1 when none does |
| Classifier.IdentifyTauDecayMode | convertArtToRoot.C:48-65 | the loop returns the first matching mode in map order, or −1 |
| Classifier.FirstMatchPermutationInvariant | convertArtToRoot.C:59-64 | the lookup depends only on the multiset of products |
| Classifier.TauDecayModePermutationInvariant | convertArtToRoot.C:48-65 | reordering the decay products never changes the decay mode |
| Classifier.DeclaredIsReordering | convertArtToRoot.C:49-57 | the map-ordered table is a reordering of the initializer list |
| Classifier.DecayTemplatesDistinct | convertArtToRoot.C:49-57 | no two templates are permutations of each other, in either order of the table |
| Classifier.DecayModeTableKeys | convertArtToRoot.C:49-57 | the particle-count signature of each of the seven templates |
| Classifier.UnmatchedByKey | convertArtToRoot.C:59-64 | products whose count signature matches no template give −1 |
| Classifier.FirstMatchFindsUniqueMatch | convertArtToRoot.C:59-62 | in a table of pairwise distinct templates, a matching template's mode is what the lookup returns |
| Classifier.TableModesInRange | convertArtToRoot.C:49-57 | every mode in the table is between 0 and 6 |
| Classifier.TauDecayModeRange | convertArtToRoot.C:48-65 | the decay mode is between −1 and 6 |
| Classifier.TauDecayModeUnknownIff | convertArtToRoot.C:59-64 | the mode is −1 iff no template is a permutation of the products |
| Classifier.TauDecayModeMatched | convertArtToRoot.C:59-62 | products that permute a template get that template's mode |
| Classifier.TauDecayModeMeaning | convertArtToRoot.C:48-65 | range, unknown-iff-unmatched and matched-gives-its-mode, together |
| Classifier.TableOrderIrrelevant | convertArtToRoot.C:49-63 | scanning the initializer list in declared order would give the same mode as map order |
| Classifier.EmptyProductsUnknown | convertArtToRoot.C:48-65 | a record without tau daughters has decay mode −1 |
| Classifier.IncompleteProductsUnknown | convertArtToRoot.C:48-65 | an incomplete muonic decay (no ν_τ) is unknown |
| Classifier.OnePionProductsMatched | convertArtToRoot.C:52 | {ν_τ, π⁰, π⁻} in any order is mode 2 |
| Classifier.MuonicProductsMatched | convertArtToRoot.C:51 | {μ⁻, ν̄_μ, ν_τ} is mode 1 |
| Classifier.IdentifyInteractionType | convertArtToRoot.C:68-78 | the type is between 0 and 5; it is 5 iff the mode is none of 0, 1, 2, 3, 4, 10; it is 3 iff the mode is 3 or 4 |
| Classifier.InteractionTypeIgnoresScatteringCode | convertArtToRoot.C:69 | the scattering code that is read has no influence on the result |
| Classifier.InteractionTypeTable | convertArtToRoot.C:72-76 | modes 0, 1, 2 and 10 map to 0, 1, 2 and 4 |
| Classifier.ChargedCurrentFlag | convertArtToRoot.C:136 | `!CCNC()` is 0 or 1, and 1 iff CCNC is 0 (charged current) |
| ArtConversion.ClassifyTruth | convertArtToRoot.C:134-140 | the entry header carries the event number and the neutrino flavour; its flag is 1 iff charged current; its decay mode is in −1..6, its interaction type in 0..5, and its particle count is the record's |
| ArtConversion.Classifications | convertArtToRoot.C:133-140 | there is one classification per truth record |
| ArtConversion.ClassificationAt | convertArtToRoot.C:133-140 | the j-th classification is the j-th record's |
| ArtConversion.FillsShape | convertArtToRoot.C:133-154 | one new row per record; earlier rows are kept; the vectors grow by all particles; the branches and last row are the last record's |
| ArtConversion.FillsPrefix | convertArtToRoot.C:133-154 | the rows after m records do not depend on later records |
| ArtConversion.FillsRow | convertArtToRoot.C:133-154 | the j-th new row holds the j-th classification and the particles of records 0..j |
| ArtConversion.FillsSnoc | convertArtToRoot.C:133-154 | unfolding step of the definition, not a result of its own: one more record adds exactly one `Fill` step |
| ArtConversion.InvalidHandleFillsNothing | convertArtToRoot.C:121-132 | unfolding step of the definition, not a result of its own: an event without a valid truth handle only clears the vectors |
| ArtConversion.EventStepIsFills | convertArtToRoot.C:121-154 | unfolding step of the definition, not a result of its own: an event with a valid handle is clear-then-fill over its records |
| ArtConversion.EventStepRowCount | convertArtToRoot.C:120-157 | an event adds one row per truth record and keeps earlier rows |
| ArtConversion.EventRowBranches | convertArtToRoot.C:133-153 | row j of an event holds record j's classification |
| ArtConversion.EventRowColumns | convertArtToRoot.C:121-153 | row j's vectors describe the particles of records 0..j of the event, because the vectors are cleared per event and not per record |
| ArtConversion.EventRowColumnsAre | convertArtToRoot.C:121-153 | row j's vectors are the columns of records 0..j of the event |
| ArtConversion.SingleTruthEvent | convertArtToRoot.C:121-153 | an event with one record adds one row with its classification and its own particles; the vector length is the particle count |
| ArtConversion.EventsStepRowCount | convertArtToRoot.C:120-157 | the tree has one entry per truth record over all events |
| ArtConversion.ArtConverter.constructor | convertArtToRoot.C:92-118 | the converter starts with the given branch values, empty vectors and no rows |
| ArtConversion.ArtConverter.Fill | convertArtToRoot.C:153 | `Fill` appends a row with the current branches and vectors |
| ArtConversion.ArtConverter.ProcessTruth | convertArtToRoot.C:134-153 | one record: set the header, push its particles, fill |
| ArtConversion.ArtConverter.ProcessTruths | convertArtToRoot.C:133-154 | the record loop computes the truth phase |
| ArtConversion.ArtConverter.ProcessEvent | convertArtToRoot.C:121-156 | one event: clear, then the truth phase when the handle is valid |
| ArtConversion.ArtConverter.ProcessEvents | convertArtToRoot.C:120-157 | the event loop computes the fold over all events |
| ArtConversion.ConvertArtToRoot | convertArtToRoot.C:80-161 | it fails iff no `.root` file is found; otherwise the rows written are the fold over the events, one per truth record |
| RecoConversion.SelectedTruths | convertArtToRootReco.C:165-168 | the kept records are records of the input that pass the selection, at most all of them, and have in-range mothers when every passing record does |
| RecoConversion.SelectedTruthsMembership | convertArtToRootReco.C:165-168 | a record is kept iff it is in the input and passes the selection |
| RecoConversion.RejectedTruthFillsNothing | convertArtToRootReco.C:161-168 | a rejected record adds no row and no particles; whatever its particles and their mother indices; it still overwrites the event index, flavour and current flag, and leaves the decay mode, the interaction type and the particle count unchanged |
| RecoConversion.SelectedTruthFills | convertArtToRootReco.C:161-186 | a kept record adds one row whose current flag and flavour are the requested ones |
| RecoConversion.KeptTruthStep | convertArtToRootReco.C:161-186 | unfolding step of the definition, not a result of its own: a kept record is classified, its particles are appended and one row is filled |
| RecoConversion.RejectedTruthStep | convertArtToRootReco.C:161-168 | unfolding step of the definition, not a result of its own: a rejected record changes only the three header fields |
| RecoConversion.TruthPhaseShape | convertArtToRootReco.C:160-187 | the truth loop adds one row per selected record and keeps earlier rows |
| RecoConversion.TruthPhaseColumns | convertArtToRootReco.C:160-187 | after the truth loop, the vectors hold the particles of the selected records only |
| RecoConversion.TruthPhaseRow | convertArtToRootReco.C:160-187 | the i-th entry of the truth loop holds the i-th kept record's classification and the vectors extended by the kept records 0..i |
| RecoConversion.TruthPhaseParticleCount | convertArtToRootReco.C:160-187 | after the truth loop the count branch is the last kept record's particle count, or its earlier value when none is kept |
| RecoConversion.TruthPhaseKeeps | convertArtToRootReco.C:160-187 | the truth loop leaves the particle and shower branches unchanged |
| RecoConversion.TruthPhaseRowsMatch | convertArtToRootReco.C:160-187 | every truth row written matches the requested current type and flavour |
| RecoConversion.ImpossibleCurrentTypeKeepsNothing | convertArtToRootReco.C:163-168 | a requested current type other than 0 or 1 keeps no record |
| RecoConversion.FirstTrack | convertArtToRootReco.C:204-212 | a found track index is in range |
| RecoConversion.FirstTrackMeaning | convertArtToRootReco.C:204-212 | the match is the first track with the particle's ID, and none is found iff no track has that ID |
| RecoConversion.FirstTrackAt | convertArtToRootReco.C:204-212 | the first index carrying the ID is the match |
| RecoConversion.FirstTrackAbsent | convertArtToRootReco.C:204-212 | with no track carrying the ID there is no match |
| RecoConversion.FindTrack | convertArtToRootReco.C:204-212 | the scan with `break` finds the first matching track |
| RecoConversion.ParticleRowWithTrack | convertArtToRootReco.C:195-216 | a particle with a matching track writes one row with its index and PDG code and that track's length and momentum, under the current event index |
| RecoConversion.ParticleRowWithoutTrack | convertArtToRootReco.C:195-216 | without a match, the track fields keep their previous values |
| RecoConversion.ParticleStepKeeps | convertArtToRootReco.C:195-216 | a particle keeps earlier rows, the vectors and the shower fields, and changes only the event index of the truth header |
| RecoConversion.ParticlePhaseRow | convertArtToRootReco.C:194-218 | the k-th entry of the particle loop holds the k-th particle's index and code, the event index, the vectors and shower branches from before the loop, and the first matching track's length and momentum when there is one |
| RecoConversion.ParticlePhaseTruth | convertArtToRootReco.C:194-218 | the particle loop changes the truth branches only by setting the event index, and only when there is a particle |
| RecoConversion.ParticlePhaseShape | convertArtToRootReco.C:194-218 | one row per reconstructed particle; earlier rows, vectors and shower fields are kept |
| RecoConversion.ShowerRow | convertArtToRootReco.C:224-228 | a shower writes one row with its ID, first energy and length; everything else is unchanged |
| RecoConversion.ShowerPhaseRow | convertArtToRootReco.C:220-230 | the k-th entry of the shower loop holds the k-th shower's ID, first energy and length, and the vectors, truth and particle branches from before the loop |
| RecoConversion.ShowerPhaseShape | convertArtToRootReco.C:220-230 | one row per shower; earlier rows, vectors, truth and particle fields are kept |
| RecoConversion.EventKeptTruths | convertArtToRootReco.C:159-168 | the records an event keeps all pass the selection and have in-range mothers |
| RecoConversion.AfterTruthsShape | convertArtToRootReco.C:147-188 | after an event's truth loop: one entry per kept record, the vectors hold exactly the kept records' particles, the count is the last kept record's, and the particle and shower branches are unchanged |
| RecoConversion.EventStepShape | convertArtToRootReco.C:147-233 | an event adds as many entries as it has kept records, reconstructed particles and showers, keeps the earlier entries, and leaves the vectors holding the kept records' particles |
| RecoConversion.AfterTruthsRow | convertArtToRootReco.C:147-188 | after clearing the vectors, the truth loop's i-th entry holds the i-th kept record's classification and the particles of kept records 0..i |
| RecoConversion.EventKeepsTruthRows | convertArtToRootReco.C:194-230 | the particle and shower loops leave the truth loop's entries in place |
| RecoConversion.EventTruthRow | convertArtToRootReco.C:147-188 | the event's i-th entry holds the i-th kept record's classification and the particles of kept records 0..i |
| RecoConversion.EventParticleRow | convertArtToRootReco.C:147-218 | the entry of the k-th reconstructed particle follows all kept-record entries; it holds the particle's index and code, the event index, the particles of all kept records and the count the last kept record left |
| RecoConversion.EventShowerRow | convertArtToRootReco.C:147-230 | the entry of the k-th shower follows the kept-record and particle entries; it holds the shower's fields, the particles of all kept records and the count the last kept record left |
| RecoConversion.EventTruthRowsMatch | convertArtToRootReco.C:159-188 | every truth row an event writes matches the selection |
| RecoConversion.EventsStepShape | convertArtToRootReco.C:147-233 | the tree has one entry per selected record, reconstructed particle and shower |
| RecoConversion.RecoConverter.constructor | convertArtToRootReco.C:95-145 | the converter starts with the given branch values, empty vectors and no rows |
| RecoConversion.RecoConverter.Fill | convertArtToRootReco.C:186 | `Fill` appends a row with the current branches and vectors |
| RecoConversion.RecoConverter.ProcessTruth | convertArtToRootReco.C:161-186 | one record: header, selection test, then classify, push and fill if kept |
| RecoConversion.RecoConverter.ProcessKeptTruth | convertArtToRootReco.C:170-186 | a kept record is classified, its particles are pushed and one row is filled |
| RecoConversion.RecoConverter.CopyTrack | convertArtToRootReco.C:206-209 | the track's length and vertex momentum are copied into the particle fields, and nothing else changes |
| RecoConversion.RecoConverter.ProcessParticle | convertArtToRootReco.C:195-216 | one reconstructed particle: set the index and PDG code, copy the first matching track, fill |
| RecoConversion.RecoConverter.ProcessShower | convertArtToRootReco.C:224-228 | one shower: set its fields, fill |
| RecoConversion.RecoConverter.ProcessTruths | convertArtToRootReco.C:159-188 | the truth loop computes the truth phase |
| RecoConversion.RecoConverter.ProcessParticles | convertArtToRootReco.C:194-218 | the particle loop computes the particle phase |
| RecoConversion.RecoConverter.ProcessShowers | convertArtToRootReco.C:223-230 | the shower loop computes the shower phase |
| RecoConversion.RecoConverter.ProcessEvent | convertArtToRootReco.C:147-233 | one event: clear, then the truth, particle and shower phases |
| RecoConversion.RecoConverter.ProcessEvents | convertArtToRootReco.C:147-233 | the event loop computes the fold over all events |
| RecoConversion.ConvertArtToRootReco | convertArtToRootReco.C:83-237 | it fails iff no `.root` file is found; otherwise the rows are the fold over the events, one per selected record, reconstructed particle and shower |
| ReadBack.ReadParticleOfColumns | convertRootToAnalysis.C:229-231 | entry j of the vectors the converters push reads back as particle j |
| ReadBack.EntryParticlesOfColumns | convertRootToAnalysis.C:229-231 | reading the first m entries of the pushed vectors gives back the first m particles |
| ReadBack.FlattenStartsWithFirst | convertArtToRoot.C:133-151 | the particles pushed for several records start with the first record's |
| ReadBack.FlattenedRead | convertRootToAnalysis.C:229-231 | with the vectors of several records and the last record's count, the read stays in range and yields the first `count` pushed particles, a prefix of the first record's list when the count allows, and the record's own list when there is one record |
| ReadBack.ArtRowRead | convertArtToRoot.C:121-153 | the analysis of the art tree's j-th entry of an event scans the first `ParticleCount` of the particles of records 0..j: record j's own list when j is 0, and a prefix of record 0's list when record j has no more particles than record 0 |
| ReadBack.RecoTruthRowRead | convertArtToRootReco.C:147-188 | the same for the i-th kept-record entry of the reconstruction tree |
| ReadBack.RecoParticleRowRead | convertArtToRootReco.C:147-218 | a reconstructed-particle entry is scanned with the last kept record's count over all kept records' particles; with none kept the energy vector is empty and only a zero count stays in range |
| ReadBack.RecoShowerRowRead | convertArtToRootReco.C:147-230 | the same for a shower entry |

## Left out

- ROOT and gallery I/O is not modelled: files, trees, branches, `Write`/`Close` and the histogram file. A tree is modelled as the sequence of rows that `Fill` appends. The art events are given as values: event number and the optional generator, Pandora, track and shower collections, where `None` stands for an invalid handle.
- The directory listing from `opendir`/`readdir` is a parameter. `None` stands for a directory that cannot be opened; the `cerr` messages are not modelled.
- Each converter's `No .root files found` early return is a `Failure` result.
- `sqrt` is not modelled. Every magnitude is a caller-supplied value `mag` with `mag >= 0` and `mag * mag` equal to the squared magnitude.
- Geometry.TransverseSquared: the transverse momentum is kept squared, so the stored `missingTransverseMomentum` is modelled by its square (`missingTransverseMomentumSquared`).
- `azimuth` (with `atan2`) is not modelled. No core operation calls it.
- `double` and `float` are modelled as exact reals. Rounding is not modelled, and neither is the narrowing of reco track momenta, lengths and shower energies to `float`.
- Analysis.EventSummary.ProcessEvent: the flux weight (`FindBin`/`GetBinContent` on the histogram named by `HistogramName`) is a parameter.
- Analysis.EventSummary.ProcessEvent: the `isVisible` branch, which holds the flag of the last particle scanned, is not an output of the model.
- Analysis.EventSummary.ProcessEvent: the entry is required to have `ParticleCount` entries in each vector it reads (`ColumnsCover`), because a read past the end is undefined behaviour; the mother vector is not read.
- Analysis.EventSummary.ProcessEvent: the energy vector is required to be non-empty, because `(*particleEnergies)[0]`, the energy looked up for the weight, is undefined behaviour on an empty vector. A reconstruction entry of an event that keeps no truth record has empty vectors (`ReadBack.RecoParticleRowRead`).
- The analysis reads the `CurrentType` branch to choose its histogram; only the reconstruction converter writes a branch of that name, the truth converter writing `IsChargedCurrent` instead. Branch names and the histogram choice from the first entry are not modelled.
- The vectors are cleared once per event and the count is per record, so an analysed entry is proved to scan its own record's particles for the first kept record of an event, while a later entry in general scans a prefix of the event's first records' particles, and reconstructed particle and shower entries carry the last kept record's count. The model states this (`ReadBack`) rather than assuming one record per event.
- The analysis macro's outer loop over tree entries and its file and histogram error returns are not modelled as a method. Entries are independent because every branch is reset, so each entry is given by `ProcessEvent`.
- The `CloneTree` copy of the input branches into the analysis output is not modelled.
- Uninitialised branch variables are modelled as an `initial` value passed to the converters' constructors. Their real contents are indeterminate.
- Classifier.IdentifyDecayProducts: a mother index outside the record is undefined behaviour in `GetParticle`, so the records it classifies are required to have in-range mothers (`MothersInRange`): every record in the truth converter, and only the records the selection keeps in the reconstruction converter (`KeptMothersInRange`), since a rejected record's particles are never read. Mother `-1` is handled as in the source.
- RecoConversion.ShowerStep: `Energy()[0]` on a shower with an empty energy vector is undefined behaviour, so showers are required to have energy entries (`ShowersHaveEnergy`).
- RootFiles.GatherRootFilePaths: names are required to be shorter than 2^64 characters (`NamesFit`), so that the `size_t` arithmetic is meaningful.
- RecoConversion.RecoConverter.ProcessParticle: the track collection is fetched from the event once per reconstructed particle in the source, and is modelled as one collection per event, because every fetch returns the same product.
- Integer widths of the counters and indices (`int`, `Long64_t`) are unbounded in the model. Overflow would need more than 2^31 particles.
- `makeWeights.C` and the Python plotting scripts are not part of this model.
