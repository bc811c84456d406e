/**
 * Classification of one truth record: the direct daughters of the tau, the
 * tau decay mode they form, and the interaction category of the generator mode.
 * The same functions appear verbatim in both art converters.
 */
module Classifier {
  import opened Events

  const TauPdg: int := 15

  /** Particle i has a mother, and that mother is a tau (PDG 15; an anti-tau, -15, does not count). */
  predicate IsTauDaughter(ps: seq<Particle>, i: int)
    requires 0 <= i < |ps|
  {
    ps[i].mother != -1 && 0 <= ps[i].mother < |ps| && ps[ps[i].mother].pdg == TauPdg
  }

  /** Codes of the tau daughters among the first n particles, in list order. */
  function DecayProductsOf(ps: seq<Particle>, n: nat): (r: seq<int>)
    requires n <= |ps|
    ensures |r| <= n
  {
    if n == 0 then []
    else DecayProductsOf(ps, n - 1) + (if IsTauDaughter(ps, n - 1) then [ps[n - 1].pdg] else [])
  }

  /** Positions of the tau daughters among the first n particles, ascending. */
  function TauDaughterIndices(ps: seq<Particle>, n: nat): (idx: seq<nat>)
    requires n <= |ps|
    ensures forall k :: 0 <= k < |idx| ==> idx[k] < n && IsTauDaughter(ps, idx[k])
    ensures forall k, l :: 0 <= k < l < |idx| ==> idx[k] < idx[l]
    ensures forall i :: 0 <= i < n && IsTauDaughter(ps, i) ==> i in idx
  {
    if n == 0 then []
    else TauDaughterIndices(ps, n - 1) + (if IsTauDaughter(ps, n - 1) then [n - 1] else [])
  }

  /**
   * The products are exactly the codes of the tau daughters, taken in list
   * order: entry k is the code of the k-th daughter.
   */
  lemma {:induction false} DecayProductsAreDaughterCodes(ps: seq<Particle>, n: nat)
    requires n <= |ps|
    ensures |DecayProductsOf(ps, n)| == |TauDaughterIndices(ps, n)|
    ensures forall k :: 0 <= k < |TauDaughterIndices(ps, n)| ==>
      DecayProductsOf(ps, n)[k] == ps[TauDaughterIndices(ps, n)[k]].pdg
  {
    if n > 0 {
      DecayProductsAreDaughterCodes(ps, n - 1);
    }
  }

  /** Without a tau (PDG 15) in the list there are no decay products. */
  lemma {:induction false} NoTauNoProducts(ps: seq<Particle>, n: nat)
    requires n <= |ps|
    requires forall i :: 0 <= i < |ps| ==> ps[i].pdg != TauPdg
    ensures DecayProductsOf(ps, n) == []
  {
    if n > 0 {
      NoTauNoProducts(ps, n - 1);
    }
  }

  /** `identifyDecayProducts`: scan the particles, collecting the code of each tau daughter. */
  method IdentifyDecayProducts(particles: seq<Particle>) returns (products: seq<int>)
    requires MothersInRange(particles)
    ensures products == DecayProductsOf(particles, |particles|)
  {
    products := [];
    var i := 0;
    while i < |particles|
      invariant 0 <= i <= |particles|
      invariant products == DecayProductsOf(particles, i)
    {
      var particle := particles[i];
      if particle.mother != -1 && particles[particle.mother].pdg == TauPdg {
        products := products + [particle.pdg];
      }
      i := i + 1;
    }
  }

  /** One entry of the decay-mode table: a multiset of daughter codes and its mode. */
  datatype DecayTemplate = DecayTemplate(products: seq<int>, mode: int)

  /** The table as written in the source, modes 0 to 6. */
  const DeclaredDecayModes: seq<DecayTemplate> := [
    DecayTemplate([-11, 12, 16], 0),
    DecayTemplate([-13, 14, 16], 1),
    DecayTemplate([-211, 111, 16], 2),
    DecayTemplate([-211, 16], 3),
    DecayTemplate([-211, 111, 111, 16], 4),
    DecayTemplate([-211, -211, 211, 16], 5),
    DecayTemplate([-211, -211, 211, 111, 16], 6)]

  /** The same table in the order a `std::map` keyed by the code vectors visits it. */
  const DecayModeTable: seq<DecayTemplate> := [
    DecayTemplate([-211, -211, 211, 16], 5),
    DecayTemplate([-211, -211, 211, 111, 16], 6),
    DecayTemplate([-211, 16], 3),
    DecayTemplate([-211, 111, 16], 2),
    DecayTemplate([-211, 111, 111, 16], 4),
    DecayTemplate([-13, 14, 16], 1),
    DecayTemplate([-11, 12, 16], 0)]

  /** Lexicographic order of `std::vector<int>`, the key order of `std::map`. */
  predicate LexLess(a: seq<int>, b: seq<int>)
    decreases |a|
  {
    if a == [] then b != []
    else if b == [] then false
    else a[0] < b[0] || (a[0] == b[0] && LexLess(a[1..], b[1..]))
  }

  /** The visiting order used by the model is the ascending key order. */
  lemma DecayModeTableInMapOrder()
    ensures forall k :: 0 < k < |DecayModeTable| ==>
      LexLess(DecayModeTable[k - 1].products, DecayModeTable[k].products)
  {
    var t := DecayModeTable;
    assert LexLess(t[0].products, t[1].products);
    assert LexLess(t[1].products, t[2].products);
    assert LexLess(t[2].products, t[3].products);
    assert LexLess(t[3].products, t[4].products);
    assert LexLess(t[4].products, t[5].products);
    assert LexLess(t[5].products, t[6].products);
  }

  /** b without its first occurrence of x (b itself when x does not occur). */
  function RemoveFirst(b: seq<int>, x: int): (r: seq<int>)
    ensures x in b ==> |r| == |b| - 1
  {
    if b == [] then []
    else if b[0] == x then b[1..]
    else [b[0]] + RemoveFirst(b[1..], x)
  }

  /**
   * `std::is_permutation` over two whole ranges: every element of `a` is
   * paired with a distinct equal element of `b`, and none of `b` is left over.
   */
  predicate IsPermutation(a: seq<int>, b: seq<int>) {
    if a == [] then b == []
    else a[0] in b && IsPermutation(a[1..], RemoveFirst(b, a[0]))
  }

  lemma {:induction false} RemoveFirstMultiset(b: seq<int>, x: int)
    requires x in b
    ensures multiset(RemoveFirst(b, x)) == multiset(b) - multiset{x}
  {
    assert b == [b[0]] + b[1..];
    if b[0] != x {
      RemoveFirstMultiset(b[1..], x);
    }
  }

  /** The pairing succeeds exactly when both ranges hold the same values with the same counts. */
  lemma {:induction false} IsPermutationIsMultiset(a: seq<int>, b: seq<int>)
    ensures IsPermutation(a, b) <==> multiset(a) == multiset(b)
  {
    if a == [] {
      if b != [] {
        assert b[0] in multiset(b);
      }
    } else {
      assert a == [a[0]] + a[1..];
      if a[0] in b {
        RemoveFirstMultiset(b, a[0]);
        IsPermutationIsMultiset(a[1..], RemoveFirst(b, a[0]));
        assert multiset(b) == multiset(RemoveFirst(b, a[0])) + multiset{a[0]};
      } else {
        assert a[0] in multiset(a) && a[0] !in multiset(b);
      }
    }
  }

  /** The mode of the first template, in table order, that the products are a permutation of; -1 if none. */
  function FirstMatch(table: seq<DecayTemplate>, products: seq<int>): int {
    if table == [] then -1
    else if IsPermutation(products, table[0].products) then table[0].mode
    else FirstMatch(table[1..], products)
  }

  /** The result is -1 or the mode of a template the products permute, and -1 when none matches. */
  lemma {:induction false} FirstMatchMeaning(table: seq<DecayTemplate>, products: seq<int>)
    ensures FirstMatch(table, products) == -1 ||
      exists k :: 0 <= k < |table| && table[k].mode == FirstMatch(table, products) && IsPermutation(products, table[k].products)
    ensures (forall k :: 0 <= k < |table| ==> !IsPermutation(products, table[k].products)) ==> FirstMatch(table, products) == -1
  {
    if table != [] && !IsPermutation(products, table[0].products) {
      FirstMatchMeaning(table[1..], products);
      if FirstMatch(table, products) != -1 {
        var k :| 0 <= k < |table[1..]| && table[1..][k].mode == FirstMatch(table, products) && IsPermutation(products, table[1..][k].products);
        assert table[k + 1] == table[1..][k];
      }
      if forall k :: 0 <= k < |table| ==> !IsPermutation(products, table[k].products) {
        forall k | 0 <= k < |table[1..]|
          ensures !IsPermutation(products, table[1..][k].products)
        {
          assert table[1..][k] == table[k + 1];
        }
      }
    }
  }

  /** `identifyTauDecayMode` as a value. */
  function TauDecayMode(products: seq<int>): int {
    FirstMatch(DecayModeTable, products)
  }

  /** `identifyTauDecayMode`: walk the table, returning at the first template the products permute. */
  method IdentifyTauDecayMode(decayProducts: seq<int>) returns (mode: int)
    ensures mode == TauDecayMode(decayProducts)
  {
    var table := DecayModeTable;
    var k := 0;
    while k < |table|
      invariant 0 <= k <= |table|
      invariant FirstMatch(table, decayProducts) == FirstMatch(table[k..], decayProducts)
    {
      assert table[k..][1..] == table[k + 1..];
      if IsPermutation(decayProducts, table[k].products) {
        return table[k].mode;
      }
      k := k + 1;
    }
    return -1;
  }

  /** The result depends on the products only through their multiset. */
  lemma {:induction false} FirstMatchPermutationInvariant(table: seq<DecayTemplate>, a: seq<int>, b: seq<int>)
    requires multiset(a) == multiset(b)
    ensures FirstMatch(table, a) == FirstMatch(table, b)
  {
    if table != [] {
      IsPermutationIsMultiset(a, table[0].products);
      IsPermutationIsMultiset(b, table[0].products);
      FirstMatchPermutationInvariant(table[1..], a, b);
    }
  }

  lemma TauDecayModePermutationInvariant(a: seq<int>, b: seq<int>)
    requires multiset(a) == multiset(b)
    ensures TauDecayMode(a) == TauDecayMode(b)
  {
    FirstMatchPermutationInvariant(DecayModeTable, a, b);
  }

  /** No two templates are permutations of each other, so at most one can match. */
  predicate TemplatesDistinct(table: seq<DecayTemplate>) {
    forall k, l :: 0 <= k < l < |table| ==> multiset(table[k].products) != multiset(table[l].products)
  }

  /** Number of occurrences of x in s. */
  function Count(s: seq<int>, x: int): nat {
    if s == [] then 0 else (if s[0] == x then 1 else 0) + Count(s[1..], x)
  }

  lemma {:induction false} CountIsMultiplicity(s: seq<int>, x: int)
    ensures Count(s, x) == multiset(s)[x]
  {
    if s != [] {
      CountIsMultiplicity(s[1..], x);
      assert s == [s[0]] + s[1..];
    }
  }

  /** Length and the counts of the codes that tell the seven templates apart. */
  datatype TemplateKey = TemplateKey(length: nat, negPions: nat, neutralPions: nat, antiMuons: nat, positrons: nat)

  function Key(s: seq<int>): TemplateKey {
    TemplateKey(|s|, Count(s, -211), Count(s, 111), Count(s, -13), Count(s, -11))
  }

  /** Permutations share their key, so a different key rules a match out. */
  lemma PermutationSameKey(a: seq<int>, b: seq<int>)
    requires IsPermutation(a, b)
    ensures Key(a) == Key(b)
  {
    CountIsMultiplicity(a, -211);
    CountIsMultiplicity(b, -211);
    CountIsMultiplicity(a, 111);
    CountIsMultiplicity(b, 111);
    CountIsMultiplicity(a, -13);
    CountIsMultiplicity(b, -13);
    CountIsMultiplicity(a, -11);
    CountIsMultiplicity(b, -11);
    IsPermutationIsMultiset(a, b);
    assert |multiset(a)| == |a| && |multiset(b)| == |b|;
  }

  predicate KeysDistinct(table: seq<DecayTemplate>) {
    forall k, l :: 0 <= k < l < |table| ==> Key(table[k].products) != Key(table[l].products)
  }

  lemma DistinctKeysDistinctTemplates(table: seq<DecayTemplate>)
    requires KeysDistinct(table)
    ensures TemplatesDistinct(table)
  {
    forall k, l | 0 <= k < l < |table|
      ensures multiset(table[k].products) != multiset(table[l].products)
    {
      if multiset(table[k].products) == multiset(table[l].products) {
        IsPermutationIsMultiset(table[k].products, table[l].products);
        PermutationSameKey(table[k].products, table[l].products);
      }
    }
  }

  /** The keys of the table's templates, in table order. */
  lemma DecayModeTableKeys()
    ensures Key(DecayModeTable[0].products) == TemplateKey(4, 2, 0, 0, 0)
    ensures Key(DecayModeTable[1].products) == TemplateKey(5, 2, 1, 0, 0)
    ensures Key(DecayModeTable[2].products) == TemplateKey(2, 1, 0, 0, 0)
    ensures Key(DecayModeTable[3].products) == TemplateKey(3, 1, 1, 0, 0)
    ensures Key(DecayModeTable[4].products) == TemplateKey(4, 1, 2, 0, 0)
    ensures Key(DecayModeTable[5].products) == TemplateKey(3, 0, 0, 1, 0)
    ensures Key(DecayModeTable[6].products) == TemplateKey(3, 0, 0, 0, 1)
  {
    ThreeProngKeys();
    OneProngKeys();
    LeptonicKeys();
  }

  lemma ThreeProngKeys()
    ensures Key(DecayModeTable[0].products) == TemplateKey(4, 2, 0, 0, 0)
    ensures Key(DecayModeTable[1].products) == TemplateKey(5, 2, 1, 0, 0)
  {
  }

  lemma OneProngKeys()
    ensures Key(DecayModeTable[2].products) == TemplateKey(2, 1, 0, 0, 0)
    ensures Key(DecayModeTable[3].products) == TemplateKey(3, 1, 1, 0, 0)
    ensures Key(DecayModeTable[4].products) == TemplateKey(4, 1, 2, 0, 0)
  {
  }

  lemma LeptonicKeys()
    ensures Key(DecayModeTable[5].products) == TemplateKey(3, 0, 0, 1, 0)
    ensures Key(DecayModeTable[6].products) == TemplateKey(3, 0, 0, 0, 1)
  {
  }

  lemma DeclaredDecayModesKeys()
    ensures Key(DeclaredDecayModes[0].products) == TemplateKey(3, 0, 0, 0, 1)
    ensures Key(DeclaredDecayModes[1].products) == TemplateKey(3, 0, 0, 1, 0)
    ensures Key(DeclaredDecayModes[2].products) == TemplateKey(3, 1, 1, 0, 0)
    ensures Key(DeclaredDecayModes[3].products) == TemplateKey(2, 1, 0, 0, 0)
    ensures Key(DeclaredDecayModes[4].products) == TemplateKey(4, 1, 2, 0, 0)
    ensures Key(DeclaredDecayModes[5].products) == TemplateKey(4, 2, 0, 0, 0)
    ensures Key(DeclaredDecayModes[6].products) == TemplateKey(5, 2, 1, 0, 0)
  {
    DecayModeTableKeys();
    var d, t := DeclaredDecayModes, DecayModeTable;
    assert d[0] == t[6];
    assert d[1] == t[5];
    assert d[2] == t[3];
    assert d[3] == t[2];
    assert d[4] == t[4];
    assert d[5] == t[0];
    assert d[6] == t[1];
  }

  /** The declaration order is a reordering of the map order: entry k is table entry Position[k]. */
  const Position: seq<nat> := [6, 5, 3, 2, 4, 0, 1]

  lemma DeclaredIsReordering()
    ensures |DeclaredDecayModes| == |DecayModeTable| == |Position|
    ensures forall k :: 0 <= k < |Position| ==> Position[k] < |DecayModeTable| && DeclaredDecayModes[k] == DecayModeTable[Position[k]]
    ensures forall j :: 0 <= j < |DecayModeTable| ==> DecayModeTable[j] in DeclaredDecayModes
  {
    var d, t := DeclaredDecayModes, DecayModeTable;
    assert d[0] == t[6];
    assert d[1] == t[5];
    assert d[2] == t[3];
    assert d[3] == t[2];
    assert d[4] == t[4];
    assert d[5] == t[0];
    assert d[6] == t[1];
  }

  lemma DecayTemplatesDistinct()
    ensures TemplatesDistinct(DecayModeTable)
    ensures TemplatesDistinct(DeclaredDecayModes)
  {
    TableKeysDistinct();
    DistinctKeysDistinctTemplates(DecayModeTable);
    DeclaredKeysDistinct();
    DistinctKeysDistinctTemplates(DeclaredDecayModes);
  }

  lemma TableKeysDistinct()
    ensures KeysDistinct(DecayModeTable)
  {
    DecayModeTableKeys();
    var t := DecayModeTable;
    forall k, l | 0 <= k < l < |t|
      ensures Key(t[k].products) != Key(t[l].products)
    {
      assert k in {0, 1, 2, 3, 4, 5} && l in {1, 2, 3, 4, 5, 6};
    }
  }

  lemma DeclaredKeysDistinct()
    ensures KeysDistinct(DeclaredDecayModes)
  {
    DeclaredDecayModesKeys();
    var d := DeclaredDecayModes;
    forall k, l | 0 <= k < l < |d|
      ensures Key(d[k].products) != Key(d[l].products)
    {
      assert k in {0, 1, 2, 3, 4, 5} && l in {1, 2, 3, 4, 5, 6};
    }
  }

  /** Products whose key differs from every template's key match no template. */
  lemma UnmatchedByKey(products: seq<int>)
    requires forall k :: 0 <= k < |DecayModeTable| ==> Key(products) != Key(DecayModeTable[k].products)
    ensures TauDecayMode(products) == -1
  {
    FirstMatchMeaning(DecayModeTable, products);
    forall k | 0 <= k < |DecayModeTable|
      ensures !IsPermutation(products, DecayModeTable[k].products)
    {
      if IsPermutation(products, DecayModeTable[k].products) {
        PermutationSameKey(products, DecayModeTable[k].products);
      }
    }
  }

  /** With pairwise distinct templates, a matching template's mode is the result, wherever it sits in the table. */
  lemma {:induction false} FirstMatchFindsUniqueMatch(table: seq<DecayTemplate>, products: seq<int>, k: nat)
    requires TemplatesDistinct(table)
    requires k < |table| && IsPermutation(products, table[k].products)
    ensures FirstMatch(table, products) == table[k].mode
  {
    if k > 0 {
      IsPermutationIsMultiset(products, table[0].products);
      IsPermutationIsMultiset(products, table[k].products);
      assert !IsPermutation(products, table[0].products);
      FirstMatchFindsUniqueMatch(table[1..], products, k - 1);
    }
  }

  lemma TableModesInRange(k: nat)
    requires k < |DecayModeTable|
    ensures 0 <= DecayModeTable[k].mode <= 6
  {
    assert k in {0, 1, 2, 3, 4, 5, 6};
  }

  /** The result always lies in -1..6. */
  lemma TauDecayModeRange(products: seq<int>)
    ensures -1 <= TauDecayMode(products) <= 6
  {
    var t := DecayModeTable;
    FirstMatchMeaning(t, products);
    if TauDecayMode(products) != -1 {
      var k :| 0 <= k < |t| && t[k].mode == TauDecayMode(products) && IsPermutation(products, t[k].products);
      TableModesInRange(k);
    }
  }

  /** The result is -1 exactly when the products are a permutation of no template. */
  lemma TauDecayModeUnknownIff(products: seq<int>)
    ensures TauDecayMode(products) == -1 <==>
      forall k :: 0 <= k < |DecayModeTable| ==> !IsPermutation(products, DecayModeTable[k].products)
  {
    var t := DecayModeTable;
    FirstMatchMeaning(t, products);
    if TauDecayMode(products) == -1 {
      forall k | 0 <= k < |t|
        ensures !IsPermutation(products, t[k].products)
      {
        if IsPermutation(products, t[k].products) {
          TauDecayModeMatched(products, k);
          TableModesInRange(k);
        }
      }
    }
  }

  /** A template the products are a permutation of gives the result, wherever it sits in the table. */
  lemma TauDecayModeMatched(products: seq<int>, k: nat)
    requires k < |DecayModeTable| && IsPermutation(products, DecayModeTable[k].products)
    ensures TauDecayMode(products) == DecayModeTable[k].mode
  {
    DecayTemplatesDistinct();
    FirstMatchFindsUniqueMatch(DecayModeTable, products, k);
  }

  /**
   * The result is the mode of the template the products are a permutation of,
   * and -1 when there is none; it always lies in -1..6.
   */
  lemma TauDecayModeMeaning(products: seq<int>)
    ensures -1 <= TauDecayMode(products) <= 6
    ensures TauDecayMode(products) == -1 <==>
      forall k :: 0 <= k < |DecayModeTable| ==> !IsPermutation(products, DecayModeTable[k].products)
    ensures forall k :: 0 <= k < |DecayModeTable| && IsPermutation(products, DecayModeTable[k].products) ==>
      TauDecayMode(products) == DecayModeTable[k].mode
  {
    TauDecayModeRange(products);
    TauDecayModeUnknownIff(products);
    forall k | 0 <= k < |DecayModeTable| && IsPermutation(products, DecayModeTable[k].products)
      ensures TauDecayMode(products) == DecayModeTable[k].mode
    {
      TauDecayModeMatched(products, k);
    }
  }

  /** Because the templates are distinct, visiting them in declaration order gives the same result. */
  lemma TableOrderIrrelevant(products: seq<int>)
    ensures FirstMatch(DeclaredDecayModes, products) == TauDecayMode(products)
  {
    DecayTemplatesDistinct();
    DeclaredIsReordering();
    var d, t := DeclaredDecayModes, DecayModeTable;
    if k :| 0 <= k < |d| && IsPermutation(products, d[k].products) {
      FirstMatchFindsUniqueMatch(d, products, k);
      FirstMatchFindsUniqueMatch(t, products, Position[k]);
    } else {
      FirstMatchMeaning(d, products);
      FirstMatchMeaning(t, products);
      forall j | 0 <= j < |t|
        ensures !IsPermutation(products, t[j].products)
      {
        assert t[j] in d;
      }
    }
  }

  lemma EmptyProductsUnknown()
    ensures TauDecayMode([]) == -1
  {
    DecayModeTableKeys();
    UnmatchedByKey([]);
  }

  /** Without the tau neutrino the muonic products match nothing. */
  lemma IncompleteProductsUnknown()
    ensures TauDecayMode([-13, 14]) == -1
  {
    DecayModeTableKeys();
    assert Key([-13, 14]) == TemplateKey(2, 0, 0, 1, 0);
    UnmatchedByKey([-13, 14]);
  }

  /** Any order of pi-, pi0 and nu_tau is mode 2. */
  lemma OnePionProductsMatched()
    ensures TauDecayMode([16, 111, -211]) == 2
  {
    assert DecayModeTable[3].products == [-211, 111, 16];
    assert RemoveFirst([-211, 111, 16], 16) == [-211, 111];
    assert RemoveFirst([-211, 111], 111) == [-211];
    TauDecayModeMeaning([16, 111, -211]);
  }

  /** The muonic products, in table order, are mode 1. */
  lemma MuonicProductsMatched()
    ensures TauDecayMode([-13, 14, 16]) == 1
  {
    assert DecayModeTable[5].products == [-13, 14, 16];
    TauDecayModeMeaning([-13, 14, 16]);
  }

  /**
   * `identifyInteractionType`: generator mode 0 QE, 1 resonant, 2 DIS,
   * 3 and 4 coherent, 10 MEC, anything else "other". The scattering code
   * `InteractionType()` is read but not used.
   */
  function IdentifyInteractionType(nu: Neutrino): (t: int)
    ensures 0 <= t <= 5
    ensures t == 5 <==> nu.mode !in {0, 1, 2, 3, 4, 10}
    ensures t == 3 <==> nu.mode == 3 || nu.mode == 4
  {
    var mode := nu.mode;
    if mode == 0 then 0
    else if mode == 1 then 1
    else if mode == 2 then 2
    else if mode == 3 || mode == 4 then 3
    else if mode == 10 then 4
    else 5
  }

  lemma InteractionTypeIgnoresScatteringCode(nu: Neutrino, scattering: int)
    ensures IdentifyInteractionType(nu.(interactionType := scattering)) == IdentifyInteractionType(nu)
  {
  }

  lemma InteractionTypeTable(nu: Neutrino)
    ensures nu.mode == 0 ==> IdentifyInteractionType(nu) == 0
    ensures nu.mode == 1 ==> IdentifyInteractionType(nu) == 1
    ensures nu.mode == 2 ==> IdentifyInteractionType(nu) == 2
    ensures nu.mode == 10 ==> IdentifyInteractionType(nu) == 4
  {
  }

  /** `!CCNC()`: 1 for a charged-current interaction (CCNC 0), 0 otherwise. */
  function ChargedCurrentFlag(nu: Neutrino): (flag: int)
    ensures flag == 0 || flag == 1
    ensures flag == 1 <==> nu.ccnc == 0
  {
    if nu.ccnc == 0 then 1 else 0
  }
}
