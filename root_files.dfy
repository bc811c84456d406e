/**
 * `gatherRootFilePaths`: the entries of the input directory whose names end in
 * ".root", each prefixed with the directory path, in the order the directory
 * listing returns them. The listing itself is a parameter: `None` when the
 * directory cannot be opened, otherwise the entry names in `readdir` order.
 */
module RootFiles {
  import opened Results

  type Name = seq<char>

  /** 2^64: `size_t` arithmetic wraps modulo this value. */
  const SizeModulus: nat := 0x1_0000_0000_0000_0000

  /** `a - b` on `size_t` operands. */
  function SizeSub(a: nat, b: nat): (r: nat)
    requires a < SizeModulus && b < SizeModulus
    ensures r < SizeModulus
    ensures b <= a ==> r == a - b
    ensures a < b ==> r == SizeModulus + a - b
  {
    (a - b) % SizeModulus
  }

  /**
   * `std::string::find(needle, pos)`: the first position at or after `pos` where
   * `needle` occurs in `hay`, `None` for `npos`.
   */
  function Find(hay: Name, needle: Name, pos: nat): (r: Option<nat>)
    decreases |hay| - pos
  {
    if pos + |needle| > |hay| then None
    else if hay[pos..pos + |needle|] == needle then Some(pos)
    else Find(hay, needle, pos + 1)
  }

  predicate OccursAt(hay: Name, needle: Name, i: nat) {
    i + |needle| <= |hay| && hay[i..i + |needle|] == needle
  }

  /** `Find` returns the least occurrence at or after `pos`, and `npos` exactly when there is none. */
  lemma {:induction false} FindMeaning(hay: Name, needle: Name, pos: nat)
    ensures Find(hay, needle, pos).Some? ==>
      pos <= Find(hay, needle, pos).value && OccursAt(hay, needle, Find(hay, needle, pos).value)
      && forall i :: pos <= i < Find(hay, needle, pos).value ==> !OccursAt(hay, needle, i)
    ensures Find(hay, needle, pos).None? <==> forall i :: pos <= i ==> !OccursAt(hay, needle, i)
    decreases |hay| - pos
  {
    if pos + |needle| > |hay| {
    } else if hay[pos..pos + |needle|] == needle {
    } else {
      FindMeaning(hay, needle, pos + 1);
      assert !OccursAt(hay, needle, pos);
      forall i | pos <= i && OccursAt(hay, needle, i)
        ensures pos + 1 <= i
      {
      }
    }
  }

  const RootExtension: Name := ".root"

  /** The test on each entry: `fileName.find(".root", fileName.length() - 5) != npos`. */
  predicate KeptByFind(name: Name)
    requires |name| < SizeModulus
  {
    Find(name, RootExtension, SizeSub(|name|, |RootExtension|)).Some?
  }

  predicate HasRootSuffix(name: Name) {
    |name| >= 5 && name[|name| - 5..] == RootExtension
  }

  /**
   * The test keeps a name exactly when it ends in ".root". A name shorter than
   * five characters makes the start position wrap to a value past its end, so
   * it is never kept.
   */
  lemma KeptByFindIffSuffix(name: Name)
    requires |name| < SizeModulus
    ensures KeptByFind(name) <==> HasRootSuffix(name)
    ensures |name| < 5 ==> !KeptByFind(name)
  {
    var pos := SizeSub(|name|, 5);
    FindMeaning(name, RootExtension, pos);
    if |name| >= 5 {
      assert pos == |name| - 5;
      if HasRootSuffix(name) {
        assert OccursAt(name, RootExtension, pos);
      }
    } else {
      assert pos > |name|;
    }
  }

  /** Every entry name fits in a `std::string`. */
  predicate NamesFit(names: seq<Name>) {
    forall k :: 0 <= k < |names| ==> |names[k]| < SizeModulus
  }

  /** The paths gathered from a listing: `directoryPath + name` for each kept name, in listing order. */
  function RootFilePaths(directoryPath: Name, names: seq<Name>): seq<Name> {
    if names == [] then []
    else
      var last := names[|names| - 1];
      RootFilePaths(directoryPath, names[..|names| - 1]) + (if HasRootSuffix(last) then [directoryPath + last] else [])
  }

  /** What the function returns: nothing when the directory cannot be opened, else the gathered paths. */
  function GatheredPaths(directoryPath: Name, listing: Option<seq<Name>>): seq<Name> {
    if listing.None? then [] else RootFilePaths(directoryPath, listing.value)
  }

  method GatherRootFilePaths(directoryPath: Name, listing: Option<seq<Name>>) returns (rootFilePaths: seq<Name>)
    requires listing.Some? ==> NamesFit(listing.value)
    ensures rootFilePaths == GatheredPaths(directoryPath, listing)
  {
    rootFilePaths := [];
    if listing.Some? {
      var entries := listing.value;
      for i := 0 to |entries|
        invariant rootFilePaths == RootFilePaths(directoryPath, entries[..i])
      {
        var fileName := entries[i];
        KeptByFindIffSuffix(fileName);
        if Find(fileName, RootExtension, SizeSub(|fileName|, |RootExtension|)).Some? {
          rootFilePaths := rootFilePaths + [directoryPath + fileName];
        }
        assert entries[..i + 1][..i] == entries[..i];
      }
      assert entries[..|entries|] == entries;
    }
  }

  /** Gathering from two listings in turn gives the paths of each, in order. */
  lemma {:induction false} RootFilePathsAppend(directoryPath: Name, a: seq<Name>, b: seq<Name>)
    ensures RootFilePaths(directoryPath, a + b) == RootFilePaths(directoryPath, a) + RootFilePaths(directoryPath, b)
    decreases |b|
  {
    if b == [] {
      assert a + b == a;
    } else {
      var b' := b[..|b| - 1];
      assert (a + b)[..|a + b| - 1] == a + b';
      RootFilePathsAppend(directoryPath, a, b');
    }
  }

  /** A path is gathered exactly when it is the directory path followed by a kept name of the listing. */
  lemma {:induction false} RootFilePathsMembership(directoryPath: Name, names: seq<Name>, path: Name)
    ensures path in RootFilePaths(directoryPath, names) <==>
      exists k :: 0 <= k < |names| && HasRootSuffix(names[k]) && path == directoryPath + names[k]
  {
    if names != [] {
      var init := names[..|names| - 1];
      RootFilePathsMembership(directoryPath, init, path);
      if exists k :: 0 <= k < |names| && HasRootSuffix(names[k]) && path == directoryPath + names[k] {
        var k :| 0 <= k < |names| && HasRootSuffix(names[k]) && path == directoryPath + names[k];
        if k < |names| - 1 {
          assert init[k] == names[k];
        }
      }
    }
  }

  /** At most one path per entry, and one per entry exactly when every name ends in ".root". */
  lemma {:induction false} RootFilePathsLength(directoryPath: Name, names: seq<Name>)
    ensures |RootFilePaths(directoryPath, names)| <= |names|
    ensures |RootFilePaths(directoryPath, names)| == |names| <==> forall k :: 0 <= k < |names| ==> HasRootSuffix(names[k])
  {
    if names != [] {
      var init := names[..|names| - 1];
      RootFilePathsLength(directoryPath, init);
      if forall k :: 0 <= k < |init| ==> HasRootSuffix(init[k]) {
        if HasRootSuffix(names[|names| - 1]) {
          forall k | 0 <= k < |names|
            ensures HasRootSuffix(names[k])
          {
            if k < |init| {
              assert names[k] == init[k];
            }
          }
        }
      } else {
        var k :| 0 <= k < |init| && !HasRootSuffix(init[k]);
        assert names[k] == init[k];
      }
    }
  }
}
