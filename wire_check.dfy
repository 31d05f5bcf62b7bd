/** The verdict of the wiring `check` operation, from crates/wire/src/check.rs.

    `compare_with_temp` diffs a freshly fetched `src` tree against the `dst` tree
    of the working copy with two directional folder comparisons. The directory
    walk of the comparison library is abstracted as a function on trees, where a
    tree maps each relative file path to its content. */
module WireCheck {
  import opened Wrappers

  type Path = string

  /** What one directional folder comparison reports. */
  datatype FolderComparison = FolderComparison(newFiles: set<Path>, changedFiles: set<Path>)

  /** The abstract comparison of `a` against `b`: files of `a` missing from `b`,
      and files present in both whose contents differ. */
  function FolderCompare<C(==)>(a: map<Path, C>, b: map<Path, C>): FolderComparison {
    FolderComparison(a.Keys - b.Keys, set p | p in a && p in b && a[p] != b[p])
  }

  datatype CheckError =
    | CheckDifferenceExecution
    | CheckDifferenceStringReplace

  /** The boolean verdict built from the two comparisons: `fc1` compares the
      freshly fetched tree against `dst`, `fc2` compares `dst` against
      the fresh tree. `fc1.changedFiles` is never consulted. */
  predicate Verdict(fc1: FolderComparison, fc2: FolderComparison) {
    fc1.newFiles == {} && fc2.newFiles == {} && fc2.changedFiles == {}
  }

  /** `compare_with_temp`. `fc1` and `fc2` are `None` when the comparison could
      not be built; `tempRootUtf8` and `isUtf8` say whether the temporary root and
      each reported path convert to UTF-8 (needed only while reporting the files
      of `fc1.newFiles`). */
  method CompareWithTemp(fc1: Option<FolderComparison>, fc2: Option<FolderComparison>,
                         tempRootUtf8: bool, isUtf8: Path -> bool)
    returns (r: Result<bool, CheckError>)
    ensures r.Err? && r.error == CheckDifferenceExecution <==> fc1.None? || fc2.None?
    ensures r.Err? && r.error == CheckDifferenceStringReplace <==>
              fc1.Some? && fc2.Some? && fc1.value.newFiles != {}
              && (!tempRootUtf8 || exists f | f in fc1.value.newFiles :: !isUtf8(f))
    ensures r.Ok? ==> r.value == Verdict(fc1.value, fc2.value)
  {
    if fc1.None? || fc2.None? {
      return Err(CheckDifferenceExecution);
    }
    var c1, c2 := fc1.value, fc2.value;
    var result := true;
    if c1.newFiles != {} {
      if !tempRootUtf8 || exists f | f in c1.newFiles :: !isUtf8(f) {
        return Err(CheckDifferenceStringReplace);
      }
      result := false;
    }
    if c2.newFiles != {} {
      result := false;
    }
    if c2.changedFiles != {} {
      result := false;
    }
    return Ok(result);
  }

  /** Under the abstract comparison the verdict is exactly "the two trees are
      equal": same paths, same content at every path. */
  lemma {:induction false} VerdictIsTreeEquality<C>(upstream: map<Path, C>, dst: map<Path, C>)
    ensures Verdict(FolderCompare(upstream, dst), FolderCompare(dst, upstream)) <==> upstream == dst
  {
    var fc1, fc2 := FolderCompare(upstream, dst), FolderCompare(dst, upstream);
    if Verdict(fc1, fc2) {
      assert upstream.Keys == dst.Keys by {
        forall p | p in upstream ensures p in dst {
          assert p !in fc1.newFiles;
        }
        forall p | p in dst ensures p in upstream {
          assert p !in fc2.newFiles;
        }
      }
      forall p | p in upstream ensures upstream[p] == dst[p] {
        assert p !in fc2.changedFiles;
      }
    }
  }

  /** Each of the three reported discrepancies on its own makes the verdict false. */
  lemma DiscrepancyFails<C>(upstream: map<Path, C>, dst: map<Path, C>, p: Path)
    ensures p in upstream && p !in dst ==> !Verdict(FolderCompare(upstream, dst), FolderCompare(dst, upstream))
    ensures p in dst && p !in upstream ==> !Verdict(FolderCompare(upstream, dst), FolderCompare(dst, upstream))
    ensures p in upstream && p in dst && upstream[p] != dst[p]
            ==> !Verdict(FolderCompare(upstream, dst), FolderCompare(dst, upstream))
  {
    if p in dst && p in upstream && upstream[p] != dst[p] {
      assert p in FolderCompare(dst, upstream).changedFiles;
    }
  }

  /** The verdict does not depend on what `fc1` reports as changed. */
  lemma FreshChangedIgnored(fc1: FolderComparison, fc2: FolderComparison, changed: set<Path>)
    ensures Verdict(fc1, fc2) == Verdict(fc1.(changedFiles := changed), fc2)
  {
  }
}
