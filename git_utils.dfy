/** Binary-diff detection from src/git/utils.rs. */
module GitUtils {
  import opened Text

  const BinaryFilesMarker := "Binary files"
  const BinaryPatchMarker := "GIT binary patch"
  const BinaryChangedMarker := "[Binary file changed]"

  /** A diff is binary when it mentions one of git's three binary markers. */
  function IsBinaryDiff(diff: string): (r: bool)
    ensures Contains(diff, BinaryFilesMarker) ==> r
    ensures Contains(diff, BinaryPatchMarker) ==> r
    ensures Contains(diff, BinaryChangedMarker) ==> r
    ensures !r <==> (!Contains(diff, BinaryFilesMarker)
                     && !Contains(diff, BinaryPatchMarker)
                     && !Contains(diff, BinaryChangedMarker))
  {
    Contains(diff, BinaryFilesMarker)
    || Contains(diff, BinaryPatchMarker)
    || Contains(diff, BinaryChangedMarker)
  }

  /** Embedding a binary diff in more text keeps it binary. */
  lemma BinaryDiffInContext(diff: string, before: string, after: string)
    requires IsBinaryDiff(diff)
    ensures IsBinaryDiff(before + diff + after)
  {
    if Contains(diff, BinaryFilesMarker) {
      ContainsInContext(diff, BinaryFilesMarker, before, after);
    } else if Contains(diff, BinaryPatchMarker) {
      ContainsInContext(diff, BinaryPatchMarker, before, after);
    } else {
      ContainsInContext(diff, BinaryChangedMarker, before, after);
    }
  }

  /** A plain text diff is not binary; one carrying git's patch marker is. */
  lemma BinaryDiffExamples()
    ensures !IsBinaryDiff("")
    ensures IsBinaryDiff("GIT binary patch\nliteral 0")
  {
    assert OccursAt("GIT binary patch\nliteral 0", BinaryPatchMarker, 0);
  }
}
