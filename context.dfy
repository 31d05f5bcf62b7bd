/** The commit context that keyword extraction reads and the token optimizer
    rewrites. The defining file, src/core/context.rs, is not part of this
    model: only the fields the modelled code uses are kept. */
module Context {
  import opened Wrappers

  /** A staged file: its path, its diff, its full content when loaded, and
      whether the content was dropped to save tokens. */
  datatype StagedFile = StagedFile(path: string, diff: string, content: Option<string>, contentExcluded: bool)

  /** A recent commit; only its message is used. */
  datatype RecentCommit = RecentCommit(message: string)

  class CommitContext {
    var stagedFiles: seq<StagedFile>
    var recentCommits: seq<RecentCommit>

    constructor (stagedFiles: seq<StagedFile>, recentCommits: seq<RecentCommit>)
      ensures this.stagedFiles == stagedFiles && this.recentCommits == recentCommits
    {
      this.stagedFiles := stagedFiles;
      this.recentCommits := recentCommits;
    }
  }
}
