/** The per-author, per-repository cache of past commit messages, from
    src/core/commit_cache.rs.

    The cache is one map from the key "author:repo" to a list of messages.
    Loading it from and saving it to the JSON file in the user's cache
    directory are I/O and left to the caller: the constructor takes the map
    that was loaded. */
module CommitCache {
  import opened Wrappers
  import opened Text
  import opened Sorting

  datatype CachedCommitMessage = CachedCommitMessage(message: string, timestamp: string, hash: string)

  datatype CacheStats = CacheStats(totalMessages: nat, totalAuthors: nat, totalRepos: nat)

  type Cache = map<string, seq<CachedCommitMessage>>

  const MaxMessagesPerAuthorRepo: nat := 1000

  /** `format!("{author_email}:{repo_path}")`. */
  function Key(author: string, repo: string): string {
    author + ":" + repo
  }

  /** `key.split(':').nth(1)`. */
  function Nth1(key: string): Option<string> {
    var parts := Split(key, ':');
    if |parts| >= 2 then Some(parts[1]) else None
  }

  /** `key.split(':').next().unwrap_or("")`: the text before the first ':'. */
  function First(key: string): string {
    Split(key, ':')[0]
  }

  /** With colon-free author and repository, the key splits back into them. */
  lemma KeyPieces(author: string, repo: string)
    requires ':' !in author && ':' !in repo
    ensures First(Key(author, repo)) == author
    ensures Nth1(Key(author, repo)) == Some(repo)
  {
    assert Key(author, repo) == author + [':'] + repo;
    SplitAtFirst(author, ':', repo);
    SplitWithout(repo, ':');
  }

  /** Colon-free keys identify the pair they were built from. */
  lemma KeyInjective(a1: string, r1: string, a2: string, r2: string)
    requires ':' !in a1 && ':' !in r1 && ':' !in a2 && ':' !in r2
    ensures Key(a1, r1) == Key(a2, r2) <==> a1 == a2 && r1 == r2
  {
    KeyPieces(a1, r1);
    KeyPieces(a2, r2);
  }

  /** A repository path that itself contains ':' is read back only up to that
      colon, so such a repository never matches its own entries. */
  lemma ColonRepoMisread()
    ensures Nth1(Key("a", "C:/x")) == Some("C")
  {
    assert Key("a", "C:/x") == "a" + [':'] + ("C" + [':'] + "/x");
    SplitWithout("/x", ':');
    SplitAtFirst("C", ':', "/x");
    SplitAtFirst("a", ':', "C:/x");
  }

  // ---------------------------------------------------------------- capping

  /** `b.timestamp.cmp(&a.timestamp)`: `a` goes first when its timestamp is
      not older. */
  function NewerFirst(a: CachedCommitMessage, b: CachedCommitMessage): bool {
    LexLe(b.timestamp, a.timestamp)
  }

  lemma NewerFirstTotalPreorder()
    ensures TotalPreorder(NewerFirst)
  {
    forall a, b ensures NewerFirst(a, b) || NewerFirst(b, a) {
      LexLeTotal(a.timestamp, b.timestamp);
    }
    forall a, b, c | NewerFirst(a, b) && NewerFirst(b, c) ensures NewerFirst(a, c) {
      LexLeTransitive(c.timestamp, b.timestamp, a.timestamp);
    }
  }

  /** What `add_commit_messages` leaves under a key: the list itself when it
      has at most 1000 messages, else the 1000 newest after a stable sort. */
  function Capped(msgs: seq<CachedCommitMessage>): (r: seq<CachedCommitMessage>)
    ensures |r| <= MaxMessagesPerAuthorRepo
    ensures |msgs| <= MaxMessagesPerAuthorRepo ==> r == msgs
    ensures |msgs| > MaxMessagesPerAuthorRepo ==> |r| == MaxMessagesPerAuthorRepo
    ensures multiset(r) <= multiset(msgs)
  {
    if |msgs| > MaxMessagesPerAuthorRepo then
      var sorted := SortDesc(msgs, NewerFirst);
      assert sorted == sorted[..MaxMessagesPerAuthorRepo] + sorted[MaxMessagesPerAuthorRepo..];
      sorted[..MaxMessagesPerAuthorRepo]
    else msgs
  }

  /** The messages a cap throws away. */
  function Dropped(msgs: seq<CachedCommitMessage>): seq<CachedCommitMessage> {
    if |msgs| > MaxMessagesPerAuthorRepo then SortDesc(msgs, NewerFirst)[MaxMessagesPerAuthorRepo..] else []
  }

  /** The cap keeps the newest messages, newest first: kept and dropped
      together are the input, the kept ones are in descending timestamp order,
      and no dropped message is newer than a kept one. */
  lemma CappedKeepsNewest(msgs: seq<CachedCommitMessage>)
    requires |msgs| > MaxMessagesPerAuthorRepo
    ensures multiset(Capped(msgs)) + multiset(Dropped(msgs)) == multiset(msgs)
    ensures SortedDesc(Capped(msgs), NewerFirst)
    ensures forall i, j :: 0 <= i < |Capped(msgs)| && 0 <= j < |Dropped(msgs)| ==>
              LexLe(Dropped(msgs)[j].timestamp, Capped(msgs)[i].timestamp)
  {
    var sorted := SortDesc(msgs, NewerFirst);
    NewerFirstTotalPreorder();
    SortDescSorted(msgs, NewerFirst);
    var n := MaxMessagesPerAuthorRepo;
    assert sorted == sorted[..n] + sorted[n..];
    forall i, j | 0 <= i < |Capped(msgs)| && 0 <= j < |Dropped(msgs)|
      ensures LexLe(Dropped(msgs)[j].timestamp, Capped(msgs)[i].timestamp)
    {
      assert Capped(msgs)[i] == sorted[i] && Dropped(msgs)[j] == sorted[n + j];
      assert NewerFirst(sorted[i], sorted[n + j]);
    }
  }

  // ---------------------------------------------------------------- the map operations

  /** `get_commit_messages`: the list under the key, or the empty list. */
  function Lookup(m: Cache, author: string, repo: string): seq<CachedCommitMessage> {
    var key := Key(author, repo);
    if key in m then m[key] else []
  }

  /** `add_commit_messages`: append to the list under the key (created empty
      when missing), then cap. */
  function AddTo(m: Cache, author: string, repo: string, msgs: seq<CachedCommitMessage>): Cache {
    var key := Key(author, repo);
    m[key := Capped(Lookup(m, author, repo) + msgs)]
  }

  /** `get_authors_for_repo`: the author part of every key whose second
      ':'-piece is `repo`. */
  function Authors(m: Cache, repo: string): set<string> {
    set k | k in m && Nth1(k) == Some(repo) :: First(k)
  }

  /** `clear_repo_cache`: retain the keys whose second ':'-piece is not `repo`. */
  function ClearRepo(m: Cache, repo: string): Cache {
    map k | k in m && Nth1(k) != Some(repo) :: m[k]
  }

  /** Every colon-free author stored under the repository is reported. */
  lemma AuthorsOfKeys(m: Cache, repo: string)
    ensures forall a :: ':' !in a && ':' !in repo && Key(a, repo) in m ==> a in Authors(m, repo)
  {
    forall a | ':' !in a && ':' !in repo && Key(a, repo) in m
      ensures a in Authors(m, repo)
    {
      KeyPieces(a, repo);
    }
  }

  /** Every list is within the cap. */
  predicate Bounded(m: Cache) {
    forall k :: k in m ==> |m[k]| <= MaxMessagesPerAuthorRepo
  }

  /** Adding appends to the pair's own list and caps it, and touches no other
      key. */
  lemma LookupAfterAdd(m: Cache, author: string, repo: string, msgs: seq<CachedCommitMessage>,
                       author2: string, repo2: string)
    ensures Lookup(AddTo(m, author, repo, msgs), author, repo) == Capped(Lookup(m, author, repo) + msgs)
    ensures Key(author2, repo2) != Key(author, repo) ==>
              Lookup(AddTo(m, author, repo, msgs), author2, repo2) == Lookup(m, author2, repo2)
  {
  }

  /** Up to the cap nothing is lost: the old messages come first, then the new
      ones. */
  lemma AddBelowCapAppends(m: Cache, author: string, repo: string, msgs: seq<CachedCommitMessage>)
    requires |Lookup(m, author, repo)| + |msgs| <= MaxMessagesPerAuthorRepo
    ensures Lookup(AddTo(m, author, repo, msgs), author, repo) == Lookup(m, author, repo) + msgs
  {
  }

  /** Adding for a colon-free pair makes its author known for its repository,
      and adds no other author. */
  lemma AuthorsAfterAdd(m: Cache, author: string, repo: string, msgs: seq<CachedCommitMessage>)
    requires ':' !in author && ':' !in repo
    ensures Authors(AddTo(m, author, repo, msgs), repo) == Authors(m, repo) + {author}
  {
    KeyPieces(author, repo);
    var m' := AddTo(m, author, repo, msgs);
    assert m'.Keys == m.Keys + {Key(author, repo)};
    assert First(Key(author, repo)) in Authors(m', repo);
  }

  /** After clearing a repository no author is left for it, no colon-free pair
      of it has messages, and the other repositories' entries are unchanged. */
  lemma ClearRepoEffect(m: Cache, repo: string, author: string)
    requires ':' !in author && ':' !in repo
    ensures Authors(ClearRepo(m, repo), repo) == {}
    ensures Lookup(ClearRepo(m, repo), author, repo) == []
    ensures forall k :: k in m && Nth1(k) != Some(repo) ==> k in ClearRepo(m, repo) && ClearRepo(m, repo)[k] == m[k]
    ensures forall k :: k in ClearRepo(m, repo) ==> k in m
  {
    KeyPieces(author, repo);
  }

  /** Both mutations keep every list within the cap. */
  lemma MutationsKeepBounded(m: Cache, author: string, repo: string, msgs: seq<CachedCommitMessage>)
    requires Bounded(m)
    ensures Bounded(AddTo(m, author, repo, msgs))
    ensures Bounded(ClearRepo(m, repo))
  {
  }

  // ---------------------------------------------------------------- statistics

  /** The number of messages stored under `keys`. */
  ghost function SumLengths(m: Cache, keys: set<string>): nat
    requires keys <= m.Keys
    decreases keys
  {
    if keys == {} then 0
    else
      var k :| k in keys;
      |m[k]| + SumLengths(m, keys - {k})
  }

  /** The sum does not depend on the order in which keys are taken. */
  lemma {:induction false} SumLengthsRemove(m: Cache, keys: set<string>, k: string)
    requires keys <= m.Keys && k in keys
    ensures SumLengths(m, keys) == |m[k]| + SumLengths(m, keys - {k})
    decreases keys
  {
    var j :| j in keys && SumLengths(m, keys) == |m[j]| + SumLengths(m, keys - {j});
    if j != k {
      SumLengthsRemove(m, keys - {j}, k);
      SumLengthsRemove(m, keys - {k}, j);
      assert keys - {j} - {k} == keys - {k} - {j};
    }
  }

  /** The distinct repository parts (`unwrap_or("")`) of the keys. */
  function RepoNames(keys: set<string>): set<string> {
    set k | k in keys :: Nth1(k).GetOr("")
  }

  lemma RepoNamesRemove(keys: set<string>, k: string)
    requires k in keys
    ensures RepoNames(keys) == RepoNames(keys - {k}) + {Nth1(k).GetOr("")}
  {
  }

  /** With every list within the cap there are at most 1000 messages per key. */
  lemma {:induction false} SumLengthsBounded(m: Cache, keys: set<string>)
    requires keys <= m.Keys && Bounded(m)
    ensures SumLengths(m, keys) <= MaxMessagesPerAuthorRepo * |keys|
    decreases keys
  {
    if keys != {} {
      var j :| j in keys && SumLengths(m, keys) == |m[j]| + SumLengths(m, keys - {j});
      SumLengthsBounded(m, keys - {j});
    }
  }

  /** There are never more repositories than keys. */
  lemma {:induction false} RepoNamesBounded(keys: set<string>)
    ensures |RepoNames(keys)| <= |keys|
    decreases keys
  {
    if keys != {} {
      var k :| k in keys;
      RepoNamesBounded(keys - {k});
      RepoNamesRemove(keys, k);
    }
  }

  /** The statistics `get_stats` reports for a cache. */
  ghost function StatsOf(m: Cache): CacheStats {
    CacheStats(SumLengths(m, m.Keys), |m.Keys|, |RepoNames(m.Keys)|)
  }

  /** Reported repositories never outnumber reported "authors" (author-repository
      pairs), and a bounded cache holds at most 1000 messages per pair. */
  lemma StatsBounds(m: Cache)
    ensures StatsOf(m).totalRepos <= StatsOf(m).totalAuthors
    ensures Bounded(m) ==> StatsOf(m).totalMessages <= MaxMessagesPerAuthorRepo * StatsOf(m).totalAuthors
  {
    RepoNamesBounded(m.Keys);
    if Bounded(m) {
      SumLengthsBounded(m, m.Keys);
    }
  }

  // ---------------------------------------------------------------- the cache object

  class CommitMessageCache {
    var cache: Cache

    /** `new`, once the file has been read: the loaded map (empty when the file
        is missing or does not decode). */
    constructor (loaded: Cache)
      ensures cache == loaded
    {
      cache := loaded;
    }

    function GetCommitMessages(author: string, repo: string): (r: seq<CachedCommitMessage>)
      reads this
      ensures Key(author, repo) !in cache ==> r == []
      ensures Bounded(cache) ==> |r| <= MaxMessagesPerAuthorRepo
    {
      Lookup(cache, author, repo)
    }

    function GetAuthorsForRepo(repo: string): (r: set<string>)
      reads this
      ensures forall a :: ':' !in a && ':' !in repo && Key(a, repo) in cache ==> a in r
    {
      AuthorsOfKeys(cache, repo);
      Authors(cache, repo)
    }

    method AddCommitMessages(author: string, repo: string, msgs: seq<CachedCommitMessage>)
      modifies this
      ensures cache == AddTo(old(cache), author, repo, msgs)
      ensures GetCommitMessages(author, repo) == Capped(old(GetCommitMessages(author, repo)) + msgs)
    {
      var key := Key(author, repo);
      ghost var before := cache;
      var existing := if key in cache then cache[key] else [];
      assert existing == Lookup(before, author, repo);
      existing := existing + msgs;
      ghost var combined := existing;
      if |existing| > MaxMessagesPerAuthorRepo {
        existing := SortDesc(existing, NewerFirst);
        existing := existing[..MaxMessagesPerAuthorRepo];
      }
      assert existing == Capped(combined);
      cache := cache[key := existing];
      LookupAfterAdd(before, author, repo, msgs, author, repo);
    }

    method ClearRepoCache(repo: string)
      modifies this
      ensures cache == ClearRepo(old(cache), repo)
      ensures GetAuthorsForRepo(repo) == {}
    {
      cache := map k | k in cache && Nth1(k) != Some(repo) :: cache[k];
    }

    /** `get_stats`: one pass over the keys. */
    method GetStats() returns (stats: CacheStats)
      ensures stats == StatsOf(cache)
      ensures stats.totalRepos <= stats.totalAuthors
    {
      var totalMessages := 0;
      var repos: set<string> := {};
      var m := cache;
      var remaining := m.Keys;
      while remaining != {}
        invariant remaining <= m.Keys
        invariant totalMessages + SumLengths(m, remaining) == SumLengths(m, m.Keys)
        invariant repos + RepoNames(remaining) == RepoNames(m.Keys)
        decreases remaining
      {
        var k :| k in remaining;
        SumLengthsRemove(m, remaining, k);
        RepoNamesRemove(remaining, k);
        totalMessages := totalMessages + |m[k]|;
        repos := repos + {Nth1(k).GetOr("")};
        remaining := remaining - {k};
      }
      stats := CacheStats(totalMessages, |m|, |repos|);
      StatsBounds(m);
    }
  }
}
