# gait core, modelled in Dafny

This project models the deterministic core of gait, a Git assistant written in Rust. It covers eight parts:

- validation of the `.gitwire` wiring file and the verdict of `git-wire check`;
- derivation of remote-cache keys;
- the in-memory commit-message cache;
- keyword extraction and commit-message similarity;
- token budgeting of a commit context;
- rebase-action suggestions;
- the state and key handling of the commit TUI;
- binary-diff detection.

Each core source file is one module:

| file | module | source |
|---|---|---|
| wire_parse.dfy | `WireParse` | crates/wire/src/common/parse.rs |
| wire_check.dfy | `WireCheck` | crates/wire/src/check.rs |
| cache_key.dfy | `CacheKey` | src/remote/cache/key_generator.rs |
| commit_cache.dfy | `CommitCache` | src/core/commit_cache.rs |
| semantic_similarity.dfy | `SemanticSimilarity` | src/core/semantic_similarity.rs |
| token_optimizer.dfy | `TokenOptimizer` | src/core/token_optimizer.rs |
| rebase_service.dfy | `RebaseService` | src/features/rebase/service.rs |
| tui_state.dfy | `Tui` | src/tui/state.rs |
| tui_input.dfy | `TuiInput` | src/tui/input_handler.rs |
| git_utils.dfy | `GitUtils` | src/git/utils.rs |

Four support modules complete the project:

- `Wrappers` holds `Option` and `Result`.
- `Text` covers the parts of Rust's `str` API the code uses: `contains`, `split`, `join`, `lines`, `split_whitespace`, `trim` and ASCII lower-casing.
- `Sorting` is a descending insertion sort. It stands in for Rust's stable `sort_by`. The result is proved to be a permutation of the input, in descending order, and stable (`Sorting.SortDescStable`).
- `Context` holds the staged files and recent commits of a `CommitContext`.

Foreign code becomes parameters:

- the tokenizer's `encode` and `decode`;
- the JSON decoder of the model's rebase answer;
- the folder comparison;
- the `DefaultHasher`, as a function of the sequence of items fed to it;
- the commit-message formatter;
- the text area's key input.

Where the Rust code updates state in place, the model does too. There are classes `Hasher`, `CommitMessageCache`, `CommitContext` and `TuiState`. Their methods state their new state through a value-level specification function, and the properties are lemmas about those functions. The loops of `split_camel_case`, the keyword extractors, `parse_ai_response`, the `.gitwire` validation and the token-budget loop are `while`/`for` loops with invariants.

Some behaviour of the source comes out of the proofs:

- A repository path that contains `:` is misread by `get_authors_for_repo`, `clear_repo_cache` and `get_stats`. For example, the key `a:C:/x` has repository `C` (`CommitCache.ColonRepoMisread`).
- The relevance factor of `optimize_context` is always 1. The path it tests is that of a staged file, so the 0.5 branch is dead (`TokenOptimizer.RelevanceAlwaysOne`).
- The zero-weight branch of `calculate_message_similarity` is unreachable, because every keyword weighs at least 1 (`SemanticSimilarity.KeywordWeight`).
- As written, src/tui/input_handler.rs matches on modes (`Completing`, `ContextSelection`) and fields (`completion_suggestions`, `completion_index`, `pending_completion_prefix`) that src/tui/state.rs does not declare. It also has no arm for `RebaseList` or `RebaseEdit`. The model's `TuiState` is the union of both files. In the two rebase modes a key changes nothing and returns `Continue`.

## Model

| member | source | states |
|---|---|---|
| GitUtils.IsBinaryDiff | src/git/utils.rs:17-21 | each of the three markers makes a diff binary, and a diff is not binary exactly when none of them occurs |
| GitUtils.BinaryDiffInContext | src/git/utils.rs:17-21 | a binary diff stays binary with any text added before and after it |
| GitUtils.BinaryDiffExamples | src/git/utils.rs:17-21 | the empty diff is not binary; a diff with "GIT binary patch" is |
| Text.OccursAt | src/git/utils.rs:18-20 | definition: the pattern occurs at a given offset |
| Text.Contains | src/git/utils.rs:18-20 | definition of `str::contains`: the pattern occurs at some offset |
| Text.ContainsInContext | src/git/utils.rs:18-20 | a contained pattern stays contained with any text added on both sides |
| Text.MissingFirstChar | src/features/rebase/service.rs:279-287 | a pattern whose first character does not occur in the text is not contained in it |
| Text.StartsWith | src/core/semantic_similarity.rs:141 | definition of `str::starts_with` |
| Text.IsUpper | src/core/semantic_similarity.rs:165 | definition: the ASCII part of `char::is_uppercase` |
| Text.IsLower | src/core/semantic_similarity.rs:180 | definition: the ASCII part of `char::is_lowercase` |
| Text.IsAlphanumeric | src/core/semantic_similarity.rs:125 | definition: the ASCII part of `char::is_alphanumeric` |
| Text.IsWhitespace | src/core/semantic_similarity.rs:123 | definition: the ASCII part of `char::is_whitespace` |
| Text.ToLowerChar | src/core/semantic_similarity.rs:38 | lower-casing a character leaves no capital and keeps the alphanumeric and '_' tests |
| Text.ToLower | src/core/semantic_similarity.rs:38 | `to_lowercase` keeps the length and lower-cases each character |
| Text.IsLowercase | src/core/semantic_similarity.rs:38 | definition: no upper-case letter |
| Text.ToLowerIdentity | src/features/rebase/service.rs:278 | lower-casing always yields a string without capitals and leaves one unchanged |
| Text.Split | src/core/commit_cache.rs:92 | `split` yields at least one piece, and no piece holds the separator |
| Text.SplitWithout | src/core/commit_cache.rs:92-93 | a string without the separator splits into itself alone |
| Text.SplitAtFirst | src/core/commit_cache.rs:92-93 | the text before the first separator is the first piece, the rest splits on |
| Text.Join | src/tui/input_handler.rs:139 | definition of `join`: the pieces with the separator between them |
| Text.JoinSplit | src/tui/input_handler.rs:139-142 | joining the pieces of a split with the same separator gives the input back |
| Text.Concat | src/core/semantic_similarity.rs:158-205 | definition: all the strings of a sequence, one after the other |
| Text.ConcatAppend | src/core/semantic_similarity.rs:158-205 | concatenating one more string appends it |
| Text.StripCR | src/tui/input_handler.rs:142 | definition: `lines()` drops a carriage return that ends a line before a line feed |
| Text.Lines | src/tui/input_handler.rs:142 | definition of `str::lines`: the pieces between line feeds, a carriage return just before a line feed dropped, and no empty piece after a final line ending |
| Text.WordLength | src/core/semantic_similarity.rs:123 | the length of the leading word: no whitespace inside it, whitespace or the end after it |
| Text.SplitWhitespace | src/core/semantic_similarity.rs:123 | `split_whitespace` yields no empty word |
| Text.TrimStart | src/tui/input_handler.rs:143 | `trim_start` leaves no leading whitespace |
| Text.TrimStartSuffix | src/tui/input_handler.rs:143 | `trim_start` gives a suffix of the input |
| Text.TrimEnd | src/tui/input_handler.rs:143 | `trim_end` gives a prefix of the input with no trailing whitespace |
| Text.Trim | src/tui/input_handler.rs:143 | definition: `trim_end` after `trim_start` |
| Text.TrimIdempotent | src/tui/input_handler.rs:143 | trimming twice gives what trimming once does |
| Text.TrimKeepsAbsent | src/tui/input_handler.rs:143 | trimming adds no character that was absent |
| Text.DigitChar | src/tui/input_handler.rs:89-91 | definition: the decimal digit of a number below ten |
| Text.NatToString | src/tui/input_handler.rs:89-91 | definition: the decimal rendering `format!` gives a number |
| CacheKey.Hasher.constructor | src/remote/cache/key_generator.rs:11 | a new hasher has been fed nothing |
| CacheKey.Hasher.Write | src/remote/cache/key_generator.rs:14-19 | hashing an item appends it to the fed sequence |
| CacheKey.Hasher.Finish | src/remote/cache/key_generator.rs:22 | finishing yields the hash function applied to everything fed |
| CacheKey.HexDigit | src/remote/cache/key_generator.rs:23 | a digit renders as a lower-case hex character, and as '0' only for 0 |
| CacheKey.HexValue | src/remote/cache/key_generator.rs:23 | a hex character reads back as a value below 16 |
| CacheKey.IsHexDigit | src/remote/cache/key_generator.rs:23 | definition: the characters `{:x}` writes, '0'-'9' and 'a'-'f' |
| CacheKey.ParseHex | src/remote/cache/key_generator.rs:23 | definition: reading a lower-case hex string back as a number, the inverse against which `{:x}` is proved |
| CacheKey.ToHex | src/remote/cache/key_generator.rs:23 | `{:x}` yields at least one lower-case hex digit, with no leading zero except "0" itself |
| CacheKey.HexDigitValue | src/remote/cache/key_generator.rs:23 | reading a rendered hex digit gives the digit back |
| CacheKey.ParseToHex | src/remote/cache/key_generator.rs:23 | reading the hex rendering gives the number back, so `{:x}` is injective |
| CacheKey.HexLength | src/remote/cache/key_generator.rs:23 | a number below 16^k has at most k hex digits |
| CacheKey.Pow16Add | src/remote/cache/key_generator.rs:23 | powers of 16 multiply by adding exponents, the step the length bound of `{:x}` rests on |
| CacheKey.U64HexLength | src/remote/cache/key_generator.rs:22-23 | the key of a u64 hash has 1 to 16 characters |
| CacheKey.KeyFeed | src/remote/cache/key_generator.rs:14-20 | definition: the items fed to the hasher, in order: url, branch, then the commit hash when present |
| CacheKey.KeyOf | src/remote/cache/key_generator.rs:10-24 | definition: the key of a configuration, the hex rendering of the hash of its feed; the value `GenerateKey` returns |
| CacheKey.GenerateKey | src/remote/cache/key_generator.rs:10-24 | the key is the hex rendering of the hash of url, branch and, when present, the commit hash, in that order; it has 1 to 16 characters |
| CacheKey.GenerateUrlBranchKey | src/remote/cache/key_generator.rs:27-34 | the key is the hex rendering of the hash of url then branch; it has 1 to 16 characters |
| CacheKey.KeyIgnoresOtherFields | src/remote/cache/key_generator.rs:10-24 | configurations that agree on url, branch and commit hash get the same key, whatever their target path, filters and method |
| CacheKey.UnpinnedKeyIsUrlBranchKey | src/remote/cache/key_generator.rs:10-34 | without a commit hash, `generate_key` equals `generate_url_branch_key` of the url and branch |
| CacheKey.KeyFeedInjective | src/remote/cache/key_generator.rs:14-20 | two configurations feed the hasher the same sequence exactly when url, branch and commit hash all agree |
| WireParse.SegmentComponentsOk | crates/wire/src/common/parse.rs:80-89 | the components of a list of segments all pass the test exactly when no segment is ".." or ".git" |
| WireParse.SegmentComponents | crates/wire/src/common/parse.rs:90-91 | definition: the components of the '/'-segments: empty and "." segments yield nothing, ".." yields `ParentDir`, any other segment a `Normal` name |
| WireParse.SegmentComponentsShape | crates/wire/src/common/parse.rs:90-91 | at most one component per segment, each `ParentDir` or a `Normal` name that is not "", "." or ".." |
| WireParse.Components | crates/wire/src/common/parse.rs:90-91 | definition of `Path::components` on Unix: `RootDir` for a leading '/', `CurDir` for a leading "." segment, then the segment components |
| WireParse.ComponentsShape | crates/wire/src/common/parse.rs:90-91 | never a `Prefix`; only the first component can be `RootDir` or `CurDir`; the first is `RootDir` exactly when the path starts with '/' |
| WireParse.ComponentOk | crates/wire/src/common/parse.rs:81-89 | definition of the `is_ok` closure: `Prefix` and `RootDir` pass, `ParentDir` and `CurDir` fail, a `Normal` name fails only when it is ".git" |
| WireParse.PathSound | crates/wire/src/common/parse.rs:90-91 | definition: every component of the path passes `is_ok` |
| WireParse.ItemSound | crates/wire/src/common/parse.rs:80-92 | definition of `check_parsed_item_soundness`: both `src` and `dst` are sound |
| WireParse.AllSound | crates/wire/src/common/parse.rs:48-55 | definition: the first loop passes, every entry being sound |
| WireParse.NamesUnique | crates/wire/src/common/parse.rs:57-67 | definition: the second loop passes, no two entries carrying `Some` of the same name; unnamed entries never clash |
| WireParse.PathSoundBySegments | crates/wire/src/common/parse.rs:80-92 | a path is sound exactly when none of its '/'-segments is ".." or ".git" and it does not start with a "." segment |
| WireParse.GitLookalikeSound | crates/wire/src/common/parse.rs:85 | "x.git" is sound: only a component equal to ".git" is refused |
| WireParse.SplitTwo | crates/wire/src/common/parse.rs:85 | a path of two slash-free segments splits into those two |
| WireParse.GitwireSound | crates/wire/src/common/parse.rs:85 | "a/.gitwire" is sound |
| WireParse.RootedAndEmptySound | crates/wire/src/common/parse.rs:83-84 | the empty path and an absolute path are sound |
| WireParse.InteriorCurDirSound | crates/wire/src/common/parse.rs:87 | an interior "." ("a/./b") is normalised away and the path is sound |
| WireParse.ForbiddenExamplesUnsound | crates/wire/src/common/parse.rs:85-87 | "./a", "a/.." and "a/.git" are unsound |
| WireParse.ForbiddenSegment | crates/wire/src/common/parse.rs:85-87 | definition: the segments ".." and ".git", which make a path unsound wherever they stand |
| WireParse.ValidateParsed | crates/wire/src/common/parse.rs:48-69 | the soundness error comes exactly when some entry is unsound; the name error exactly when all are sound but two entries carry the same `Some` name; otherwise the decoded list comes back unchanged |
| WireParse.RemoveLineEnding | crates/wire/src/common/parse.rs:72-78 | the result is the input less one trailing "\r\n", less one trailing "\n", or the input itself, and it is the input exactly when the input does not end in '\n' |
| Text.EndsWith | crates/wire/src/common/parse.rs:74-75 | definition: the suffix test behind `strip_suffix` |
| WireParse.RemoveLineEndingRoundTrip | crates/wire/src/common/parse.rs:72-78 | "\r\n" appended is removed; "\n" appended to a text not ending in '\r' is removed; "a\n\n" becomes "a\n" |
| WireCheck.CompareWithTemp | crates/wire/src/check.rs:38-95 | a comparison that could not be built is the execution error; when fc1 reports new files, a non-UTF-8 temporary root or new-file path is the string-replace error; otherwise the verdict is "fc1 has no new files, fc2 has no new files and no changed files" |
| WireCheck.FolderCompare | crates/wire/src/check.rs:50-53 | definition of the comparison over path-to-content maps: the new files are the paths of the first tree missing from the second; the changed files are the shared paths whose contents differ |
| WireCheck.Verdict | crates/wire/src/check.rs:55-94 | definition: the check passes when fc1 has no new files and fc2 has neither new nor changed files; fc1's changed files are not consulted |
| WireCheck.VerdictIsTreeEquality | crates/wire/src/check.rs:55-94 | over map-valued trees, the verdict holds exactly when the fetched tree equals the destination tree |
| WireCheck.DiscrepancyFails | crates/wire/src/check.rs:59-92 | a file missing on either side, or present on both sides with different content, makes the verdict false |
| WireCheck.FreshChangedIgnored | crates/wire/src/check.rs:50-92 | the verdict does not depend on fc1's changed files |
| CommitCache.KeyPieces | src/core/commit_cache.rs:89-95 | with colon-free author and repository, the first ':'-piece of the key is the author and the second is the repository |
| CommitCache.KeyInjective | src/core/commit_cache.rs:68 | with colon-free parts, two keys are equal exactly when author and repository both are |
| CommitCache.Key | src/core/commit_cache.rs:68 | definition: the cache key `author:repo` |
| CommitCache.Nth1 | src/core/commit_cache.rs:92 | definition of `split(':').nth(1)`: the second ':'-piece, if there is one |
| CommitCache.First | src/core/commit_cache.rs:93 | definition of `split(':').next().unwrap_or("")`: the text before the first ':' |
| CommitCache.ColonRepoMisread | src/core/commit_cache.rs:92 | a repository path with a ':' is read back as its text before the colon |
| CommitCache.NewerFirst | src/core/commit_cache.rs:75 | definition: the comparator `b.timestamp.cmp(&a.timestamp)`, newer timestamp first, on `String` order |
| Sorting.LexLe | src/core/commit_cache.rs:75 | definition: the lexicographic order of `String`'s `Ord`, on which the timestamps are compared |
| Sorting.Insert | src/core/commit_cache.rs:75 | inserting an element after every element ranked at least as high gives a sequence one longer holding the old elements and the new one |
| Sorting.TotalPreorder | src/core/commit_cache.rs:75 | definition: a comparator that is total and transitive, the condition under which the sort is proved |
| Sorting.SortedDesc | src/core/commit_cache.rs:75 | definition: every element ranks at least as high as each later one |
| Sorting.SortDesc | src/core/commit_cache.rs:75 | the stable descending sort standing in for `sort_by`: its result is a permutation of the input |
| CommitCache.NewerFirstTotalPreorder | src/core/commit_cache.rs:75 | "newer timestamp first" is total and transitive, so the sort is well defined |
| Sorting.SortDescStable | src/core/commit_cache.rs:75 | the sort is stable: the elements of each class of equally ranked elements keep their relative order |
| Sorting.SortDescSorted | src/core/commit_cache.rs:75 | under a total preorder the sort's result is in descending order |
| Sorting.InsertSorted | src/core/commit_cache.rs:75 | under a total preorder, inserting into a descending sequence keeps it descending |
| Sorting.InsertTies | src/core/commit_cache.rs:75 | an inserted element goes after every element already tied with it |
| Sorting.SortedTail | src/core/commit_cache.rs:75 | the tail of a descending sequence is descending |
| Sorting.BelowHeadNoTies | src/core/commit_cache.rs:75 | no element of a descending sequence is tied with one that ranks strictly above its head |
| Sorting.ConsTies | src/core/commit_cache.rs:75 | putting one element in front of two sequences keeps their ties related by the same suffix |
| Sorting.Ties | src/core/commit_cache.rs:75 | definition: the elements ranked equal to a given one, in order, through which stability is stated |
| Sorting.TiesAppend | src/core/commit_cache.rs:75 | appending an element extends the ties by it exactly when it is tied |
| Sorting.TiesNone | src/core/commit_cache.rs:75 | a sequence without a tied element has no ties |
| Sorting.LexLeTotal | src/core/commit_cache.rs:75 | any two strings are ordered one way or the other |
| Sorting.LexLeTransitive | src/core/commit_cache.rs:75 | the string order is transitive |
| Sorting.LexLeAntisymmetric | src/core/commit_cache.rs:75 | strings ordered both ways are equal |
| CommitCache.Capped | src/core/commit_cache.rs:73-77 | the capped list has at most 1000 messages; under the cap it is the input, over it exactly 1000 messages taken from the input |
| CommitCache.Dropped | src/core/commit_cache.rs:76 | definition: the messages `truncate` removes, those after the first 1000 of the sorted list |
| CommitCache.CappedKeepsNewest | src/core/commit_cache.rs:74-76 | over the cap, kept and dropped together are the input; the kept messages are newest first; no dropped message is newer than a kept one |
| CommitCache.Lookup | src/core/commit_cache.rs:50-57 | definition of `get_commit_messages` on the map: the list under the key, or the empty list |
| CommitCache.AddTo | src/core/commit_cache.rs:60-78 | definition of `add_commit_messages` on the map: the key's list, created empty when missing, becomes the cap of the old list followed by the new messages |
| CommitCache.Authors | src/core/commit_cache.rs:89-95 | definition of `get_authors_for_repo` on the map: the first ':'-pieces of the keys whose second piece is the repository, as a set |
| CommitCache.AuthorsOfKeys | src/core/commit_cache.rs:89-95 | every colon-free author with a list under a colon-free repository is among the repository's authors |
| CommitCache.ClearRepo | src/core/commit_cache.rs:98-101 | definition of `clear_repo_cache` on the map: the keys whose second ':'-piece is not the repository, with their lists |
| CommitCache.StatsOf | src/core/commit_cache.rs:104-119 | definition of `get_stats` on the map: the sum of list lengths, the number of keys, and the number of distinct second pieces ("" where there is none) |
| CommitCache.SumLengths | src/core/commit_cache.rs:105 | definition: `values().map(Vec::len).sum()` over a set of keys |
| CommitCache.SumLengthsRemove | src/core/commit_cache.rs:105 | the sum is one key's length plus the sum over the other keys |
| CommitCache.RepoNames | src/core/commit_cache.rs:107-111 | definition: the set of second pieces of the keys, "" where there is none |
| CommitCache.RepoNamesRemove | src/core/commit_cache.rs:107-111 | the repository names are one key's name plus those of the other keys |
| CommitCache.Bounded | src/core/commit_cache.rs:73-77 | definition: the invariant that `add_commit_messages` keeps, at most 1000 messages under each key |
| CommitCache.LookupAfterAdd | src/core/commit_cache.rs:68-70 | after an add, the key's list is the cap applied to the old list followed by the new messages; every other key's list is unchanged |
| CommitCache.AddBelowCapAppends | src/core/commit_cache.rs:69-73 | when old and new together fit the cap, the list becomes old followed by new, in order |
| CommitCache.AuthorsAfterAdd | src/core/commit_cache.rs:89-95 | with colon-free parts, after an add the authors of the repository are the old ones plus the added author |
| CommitCache.ClearRepoEffect | src/core/commit_cache.rs:98-101 | clearing keeps every key of another repository with its list, adds no key, and leaves the repository with no authors and no messages |
| CommitCache.MutationsKeepBounded | src/core/commit_cache.rs:60-101 | adding and clearing keep every list within 1000 messages |
| CommitCache.SumLengthsBounded | src/core/commit_cache.rs:105 | in a bounded cache the total number of messages is at most 1000 per key |
| CommitCache.RepoNamesBounded | src/core/commit_cache.rs:107-112 | there are no more distinct repository names than keys |
| CommitCache.StatsBounds | src/core/commit_cache.rs:104-119 | the repository count never exceeds the author count, and a bounded cache holds at most 1000 messages per author |
| CommitCache.CommitMessageCache.constructor | src/core/commit_cache.rs:25-39 | the cache starts as the loaded map |
| CommitCache.CommitMessageCache.GetCommitMessages | src/core/commit_cache.rs:50-57 | a missing key gives the empty list; in a bounded cache the list has at most 1000 messages |
| CommitCache.CommitMessageCache.GetAuthorsForRepo | src/core/commit_cache.rs:89-95 | every colon-free author with a list under the colon-free repository is returned |
| CommitCache.CommitMessageCache.AddCommitMessages | src/core/commit_cache.rs:60-78 | the new map is the old one with the key's list replaced by the capped concatenation |
| CommitCache.CommitMessageCache.ClearRepoCache | src/core/commit_cache.rs:98-101 | the new map is the old one cleared of the repository's keys, and the repository then has no authors |
| CommitCache.CommitMessageCache.GetStats | src/core/commit_cache.rs:104-119 | the loop computes the sum of list lengths, the number of keys and the number of distinct second pieces; repositories never outnumber keys |
| SemanticSimilarity.UpperRunEnd | src/core/semantic_similarity.rs:173-176 | the inner loop stops at the first position past the run of capitals |
| SemanticSimilarity.Flush | src/core/semantic_similarity.rs:167-169 | definition: the current word is saved only when it is not empty |
| SemanticSimilarity.CamelFrom | src/core/semantic_similarity.rs:163-204 | definition: the words the loop produces from a given position, saved words and current word |
| SemanticSimilarity.ScanSound | src/core/semantic_similarity.rs:163-198 | definition: the loop invariant, saved words and current word spell the input read so far and no saved word is empty |
| SemanticSimilarity.FlushConcat | src/core/semantic_similarity.rs:167-169 | saving the current word keeps the spelled-out text and adds no empty word |
| SemanticSimilarity.StepPlainSound | src/core/semantic_similarity.rs:194-197 | a character that is not upper-case extends the current word and keeps the invariant |
| SemanticSimilarity.StepSingleSound | src/core/semantic_similarity.rs:189-193 | a single capital starting a new word keeps the invariant |
| SemanticSimilarity.StepAcronymSound | src/core/semantic_similarity.rs:180-188 | an acronym step keeps the invariant |
| SemanticSimilarity.CamelStep | src/core/semantic_similarity.rs:164-198 | each iteration of the outer loop moves forward and stays within the input |
| SemanticSimilarity.CamelStepSound | src/core/semantic_similarity.rs:164-198 | every iteration keeps the loop invariant: saved words plus the current word spell the input read so far, and no saved word is empty |
| SemanticSimilarity.CamelFromSound | src/core/semantic_similarity.rs:163-204 | from any state satisfying the invariant, the words finally returned spell the whole input and none is empty |
| SemanticSimilarity.CamelWordsRoundTrip | src/core/semantic_similarity.rs:158-205 | concatenating the words of `split_camel_case` gives back the input, and no word is empty |
| SemanticSimilarity.CamelWords | src/core/semantic_similarity.rs:158-205 | definition: the words the loop of `split_camel_case` returns, run from the start with nothing saved |
| SemanticSimilarity.SplitCamelCase | src/core/semantic_similarity.rs:158-205 | the loop returns the specified words; their concatenation is the input and none is empty |
| SemanticSimilarity.CamelPlainRun | src/core/semantic_similarity.rs:194-197 | a run without capitals is appended to the current word character by character |
| SemanticSimilarity.CamelExampleSimple | src/core/semantic_similarity.rs:215 | "simple" gives ["simple"] |
| SemanticSimilarity.CamelExampleCamel | src/core/semantic_similarity.rs:213 | "camelCase" gives ["camel", "Case"] |
| SemanticSimilarity.CamelExampleCamelTail | src/core/semantic_similarity.rs:213 | in "camelCase", the capital 'C' saves "camel" and starts "Case" |
| SemanticSimilarity.AcronymFirstStep | src/core/semantic_similarity.rs:180-188 | on "XMLHttpRequest" the first step saves "XML" and starts the next word with "H" |
| SemanticSimilarity.AcronymSecondCapital | src/core/semantic_similarity.rs:189-193 | a single capital saves the current word and starts a new one |
| SemanticSimilarity.AcronymHttp | src/core/semantic_similarity.rs:214 | in "XMLHttpRequest", the lower-case letters after 'H' extend it to "Http" |
| SemanticSimilarity.AcronymRequest | src/core/semantic_similarity.rs:214 | in "XMLHttpRequest", the rest after 'R' gives "Request" and the loop ends with the three words |
| SemanticSimilarity.CamelExampleAcronym | src/core/semantic_similarity.rs:214 | "XMLHttpRequest" gives ["XML", "Http", "Request"] |
| SemanticSimilarity.KeywordWeight | src/core/semantic_similarity.rs:59-66 | the weight is 2 exactly when the keyword has a '.' or '/', and is never below 1 |
| SemanticSimilarity.MatchCount | src/core/semantic_similarity.rs:42-49 | at most one match per keyword |
| SemanticSimilarity.MatchCountExtremes | src/core/semantic_similarity.rs:42-49 | all keywords match exactly when every keyword occurs in the text, and none match exactly when none occurs |
| SemanticSimilarity.SimilarityRange | src/core/semantic_similarity.rs:33-56 | the score lies in [0, 1]; with keywords it is 1 exactly when every keyword occurs in the lower-cased message; it is 0 exactly when none occurs |
| SemanticSimilarity.Similarity | src/core/semantic_similarity.rs:33-56 | definition: 0 without keywords, otherwise the fraction of keywords that occur in the lower-cased message |
| SemanticSimilarity.Fraction | src/core/semantic_similarity.rs:54 | `matches / keywords.len()` lies in [0, 1], is 1 exactly when every keyword matches and 0 exactly when none does |
| SemanticSimilarity.SimilarityExample | src/core/semantic_similarity.rs:219-226 | keywords "test" and "function" score 1 against "add test function" |
| SemanticSimilarity.CalculateMessageSimilarity | src/core/semantic_similarity.rs:33-56 | the counting loop computes the specified score, which lies in [0, 1] |
| SemanticSimilarity.Scored | src/core/semantic_similarity.rs:20-25 | one pair (index, score) per message, in message order |
| SemanticSimilarity.ScoreGe | src/core/semantic_similarity.rs:28 | definition: the comparator `b.1.partial_cmp(&a.1)`, higher score first |
| SemanticSimilarity.CalculateSimilarities | src/core/semantic_similarity.rs:15-30 | the result is the stable descending sort of the scored pairs: a permutation of them, ordered by non-increasing score |
| SemanticSimilarity.SimilaritiesArePermutation | src/core/semantic_similarity.rs:15-30 | every message index appears exactly once, with its own score |
| SemanticSimilarity.CountOf | src/core/semantic_similarity.rs:112 | definition: a word's count, 0 where `or_insert(0)` would create the entry |
| SemanticSimilarity.Record | src/core/semantic_similarity.rs:112-115 | definition: `*counts.entry(word).or_insert(0) += weight`, then the push of a word not yet in the keyword list |
| SemanticSimilarity.Accumulate | src/core/semantic_similarity.rs:110-116 | definition: recording each word of a list in order, with one weight |
| SemanticSimilarity.AccumulateCounts | src/core/semantic_similarity.rs:110-116 | recording words adds the weight once per occurrence to each word's count |
| SemanticSimilarity.AccumulateKeys | src/core/semantic_similarity.rs:112 | the counted words are the old ones plus the recorded ones |
| SemanticSimilarity.RecordCount | src/core/semantic_similarity.rs:112 | recording a word adds the weight to its count and to no other word's |
| SemanticSimilarity.MultiplicityOfLast | src/core/semantic_similarity.rs:110-116 | a word's occurrences are those before the last word plus the last one |
| SemanticSimilarity.AccumulateKeywords | src/core/semantic_similarity.rs:113-115 | the keyword list gains exactly the recorded words and stays free of duplicates |
| SemanticSimilarity.Filter | src/core/semantic_similarity.rs:107 | a filter keeps only words of the input that pass the test |
| SemanticSimilarity.Take | src/core/semantic_similarity.rs:124 | `take(n)` keeps the first min(n, length) words |
| SemanticSimilarity.Lowered | src/core/semantic_similarity.rs:126 | each word is lower-cased in place |
| SemanticSimilarity.FlatCamel | src/core/semantic_similarity.rs:105 | definition: `flat_map(split_camel_case)` |
| SemanticSimilarity.LongerThanTwo | src/core/semantic_similarity.rs:107 | definition: the filter `s.len() > 2` |
| SemanticSimilarity.PathWords | src/core/semantic_similarity.rs:97-108 | path words are lower-case and longer than two characters |
| SemanticSimilarity.Stem | src/core/semantic_similarity.rs:98-101 | definition: the last '/'-segment of the path, up to its first '.' |
| SemanticSimilarity.LowerCodeWord | src/core/semantic_similarity.rs:125-126 | lower-casing keeps a code word a code word |
| SemanticSimilarity.FromContent | src/core/semantic_similarity.rs:122-127 | definition: a lower-cased code word made from one of the first 100 whitespace tokens |
| SemanticSimilarity.ContentWordAt | src/core/semantic_similarity.rs:122-127 | each content word is a lower-cased code word made from one of the first 100 whitespace tokens |
| SemanticSimilarity.ContentWordsShape | src/core/semantic_similarity.rs:121-127 | at most 100 content words, each a lower-cased code word from one of the first 100 tokens |
| SemanticSimilarity.IsCodeWord | src/core/semantic_similarity.rs:125 | definition: more than three characters, each alphanumeric or '_' |
| SemanticSimilarity.ContentWords | src/core/semantic_similarity.rs:121-127 | definition: of the first 100 whitespace tokens, the code words (more than three characters, each alphanumeric or '_'), lower-cased |
| SemanticSimilarity.IsChangeLine | src/core/semantic_similarity.rs:141 | definition: the line starts with '+' or '-' |
| SemanticSimilarity.FlatWords | src/core/semantic_similarity.rs:142 | definition: `flat_map(split_whitespace)` |
| SemanticSimilarity.ChangeLines | src/core/semantic_similarity.rs:140-141 | only lines starting with '+' or '-' are kept |
| SemanticSimilarity.FlatWordsFrom | src/core/semantic_similarity.rs:142 | every flattened word comes from one of the lines |
| SemanticSimilarity.FromDiff | src/core/semantic_similarity.rs:139-146 | definition: a lower-cased code word from a token of a '+' or '-' line |
| SemanticSimilarity.DiffWordAt | src/core/semantic_similarity.rs:139-146 | each diff word is a lower-cased code word from a '+' or '-' line |
| SemanticSimilarity.DiffWordsShape | src/core/semantic_similarity.rs:139-146 | at most 50 diff words, each a lower-cased code word from a '+' or '-' line |
| SemanticSimilarity.DiffWords | src/core/semantic_similarity.rs:139-146 | definition: the first 50 lower-cased code words of the lines starting with '+' or '-' |
| SemanticSimilarity.ExtractFromPath | src/core/semantic_similarity.rs:97-119 | the path's words are recorded with weight 2 |
| SemanticSimilarity.RecordPathWords | src/core/semantic_similarity.rs:110-117 | the loop over path words records each with weight 2 |
| SemanticSimilarity.RecordAll | src/core/semantic_similarity.rs:129-134 | the loop over content or diff words records each with weight 1 |
| SemanticSimilarity.ExtractFromFile | src/core/semantic_similarity.rs:73-84 | one staged file adds its path words, then its content words when present, then its diff words |
| SemanticSimilarity.FileTally | src/core/semantic_similarity.rs:73-84 | definition: a file's path words with weight 2, then its content words with weight 1 when content is loaded, then its diff words with weight 1 |
| SemanticSimilarity.FilesTally | src/core/semantic_similarity.rs:73-84 | definition: the tally of the staged files in order, from an empty tally |
| SemanticSimilarity.RecordsConsistent | src/core/semantic_similarity.rs:110-116 | recording keeps the keyword list duplicate-free and equal as a set to the counted words |
| SemanticSimilarity.FilesTallyConsistent | src/core/semantic_similarity.rs:73-84 | after all files the keyword list is duplicate-free and names exactly the counted words |
| SemanticSimilarity.TallyFiles | src/core/semantic_similarity.rs:73-84 | the loop over staged files computes the specified tally |
| SemanticSimilarity.CollectKeys | src/core/semantic_similarity.rs:87 | collecting the count map yields each counted word exactly once |
| Sorting.Distinct | src/core/semantic_similarity.rs:113 | definition: no element occurs twice, what the `keywords.contains` guard keeps |
| Sorting.DistinctIffSingleCounts | src/core/semantic_similarity.rs:87 | a sequence is duplicate-free exactly when every element occurs at most once in its multiset |
| Sorting.DistinctPermutation | src/core/semantic_similarity.rs:87-88 | a permutation of a duplicate-free sequence is duplicate-free |
| SemanticSimilarity.TopRanked | src/core/semantic_similarity.rs:87-88 | sorting by count keeps the words, duplicate-free, in non-increasing count order |
| SemanticSimilarity.TopPrefix | src/core/semantic_similarity.rs:88-94 | a prefix of the sorted list is in count order, and no word left out has a higher count than one kept |
| SemanticSimilarity.Min | src/core/semantic_similarity.rs:92 | definition: the smaller of two counts, the length `take(20)` leaves |
| SemanticSimilarity.ExtractKeywords | src/core/semantic_similarity.rs:69-95 | min(20, number of counted words) distinct counted words, in non-increasing count order, none outranked by a word left out |
| TokenOptimizer.TruncatedTokens | src/core/token_optimizer.rs:209-211 | the decoded tokens are the first `max_tokens - 1` tokens of the text followed by the ellipsis token |
| TokenOptimizer.CountTokens | src/core/token_optimizer.rs:221-223 | definition: the number of tokens of the text's encoding |
| TokenOptimizer.TruncateString | src/core/token_optimizer.rs:189-216 | a text within budget comes back unchanged; a zero budget gives "…"; otherwise EncodingFailed exactly when the ellipsis encodes to nothing, DecodingFailed exactly when decoding fails, or else the decoded truncation |
| TokenOptimizer.Faithful | src/core/token_optimizer.rs:200-215 | definition: the hypothesis that re-encoding decoded tokens gives them back |
| TokenOptimizer.TruncateFits | src/core/token_optimizer.rs:200-215 | with an encoder that re-encodes what it decodes, a truncation within a positive budget fits the budget |
| TokenOptimizer.TruncateIdempotent | src/core/token_optimizer.rs:189-216 | with such an encoder, truncating a truncated text changes nothing |
| TokenOptimizer.DiffItems | src/core/token_optimizer.rs:71-80 | one diff item per file, in order, counting the diff's tokens |
| TokenOptimizer.CommitItems | src/core/token_optimizer.rs:83-95 | one commit item per commit, in order, counting the message's tokens |
| TokenOptimizer.Relevance | src/core/token_optimizer.rs:103 | definition: 1.0 when the path is among the staged files, else 0.5 |
| TokenOptimizer.RelevanceAlwaysOne | src/core/token_optimizer.rs:103 | the relevance factor of a staged file's content is always 1 |
| TokenOptimizer.ContentItems | src/core/token_optimizer.rs:98-111 | content items name files of the list |
| TokenOptimizer.ContentItemsCover | src/core/token_optimizer.rs:98-111 | a file has a content item exactly when its content is loaded |
| TokenOptimizer.BuildItems | src/core/token_optimizer.rs:68-111 | definition: the diff items, then the commit items, then the content items |
| TokenOptimizer.Min | src/core/token_optimizer.rs:125-129 | definition: `usize::min` |
| TokenOptimizer.Alloc | src/core/token_optimizer.rs:125-129 | an allocation is at most the proposal, the item's tokens and the tokens left, and equals one of the three |
| TokenOptimizer.SaturatingFloor | src/core/token_optimizer.rs:126 | the `as usize` cast: 0 for a negative value, otherwise the largest natural number not above it |
| TokenOptimizer.Proposed | src/core/token_optimizer.rs:125-128 | no share without a positive total importance; an item whose importance lies between 0 and the total is proposed at most the whole budget |
| TokenOptimizer.TotalImportance | src/core/token_optimizer.rs:117 | definition: the sum of the items' importances, taken left to right |
| TokenOptimizer.ShareAtMost | src/core/token_optimizer.rs:125-126 | a part of the total importance is proposed at most the whole budget |
| TokenOptimizer.ProposalOf | src/core/token_optimizer.rs:117-128 | definition: each item's proposed share, computed from the total importance of the ranked items |
| TokenOptimizer.Step | src/core/token_optimizer.rs:120-160 | one item: the tokens left drop by the allocation; an item that fits costs its tokens and changes nothing else; otherwise only the named diff, commit message or content is rewritten, keeping the path, the exclusion flag and whether content is present; an error only where truncation was needed |
| TokenOptimizer.Run | src/core/token_optimizer.rs:120-161 | the loop keeps the number of files and commits |
| TokenOptimizer.Sum | src/core/token_optimizer.rs:118-161 | definition: the total of the allocations |
| TokenOptimizer.RunBudget | src/core/token_optimizer.rs:118-161 | allocations plus the tokens left equal the budget; each allocation fits its item; the loop stops early only at zero tokens or an error; the tokens left never grow |
| TokenOptimizer.SkipLeadingNonContent | src/core/token_optimizer.rs:166-172 | `skip_while` drops a leading run of diff and commit items and stops at the first content item |
| TokenOptimizer.SkipKeepsContents | src/core/token_optimizer.rs:166-172 | every content item survives the skip |
| TokenOptimizer.ClearOne | src/core/token_optimizer.rs:173-178 | clearing one item keeps the number of files |
| TokenOptimizer.ClearAll | src/core/token_optimizer.rs:166-179 | clearing keeps the number of files |
| TokenOptimizer.ClearAllEffect | src/core/token_optimizer.rs:166-179 | a file named by a content item loses its content and is marked excluded; any other file is unchanged |
| TokenOptimizer.ClearAllKeepsCleared | src/core/token_optimizer.rs:173-177 | clearing an already cleared file leaves it as it is |
| TokenOptimizer.ImportanceGe | src/core/token_optimizer.rs:114 | definition: the comparator `b.importance.partial_cmp(&a.importance)`, higher importance first |
| TokenOptimizer.Ranked | src/core/token_optimizer.rs:113-114 | sorting permutes the items and leaves them highest importance first |
| TokenOptimizer.RankedStable | src/core/token_optimizer.rs:113-114 | items of equal importance keep the order in which they were built |
| TokenOptimizer.BuildItemsContents | src/core/token_optimizer.rs:68-111 | among all items, a file's content item is present exactly when the file had content |
| TokenOptimizer.RankedContents | src/core/token_optimizer.rs:98-114 | the same holds after the sort |
| TokenOptimizer.OptimizeEffect | src/core/token_optimizer.rs:66-185 | the tokens left never exceed the budget, so `max_tokens - remaining` cannot underflow; allocations sum to the tokens used; when the budget is used up without error, every file that had content ends with none and marked excluded |
| TokenOptimizer.Optimize | src/core/token_optimizer.rs:66-185 | definition of `optimize_context` on values: rank the items, run the budget loop, and, when it used the whole budget without error, clear every content from the first content item on |
| TokenOptimizer.LoadedContentCleared | src/core/token_optimizer.rs:163-180 | a file with loaded content is cleared by the final pass |
| TokenOptimizer.ListedContentCleared | src/core/token_optimizer.rs:166-179 | a file named by a ranked content item is cleared by the final pass |
| TokenOptimizer.PushDiffItems | src/core/token_optimizer.rs:71-80 | the first loop appends the diff items |
| TokenOptimizer.PushCommitItems | src/core/token_optimizer.rs:83-95 | the second loop appends the commit items |
| TokenOptimizer.PushContentItems | src/core/token_optimizer.rs:98-111 | the third loop appends the content items |
| TokenOptimizer.ApplyStep | src/core/token_optimizer.rs:120-160 | one iteration of the budget loop changes the context as `Step` specifies, and nothing on an error |
| TokenOptimizer.BudgetLoop | src/core/token_optimizer.rs:118-161 | the budget loop leaves the context and the tokens left that `Run` specifies |
| TokenOptimizer.ClearContents | src/core/token_optimizer.rs:163-180 | the clearing loop leaves the files `ClearAll` specifies and the commits unchanged |
| TokenOptimizer.OptimizeContext | src/core/token_optimizer.rs:66-185 | the context ends as `Optimize` specifies, and an error is returned exactly when a truncation failed |
| RebaseService.IsFixLike | src/features/rebase/service.rs:279 | definition: the message contains "fix" or "refactor" |
| RebaseService.IsWipLike | src/features/rebase/service.rs:283 | definition: the message contains "wip" or "work in progress" |
| RebaseService.IsTestAddition | src/features/rebase/service.rs:287 | definition: the message contains both "test" and "add" |
| RebaseService.ApplyFallbackAction | src/features/rebase/service.rs:277-296 | fix/refactor gives Pick 0.8; else wip gives Squash 0.9; else test and add gives Drop 0.6; else Pick 0.7; the confidence is in [0, 1]; the reasoning is non-empty; only the three fields change |
| RebaseService.FallbackActions | src/features/rebase/service.rs:277-296 | the heuristic suggests only Pick, Squash or Drop; Drop only for test additions; Squash exactly for WIP messages that are not fixes |
| RebaseService.FallbackIdempotent | src/features/rebase/service.rs:277-296 | applying the heuristic twice equals applying it once |
| RebaseService.WipBeatsTestAddition | src/features/rebase/service.rs:279-287 | "wip: add test" is a test addition but is squashed, because the WIP rule comes first |
| RebaseService.FallbackAnalysis | src/features/rebase/service.rs:266-274 | the heuristic is applied to each commit, with length, order, hash, message, author and date kept |
| RebaseService.ParseAction | src/features/rebase/service.rs:230-244 | an unrecognised action name becomes Pick |
| RebaseService.ActionName | src/features/rebase/service.rs:230-244 | definition: the name under which the match recognises each action |
| RebaseService.ParseActionName | src/features/rebase/service.rs:230-244 | every action's name is recognised and parses back to that action |
| RebaseService.ApplySuggestion | src/features/rebase/service.rs:225-250 | a complete suggestion sets action, confidence and reasoning as given; an incomplete one applies the heuristic to that commit |
| RebaseService.UnknownActionKeepsAiFields | src/features/rebase/service.rs:237-246 | an unknown action becomes Pick yet keeps the model's confidence, even 1.5, and its reasoning |
| RebaseService.ParseAiResponse | src/features/rebase/service.rs:206-263 | same length as the commits; a failed decode or a count mismatch equals the fallback analysis; otherwise each suggestion is applied to its commit; hash, message, author and date are always kept |
| RebaseService.AnalyzeCommitActions | src/features/rebase/service.rs:126-203 | an empty list comes back unchanged; test mode gives the fallback analysis; a failed reply is the error; a reply that does not decode to one suggestion per commit gives the fallback analysis; otherwise each suggestion is applied to its commit |
| RebaseService.PerformRebaseAuto | src/features/rebase/service.rs:299-334 | an empty analysis succeeds with no operations, no commits and no conflicts; otherwise the repository's rebase result is returned |
| Tui.Initial | src/tui/state.rs:37-74 | the given messages, or one empty placeholder; index 0, Normal mode, dirty, no rebase commits; the first message formatted into the text area; the instructions in theirs |
| Tui.ValidView | src/tui/state.rs:37-74 | definition of the state invariant: at least one message, the index in range, the rebase index in range or 0, the completion index in range while there are suggestions |
| Tui.MessageText | src/tui/state.rs:84-88 | definition: the title, a blank line, and the trimmed message |
| Tui.ShowsCurrent | src/tui/state.rs:82-92 | definition: the message text area holds the current message's text, the state `update_message_textarea` leaves |
| Tui.TuiState.constructor | src/tui/state.rs:37-74 | the new state is `Initial` |
| Tui.WithStatus | src/tui/state.rs:76-80 | the status is set, the spinner cleared and the state dirty |
| Tui.TuiState.SetStatus | src/tui/state.rs:76-80 | the new state is `WithStatus` of the old one |
| Tui.WithMessageTextarea | src/tui/state.rs:82-94 | the text area shows the title, a blank line and the trimmed message of the current message; the state is dirty |
| Tui.TuiState.UpdateMessageTextarea | src/tui/state.rs:82-94 | the new state is `WithMessageTextarea` of the old one, for an index in range |
| Tui.WithRebaseCommits | src/tui/state.rs:96-100 | the list is replaced, the index reset to 0 and the state dirty |
| Tui.TuiState.SetRebaseCommits | src/tui/state.rs:96-100 | the new state is `WithRebaseCommits` of the old one |
| Tui.NextRebase | src/tui/state.rs:102-107 | the index stays at most max(len - 1, 0); at the last commit nothing changes, not even `dirty` |
| Tui.TuiState.NextRebaseCommit | src/tui/state.rs:102-107 | the new state is `NextRebase` of the old one |
| Tui.SaturatingSub | src/tui/state.rs:103 | definition: `usize::saturating_sub` |
| Tui.PrevRebase | src/tui/state.rs:109-114 | the index never grows; at 0 nothing changes, not even `dirty` |
| Tui.TuiState.PrevRebaseCommit | src/tui/state.rs:109-114 | the new state is `PrevRebase` of the old one |
| Tui.PrevAfterNext | src/tui/state.rs:102-114 | below the last commit, stepping down and back up restores the state, apart from `dirty` |
| Tui.NextAction | src/tui/state.rs:118-125 | toggling never yields Edit, and Edit toggles to Pick |
| Tui.Toggled | src/tui/state.rs:118-125 | definition: the action after a number of toggles |
| Tui.FiveTogglesCycle | src/tui/state.rs:118-125 | a non-Edit action returns to itself after five toggles and not before |
| Tui.ToggledRebase | src/tui/state.rs:116-128 | only the current commit's action is toggled and the state marked dirty; out of range nothing changes |
| Tui.TuiState.ToggleRebaseAction | src/tui/state.rs:116-128 | the new state is `ToggledRebase` of the old one |
| Tui.WithRebaseTextarea | src/tui/state.rs:130-137 | the rebase text area shows the current commit's message; out of range nothing changes |
| Tui.TuiState.UpdateRebaseTextarea | src/tui/state.rs:130-137 | the new state is `WithRebaseTextarea` of the old one |
| TuiInput.PrevIndex | src/tui/input_handler.rs:82-86 | one step back with wrap-around, staying in range |
| TuiInput.NextIndex | src/tui/input_handler.rs:96-100 | one step forward modulo the length |
| TuiInput.WrapInverse | src/tui/input_handler.rs:81-108 | stepping back and forward are inverse to each other |
| TuiInput.SkipBlank | src/tui/input_handler.rs:147-148 | `skip_while` drops exactly the leading blank lines, leaving a suffix that starts with a non-blank line |
| TuiInput.ShowMessage | src/tui/input_handler.rs:87-92 | the chosen message is current and shown in the text area |
| TuiInput.Transition | src/tui/input_handler.rs:54-80 | a mode switch sets the mode and status and keeps messages, commits, panels and suggestions |
| TuiInput.SwitchKey | src/tui/input_handler.rs:54-129 | definition: the keys 'e', 'i', 'C', '?' and 'h', which switch a mode or a panel |
| TuiInput.NormalSwitch | src/tui/input_handler.rs:54-129 | 'e' edits the message; 'i' toggles the instructions and edits them when they are now visible; 'C' selects context; 'h' shows help; '?' toggles the navigation bar |
| TuiInput.NavigationKey | src/tui/input_handler.rs:81-108 | definition: the keys Left, 'l', Right and 'r' of the two navigation arms |
| TuiInput.LeftKey | src/tui/input_handler.rs:81 | definition: the keys of the backward arm, Left and 'l' |
| TuiInput.ViewingStatus | src/tui/input_handler.rs:88-92 | definition: "Viewing commit message i/n", with the one-based position |
| TuiInput.NormalNavigate | src/tui/input_handler.rs:81-108 | Left and 'l' step back, Right and 'r' step forward, with wrap-around; the new message is shown and its position reported |
| TuiInput.OnNormal | src/tui/input_handler.rs:51-133 | Exit exactly on Esc; Commit of the formatted current message exactly on Enter, with the spinner on; the switch and navigation keys as specified; any other key changes nothing |
| TuiInput.FinishEdit | src/tui/input_handler.rs:137-154 | Normal mode; the current message's title is the trimmed first line of the text, and its message the remaining lines from the first non-blank one, joined by "\n"; the text area is refreshed |
| TuiInput.RequestCompletion | src/tui/input_handler.rs:155-169 | a blank first line only sets a status; otherwise the first line becomes the pending prefix and the mode Completing |
| TuiInput.FirstLine | src/tui/input_handler.rs:157-158 | definition: the text area's first line, or "" |
| TuiInput.OnEditingMessage | src/tui/input_handler.rs:135-174 | Esc finishes the edit, Tab requests a completion, any other key goes to the text area |
| TuiInput.OnEditingInstructions | src/tui/input_handler.rs:176-188 | Esc stores the text area as the custom instructions and returns to Normal; any other key goes to the text area |
| TuiInput.OnHelp | src/tui/input_handler.rs:190-195 | any key closes help and returns to Normal |
| TuiInput.CycleCompletion | src/tui/input_handler.rs:200-222 | with suggestions, Tab advances and BackTab steps back with wrap-around, reporting the selection; with none nothing changes |
| TuiInput.SelectedStatus | src/tui/input_handler.rs:206 | definition: "Selected: " followed by the selected suggestion |
| TuiInput.AcceptCompletion | src/tui/input_handler.rs:223-237 | with suggestions, the selected one becomes the current title, the suggestions are cleared and editing resumes; with none nothing changes |
| TuiInput.LeaveCompletion | src/tui/input_handler.rs:238-251 | leaving completion clears the suggestions and resumes editing |
| TuiInput.OnCompleting | src/tui/input_handler.rs:197-253 | Tab, BackTab, Enter and Esc as specified; any other key leaves completion and is handled as in message editing |
| TuiInput.OnContextSelection | src/tui/input_handler.rs:255-292 | Enter and Esc return to Normal; other keys leave the modelled state unchanged |
| TuiInput.OnKey | src/tui/input_handler.rs:23-49 | Normal and message editing always end dirty; only Normal returns anything but Continue; in Generating, Esc returns to Normal and any other key changes nothing; in the two rebase modes nothing changes |
| TuiInput.RightUndoesLeft | src/tui/input_handler.rs:81-108 | Right after Left, and Left after Right, restore the index |
| TuiInput.BackTabUndoesTab | src/tui/input_handler.rs:200-222 | BackTab after Tab, and Tab after BackTab, restore the completion index |
| TuiInput.MessageTextLines | src/tui/state.rs:84-88 | the text area of a message with one-line title and body has the lines title, "" and, when non-empty, the body |
| TuiInput.EditedMessageRoundTrip | src/tui/input_handler.rs:137-151 | editing the displayed text of a message with a trimmed one-line title and a one-line body, without changes, gives the message back with its body trimmed |
| TuiInput.TrimmedHasNoCR | src/tui/input_handler.rs:143 | a trimmed string keeps no trailing carriage return for `lines()` to strip |
| TuiInput.EditedFromLines | src/tui/input_handler.rs:142-150 | a text whose lines are title, "" and an optional body is read back as that title and body |
| TuiInput.EditedMessage | src/tui/input_handler.rs:139-150 | definition: the message read back from the text area's text, through its lines |
| TuiInput.FromLines | src/tui/input_handler.rs:142-150 | definition: the title is the trimmed first line ("" with no lines); the message is the remaining lines from the first non-blank one, joined by "\n" |
| TuiInput.FromTitleLines | src/tui/input_handler.rs:142-150 | the lines title and "" give that title and an empty message |
| TuiInput.FromTitleBodyLines | src/tui/input_handler.rs:142-150 | the lines title, "" and body give that title and body |
| TuiInput.EditRoundTrip | src/tui/input_handler.rs:137-153 | Esc right after the text area was refreshed keeps the current message, apart from trimming its body |
| TuiInput.SwitchPanel | src/tui/input_handler.rs:54-129 | the switch keys change the state as `NormalSwitch` specifies |
| TuiInput.Navigate | src/tui/input_handler.rs:81-108 | the navigation keys change the state as `NormalNavigate` specifies |
| TuiInput.HandleNormalMode | src/tui/input_handler.rs:51-133 | the new state and result are those of `OnNormal` |
| TuiInput.FinishEditing | src/tui/input_handler.rs:137-154 | the new state is `FinishEdit` of the old one |
| TuiInput.StartCompletion | src/tui/input_handler.rs:155-169 | the new state is `RequestCompletion` of the old one |
| TuiInput.HandleEditingMessage | src/tui/input_handler.rs:135-174 | the new state is that of `OnEditingMessage`; the result is Continue |
| TuiInput.HandleEditingInstructions | src/tui/input_handler.rs:176-188 | the new state is that of `OnEditingInstructions`; the result is Continue |
| TuiInput.HandleHelp | src/tui/input_handler.rs:190-195 | the new state is that of `OnHelp`; the result is Continue |
| TuiInput.Cycle | src/tui/input_handler.rs:200-222 | the new state is `CycleCompletion` of the old one |
| TuiInput.Accept | src/tui/input_handler.rs:223-237 | the new state is `AcceptCompletion` of the old one |
| TuiInput.HandleCompleting | src/tui/input_handler.rs:197-253 | the new state is that of `OnCompleting`; the result is Continue |
| TuiInput.HandleContextSelection | src/tui/input_handler.rs:255-292 | the new state is that of `OnContextSelection`; the result is Continue |
| TuiInput.HandleInput | src/tui/input_handler.rs:23-49 | the new state and result are those of `OnKey` |
| TuiInput.HandleNormalKey | src/tui/input_handler.rs:26-30 | the Normal-mode handler followed by marking the state dirty, as `OnKey` specifies |
| TuiInput.HandleEditingKey | src/tui/input_handler.rs:31-35 | the message-editing handler followed by marking the state dirty, as `OnKey` specifies |
| TuiInput.HandleGenerating | src/tui/input_handler.rs:40-47 | in Generating, Esc cancels to Normal and other keys do nothing, as `OnKey` specifies |

## Left out

- File and process I/O are not modelled:
  - finding and opening the `.gitwire` file and decoding its JSON (the model starts from the decoded entries);
  - `git-wire check`'s sequencer and its printing;
  - the directory walk of `FolderCompare`, modelled as two maps from path to content;
  - loading, saving and locating the commit cache on disk;
  - `is_inside_work_tree`.
- `Path::components` is modelled for Unix paths. `Prefix` components exist only on Windows and are never produced.
- The `DefaultHasher` algorithm is an opaque function of the fed items, so hash collisions are not modelled.
- The tiktoken encoder is an opaque pair of `encode` and `decode` functions.
- TokenOptimizer.TruncateFits: proves the budget bound only for an encoder that encodes each decoded text back to the same tokens. tiktoken's byte-pair encoder does not promise this, because decoded tokens can merge differently when encoded again. So the text `truncate_string` returns may exceed `max_tokens` in the source.
- TokenOptimizer.TruncateIdempotent: rests on the same assumption about the encoder, and holds only for such encoders.
- Summarisation is left out because it calls the network: `summarize_text`, `hierarchical_summarize` and `try_hierarchical_summarize`.
- Floating point is not modelled. Importances, scores and confidences are exact reals. The importance sort is the verified stable sort on reals. NaN and rounding effects on `f32` are not captured.
- The proportional allocation of `optimize_context` is computed as a real and floored where the source truncates an `f32` to `usize`.
- Characters are ASCII only. `to_lowercase`, `is_uppercase`, `is_lowercase`, `is_alphanumeric` and `is_whitespace` act on ASCII, and byte lengths are taken as character counts. Non-ASCII letters and multi-byte UTF-8 are not captured.
- `HashMap` iteration order is not modelled:
  - `get_authors_for_repo` returns a set, so the order and duplicates of the returned `Vec` are not modelled;
  - `extract_keywords` collects the count map in some order, and ties between equal counts are resolved by that order.
- The LLM branch of `analyze_commit_actions` becomes its reply: a string or an error. The prompt text and the call are not modelled.
- `analyze_commits_for_rebase` is left out: it walks the git history through git2.
- `check_environment` and the rebase itself in `perform_rebase_auto` are left out: they call git.
- The crossterm key event is a `Key` datatype with the keys the handlers distinguish.
- The text areas are modelled by the text they hold: `lines().join("\n")` is that text. Key input into a text area is an opaque function of the text and the key.
- The spinner is a boolean, on or off. The spinner's animation and `last_spinner_update` (a clock) are not modelled.
- The 'R' key calls `handle_regenerate` of the application, which is not part of this model, so it leaves the modelled state unchanged.
- The context-selection helpers `move_selection_up`, `move_selection_down`, `toggle_current_selection` and `next_category` are not shown in the source. Their keys leave the modelled state unchanged.
- TuiInput.HandleInput: does not restate in `ensures` that the state stays valid. `TuiInput.OnKey` proves that about the value it specifies.
- After a completion is accepted or cancelled, `completion_index` is not reset, as in the source.
- TuiInput.OnCompleting: requires, through `Tui.ValidView`, that `completion_index` is below the number of suggestions whenever there are some. This is an assumption about src/tui/app.rs, which fills the suggestions and is not part of this model. With a stale index the source panics on an out-of-bounds index: BackTab's read at src/tui/input_handler.rs:218 when the index exceeds the length, and Enter's read at line 226 when the index is at least the length. Only Tab copes, through its `%` (lines 203-204). The model does not capture this panic.
- TuiInput.HandleInput: carries the same requirement through `TuiState.Valid()`, so the panic above is not modelled for the top-level dispatch either.
- The following files are not part of this model:
  - src/core/context.rs, src/features/commit/types.rs and src/features/rebase/types.rs; only the fields the modelled code reads are kept;
  - src/tui/app.rs and src/tui/spinner.rs;
  - crates/wire/src/cache/lock.rs, whose point is mutual exclusion;
  - src/features/commit/completion.rs, which is LLM and git orchestration.
