/** Token budgeting of a commit context, from src/core/token_optimizer.rs.

    The tokenizer is a parameter: an `encode` function from text to tokens and
    a partial `decode` back. Importance scores are exact `real`s where the
    source uses `f32`. */
module TokenOptimizer {
  import opened Wrappers
  import opened Sorting
  import opened Context

  type Token = nat

  /** The byte-pair encoder: ordinary encoding and a decoding that may fail. */
  datatype Encoder = Encoder(encode: string -> seq<Token>, decode: seq<Token> -> Option<string>)

  /** The error kinds; their messages are not modelled. */
  datatype TokenError = EncoderInit | EncodingFailed | DecodingFailed

  /** The horizontal ellipsis U+2026. */
  const Ellipsis: string := "\U{2026}"

  /** `count_tokens`. */
  function CountTokens(enc: Encoder, s: string): nat {
    |enc.encode(s)|
  }

  /** The tokens decoded when `s` is cut to `maxTokens` tokens: the first
      `maxTokens - 1` tokens of `s` and then the ellipsis token. */
  function TruncatedTokens(tokens: seq<Token>, maxTokens: nat, ellipsisToken: Token): (t: seq<Token>)
    requires 0 < maxTokens <= |tokens|
    ensures |t| == maxTokens
    ensures t[..maxTokens - 1] == tokens[..maxTokens - 1]
    ensures t[maxTokens - 1] == ellipsisToken
  {
    tokens[..maxTokens - 1] + [ellipsisToken]
  }

  /** `truncate_string`. */
  function TruncateString(enc: Encoder, s: string, maxTokens: nat): (r: Result<string, TokenError>)
    ensures CountTokens(enc, s) <= maxTokens ==> r == Ok(s)
    ensures CountTokens(enc, s) > maxTokens == 0 ==> r == Ok(Ellipsis)
    ensures r == Err(EncodingFailed)
            <==> CountTokens(enc, s) > maxTokens > 0 && enc.encode(Ellipsis) == []
    ensures r == Err(DecodingFailed)
            <==> CountTokens(enc, s) > maxTokens > 0 && enc.encode(Ellipsis) != []
                 && enc.decode(TruncatedTokens(enc.encode(s), maxTokens, enc.encode(Ellipsis)[0])).None?
    ensures CountTokens(enc, s) > maxTokens > 0 && r.Ok? ==>
              Some(r.value) == enc.decode(TruncatedTokens(enc.encode(s), maxTokens, enc.encode(Ellipsis)[0]))
  {
    var tokens := enc.encode(s);
    if |tokens| <= maxTokens then Ok(s)
    else if maxTokens == 0 then Ok(Ellipsis)
    else
      var ell := enc.encode(Ellipsis);
      if ell == [] then Err(EncodingFailed)
      else
        match enc.decode(tokens[..maxTokens - 1] + [ell[0]])
        case Some(t) => Ok(t)
        case None => Err(DecodingFailed)
  }

  /** An encoder that re-encodes every decoded text to the tokens it came from. */
  ghost predicate Faithful(enc: Encoder) {
    forall t :: enc.decode(t).Some? ==> enc.encode(enc.decode(t).value) == t
  }

  /** With a faithful encoder and a positive budget a truncated text fits the
      budget. */
  lemma TruncateFits(enc: Encoder, s: string, maxTokens: nat)
    requires Faithful(enc)
    requires maxTokens > 0 && TruncateString(enc, s, maxTokens).Ok?
    ensures CountTokens(enc, TruncateString(enc, s, maxTokens).value) <= maxTokens
  {
    var tokens := enc.encode(s);
    if |tokens| > maxTokens {
      var t := TruncatedTokens(tokens, maxTokens, enc.encode(Ellipsis)[0]);
      assert enc.decode(t).Some?;
    }
  }

  /** Truncating a second time to the same budget changes nothing. */
  lemma TruncateIdempotent(enc: Encoder, s: string, maxTokens: nat)
    requires Faithful(enc)
    requires TruncateString(enc, s, maxTokens).Ok?
    ensures TruncateString(enc, TruncateString(enc, s, maxTokens).value, maxTokens)
            == TruncateString(enc, s, maxTokens)
  {
    if maxTokens > 0 {
      TruncateFits(enc, s, maxTokens);
    }
  }

  // ---------------------------------------------------------------- the items

  datatype ItemKind = Diff(fileIndex: nat) | Commit(commitIndex: nat) | Content(fileIndex: nat)

  /** A piece of the context with its token count and importance. */
  datatype ContextItem = ContextItem(kind: ItemKind, tokenCount: nat, importance: real)

  /** One item per diff; larger diffs are more important. */
  function DiffItems(enc: Encoder, files: seq<StagedFile>): (r: seq<ContextItem>)
    ensures |r| == |files|
    ensures forall i :: 0 <= i < |r| ==> r[i].kind == Diff(i) && r[i].tokenCount == CountTokens(enc, files[i].diff)
  {
    seq(|files|, i requires 0 <= i < |files| =>
      var tc := CountTokens(enc, files[i].diff);
      ContextItem(Diff(i), tc, tc as real))
  }

  /** One item per recent commit; earlier commits weigh more. */
  function CommitItems(enc: Encoder, commits: seq<RecentCommit>): (r: seq<ContextItem>)
    ensures |r| == |commits|
    ensures forall i :: 0 <= i < |r| ==> r[i].kind == Commit(i) && r[i].tokenCount == CountTokens(enc, commits[i].message)
  {
    seq(|commits|, i requires 0 <= i < |commits| =>
      var tc := CountTokens(enc, commits[i].message);
      ContextItem(Commit(i), tc, tc as real * (1.0 / (i + 1) as real)))
  }

  /** The relevance factor: 1 for a path among the staged files, else 0.5. */
  function Relevance(files: seq<StagedFile>, path: string): real {
    if exists j :: 0 <= j < |files| && files[j].path == path then 1.0 else 0.5
  }

  /** The factor is always 1: the path tested is that of a staged file. */
  lemma RelevanceAlwaysOne(files: seq<StagedFile>, i: nat)
    requires i < |files|
    ensures Relevance(files, files[i].path) == 1.0
  {
  }

  /** One item per loaded file content, for the first `n` files. */
  function ContentItems(enc: Encoder, files: seq<StagedFile>, n: nat): (r: seq<ContextItem>)
    requires n <= |files|
    ensures forall k :: 0 <= k < |r| ==> r[k].kind.Content? && r[k].kind.fileIndex < n
    decreases n
  {
    if n == 0 then []
    else
      var i := n - 1;
      ContentItems(enc, files, i)
      + (if files[i].content.Some? then
           var tc := CountTokens(enc, files[i].content.value);
           [ContextItem(Content(i), tc, tc as real * Relevance(files, files[i].path))]
         else [])
  }

  /** The content items name exactly the files whose content is loaded. */
  lemma {:induction false} ContentItemsCover(enc: Encoder, files: seq<StagedFile>, n: nat, i: nat)
    requires i < n <= |files|
    ensures files[i].content.Some? <==> exists k :: 0 <= k < |ContentItems(enc, files, n)| && ContentItems(enc, files, n)[k].kind == Content(i)
    decreases n
  {
    var r := ContentItems(enc, files, n);
    var init := ContentItems(enc, files, n - 1);
    assert r == init + (if files[n - 1].content.Some? then [r[|r| - 1]] else []);
    assert forall k :: 0 <= k < |init| ==> r[k] == init[k];
    if i < n - 1 {
      ContentItemsCover(enc, files, n - 1, i);
      if files[i].content.Some? {
        var k :| 0 <= k < |init| && init[k].kind == Content(i);
        assert r[k].kind == Content(i);
        assert exists k :: 0 <= k < |ContentItems(enc, files, n)| && ContentItems(enc, files, n)[k].kind == Content(i);
      } else {
        forall k | 0 <= k < |r| ensures r[k].kind != Content(i) {
          if k < |init| {
            assert r[k] == init[k];
            assert !(0 <= k < |ContentItems(enc, files, n - 1)| && ContentItems(enc, files, n - 1)[k].kind == Content(i));
          } else {
            assert r[k].kind == Content(n - 1);
          }
        }
      }
    } else {
      if files[i].content.Some? {
        assert r[|init|].kind == Content(i);
        assert exists k :: 0 <= k < |ContentItems(enc, files, n)| && ContentItems(enc, files, n)[k].kind == Content(i);
      } else {
        forall k | 0 <= k < |r| ensures r[k].kind != Content(i) {
          assert r[k] == init[k];
        }
      }
    }
  }

  /** All items in the order the source builds them: diffs, commits, contents. */
  function BuildItems(enc: Encoder, files: seq<StagedFile>, commits: seq<RecentCommit>): seq<ContextItem> {
    DiffItems(enc, files) + CommitItems(enc, commits) + ContentItems(enc, files, |files|)
  }

  /** Higher importance first. */
  function ImportanceGe(a: ContextItem, b: ContextItem): bool {
    a.importance >= b.importance
  }

  function TotalImportance(items: seq<ContextItem>): real
    decreases |items|
  {
    if items == [] then 0.0 else TotalImportance(items[..|items| - 1]) + items[|items| - 1].importance
  }

  /** The float-to-integer `as usize` cast: negative values saturate to 0. */
  function SaturatingFloor(x: real): (n: nat)
    ensures x < 0.0 ==> n == 0
    ensures x >= 0.0 ==> n as real <= x < n as real + 1.0
  {
    if x < 0.0 then 0 else x.Floor
  }

  /** The share of the budget proposed for an item, before capping. */
  function Proposed(item: ContextItem, total: real, maxTokens: nat): (n: nat)
    ensures total <= 0.0 ==> n == 0
    ensures total > 0.0 && 0.0 <= item.importance <= total ==> n <= maxTokens
  {
    if total > 0.0 then
      if 0.0 <= item.importance <= total then
        ShareAtMost(item.importance, total, maxTokens);
        SaturatingFloor(item.importance / total * maxTokens as real)
      else SaturatingFloor(item.importance / total * maxTokens as real)
    else 0
  }

  /** A part of the total is proposed at most the whole budget. */
  lemma ShareAtMost(part: real, total: real, budget: nat)
    requires total > 0.0 && 0.0 <= part <= total
    ensures SaturatingFloor(part / total * budget as real) <= budget
  {
    var share := part / total * budget as real;
    assert 0.0 <= part / total <= 1.0;
    assert share <= 1.0 * budget as real;
  }

  // ---------------------------------------------------------------- the budget loop

  /** What the budget loop changes: the files, the commits and the tokens left. */
  datatype State = State(files: seq<StagedFile>, commits: seq<RecentCommit>, remaining: nat)

  function Min(a: nat, b: nat): nat {
    if a < b then a else b
  }

  /** The allocation of an item: the proposal capped by the item's own size and
      by the tokens left. */
  function Alloc(item: ContextItem, proposal: ContextItem -> nat, remaining: nat): (a: nat)
    ensures a <= item.tokenCount && a <= remaining
    ensures a == item.tokenCount || a == remaining || a == proposal(item)
    ensures a <= proposal(item)
  {
    Min(Min(proposal(item), item.tokenCount), remaining)
  }

  /** One iteration of the budget loop on an item: it truncates the item's text
      when the allocation is smaller than the item, then spends the allocation. */
  function Step(enc: Encoder, st: State, item: ContextItem, proposal: ContextItem -> nat): (r: Result<(State, nat), TokenError>)
    ensures r.Ok? ==>
              var (st', a) := r.value;
              a == Alloc(item, proposal, st.remaining)
              && st'.remaining == st.remaining - a
              && |st'.files| == |st.files| && |st'.commits| == |st.commits|
    ensures Alloc(item, proposal, st.remaining) == item.tokenCount ==>
              r == Ok((st.(remaining := st.remaining - item.tokenCount), item.tokenCount))
    ensures r.Ok? && !item.kind.Commit? ==> r.value.0.commits == st.commits
    ensures r.Ok? && item.kind.Commit? ==> r.value.0.files == st.files
    ensures r.Ok? ==> forall j :: 0 <= j < |st.files| && (item.kind.Commit? || j != item.kind.fileIndex) ==>
              r.value.0.files[j] == st.files[j]
    ensures r.Ok? && item.kind.Commit? ==> forall j :: 0 <= j < |st.commits| && j != item.kind.commitIndex ==>
              r.value.0.commits[j] == st.commits[j]
    ensures r.Ok? && !item.kind.Commit? && item.kind.fileIndex < |st.files| ==>
              var (f, f') := (st.files[item.kind.fileIndex], r.value.0.files[item.kind.fileIndex]);
              f'.path == f.path && f'.contentExcluded == f.contentExcluded
              && f'.content.Some? == f.content.Some?
              && (item.kind.Diff? ==> f'.content == f.content)
              && (item.kind.Content? ==> f'.diff == f.diff)
    ensures r.Err? ==> Alloc(item, proposal, st.remaining) < item.tokenCount
  {
    var a := Alloc(item, proposal, st.remaining);
    var left := if a <= st.remaining then st.remaining - a else 0;
    if a < item.tokenCount then
      match item.kind
      case Diff(i) =>
        if i < |st.files| then
          match TruncateString(enc, st.files[i].diff, a)
          case Err(e) => Err(e)
          case Ok(d) => Ok((State(st.files[i := st.files[i].(diff := d)], st.commits, left), a))
        else Ok((st.(remaining := left), a))
      case Commit(i) =>
        if i < |st.commits| then
          match TruncateString(enc, st.commits[i].message, a)
          case Err(e) => Err(e)
          case Ok(m) => Ok((State(st.files, st.commits[i := RecentCommit(m)], left), a))
        else Ok((st.(remaining := left), a))
      case Content(i) =>
        if i < |st.files| && st.files[i].content.Some? then
          match TruncateString(enc, st.files[i].content.value, a)
          case Err(e) => Err(e)
          case Ok(c) => Ok((State(st.files[i := st.files[i].(content := Some(c))], st.commits, left), a))
        else Ok((st.(remaining := left), a))
    else Ok((st.(remaining := left), a))
  }

  /** How the budget loop ends: the final state, the error that stopped it if
      any, and the allocation of every item it completed. */
  datatype Outcome = Outcome(st: State, err: Option<TokenError>, allocs: seq<nat>)

  /** The budget loop over `items`: it stops once no token is left, and at the
      first failed truncation. */
  function Run(enc: Encoder, st: State, items: seq<ContextItem>, proposal: ContextItem -> nat): (o: Outcome)
    ensures |o.st.files| == |st.files| && |o.st.commits| == |st.commits|
    decreases |items|
  {
    if items == [] || st.remaining == 0 then Outcome(st, None, [])
    else
      match Step(enc, st, items[0], proposal)
      case Err(e) => Outcome(st, Some(e), [])
      case Ok((st', a)) =>
        var o := Run(enc, st', items[1..], proposal);
        Outcome(o.st, o.err, [a] + o.allocs)
  }

  function Sum(xs: seq<nat>): nat
    decreases |xs|
  {
    if xs == [] then 0 else xs[0] + Sum(xs[1..])
  }

  /** The budget loop's accounting: the allocations and the tokens left add up
      to the starting budget, each allocation fits its item, and the loop stops
      short of the last item only when the budget is spent or a truncation
      failed. */
  lemma {:induction false} RunBudget(enc: Encoder, st: State, items: seq<ContextItem>, proposal: ContextItem -> nat)
    ensures var o := Run(enc, st, items, proposal);
            && Sum(o.allocs) + o.st.remaining == st.remaining
            && |o.allocs| <= |items|
            && (forall k :: 0 <= k < |o.allocs| ==> o.allocs[k] <= items[k].tokenCount)
            && (o.err.None? && |o.allocs| < |items| ==> o.st.remaining == 0)
            && o.st.remaining <= st.remaining
    decreases |items|
  {
    if items != [] && st.remaining != 0 {
      var r := Step(enc, st, items[0], proposal);
      if r.Ok? {
        var (st', a) := r.value;
        RunBudget(enc, st', items[1..], proposal);
        var o := Run(enc, st', items[1..], proposal);
        var allocs := [a] + o.allocs;
        assert allocs[1..] == o.allocs;
        forall k | 0 <= k < |allocs| ensures allocs[k] <= items[k].tokenCount {
          if k > 0 {
            assert allocs[k] == o.allocs[k - 1] && items[k] == items[1..][k - 1];
          }
        }
      }
    }
  }

  // ---------------------------------------------------------------- clearing

  /** `skip_while` over the leading diff and commit items. */
  function SkipLeadingNonContent(items: seq<ContextItem>): (r: seq<ContextItem>)
    ensures |r| <= |items| && r == items[|items| - |r|..]
    ensures forall k :: 0 <= k < |items| - |r| ==> !items[k].kind.Content?
    ensures r == [] || r[0].kind.Content?
    decreases |items|
  {
    if items == [] || items[0].kind.Content? then items else SkipLeadingNonContent(items[1..])
  }

  /** Skipping the leading non-content items keeps every content item. */
  lemma SkipKeepsContents(items: seq<ContextItem>, k: nat)
    requires k < |items| && items[k].kind.Content?
    ensures items[k] in SkipLeadingNonContent(items)
  {
    var r := SkipLeadingNonContent(items);
    assert items[k] == r[k - (|items| - |r|)];
  }

  /** Drops the content named by a content item. */
  function ClearOne(files: seq<StagedFile>, item: ContextItem): (r: seq<StagedFile>)
    ensures |r| == |files|
  {
    if item.kind.Content? && item.kind.fileIndex < |files| then
      var i := item.kind.fileIndex;
      files[i := files[i].(content := None, contentExcluded := true)]
    else files
  }

  function ClearAll(files: seq<StagedFile>, items: seq<ContextItem>): (r: seq<StagedFile>)
    ensures |r| == |files|
    decreases |items|
  {
    if items == [] then files else ClearAll(ClearOne(files, items[0]), items[1..])
  }

  /** Clearing drops the content of exactly the files that some content item
      names and leaves the other files alone. */
  lemma {:induction false} ClearAllEffect(files: seq<StagedFile>, items: seq<ContextItem>, i: nat)
    requires i < |files|
    ensures (exists k :: 0 <= k < |items| && items[k].kind == Content(i)) ==>
              ClearAll(files, items)[i] == files[i].(content := None, contentExcluded := true)
    ensures (forall k :: 0 <= k < |items| ==> items[k].kind != Content(i)) ==>
              ClearAll(files, items)[i] == files[i]
    decreases |items|
  {
    if items != [] {
      var f1 := ClearOne(files, items[0]);
      ClearAllEffect(f1, items[1..], i);
      if items[0].kind == Content(i) {
        assert f1[i] == files[i].(content := None, contentExcluded := true);
        ClearAllKeepsCleared(f1, items[1..], i);
      } else {
        assert f1[i] == files[i];
        if exists k :: 0 <= k < |items| && items[k].kind == Content(i) {
          var k :| 0 <= k < |items| && items[k].kind == Content(i);
          assert items[1..][k - 1].kind == Content(i);
        }
        if forall k :: 0 <= k < |items| ==> items[k].kind != Content(i) {
          assert forall k :: 0 <= k < |items| - 1 ==> items[1..][k] == items[k + 1];
        }
      }
    }
  }

  /** A file whose content was dropped stays that way. */
  lemma {:induction false} ClearAllKeepsCleared(files: seq<StagedFile>, items: seq<ContextItem>, i: nat)
    requires i < |files| && files[i].content.None? && files[i].contentExcluded
    ensures ClearAll(files, items)[i] == files[i]
    decreases |items|
  {
    if items != [] {
      ClearAllKeepsCleared(ClearOne(files, items[0]), items[1..], i);
    }
  }

  // ---------------------------------------------------------------- optimize_context

  /** The items in importance order, as the stable sort leaves them. */
  function Ranked(enc: Encoder, files: seq<StagedFile>, commits: seq<RecentCommit>): (r: seq<ContextItem>)
    ensures multiset(r) == multiset(BuildItems(enc, files, commits))
    ensures SortedDesc(r, ImportanceGe)
  {
    assert TotalPreorder(ImportanceGe);
    SortDescSorted(BuildItems(enc, files, commits), ImportanceGe);
    SortDesc(BuildItems(enc, files, commits), ImportanceGe)
  }

  /** Items of equal importance keep the order in which they were built:
      diffs, then commits, then contents, each in list order. */
  lemma RankedStable(enc: Encoder, files: seq<StagedFile>, commits: seq<RecentCommit>, x: ContextItem)
    ensures Ties(Ranked(enc, files, commits), x, ImportanceGe) == Ties(BuildItems(enc, files, commits), x, ImportanceGe)
  {
    assert TotalPreorder(ImportanceGe);
    SortDescStable(BuildItems(enc, files, commits), x, ImportanceGe);
  }

  /** The proposal function of `optimize_context`: each item's share of the
      budget in proportion to its importance. */
  function ProposalOf(items: seq<ContextItem>, maxTokens: nat): ContextItem -> nat {
    var total := TotalImportance(items);
    (item: ContextItem) => Proposed(item, total, maxTokens)
  }

  /** The whole of `optimize_context` on values. */
  function Optimize(enc: Encoder, maxTokens: nat, files: seq<StagedFile>, commits: seq<RecentCommit>): Outcome {
    var ranked := Ranked(enc, files, commits);
    var o := Run(enc, State(files, commits, maxTokens), ranked, ProposalOf(ranked, maxTokens));
    if o.err.None? && o.st.remaining == 0 then
      o.(st := o.st.(files := ClearAll(o.st.files, SkipLeadingNonContent(ranked))))
    else o
  }

  /** The built items name each loaded content: a file's content item is
      present exactly when the file had content. */
  lemma BuildItemsContents(enc: Encoder, files: seq<StagedFile>, commits: seq<RecentCommit>, i: nat)
    requires i < |files|
    ensures files[i].content.Some? <==>
              exists m :: 0 <= m < |BuildItems(enc, files, commits)| && BuildItems(enc, files, commits)[m].kind == Content(i)
  {
    var items := BuildItems(enc, files, commits);
    var d, c, n := DiffItems(enc, files), CommitItems(enc, commits), ContentItems(enc, files, |files|);
    ContentItemsCover(enc, files, |files|, i);
    if files[i].content.Some? {
      var k :| 0 <= k < |n| && n[k].kind == Content(i);
      assert items[|d| + |c| + k] == n[k];
    } else {
      forall m | 0 <= m < |items| ensures items[m].kind != Content(i) {
        if m < |d| {
          assert items[m] == d[m];
        } else if m < |d| + |c| {
          assert items[m] == c[m - |d|];
        } else {
          assert items[m] == n[m - |d| - |c|];
        }
      }
    }
  }

  /** The same holds after ranking, which only reorders the items. */
  lemma RankedContents(enc: Encoder, files: seq<StagedFile>, commits: seq<RecentCommit>, i: nat)
    requires i < |files|
    ensures files[i].content.Some? <==>
              exists k :: 0 <= k < |Ranked(enc, files, commits)| && Ranked(enc, files, commits)[k].kind == Content(i)
  {
    var items := BuildItems(enc, files, commits);
    var ranked := Ranked(enc, files, commits);
    BuildItemsContents(enc, files, commits, i);
    if files[i].content.Some? {
      var m :| 0 <= m < |items| && items[m].kind == Content(i);
      assert items[m] in multiset(ranked);
    } else {
      forall k | 0 <= k < |ranked| ensures ranked[k].kind != Content(i) {
        assert ranked[k] in multiset(items);
      }
    }
  }

  /** The source's promises about `optimize_context`: the final usage
      `maxTokens - remaining` never underflows, and once the budget is spent
      every file that had content ends with its content dropped and marked as
      excluded. */
  lemma OptimizeEffect(enc: Encoder, maxTokens: nat, files: seq<StagedFile>, commits: seq<RecentCommit>)
    ensures var o := Optimize(enc, maxTokens, files, commits);
            && o.st.remaining <= maxTokens
            && Sum(o.allocs) == maxTokens - o.st.remaining
            && |o.st.files| == |files|
    ensures var o := Optimize(enc, maxTokens, files, commits);
            o.err.None? && o.st.remaining == 0 ==>
              forall i :: 0 <= i < |files| && files[i].content.Some? ==>
                o.st.files[i].content.None? && o.st.files[i].contentExcluded
  {
    var ranked := Ranked(enc, files, commits);
    var o := Run(enc, State(files, commits, maxTokens), ranked, ProposalOf(ranked, maxTokens));
    RunBudget(enc, State(files, commits, maxTokens), ranked, ProposalOf(ranked, maxTokens));
    if o.err.None? && o.st.remaining == 0 {
      forall i | 0 <= i < |files| && files[i].content.Some?
        ensures ClearAll(o.st.files, SkipLeadingNonContent(ranked))[i].content.None?
        ensures ClearAll(o.st.files, SkipLeadingNonContent(ranked))[i].contentExcluded
      {
        LoadedContentCleared(enc, files, commits, o.st.files, i);
      }
    }
  }

  /** Clearing after the ranked items drops the content of every file that
      had content when the items were built. */
  lemma LoadedContentCleared(enc: Encoder, files: seq<StagedFile>, commits: seq<RecentCommit>,
                             current: seq<StagedFile>, i: nat)
    requires i < |files| && i < |current| && files[i].content.Some?
    ensures var rest := SkipLeadingNonContent(Ranked(enc, files, commits));
            ClearAll(current, rest)[i].content.None? && ClearAll(current, rest)[i].contentExcluded
  {
    var ranked := Ranked(enc, files, commits);
    RankedContents(enc, files, commits, i);
    var k :| 0 <= k < |ranked| && ranked[k].kind == Content(i);
    ListedContentCleared(current, ranked, i, k);
  }

  /** A file whose content item is among the ranked items is cleared. */
  lemma ListedContentCleared(current: seq<StagedFile>, ranked: seq<ContextItem>, i: nat, k: nat)
    requires i < |current| && k < |ranked| && ranked[k].kind == Content(i)
    ensures var cleared := ClearAll(current, SkipLeadingNonContent(ranked))[i];
            cleared.content.None? && cleared.contentExcluded
  {
    var rest := SkipLeadingNonContent(ranked);
    SkipKeepsContents(ranked, k);
    var m :| 0 <= m < |rest| && rest[m] == ranked[k];
    assert rest[m].kind == Content(i);
    ClearAllEffect(current, rest, i);
  }

  /** The first item-building loop: one item per diff. */
  method PushDiffItems(enc: Encoder, files: seq<StagedFile>, items0: seq<ContextItem>) returns (items: seq<ContextItem>)
    ensures items == items0 + DiffItems(enc, files)
  {
    items := items0;
    for i := 0 to |files|
      invariant items == items0 + DiffItems(enc, files)[..i]
    {
      var tokenCount := CountTokens(enc, files[i].diff);
      items := items + [ContextItem(Diff(i), tokenCount, tokenCount as real)];
    }
    assert DiffItems(enc, files)[..|files|] == DiffItems(enc, files);
  }

  /** The second loop: one item per recent commit. */
  method PushCommitItems(enc: Encoder, commits: seq<RecentCommit>, items0: seq<ContextItem>) returns (items: seq<ContextItem>)
    ensures items == items0 + CommitItems(enc, commits)
  {
    items := items0;
    for i := 0 to |commits|
      invariant items == items0 + CommitItems(enc, commits)[..i]
    {
      var tokenCount := CountTokens(enc, commits[i].message);
      var positionFactor := 1.0 / (i + 1) as real;
      assert CommitItems(enc, commits)[i] == ContextItem(Commit(i), tokenCount, tokenCount as real * positionFactor);
      items := items + [ContextItem(Commit(i), tokenCount, tokenCount as real * positionFactor)];
      assert CommitItems(enc, commits)[..i + 1] == CommitItems(enc, commits)[..i] + [CommitItems(enc, commits)[i]];
    }
    assert CommitItems(enc, commits)[..|commits|] == CommitItems(enc, commits);
  }

  /** The third loop: one item per loaded content. */
  method PushContentItems(enc: Encoder, files: seq<StagedFile>, items0: seq<ContextItem>) returns (items: seq<ContextItem>)
    ensures items == items0 + ContentItems(enc, files, |files|)
  {
    items := items0;
    for i := 0 to |files|
      invariant items == items0 + ContentItems(enc, files, i)
    {
      if files[i].content.Some? {
        var tokenCount := CountTokens(enc, files[i].content.value);
        var relevanceFactor := Relevance(files, files[i].path);
        items := items + [ContextItem(Content(i), tokenCount, tokenCount as real * relevanceFactor)];
      }
    }
  }

  /** One pass of the budget loop, truncating the item's text in place. */
  method ApplyStep(enc: Encoder, ctx: CommitContext, item: ContextItem, proposal: ContextItem -> nat, remaining: nat)
    returns (left: nat, err: Option<TokenError>)
    modifies ctx
    ensures var r := Step(enc, State(old(ctx.stagedFiles), old(ctx.recentCommits), remaining), item, proposal);
            && (err.Some? <==> r.Err?)
            && (r.Err? ==> err.value == r.error && ctx.stagedFiles == old(ctx.stagedFiles) && ctx.recentCommits == old(ctx.recentCommits))
            && (r.Ok? ==> r.value.0 == State(ctx.stagedFiles, ctx.recentCommits, left))
  {
    var allotted := Min(Min(proposal(item), item.tokenCount), remaining);
    if allotted < item.tokenCount {
      match item.kind {
        case Diff(i) =>
          if i < |ctx.stagedFiles| {
            var t := TruncateString(enc, ctx.stagedFiles[i].diff, allotted);
            if t.Err? {
              return 0, Some(t.error);
            }
            ctx.stagedFiles := ctx.stagedFiles[i := ctx.stagedFiles[i].(diff := t.value)];
          }
        case Commit(i) =>
          if i < |ctx.recentCommits| {
            var t := TruncateString(enc, ctx.recentCommits[i].message, allotted);
            if t.Err? {
              return 0, Some(t.error);
            }
            ctx.recentCommits := ctx.recentCommits[i := RecentCommit(t.value)];
          }
        case Content(i) =>
          if i < |ctx.stagedFiles| && ctx.stagedFiles[i].content.Some? {
            var t := TruncateString(enc, ctx.stagedFiles[i].content.value, allotted);
            if t.Err? {
              return 0, Some(t.error);
            }
            ctx.stagedFiles := ctx.stagedFiles[i := ctx.stagedFiles[i].(content := Some(t.value))];
          }
      }
    }
    left := if allotted <= remaining then remaining - allotted else 0;
    err := None;
  }

  /** The budget loop: it stops when no token is left and returns at the first
      failed truncation. */
  method BudgetLoop(enc: Encoder, ctx: CommitContext, ranked: seq<ContextItem>, proposal: ContextItem -> nat, maxTokens: nat)
    returns (remaining: nat, err: Option<TokenError>)
    modifies ctx
    ensures var o := Run(enc, State(old(ctx.stagedFiles), old(ctx.recentCommits), maxTokens), ranked, proposal);
            o.st == State(ctx.stagedFiles, ctx.recentCommits, remaining) && o.err == err
  {
    remaining := maxTokens;
    ghost var whole := Run(enc, State(ctx.stagedFiles, ctx.recentCommits, maxTokens), ranked, proposal);
    var k := 0;
    while k < |ranked|
      invariant k <= |ranked|
      invariant var o := Run(enc, State(ctx.stagedFiles, ctx.recentCommits, remaining), ranked[k..], proposal);
                whole.st == o.st && whole.err == o.err
      decreases |ranked| - k
    {
      if remaining == 0 {
        break;
      }
      assert ranked[k..][0] == ranked[k] && ranked[k..][1..] == ranked[k + 1..];
      var left;
      left, err := ApplyStep(enc, ctx, ranked[k], proposal, remaining);
      if err.Some? {
        return;
      }
      remaining := left;
      k := k + 1;
    }
    err := None;
  }

  /** The clearing loop over the items left after `skip_while`. */
  method ClearContents(ctx: CommitContext, rest: seq<ContextItem>)
    modifies ctx
    ensures ctx.stagedFiles == ClearAll(old(ctx.stagedFiles), rest)
    ensures ctx.recentCommits == old(ctx.recentCommits)
  {
    for j := 0 to |rest|
      invariant ClearAll(ctx.stagedFiles, rest[j..]) == ClearAll(old(ctx.stagedFiles), rest)
      invariant ctx.recentCommits == old(ctx.recentCommits)
    {
      assert rest[j..][1..] == rest[j + 1..];
      var item := rest[j];
      if item.kind.Content? {
        var i := item.kind.fileIndex;
        if i < |ctx.stagedFiles| {
          ctx.stagedFiles := ctx.stagedFiles[i := ctx.stagedFiles[i].(content := None, contentExcluded := true)];
        }
      }
    }
    assert rest[|rest|..] == [];
  }

  /** `optimize_context`: builds the items, ranks them by importance, runs the
      budget loop and, when the budget is spent, drops the remaining contents.
      On a failed truncation it returns the error and keeps the truncations
      already made. */
  method OptimizeContext(enc: Encoder, maxTokens: nat, ctx: CommitContext) returns (r: Result<(), TokenError>)
    modifies ctx
    ensures var o := Optimize(enc, maxTokens, old(ctx.stagedFiles), old(ctx.recentCommits));
            && ctx.stagedFiles == o.st.files
            && ctx.recentCommits == o.st.commits
            && (r.Err? <==> o.err.Some?)
            && (r.Err? ==> r.error == o.err.value)
  {
    var items := PushDiffItems(enc, ctx.stagedFiles, []);
    items := PushCommitItems(enc, ctx.recentCommits, items);
    items := PushContentItems(enc, ctx.stagedFiles, items);
    assert items == BuildItems(enc, ctx.stagedFiles, ctx.recentCommits);
    var ranked := SortDesc(items, ImportanceGe);
    var proposal := ProposalOf(ranked, maxTokens);
    var remaining, err := BudgetLoop(enc, ctx, ranked, proposal, maxTokens);
    if err.Some? {
      return Err(err.value);
    }
    if remaining == 0 {
      ClearContents(ctx, SkipLeadingNonContent(ranked));
    }
    r := Ok(());
  }
}
