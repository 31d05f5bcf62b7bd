/** Keyword extraction and keyword-based similarity of commit messages, from
    src/core/semantic_similarity.rs.

    Scores are kept as exact `real` ratios; the source computes them in `f32`. */
module SemanticSimilarity {
  import opened Wrappers
  import opened Text
  import opened Sorting
  import opened Context

  // ---------------------------------------------------------------- split_camel_case

  /** The end of the run of upper-case letters starting at `j`. */
  function UpperRunEnd(s: string, j: nat): (k: nat)
    requires j <= |s|
    ensures j <= k <= |s|
    ensures forall m :: j <= m < k ==> IsUpper(s[m])
    ensures k < |s| ==> !IsUpper(s[k])
    decreases |s| - j
  {
    if j < |s| && IsUpper(s[j]) then UpperRunEnd(s, j + 1) else j
  }

  /** Saves the current word when it is not empty. */
  function Flush(words: seq<string>, cur: string): seq<string> {
    if cur != "" then words + [cur] else words
  }

  /** The loop state of `split_camel_case`: the position, the words saved so
      far and the word being built. */
  datatype Scan = Scan(i: nat, words: seq<string>, cur: string)

  /** One iteration of the loop. At an upper-case letter the current word is
      saved; a run of two or more capitals followed by a lower-case letter or by
      the end is an acronym, and its last capital starts the next word; a
      single capital starts a new word. Any other character extends the
      current word. */
  function CamelStep(s: string, sc: Scan): (r: Scan)
    requires sc.i < |s|
    ensures sc.i < r.i <= |s|
  {
    var i := sc.i;
    if IsUpper(s[i]) then
      var j := UpperRunEnd(s, i);
      if j > i + 1 && (j == |s| || IsLower(s[j])) then
        Scan(j, Flush(sc.words, sc.cur) + [s[i..j - 1]], [s[j - 1]])
      else
        Scan(i + 1, Flush(sc.words, sc.cur), [s[i]])
    else
      Scan(i + 1, sc.words, sc.cur + [s[i]])
  }

  /** The words the loop produces from a given state on. */
  function CamelFrom(s: string, sc: Scan): seq<string>
    requires sc.i <= |s|
    decreases |s| - sc.i
  {
    if sc.i == |s| then Flush(sc.words, sc.cur) else CamelFrom(s, CamelStep(s, sc))
  }

  function CamelWords(s: string): seq<string> {
    CamelFrom(s, Scan(0, [], ""))
  }

  predicate NoEmptyWord(words: seq<string>) {
    forall k :: 0 <= k < |words| ==> words[k] != ""
  }

  /** The loop's invariant: the saved words and the current word spell out the
      input read so far, and no saved word is empty. */
  predicate ScanSound(s: string, sc: Scan) {
    sc.i <= |s| && Concat(sc.words) + sc.cur == s[..sc.i] && NoEmptyWord(sc.words)
  }

  lemma FlushConcat(words: seq<string>, cur: string)
    ensures Concat(Flush(words, cur)) == Concat(words) + cur
    ensures NoEmptyWord(words) ==> NoEmptyWord(Flush(words, cur))
  {
    if cur != "" {
      ConcatAppend(words, cur);
    }
  }

  /** Appending the text between `i` and `k` to words that spell `s[..i]`. */
  lemma ConcatPiece(s: string, words: seq<string>, i: nat, k: nat)
    requires i <= k <= |s| && Concat(words) == s[..i]
    ensures Concat(words + [s[i..k]]) == s[..k]
  {
    ConcatAppend(words, s[i..k]);
    assert s[..k] == s[..i] + s[i..k];
  }

  lemma StepPlainSound(s: string, sc: Scan)
    requires sc.i < |s| && ScanSound(s, sc)
    ensures ScanSound(s, Scan(sc.i + 1, sc.words, sc.cur + [s[sc.i]]))
  {
    assert Concat(sc.words) + (sc.cur + [s[sc.i]]) == (Concat(sc.words) + sc.cur) + [s[sc.i]];
    assert s[..sc.i + 1] == s[..sc.i] + [s[sc.i]];
  }

  lemma StepSingleSound(s: string, sc: Scan)
    requires sc.i < |s| && ScanSound(s, sc)
    ensures ScanSound(s, Scan(sc.i + 1, Flush(sc.words, sc.cur), [s[sc.i]]))
  {
    FlushConcat(sc.words, sc.cur);
    assert s[..sc.i + 1] == s[..sc.i] + [s[sc.i]];
  }

  lemma StepAcronymSound(s: string, sc: Scan, j: nat)
    requires sc.i + 1 < j <= |s| && ScanSound(s, sc)
    ensures ScanSound(s, Scan(j, Flush(sc.words, sc.cur) + [s[sc.i..j - 1]], [s[j - 1]]))
  {
    FlushConcat(sc.words, sc.cur);
    var flushed := Flush(sc.words, sc.cur);
    ConcatPiece(s, flushed, sc.i, j - 1);
    assert s[..j] == s[..j - 1] + [s[j - 1]];
    var w := flushed + [s[sc.i..j - 1]];
    assert w[|w| - 1] == s[sc.i..j - 1];
  }

  lemma CamelStepSound(s: string, sc: Scan)
    requires sc.i < |s| && ScanSound(s, sc)
    ensures ScanSound(s, CamelStep(s, sc))
  {
    var i := sc.i;
    if IsUpper(s[i]) {
      var j := UpperRunEnd(s, i);
      if j > i + 1 && (j == |s| || IsLower(s[j])) {
        StepAcronymSound(s, sc, j);
      } else {
        StepSingleSound(s, sc);
      }
    } else {
      StepPlainSound(s, sc);
    }
  }

  lemma {:induction false} CamelFromSound(s: string, sc: Scan)
    requires ScanSound(s, sc)
    ensures Concat(CamelFrom(s, sc)) == s
    ensures NoEmptyWord(CamelFrom(s, sc))
    decreases |s| - sc.i
  {
    if sc.i == |s| {
      FlushConcat(sc.words, sc.cur);
      assert s[..sc.i] == s;
    } else {
      CamelStepSound(s, sc);
      CamelFromSound(s, CamelStep(s, sc));
    }
  }

  /** Concatenating the words gives the input back, and no word is empty. */
  lemma CamelWordsRoundTrip(s: string)
    ensures Concat(CamelWords(s)) == s
    ensures NoEmptyWord(CamelWords(s))
  {
    CamelFromSound(s, Scan(0, [], ""));
  }

  /** `split_camel_case`: the `while` loop over the characters. */
  method SplitCamelCase(s: string) returns (words: seq<string>)
    ensures words == CamelWords(s)
    ensures Concat(words) == s
    ensures forall k :: 0 <= k < |words| ==> words[k] != ""
  {
    words := [];
    var cur := "";
    var i := 0;
    while i < |s|
      invariant i <= |s|
      invariant CamelFrom(s, Scan(i, words, cur)) == CamelWords(s)
    {
      ghost var before := Scan(i, words, cur);
      if IsUpper(s[i]) {
        words := Flush(words, cur);
        cur := "";
        var j := i;
        while j < |s| && IsUpper(s[j])
          invariant i <= j <= |s|
          invariant UpperRunEnd(s, j) == UpperRunEnd(s, i)
          decreases |s| - j
        {
          j := j + 1;
        }
        if j > i + 1 && (j == |s| || IsLower(s[j])) {
          words := words + [s[i..j - 1]];
          cur := cur + [s[j - 1]];
          i := j;
        } else {
          cur := cur + [s[i]];
          i := i + 1;
        }
      } else {
        cur := cur + [s[i]];
        i := i + 1;
      }
      assert Scan(i, words, cur) == CamelStep(s, before);
    }
    if cur != "" {
      words := words + [cur];
    }
    CamelWordsRoundTrip(s);
  }

  /** A stretch without capitals only extends the current word. */
  lemma {:induction false} CamelPlainRun(s: string, i: nat, k: nat, words: seq<string>, cur: string)
    requires i <= k <= |s|
    requires forall m :: i <= m < k ==> !IsUpper(s[m])
    ensures CamelFrom(s, Scan(i, words, cur)) == CamelFrom(s, Scan(k, words, cur + s[i..k]))
    decreases k - i
  {
    if i == k {
      assert cur + s[i..k] == cur;
    } else {
      assert CamelStep(s, Scan(i, words, cur)) == Scan(i + 1, words, cur + [s[i]]);
      CamelPlainRun(s, i + 1, k, words, cur + [s[i]]);
      assert cur + [s[i]] + s[i + 1..k] == cur + s[i..k];
    }
  }

  /** The cases of the unit test. */
  lemma CamelExampleSimple()
    ensures CamelWords("simple") == ["simple"]
  {
    var s := "simple";
    CamelPlainRun(s, 0, 6, [], "");
    assert "" + s[0..6] == "simple";
  }

  lemma CamelExampleCamel()
    ensures CamelWords("camelCase") == ["camel", "Case"]
  {
    var s := "camelCase";
    CamelPlainRun(s, 0, 5, [], "");
    assert "" + s[0..5] == "camel";
    CamelExampleCamelTail();
  }

  lemma CamelExampleCamelTail()
    ensures CamelFrom("camelCase", Scan(5, [], "camel")) == ["camel", "Case"]
  {
    var s := "camelCase";
    assert UpperRunEnd(s, 6) == 6;
    assert UpperRunEnd(s, 5) == 6;
    assert CamelStep(s, Scan(5, [], "camel")) == Scan(6, ["camel"], "C");
    CamelPlainRun(s, 6, 9, ["camel"], "C");
    assert "C" + s[6..9] == "Case";
  }

  lemma AcronymFirstStep()
    ensures CamelStep("XMLHttpRequest", Scan(0, [], "")) == Scan(4, ["XML"], "H")
  {
    var s := "XMLHttpRequest";
    assert UpperRunEnd(s, 4) == 4;
    assert UpperRunEnd(s, 3) == 4;
    assert UpperRunEnd(s, 2) == 4;
    assert UpperRunEnd(s, 1) == 4;
    assert UpperRunEnd(s, 0) == 4;
    assert s[0..3] == "XML";
  }

  lemma AcronymSecondCapital()
    ensures CamelStep("XMLHttpRequest", Scan(7, ["XML"], "Http")) == Scan(8, ["XML", "Http"], "R")
  {
    var s := "XMLHttpRequest";
    assert UpperRunEnd(s, 8) == 8;
    assert UpperRunEnd(s, 7) == 8;
  }

  lemma AcronymHttp()
    ensures CamelFrom("XMLHttpRequest", Scan(4, ["XML"], "H"))
            == CamelFrom("XMLHttpRequest", Scan(7, ["XML"], "Http"))
  {
    var s := "XMLHttpRequest";
    assert s[4] == 't' && s[5] == 't' && s[6] == 'p';
    CamelPlainRun(s, 4, 7, ["XML"], "H");
    assert "H" + s[4..7] == "Http";
  }

  lemma AcronymRequest()
    ensures CamelFrom("XMLHttpRequest", Scan(8, ["XML", "Http"], "R")) == ["XML", "Http", "Request"]
  {
    var s := "XMLHttpRequest";
    assert s[8..14] == "equest";
    CamelPlainRun(s, 8, 14, ["XML", "Http"], "R");
    assert "R" + s[8..14] == "Request";
  }

  lemma CamelExampleAcronym()
    ensures CamelWords("XMLHttpRequest") == ["XML", "Http", "Request"]
  {
    AcronymFirstStep();
    AcronymHttp();
    AcronymSecondCapital();
    AcronymRequest();
  }

  // ---------------------------------------------------------------- similarity

  /** `get_keyword_weight`: keywords that look like file names weigh 2, the
      others 1. */
  function KeywordWeight(keyword: string): (w: real)
    ensures w >= 1.0
    ensures w == 2.0 <==> '.' in keyword || '/' in keyword
  {
    if '.' in keyword || '/' in keyword then 2.0 else 1.0
  }

  /** The number of keywords that occur in `text`. */
  function MatchCount(keywords: seq<string>, text: string): (n: nat)
    ensures n <= |keywords|
    decreases |keywords|
  {
    if keywords == [] then 0
    else
      MatchCount(keywords[..|keywords| - 1], text)
      + (if Contains(text, keywords[|keywords| - 1]) then 1 else 0)
  }

  /** The score of a message: the fraction of the keywords that occur in it
      once lower-cased, and 0 without keywords. */
  function Similarity(keywords: seq<string>, message: string): real {
    if keywords == [] then 0.0
    else MatchCount(keywords, ToLower(message)) as real / |keywords| as real
  }

  lemma {:induction false} MatchCountExtremes(keywords: seq<string>, text: string)
    ensures MatchCount(keywords, text) == |keywords|
            <==> forall k :: 0 <= k < |keywords| ==> Contains(text, keywords[k])
    ensures MatchCount(keywords, text) == 0
            <==> forall k :: 0 <= k < |keywords| ==> !Contains(text, keywords[k])
    decreases |keywords|
  {
    if keywords != [] {
      var init := keywords[..|keywords| - 1];
      MatchCountExtremes(init, text);
      assert forall k :: 0 <= k < |init| ==> init[k] == keywords[k];
    }
  }

  /** The score is a fraction in [0, 1]; it is 1 exactly when every keyword
      occurs and 0 exactly when there are no keywords or none occurs. */
  lemma SimilarityRange(keywords: seq<string>, message: string)
    ensures 0.0 <= Similarity(keywords, message) <= 1.0
    ensures keywords != [] ==>
              (Similarity(keywords, message) == 1.0
               <==> forall k :: 0 <= k < |keywords| ==> Contains(ToLower(message), keywords[k]))
    ensures Similarity(keywords, message) == 0.0
            <==> forall k :: 0 <= k < |keywords| ==> !Contains(ToLower(message), keywords[k])
  {
    if keywords != [] {
      var text := ToLower(message);
      MatchCountExtremes(keywords, text);
      Fraction(MatchCount(keywords, text), |keywords|);
    }
  }

  /** A count out of a positive total is a fraction in [0, 1], which is 1
      exactly for the total and 0 exactly for none. */
  lemma Fraction(m: nat, n: nat)
    requires 0 < n && m <= n
    ensures 0.0 <= m as real / n as real <= 1.0
    ensures m as real / n as real == 1.0 <==> m == n
    ensures m as real / n as real == 0.0 <==> m == 0
  {
    var q := m as real / n as real;
    assert q * n as real == m as real;
  }

  /** The unit test's message matches both keywords. */
  lemma SimilarityExample()
    ensures Similarity(["test", "function"], "add test function") == 1.0
  {
    var msg := "add test function";
    ToLowerIdentity(msg);
    assert OccursAt(msg, "test", 4);
    assert OccursAt(msg, "function", 9);
    SimilarityRange(["test", "function"], msg);
  }

  /** `calculate_message_similarity`: the counting loop. The total weight is at
      least the number of keywords, so its zero test never fires. */
  method CalculateMessageSimilarity(keywords: seq<string>, message: string) returns (r: real)
    ensures r == Similarity(keywords, message)
    ensures 0.0 <= r <= 1.0
  {
    if |keywords| == 0 {
      return 0.0;
    }
    var lower := ToLower(message);
    var matches := 0;
    var totalWeight := 0.0;
    for i := 0 to |keywords|
      invariant matches == MatchCount(keywords[..i], lower)
      invariant totalWeight >= i as real
    {
      var weight := KeywordWeight(keywords[i]);
      totalWeight := totalWeight + weight;
      if Contains(lower, keywords[i]) {
        matches := matches + 1;
      }
      assert keywords[..i + 1][..i] == keywords[..i];
    }
    assert keywords[..|keywords|] == keywords;
    if totalWeight == 0.0 {
      r := 0.0;
    } else {
      r := matches as real / |keywords| as real;
    }
    SimilarityRange(keywords, message);
  }

  /** `b.1.partial_cmp(&a.1)`: higher scores first. */
  function ScoreGe(a: (nat, real), b: (nat, real)): bool {
    a.1 >= b.1
  }

  /** The pairs `(index, score)` in message order. */
  function Scored(keywords: seq<string>, messages: seq<string>): (r: seq<(nat, real)>)
    ensures |r| == |messages|
    ensures forall i :: 0 <= i < |r| ==> r[i] == (i, Similarity(keywords, messages[i]))
  {
    seq(|messages|, i requires 0 <= i < |messages| => (i as nat, Similarity(keywords, messages[i])))
  }

  /** `calculate_similarities`: score every message, then sort by score,
      highest first. */
  method CalculateSimilarities(keywords: seq<string>, messages: seq<string>) returns (r: seq<(nat, real)>)
    ensures r == SortDesc(Scored(keywords, messages), ScoreGe)
    ensures multiset(r) == multiset(Scored(keywords, messages))
    ensures SortedDesc(r, ScoreGe)
  {
    var similarities: seq<(nat, real)> := [];
    for idx := 0 to |messages|
      invariant |similarities| == idx
      invariant forall k :: 0 <= k < idx ==> similarities[k] == (k, Similarity(keywords, messages[k]))
    {
      var similarity := CalculateMessageSimilarity(keywords, messages[idx]);
      similarities := similarities + [(idx, similarity)];
    }
    assert similarities == Scored(keywords, messages);
    assert TotalPreorder(ScoreGe);
    SortDescSorted(similarities, ScoreGe);
    r := SortDesc(similarities, ScoreGe);
  }

  /** The result holds exactly one pair per message, pairing each index with
      that message's score. */
  lemma SimilaritiesArePermutation(keywords: seq<string>, messages: seq<string>, r: seq<(nat, real)>)
    requires multiset(r) == multiset(Scored(keywords, messages))
    ensures |r| == |messages|
    ensures forall k :: 0 <= k < |r| ==>
              r[k].0 < |messages| && r[k].1 == Similarity(keywords, messages[r[k].0])
    ensures forall i :: 0 <= i < |messages| ==> (i, Similarity(keywords, messages[i])) in r
    ensures forall k1, k2 :: 0 <= k1 < k2 < |r| ==> r[k1].0 != r[k2].0
  {
    var sc := Scored(keywords, messages);
    assert |r| == |multiset(r)| == |multiset(sc)| == |sc|;
    forall k | 0 <= k < |r|
      ensures r[k].0 < |messages| && r[k].1 == Similarity(keywords, messages[r[k].0])
    {
      assert r[k] in multiset(sc);
    }
    forall i | 0 <= i < |messages| ensures (i, Similarity(keywords, messages[i])) in r {
      assert sc[i] in multiset(r);
    }
    assert Distinct(sc);
    DistinctPermutation(sc, r);
    forall k1, k2 | 0 <= k1 < k2 < |r| ensures r[k1].0 != r[k2].0 {
      assert r[k1] in multiset(sc) && r[k2] in multiset(sc);
    }
  }

  // ---------------------------------------------------------------- keyword extraction

  /** The keywords seen so far, in first-seen order, and their weighted counts. */
  datatype Tally = Tally(keywords: seq<string>, counts: map<string, nat>)

  function CountOf(counts: map<string, nat>, w: string): nat {
    if w in counts then counts[w] else 0
  }

  /** One `*counts.entry(word).or_insert(0) += weight` followed by the
      first-seen push onto the keyword list. */
  function Record(t: Tally, word: string, weight: nat): Tally {
    Tally(if word in t.keywords then t.keywords else t.keywords + [word],
          t.counts[word := CountOf(t.counts, word) + weight])
  }

  /** Recording every word of `words`, in order. */
  function Accumulate(t: Tally, words: seq<string>, weight: nat): Tally
    decreases |words|
  {
    if words == [] then t
    else Record(Accumulate(t, words[..|words| - 1], weight), words[|words| - 1], weight)
  }

  /** Each word's count grows by the weight times its multiplicity. */
  lemma {:induction false} AccumulateCounts(t: Tally, words: seq<string>, weight: nat, w: string)
    ensures CountOf(Accumulate(t, words, weight).counts, w) == CountOf(t.counts, w) + weight * multiset(words)[w]
    decreases |words|
  {
    if words != [] {
      var init, last := words[..|words| - 1], words[|words| - 1];
      AccumulateCounts(t, init, weight, w);
      var a := Accumulate(t, init, weight);
      assert Accumulate(t, words, weight) == Record(a, last, weight);
      RecordCount(a, last, weight, w);
      MultiplicityOfLast(words, w);
      var m := multiset(init)[w];
      MulSucc(weight, m);
    }
  }

  lemma MulSucc(a: nat, b: nat)
    ensures a * (b + 1) == a * b + a
  {
  }

  /** Recording a word adds the weight to its count and to no other. */
  lemma RecordCount(t: Tally, word: string, weight: nat, w: string)
    ensures CountOf(Record(t, word, weight).counts, w) == CountOf(t.counts, w) + (if w == word then weight else 0)
  {
  }

  /** How often `w` occurs, counted as the occurrences before the last
      element plus the last one. */
  lemma MultiplicityOfLast(words: seq<string>, w: string)
    requires words != []
    ensures multiset(words)[w] == multiset(words[..|words| - 1])[w] + (if w == words[|words| - 1] then 1 else 0)
  {
    assert words == words[..|words| - 1] + [words[|words| - 1]];
  }

  /** The keys gain exactly the new words. */
  lemma {:induction false} AccumulateKeys(t: Tally, words: seq<string>, weight: nat)
    ensures Accumulate(t, words, weight).counts.Keys == t.counts.Keys + set w | w in words
    decreases |words|
  {
    if words != [] {
      var init, last := words[..|words| - 1], words[|words| - 1];
      AccumulateKeys(t, init, weight);
      assert words == init + [last];
      assert (set w | w in words) == (set w | w in init) + {last};
    }
  }

  /** The keyword list gains exactly the new words and stays free of duplicates. */
  lemma {:induction false} AccumulateKeywords(t: Tally, words: seq<string>, weight: nat)
    ensures forall w :: w in Accumulate(t, words, weight).keywords <==> w in t.keywords || w in words
    ensures Distinct(t.keywords) ==> Distinct(Accumulate(t, words, weight).keywords)
    decreases |words|
  {
    if words != [] {
      var init, last := words[..|words| - 1], words[|words| - 1];
      AccumulateKeywords(t, init, weight);
      assert words == init + [last];
      var a := Accumulate(t, init, weight);
      if Distinct(t.keywords) && last !in a.keywords {
        var ks := a.keywords + [last];
        forall i, j | 0 <= i < j < |ks| ensures ks[i] != ks[j] {
          if j == |ks| - 1 {
            assert ks[i] in a.keywords;
          }
        }
      }
    }
  }

  /** Keeps the words that satisfy `p`, in order. */
  function Filter(ws: seq<string>, p: string -> bool): (r: seq<string>)
    ensures |r| <= |ws|
    ensures forall k :: 0 <= k < |r| ==> p(r[k]) && r[k] in ws
    decreases |ws|
  {
    if ws == [] then []
    else
      var init := Filter(ws[..|ws| - 1], p);
      assert forall w :: w in ws[..|ws| - 1] ==> w in ws;
      if p(ws[|ws| - 1]) then init + [ws[|ws| - 1]] else init
  }

  /** The first `n` words (all of them when there are fewer). */
  function Take(ws: seq<string>, n: nat): (r: seq<string>)
    ensures |r| == if |ws| < n then |ws| else n
    ensures forall k :: 0 <= k < |r| ==> r[k] == ws[k]
  {
    if |ws| < n then ws else ws[..n]
  }

  /** Every word lower-cased. */
  function Lowered(ws: seq<string>): (r: seq<string>)
    ensures |r| == |ws|
    ensures forall k :: 0 <= k < |r| ==> r[k] == ToLower(ws[k])
  {
    seq(|ws|, k requires 0 <= k < |ws| => ToLower(ws[k]))
  }

  /** `flat_map(split_camel_case)`. */
  function FlatCamel(parts: seq<string>): seq<string>
    decreases |parts|
  {
    if parts == [] then [] else FlatCamel(parts[..|parts| - 1]) + CamelWords(parts[|parts| - 1])
  }

  /** `flat_map(split_whitespace)`. */
  function FlatWords(lines: seq<string>): seq<string>
    decreases |lines|
  {
    if lines == [] then [] else FlatWords(lines[..|lines| - 1]) + SplitWhitespace(lines[|lines| - 1])
  }

  /** Each word of `FlatWords(lines)` comes from one of the lines. */
  lemma {:induction false} FlatWordsFrom(lines: seq<string>, w: string) returns (l: string)
    requires w in FlatWords(lines)
    ensures l in lines && w in SplitWhitespace(l)
    decreases |lines|
  {
    var init := lines[..|lines| - 1];
    if w in FlatWords(init) {
      l := FlatWordsFrom(init, w);
      assert l in lines;
    } else {
      l := lines[|lines| - 1];
    }
  }

  /** The file name of a path with everything from its first '.' removed. */
  function Stem(path: string): string {
    var segments := Split(path, '/');
    Split(segments[|segments| - 1], '.')[0]
  }

  predicate LongerThanTwo(w: string) { |w| > 2 }

  /** The content and diff filter: more than three characters, all of them
      alphanumeric or '_'. */
  predicate IsCodeWord(w: string) {
    |w| > 3 && forall i :: 0 <= i < |w| ==> IsAlphanumeric(w[i]) || w[i] == '_'
  }

  predicate IsChangeLine(line: string) {
    StartsWith(line, "+") || StartsWith(line, "-")
  }

  /** The words `extract_from_path` records, with weight 2. */
  function PathWords(path: string): (r: seq<string>)
    ensures forall k :: 0 <= k < |r| ==> |r[k]| > 2 && IsLowercase(r[k])
  {
    var r := Filter(Lowered(FlatCamel(Split(Stem(path), '_'))), LongerThanTwo);
    assert forall k :: 0 <= k < |r| ==> IsLowercase(r[k]) by {
      forall k | 0 <= k < |r| ensures IsLowercase(r[k]) {
        var l := Lowered(FlatCamel(Split(Stem(path), '_')));
        var j :| 0 <= j < |l| && l[j] == r[k];
        ToLowerIdentity(FlatCamel(Split(Stem(path), '_'))[j]);
      }
    }
    r
  }

  /** The words `extract_from_content` records, with weight 1: code words among
      the first 100 whitespace-separated tokens, lower-cased. */
  function ContentWords(content: string): seq<string> {
    Lowered(Filter(Take(SplitWhitespace(content), 100), IsCodeWord))
  }

  /** The words `extract_from_diff` records, with weight 1: the first 50 code
      words, lower-cased, of the lines that start with '+' or '-'. */
  function DiffWords(diff: string): seq<string> {
    Take(Lowered(Filter(FlatWords(ChangeLines(diff)), IsCodeWord)), 50)
  }

  /** Lower-casing keeps a code word a code word. */
  lemma LowerCodeWord(w: string)
    requires IsCodeWord(w)
    ensures IsCodeWord(ToLower(w)) && IsLowercase(ToLower(w))
  {
    ToLowerIdentity(w);
  }

  /** `w` is a lower-cased code word made from one of the first 100 tokens of
      the content. */
  ghost predicate FromContent(content: string, w: string) {
    IsCodeWord(w) && IsLowercase(w)
    && exists j :: 0 <= j < |SplitWhitespace(content)| && j < 100 && w == ToLower(SplitWhitespace(content)[j])
  }

  /** `w` is a lower-cased code word made from a token of a line of the diff
      that starts with '+' or '-'. */
  ghost predicate FromDiff(diff: string, w: string) {
    IsCodeWord(w) && IsLowercase(w)
    && exists line, v :: line in Lines(diff) && IsChangeLine(line) && v in SplitWhitespace(line) && w == ToLower(v)
  }

  lemma ContentWordAt(content: string, k: nat)
    requires k < |ContentWords(content)|
    ensures FromContent(content, ContentWords(content)[k])
  {
    var toks := SplitWhitespace(content);
    var taken := Take(toks, 100);
    var f := Filter(taken, IsCodeWord);
    LowerCodeWord(f[k]);
    var j :| 0 <= j < |taken| && taken[j] == f[k];
    assert ContentWords(content)[k] == ToLower(toks[j]);
  }

  /** At most 100 content words, each a lower-cased code word taken from the
      first 100 tokens of the content. */
  lemma ContentWordsShape(content: string)
    ensures |ContentWords(content)| <= 100
    ensures forall k :: 0 <= k < |ContentWords(content)| ==> FromContent(content, ContentWords(content)[k])
  {
    var taken := Take(SplitWhitespace(content), 100);
    assert |ContentWords(content)| == |Filter(taken, IsCodeWord)| <= |taken| <= 100;
    forall k | 0 <= k < |ContentWords(content)| ensures FromContent(content, ContentWords(content)[k]) {
      ContentWordAt(content, k);
    }
  }

  /** The lines of a diff that start with '+' or '-'. */
  function ChangeLines(diff: string): (r: seq<string>)
    ensures forall line :: line in r ==> line in Lines(diff) && IsChangeLine(line)
  {
    var r := Filter(Lines(diff), IsChangeLine);
    assert forall line :: line in r ==> exists i :: 0 <= i < |r| && r[i] == line;
    r
  }

  lemma DiffWordAt(diff: string, k: nat)
    requires k < |DiffWords(diff)|
    ensures FromDiff(diff, DiffWords(diff)[k])
  {
    var changed := ChangeLines(diff);
    var f := Filter(FlatWords(changed), IsCodeWord);
    assert DiffWords(diff) == Take(Lowered(f), 50);
    var v := f[k];
    LowerCodeWord(v);
    var line := FlatWordsFrom(changed, v);
    assert line in Lines(diff) && IsChangeLine(line) && v in SplitWhitespace(line);
  }

  /** At most 50 diff words, each a lower-cased code word taken from a line of
      the diff that starts with '+' or '-'. */
  lemma DiffWordsShape(diff: string)
    ensures |DiffWords(diff)| <= 50
    ensures forall k :: 0 <= k < |DiffWords(diff)| ==> FromDiff(diff, DiffWords(diff)[k])
  {
    forall k | 0 <= k < |DiffWords(diff)| ensures FromDiff(diff, DiffWords(diff)[k]) {
      DiffWordAt(diff, k);
    }
  }

  /** `extract_from_path`. */
  method ExtractFromPath(path: string, t: Tally) returns (r: Tally)
    ensures r == Accumulate(t, PathWords(path), 2)
  {
    r := RecordPathWords(PathWords(path), t);
  }

  /** The loop of `extract_from_path` over its words: weight 2, empty words
      skipped (none arrives here). */
  method RecordPathWords(words: seq<string>, t: Tally) returns (r: Tally)
    requires forall k :: 0 <= k < |words| ==> |words[k]| > 2
    ensures r == Accumulate(t, words, 2)
  {
    r := t;
    for k := 0 to |words|
      invariant r == Accumulate(t, words[..k], 2)
    {
      var word := words[k];
      assert words[..k + 1] == words[..k] + [word];
      if word != "" {
        var counts := r.counts[word := CountOf(r.counts, word) + 2];
        var keywords := r.keywords;
        if word !in keywords {
          keywords := keywords + [word];
        }
        r := Tally(keywords, counts);
      }
      assert words[..k + 1][..k] == words[..k];
    }
    assert words[..|words|] == words;
  }

  /** `extract_from_content` and `extract_from_diff`: weight 1 for every word. */
  method RecordAll(words: seq<string>, t: Tally) returns (r: Tally)
    ensures r == Accumulate(t, words, 1)
  {
    r := t;
    for k := 0 to |words|
      invariant r == Accumulate(t, words[..k], 1)
    {
      var word := words[k];
      var counts := r.counts[word := CountOf(r.counts, word) + 1];
      var keywords := r.keywords;
      if word !in keywords {
        keywords := keywords + [word];
      }
      r := Tally(keywords, counts);
      assert words[..k + 1][..k] == words[..k];
    }
    assert words[..|words|] == words;
  }

  /** What one staged file adds: its path words, its content words when the
      content is loaded, then its diff words. */
  function FileTally(t: Tally, f: StagedFile): Tally {
    var t1 := Accumulate(t, PathWords(f.path), 2);
    var t2 := if f.content.Some? then Accumulate(t1, ContentWords(f.content.value), 1) else t1;
    Accumulate(t2, DiffWords(f.diff), 1)
  }

  /** The body of the loop over staged files. */
  method ExtractFromFile(file: StagedFile, t: Tally) returns (r: Tally)
    ensures r == FileTally(t, file)
  {
    r := ExtractFromPath(file.path, t);
    if file.content.Some? {
      r := RecordAll(ContentWords(file.content.value), r);
    }
    r := RecordAll(DiffWords(file.diff), r);
  }

  /** The tally over all staged files, in order, from an empty one. */
  function FilesTally(files: seq<StagedFile>): Tally
    decreases |files|
  {
    if files == [] then Tally([], map[])
    else FileTally(FilesTally(files[..|files| - 1]), files[|files| - 1])
  }

  /** Recording keeps a tally consistent: its list holds each key of its map
      exactly once. */
  lemma RecordsConsistent(t: Tally, words: seq<string>, weight: nat)
    requires Distinct(t.keywords) && forall w :: w in t.keywords <==> w in t.counts
    ensures var a := Accumulate(t, words, weight);
            Distinct(a.keywords) && forall w :: w in a.keywords <==> w in a.counts
  {
    AccumulateKeys(t, words, weight);
    AccumulateKeywords(t, words, weight);
  }

  /** The keyword list of the tally over the staged files lists every counted
      word exactly once. */
  lemma {:induction false} FilesTallyConsistent(files: seq<StagedFile>)
    ensures Distinct(FilesTally(files).keywords)
    ensures forall w :: w in FilesTally(files).keywords <==> w in FilesTally(files).counts
    decreases |files|
  {
    if files != [] {
      var init, f := files[..|files| - 1], files[|files| - 1];
      FilesTallyConsistent(init);
      var t0 := FilesTally(init);
      var t1 := Accumulate(t0, PathWords(f.path), 2);
      RecordsConsistent(t0, PathWords(f.path), 2);
      var t2 := if f.content.Some? then Accumulate(t1, ContentWords(f.content.value), 1) else t1;
      if f.content.Some? {
        RecordsConsistent(t1, ContentWords(f.content.value), 1);
      }
      RecordsConsistent(t2, DiffWords(f.diff), 1);
    }
  }

  function Min(a: nat, b: nat): nat {
    if a < b then a else b
  }

  /** The loop of `extract_keywords` over the staged files. */
  method TallyFiles(files: seq<StagedFile>) returns (t: Tally)
    ensures t == FilesTally(files)
  {
    t := Tally([], map[]);
    for i := 0 to |files|
      invariant t == FilesTally(files[..i])
    {
      assert files[..i + 1][..i] == files[..i];
      assert FilesTally(files[..i + 1]) == FileTally(FilesTally(files[..i]), files[i]);
      t := ExtractFromFile(files[i], t);
    }
    assert files[..|files|] == files;
  }

  /** `keyword_counts.into_iter().collect()`: the keys, each once, in an order
      the map leaves open. */
  method CollectKeys(counts: map<string, nat>) returns (entries: seq<string>)
    ensures Distinct(entries)
    ensures forall w :: w in entries <==> w in counts
    ensures |entries| == |counts|
  {
    entries := [];
    var remaining := counts.Keys;
    while remaining != {}
      invariant remaining <= counts.Keys
      invariant Distinct(entries)
      invariant forall w :: w in entries <==> w in counts && w !in remaining
      invariant |entries| + |remaining| == |counts.Keys|
      decreases |remaining|
    {
      var key :| key in remaining;
      entries := entries + [key];
      remaining := remaining - {key};
    }
  }

  /** Sorting the keys by count keeps them distinct, keeps the same keys and
      orders them from the highest count down. */
  lemma TopRanked(entries: seq<string>, ge: (string, string) -> bool, counts: map<string, nat>)
    requires forall a, b :: ge(a, b) == (CountOf(counts, a) >= CountOf(counts, b))
    requires Distinct(entries)
    requires forall w :: w in entries <==> w in counts
    ensures Distinct(SortDesc(entries, ge))
    ensures forall w :: w in SortDesc(entries, ge) <==> w in counts
    ensures SortedDesc(SortDesc(entries, ge), ge)
  {
    var sorted := SortDesc(entries, ge);
    assert TotalPreorder(ge);
    SortDescSorted(entries, ge);
    DistinctPermutation(entries, sorted);
    forall w ensures w in sorted <==> w in counts {
      assert w in sorted <==> w in multiset(sorted);
      assert w in entries <==> w in multiset(entries);
    }
  }

  /** A prefix of the keys sorted by count holds the highest counts. */
  lemma TopPrefix(sorted: seq<string>, ge: (string, string) -> bool, counts: map<string, nat>, r: seq<string>)
    requires forall a, b :: ge(a, b) == (CountOf(counts, a) >= CountOf(counts, b))
    requires SortedDesc(sorted, ge)
    requires r <= sorted
    ensures forall i, j :: 0 <= i < j < |r| ==> CountOf(counts, r[i]) >= CountOf(counts, r[j])
    ensures forall w, i :: w in sorted && w !in r && 0 <= i < |r| ==> CountOf(counts, w) <= CountOf(counts, r[i])
  {
    forall i, j | 0 <= i < j < |r| ensures CountOf(counts, r[i]) >= CountOf(counts, r[j]) {
      assert ge(sorted[i], sorted[j]);
    }
    forall w, i | w in sorted && w !in r && 0 <= i < |r|
      ensures CountOf(counts, w) <= CountOf(counts, r[i])
    {
      var j :| 0 <= j < |sorted| && sorted[j] == w;
      assert j >= |r|;
      assert ge(sorted[i], sorted[j]);
    }
  }

  /** `extract_keywords`: the (at most 20) most frequent keywords, highest count
      first, none repeated, and no omitted keyword counted higher than one that
      was kept. The map's iteration order is left open: any order of its keys
      gives these guarantees. */
  method ExtractKeywords(files: seq<StagedFile>) returns (r: seq<string>)
    ensures var counts := FilesTally(files).counts;
            && |r| == Min(20, |counts|)
            && Distinct(r)
            && (forall k :: 0 <= k < |r| ==> r[k] in counts)
            && (forall i, j :: 0 <= i < j < |r| ==> CountOf(counts, r[i]) >= CountOf(counts, r[j]))
            && (forall w, i :: w in counts && w !in r && 0 <= i < |r| ==> CountOf(counts, w) <= CountOf(counts, r[i]))
  {
    var t := TallyFiles(files);
    var counts := t.counts;
    var entries := CollectKeys(counts);
    var ge := (a: string, b: string) => CountOf(counts, a) >= CountOf(counts, b);
    var sorted := SortDesc(entries, ge);
    TopRanked(entries, ge, counts);
    r := sorted[..Min(20, |sorted|)];
    TopPrefix(sorted, ge, counts, r);
  }
}
