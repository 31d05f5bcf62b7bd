/** The pieces of Rust's `str` API that the modelled code relies on, written out
    over `seq<char>`: `contains`, `starts_with`, `split(char)`, `join`, `lines`,
    `split_whitespace`, `trim` and ASCII case handling.

    Character classes (`is_uppercase`, `is_lowercase`, `is_alphanumeric`,
    `is_whitespace`, `to_lowercase`) are modelled on ASCII only. */
module Text {

  // ---------------------------------------------------------------- substrings

  /** `p` occurs in `s` starting at offset `i`. */
  predicate OccursAt(s: string, p: string, i: nat) {
    i + |p| <= |s| && s[i..i + |p|] == p
  }

  /** `s.contains(p)`: `p` occurs in `s` at some offset. */
  predicate Contains(s: string, p: string) {
    exists i: nat | i <= |s| :: OccursAt(s, p, i)
  }

  /** A substring of `s` is still a substring once text is added on both sides. */
  lemma ContainsInContext(s: string, p: string, before: string, after: string)
    requires Contains(s, p)
    ensures Contains(before + s + after, p)
  {
    var i: nat :| i <= |s| && OccursAt(s, p, i);
    var t := before + s + after;
    var j := |before| + i;
    assert t[j..j + |p|] == s[i..i + |p|];
    assert OccursAt(t, p, j);
  }

  /** A pattern whose first character does not occur in `s` does not occur
      in `s`. */
  lemma MissingFirstChar(s: string, p: string)
    requires |p| > 0 && p[0] !in s
    ensures !Contains(s, p)
  {
    forall i: nat | i <= |s| ensures !OccursAt(s, p, i) {
      if i + |p| <= |s| {
        assert s[i..i + |p|][0] == s[i];
      }
    }
  }

  predicate StartsWith(s: string, p: string) {
    |p| <= |s| && s[..|p|] == p
  }

  predicate EndsWith(s: string, p: string) {
    |p| <= |s| && s[|s| - |p|..] == p
  }

  // ---------------------------------------------------------------- characters

  predicate IsUpper(c: char) { 'A' <= c <= 'Z' }
  predicate IsLower(c: char) { 'a' <= c <= 'z' }
  predicate IsDigit(c: char) { '0' <= c <= '9' }
  predicate IsAlphanumeric(c: char) { IsUpper(c) || IsLower(c) || IsDigit(c) }

  /** ASCII part of `char::is_whitespace`. */
  predicate IsWhitespace(c: char) {
    c == ' ' || c == '\t' || c == '\n' || c == '\r' || c == '\U{B}' || c == '\U{C}'
  }

  function ToLowerChar(c: char): (r: char)
    ensures !IsUpper(r)
    ensures IsAlphanumeric(r) <==> IsAlphanumeric(c)
    ensures (r == '_') <==> (c == '_')
  {
    if IsUpper(c) then (c as int - 'A' as int + 'a' as int) as char else c
  }

  /** `s.to_lowercase()`: same length, no upper-case letter left. */
  function ToLower(s: string): (r: string)
    ensures |r| == |s|
    ensures forall i :: 0 <= i < |r| ==> r[i] == ToLowerChar(s[i])
  {
    seq(|s|, i requires 0 <= i < |s| => ToLowerChar(s[i]))
  }

  predicate IsLowercase(s: string) {
    forall i :: 0 <= i < |s| ==> !IsUpper(s[i])
  }

  /** Lower-casing leaves a string without capitals unchanged and always yields
      such a string. */
  lemma ToLowerIdentity(s: string)
    ensures IsLowercase(ToLower(s))
    ensures IsLowercase(s) ==> ToLower(s) == s
  {
  }

  // ---------------------------------------------------------------- split / join

  /** `s.split(sep)`: the pieces between separators, empty ones included; there is
      always at least one piece. */
  function Split(s: string, sep: char): (r: seq<string>)
    ensures |r| >= 1
    ensures forall k :: 0 <= k < |r| ==> sep !in r[k]
    decreases |s|
  {
    if s == [] then [""]
    else if s[0] == sep then [""] + Split(s[1..], sep)
    else
      var rest := Split(s[1..], sep);
      [[s[0]] + rest[0]] + rest[1..]
  }

  /** `parts.join(sep)`. */
  function Join(parts: seq<string>, sep: string): string
    decreases |parts|
  {
    if parts == [] then ""
    else if |parts| == 1 then parts[0]
    else parts[0] + sep + Join(parts[1..], sep)
  }

  /** Concatenation of all the strings of a sequence. */
  function Concat(words: seq<string>): string
    decreases |words|
  {
    if words == [] then "" else Concat(words[..|words| - 1]) + words[|words| - 1]
  }

  lemma ConcatAppend(words: seq<string>, w: string)
    ensures Concat(words + [w]) == Concat(words) + w
  {
    assert (words + [w])[..|words|] == words;
  }

  /** Splitting at a character and joining with that character gives the input back. */
  lemma {:induction false} JoinSplit(s: string, sep: char)
    ensures Join(Split(s, sep), [sep]) == s
    decreases |s|
  {
    if s == [] {
    } else if s[0] == sep {
      JoinSplit(s[1..], sep);
      var rest := Split(s[1..], sep);
      assert Split(s, sep) == [""] + rest;
      assert ([""] + rest)[1..] == rest;
    } else {
      JoinSplit(s[1..], sep);
      var rest := Split(s[1..], sep);
      var r := [[s[0]] + rest[0]] + rest[1..];
      assert Split(s, sep) == r;
      if |rest| == 1 {
        assert r == [[s[0]] + rest[0]];
      } else {
        assert r[1..] == rest[1..];
        assert Join(rest, [sep]) == rest[0] + [sep] + Join(rest[1..], [sep]);
      }
    }
  }

  /** A string without the separator is a single piece. */
  lemma {:induction false} SplitWithout(s: string, sep: char)
    requires sep !in s
    ensures Split(s, sep) == [s]
    decreases |s|
  {
    if s != [] {
      SplitWithout(s[1..], sep);
      assert [s[0]] + s[1..] == s;
    }
  }

  /** The text before the first separator is the first piece. */
  lemma {:induction false} SplitAtFirst(a: string, sep: char, b: string)
    requires sep !in a
    ensures Split(a + [sep] + b, sep) == [a] + Split(b, sep)
    decreases |a|
  {
    var s := a + [sep] + b;
    if a == [] {
      assert s[1..] == b;
    } else {
      var a' := a[1..];
      assert s[1..] == a' + [sep] + b;
      SplitAtFirst(a', sep, b);
      assert [a[0]] + a' == a;
    }
  }

  // ---------------------------------------------------------------- lines

  function StripCR(line: string): string {
    if |line| > 0 && line[|line| - 1] == '\r' then line[..|line| - 1] else line
  }

  /** `s.lines()`: split at '\n', drop a '\r' that ends a line before a '\n', and
      drop the (empty) piece after a final line ending. "" has no lines. */
  function Lines(s: string): seq<string> {
    var parts := Split(s, '\n');
    var n := |parts|;
    var full := seq(n - 1, i requires 0 <= i < n - 1 => StripCR(parts[i]));
    if parts[n - 1] == "" then full else full + [parts[n - 1]]
  }

  // ---------------------------------------------------------------- whitespace

  /** Length of the leading run of non-whitespace characters. */
  function WordLength(s: string): (k: nat)
    ensures k <= |s|
    ensures forall i :: 0 <= i < k ==> !IsWhitespace(s[i])
    ensures k < |s| ==> IsWhitespace(s[k])
    decreases |s|
  {
    if s == [] || IsWhitespace(s[0]) then 0 else 1 + WordLength(s[1..])
  }

  /** `s.split_whitespace()`: the maximal non-empty runs of non-whitespace. */
  function SplitWhitespace(s: string): (r: seq<string>)
    ensures forall k :: 0 <= k < |r| ==> r[k] != ""
    decreases |s|
  {
    if s == [] then []
    else if IsWhitespace(s[0]) then SplitWhitespace(s[1..])
    else
      var k := WordLength(s);
      [s[..k]] + SplitWhitespace(s[k..])
  }

  function TrimStart(s: string): (r: string)
    ensures r == [] || !IsWhitespace(r[0])
    decreases |s|
  {
    if s != [] && IsWhitespace(s[0]) then TrimStart(s[1..]) else s
  }

  function TrimEnd(s: string): (r: string)
    ensures |r| <= |s| && r == s[..|r|]
    ensures r == [] || !IsWhitespace(r[|r| - 1])
    decreases |s|
  {
    if s != [] && IsWhitespace(s[|s| - 1]) then TrimEnd(s[..|s| - 1]) else s
  }

  /** `s.trim()`. */
  function Trim(s: string): string {
    TrimEnd(TrimStart(s))
  }

  /** Trimming twice trims no more than trimming once. */
  lemma TrimIdempotent(s: string)
    ensures Trim(Trim(s)) == Trim(s)
  {
    var t := Trim(s);
    if t != [] {
      assert t[0] == TrimStart(s)[0];
      assert TrimStart(t) == t;
    }
  }

  /** Trimming the start leaves a suffix. */
  lemma {:induction false} TrimStartSuffix(s: string)
    ensures |TrimStart(s)| <= |s| && TrimStart(s) == s[|s| - |TrimStart(s)|..]
    decreases |s|
  {
    if s != [] && IsWhitespace(s[0]) {
      TrimStartSuffix(s[1..]);
    }
  }

  /** Trimming removes characters and never adds one. */
  lemma TrimKeepsAbsent(s: string, c: char)
    requires c !in s
    ensures c !in Trim(s)
  {
    TrimStartSuffix(s);
    var u := TrimStart(s);
    var t := TrimEnd(u);
    assert c !in u by {
      forall k | 0 <= k < |u| ensures u[k] != c {
        assert u[k] == s[|s| - |u| + k];
      }
    }
    forall k | 0 <= k < |t| ensures t[k] != c {
      assert t[k] == u[k];
    }
  }

  // ---------------------------------------------------------------- numbers

  function DigitChar(d: nat): char
    requires d < 10
  {
    ('0' as int + d) as char
  }

  /** Decimal rendering of a natural number, as `format!("{}", n)`. */
  function NatToString(n: nat): string
    decreases n
  {
    if n < 10 then [DigitChar(n)] else NatToString(n / 10) + [DigitChar(n % 10)]
  }
}
