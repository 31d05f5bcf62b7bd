/** Validation of the `.gitwire` declarative wiring file, from
    crates/wire/src/common/parse.rs.

    Reading the file and decoding its JSON are left to the caller: the model
    starts from the decoded list of entries. */
module WireParse {
  import opened Wrappers
  import opened Text

  /** One decoded `.gitwire` entry. Only `name`, `src` and `dst` take part in
      validation; the remaining fields (url, revision, filters, method) are the
      opaque `rest`. */
  datatype Parsed<X> = Parsed(name: Option<string>, src: string, dst: string, rest: X)

  datatype ParseError =
    | DotGitWireFileSoundness
    | DotGitWireFileNameNotUnique

  // ---------------------------------------------------------------- Path::components

  /** The components Rust's `Path::components` yields (Unix). `Prefix` only
      exists on Windows; the splitter below never produces it. */
  datatype Component =
    | Prefix(prefix: string)
    | RootDir
    | CurDir
    | ParentDir
    | Normal(name: string)

  /** The components of the '/'-separated segments: empty segments and "." are
      dropped, ".." is `ParentDir`, everything else is `Normal`. */
  function SegmentComponents(segments: seq<string>): seq<Component>
    decreases |segments|
  {
    if segments == [] then []
    else
      var seg := segments[0];
      var head := if seg == "" || seg == "." then []
                  else if seg == ".." then [ParentDir]
                  else [Normal(seg)];
      head + SegmentComponents(segments[1..])
  }

  /** `Path::new(path).components()`: a leading '/' gives `RootDir`; a path
      that is "." or starts with "./" gives a leading `CurDir`; then the segment
      components. */
  function Components(path: string): seq<Component> {
    var segments := Split(path, '/');
    var head := if StartsWith(path, "/") then [RootDir]
                else if segments[0] == "." then [CurDir]
                else [];
    head + SegmentComponents(segments)
  }

  /** Segments yield at most one component each: `ParentDir`, or a `Normal`
      name that is neither empty, "." nor "..". */
  lemma {:induction false} SegmentComponentsShape(segments: seq<string>)
    ensures |SegmentComponents(segments)| <= |segments|
    ensures forall k :: 0 <= k < |SegmentComponents(segments)| ==>
              SegmentComponents(segments)[k] == ParentDir
              || (SegmentComponents(segments)[k].Normal? && SegmentComponents(segments)[k].name !in {"", ".", ".."})
    decreases |segments|
  {
    if segments != [] {
      SegmentComponentsShape(segments[1..]);
    }
  }

  /** The shape of `components()` on Unix: never a `Prefix`; `RootDir` or
      `CurDir` only first, `RootDir` exactly for a path starting with '/'. */
  lemma ComponentsShape(path: string)
    ensures forall k :: 0 <= k < |Components(path)| ==> !Components(path)[k].Prefix?
    ensures forall k :: 0 < k < |Components(path)| ==> Components(path)[k] == ParentDir || Components(path)[k].Normal?
    ensures (|Components(path)| > 0 && Components(path)[0] == RootDir) <==> StartsWith(path, "/")
  {
    var segments := Split(path, '/');
    SegmentComponentsShape(segments);
    var head := if StartsWith(path, "/") then [RootDir]
                else if segments[0] == "." then [CurDir]
                else [];
    var sc := SegmentComponents(segments);
    assert Components(path) == head + sc;
    forall k | |head| <= k < |head| + |sc| ensures Components(path)[k] == sc[k - |head|] {
    }
  }

  /** The per-component test of `check_parsed_item_soundness`. */
  predicate ComponentOk(c: Component) {
    match c
    case Prefix(_) => true
    case RootDir => true
    case Normal(name) => name != ".git"
    case ParentDir => false
    case CurDir => false
  }

  predicate PathSound(path: string) {
    var cs := Components(path);
    forall k :: 0 <= k < |cs| ==> ComponentOk(cs[k])
  }

  /** `check_parsed_item_soundness`: both `src` and `dst` are sound. */
  predicate ItemSound<X>(p: Parsed<X>) {
    PathSound(p.src) && PathSound(p.dst)
  }

  /** A segment that makes a path unsound wherever it stands. */
  predicate ForbiddenSegment(seg: string) {
    seg == ".." || seg == ".git"
  }

  lemma {:induction false} SegmentComponentsOk(segments: seq<string>)
    ensures (forall k :: 0 <= k < |SegmentComponents(segments)| ==> ComponentOk(SegmentComponents(segments)[k]))
            <==> (forall k :: 0 <= k < |segments| ==> !ForbiddenSegment(segments[k]))
    decreases |segments|
  {
    if segments != [] {
      SegmentComponentsOk(segments[1..]);
      var seg := segments[0];
      var rest := SegmentComponents(segments[1..]);
      var head := if seg == "" || seg == "." then []
                  else if seg == ".." then [ParentDir]
                  else [Normal(seg)];
      assert SegmentComponents(segments) == head + rest;
      if forall k :: 0 <= k < |segments| ==> !ForbiddenSegment(segments[k]) {
        assert forall k :: 0 <= k < |segments| - 1 ==> !ForbiddenSegment(segments[1..][k]) by {
          forall k | 0 <= k < |segments| - 1 ensures !ForbiddenSegment(segments[1..][k]) {
            assert segments[1..][k] == segments[k + 1];
          }
        }
      } else {
        var k :| 0 <= k < |segments| && ForbiddenSegment(segments[k]);
        if k == 0 {
          assert !ComponentOk(SegmentComponents(segments)[0]);
        } else {
          assert segments[1..][k - 1] == segments[k];
          var m :| 0 <= m < |rest| && !ComponentOk(rest[m]);
          assert SegmentComponents(segments)[|head| + m] == rest[m];
        }
      }
    }
  }

  /** Soundness of a path in terms of its '/'-segments: no ".." and no ".git"
      segment anywhere, and no leading "." segment. So `x.git`, `.gitwire`,
      `a/./b`, absolute paths and "" are sound, while `./a`, `a/../b` and
      `a/.git/b` are not. */
  lemma PathSoundBySegments(path: string)
    ensures PathSound(path) <==>
              var segments := Split(path, '/');
              (forall k :: 0 <= k < |segments| ==> !ForbiddenSegment(segments[k]))
              && segments[0] != "."
  {
    var segments := Split(path, '/');
    SegmentComponentsOk(segments);
    var head := if StartsWith(path, "/") then [RootDir]
                else if segments[0] == "." then [CurDir]
                else [];
    var sc := SegmentComponents(segments);
    var cs := Components(path);
    assert cs == head + sc;
    if StartsWith(path, "/") {
      assert path == [] + ['/'] + path[1..];
      SplitAtFirst([], '/', path[1..]);
      assert segments[0] == "";
    }
    var scOk := forall k :: 0 <= k < |sc| ==> ComponentOk(sc[k]);
    if head == [CurDir] {
      assert !ComponentOk(cs[0]);
    } else {
      assert forall k :: 0 <= k < |head| ==> ComponentOk(head[k]);
      if scOk {
        forall k | 0 <= k < |cs| ensures ComponentOk(cs[k]) {
          if k >= |head| {
            assert cs[k] == sc[k - |head|];
          }
        }
      } else {
        var m :| 0 <= m < |sc| && !ComponentOk(sc[m]);
        assert cs[|head| + m] == sc[m];
      }
    }
  }

  lemma SplitTwo(a: string, b: string)
    requires '/' !in a && '/' !in b
    ensures Split(a + "/" + b, '/') == [a, b]
  {
    SplitAtFirst(a, '/', b);
    SplitWithout(b, '/');
  }

  /** Names that merely contain ".git" pass. */
  lemma GitLookalikeSound()
    ensures PathSound("x.git")
  {
    SplitWithout("x.git", '/');
    PathSoundBySegments("x.git");
  }

  lemma GitwireSound()
    ensures PathSound("a/.gitwire")
  {
    SplitTwo("a", ".gitwire");
    assert "a" + "/" + ".gitwire" == "a/.gitwire";
    PathSoundBySegments("a/.gitwire");
  }

  /** Absolute paths and the empty path are sound. */
  lemma RootedAndEmptySound()
    ensures PathSound("") && PathSound("/abs")
  {
    PathSoundBySegments("");
    SplitTwo("", "abs");
    assert "" + "/" + "abs" == "/abs";
    PathSoundBySegments("/abs");
  }

  /** An interior "." is normalised away. */
  lemma InteriorCurDirSound()
    ensures PathSound("a/./b")
  {
    SplitTwo(".", "b");
    SplitAtFirst("a", '/', "./b");
    assert "a" + "/" + "./b" == "a/./b";
    assert "." + "/" + "b" == "./b";
    PathSoundBySegments("a/./b");
  }

  /** A leading "./", a ".." and a ".git" component are rejected. */
  lemma ForbiddenExamplesUnsound()
    ensures !PathSound("./a") && !PathSound("a/..") && !PathSound("a/.git")
  {
    SplitTwo(".", "a");
    assert "." + "/" + "a" == "./a";
    PathSoundBySegments("./a");
    SplitTwo("a", "..");
    assert "a" + "/" + ".." == "a/..";
    PathSoundBySegments("a/..");
    assert Split("a/..", '/')[1] == "..";
    SplitTwo("a", ".git");
    assert "a" + "/" + ".git" == "a/.git";
    PathSoundBySegments("a/.git");
    assert Split("a/.git", '/')[1] == ".git";
  }

  // ---------------------------------------------------------------- the entry list

  predicate AllSound<X>(parsed: seq<Parsed<X>>) {
    forall i :: 0 <= i < |parsed| ==> ItemSound(parsed[i])
  }

  /** No two entries carry `Some` with the same name; unnamed entries never clash. */
  predicate NamesUnique<X>(parsed: seq<Parsed<X>>) {
    forall i, j :: 0 <= i < j < |parsed| && parsed[i].name.Some? && parsed[j].name.Some?
      ==> parsed[i].name.value != parsed[j].name.value
  }

  /** The validation loops of `parse_dotgitwire_file`: every entry is checked for
      soundness first, then names are inserted into a set in order. */
  method ValidateParsed<X>(parsed: seq<Parsed<X>>) returns (r: Result<seq<Parsed<X>>, ParseError>)
    ensures r.Err? && r.error == DotGitWireFileSoundness <==> !AllSound(parsed)
    ensures r.Err? && r.error == DotGitWireFileNameNotUnique <==> AllSound(parsed) && !NamesUnique(parsed)
    ensures r.Ok? <==> AllSound(parsed) && NamesUnique(parsed)
    ensures r.Ok? ==> r.value == parsed
  {
    for i := 0 to |parsed|
      invariant AllSound(parsed[..i])
    {
      if !ItemSound(parsed[i]) {
        return Err(DotGitWireFileSoundness);
      }
      assert parsed[..i + 1] == parsed[..i] + [parsed[i]];
    }
    assert parsed[..|parsed|] == parsed;

    var nameSet: set<string> := {};
    for i := 0 to |parsed|
      invariant nameSet == set k | 0 <= k < i && parsed[k].name.Some? :: parsed[k].name.value
      invariant NamesUnique(parsed[..i])
    {
      if parsed[i].name.Some? {
        var name := parsed[i].name.value;
        if name in nameSet {
          var k :| 0 <= k < i && parsed[k].name.Some? && parsed[k].name.value == name;
          assert !NamesUnique(parsed);
          return Err(DotGitWireFileNameNotUnique);
        }
        nameSet := nameSet + {name};
      }
      assert parsed[..i + 1] == parsed[..i] + [parsed[i]];
    }
    assert parsed[..|parsed|] == parsed;
    return Ok(parsed);
  }

  // ---------------------------------------------------------------- git output

  /** `remove_line_ending`: strip one trailing "\r\n", else one trailing "\n". */
  function RemoveLineEnding(s: string): (r: string)
    ensures s == r + "\r\n" || s == r + "\n" || s == r
    ensures r == s <==> !EndsWith(s, "\n")
  {
    if EndsWith(s, "\r\n") then s[..|s| - 2]
    else if EndsWith(s, "\n") then s[..|s| - 1]
    else s
  }

  /** Appending a line ending and removing it again is the identity; only one
      ending is removed. */
  lemma RemoveLineEndingRoundTrip(x: string)
    ensures RemoveLineEnding(x + "\r\n") == x
    ensures !EndsWith(x, "\r") ==> RemoveLineEnding(x + "\n") == x
    ensures RemoveLineEnding("a\n\n") == "a\n"
  {
    var crlf := x + "\r\n";
    assert crlf[|crlf| - 2..] == "\r\n";
    assert crlf[..|crlf| - 2] == x;
    var lf := x + "\n";
    assert lf[..|lf| - 1] == x;
    if !EndsWith(x, "\r") && |x| > 0 {
      assert lf[|lf| - 2] == x[|x| - 1];
    }
    var t := "a\n\n";
    assert t[|t| - 2..] == "\n\n";
  }
}
