/** Rebase suggestions, from src/features/rebase/service.rs.

    The record types come from src/features/rebase/types.rs, which is not part
    of this model; only the fields the service reads and writes are kept. The
    language model, the JSON decoder and the git rebase itself are parameters. */
module RebaseService {
  import opened Wrappers
  import opened Text

  datatype RebaseAction = Pick | Reword | Edit | Squash | Fixup | Drop

  /** A commit to rebase, with the action suggested for it. */
  datatype RebaseCommit = RebaseCommit(
    hash: string,
    message: string,
    author: string,
    date: string,
    suggestedAction: RebaseAction,
    confidence: real,
    reasoning: string)

  datatype RebaseAnalysis = RebaseAnalysis(commits: seq<RebaseCommit>, upstream: string, branch: string, suggestedOperations: nat)

  datatype RebaseResult = RebaseResult(operationsPerformed: nat, commitsProcessed: nat, success: bool, conflicts: seq<string>)

  /** One decoded element of the model's JSON array: each of the three fields
      is present only when it exists and has the expected JSON type. */
  datatype Suggestion = Suggestion(action: Option<string>, confidence: Option<real>, reasoning: Option<string>)

  // ---------------------------------------------------------------- the heuristic

  const FixReason: string := "Fix/refactor commits are typically kept as-is"
  const WipReason: string := "WIP commits should be squashed"
  const TestReason: string := "Test additions are often not needed in final history"
  const StandardReason: string := "Standard commit, keep as-is"

  predicate IsFixLike(m: string) { Contains(m, "fix") || Contains(m, "refactor") }
  predicate IsWipLike(m: string) { Contains(m, "wip") || Contains(m, "work in progress") }
  predicate IsTestAddition(m: string) { Contains(m, "test") && Contains(m, "add") }

  /** `apply_fallback_action`: a decision table on the lower-cased message,
      tried in order; only the action, the reasoning and the confidence
      change. */
  function ApplyFallbackAction(c: RebaseCommit): (r: RebaseCommit)
    ensures var m := ToLower(c.message);
            && (IsFixLike(m) ==> r.suggestedAction == Pick && r.confidence == 0.8)
            && (!IsFixLike(m) && IsWipLike(m) ==> r.suggestedAction == Squash && r.confidence == 0.9)
            && (!IsFixLike(m) && !IsWipLike(m) && IsTestAddition(m) ==> r.suggestedAction == Drop && r.confidence == 0.6)
            && (!IsFixLike(m) && !IsWipLike(m) && !IsTestAddition(m) ==> r.suggestedAction == Pick && r.confidence == 0.7)
    ensures 0.0 <= r.confidence <= 1.0 && r.reasoning != ""
    ensures r == c.(suggestedAction := r.suggestedAction, confidence := r.confidence, reasoning := r.reasoning)
  {
    var m := ToLower(c.message);
    if IsFixLike(m) then c.(suggestedAction := Pick, reasoning := FixReason, confidence := 0.8)
    else if IsWipLike(m) then c.(suggestedAction := Squash, reasoning := WipReason, confidence := 0.9)
    else if IsTestAddition(m) then c.(suggestedAction := Drop, reasoning := TestReason, confidence := 0.6)
    else c.(suggestedAction := Pick, reasoning := StandardReason, confidence := 0.7)
  }

  /** The heuristic only ever suggests Pick, Squash or Drop, and it drops a
      commit only when its message mentions both "test" and "add". */
  lemma FallbackActions(c: RebaseCommit)
    ensures ApplyFallbackAction(c).suggestedAction in {Pick, Squash, Drop}
    ensures ApplyFallbackAction(c).suggestedAction == Drop ==> IsTestAddition(ToLower(c.message))
    ensures ApplyFallbackAction(c).suggestedAction == Squash <==>
              !IsFixLike(ToLower(c.message)) && IsWipLike(ToLower(c.message))
  {
  }

  /** Applying the heuristic twice gives the same commit as applying it once:
      it reads only the message, which it never changes. */
  lemma FallbackIdempotent(c: RebaseCommit)
    ensures ApplyFallbackAction(ApplyFallbackAction(c)) == ApplyFallbackAction(c)
  {
  }

  /** "wip: add test" is squashed, not dropped: the WIP rule comes first. */
  lemma WipBeatsTestAddition(c: RebaseCommit)
    requires c.message == "wip: add test"
    ensures IsTestAddition(ToLower(c.message))
    ensures ApplyFallbackAction(c).suggestedAction == Squash
  {
    var m := c.message;
    ToLowerIdentity(m);
    assert OccursAt(m, "wip", 0);
    assert OccursAt(m, "add", 5);
    assert OccursAt(m, "test", 9);
    MissingFirstChar(m, "fix");
    MissingFirstChar(m, "refactor");
  }

  /** `fallback_analysis`: the heuristic on every commit, order and length
      kept. */
  function FallbackAnalysis(commits: seq<RebaseCommit>): (r: seq<RebaseCommit>)
    ensures |r| == |commits|
    ensures forall i :: 0 <= i < |r| ==> r[i] == ApplyFallbackAction(commits[i])
    ensures forall i :: 0 <= i < |r| ==>
              r[i].hash == commits[i].hash && r[i].message == commits[i].message
              && r[i].author == commits[i].author && r[i].date == commits[i].date
              && 0.0 <= r[i].confidence <= 1.0 && r[i].reasoning != ""
  {
    seq(|commits|, i requires 0 <= i < |commits| => ApplyFallbackAction(commits[i]))
  }

  // ---------------------------------------------------------------- the model's answer

  /** The action names the model may answer with. */
  function ActionName(a: RebaseAction): string {
    match a
    case Pick => "pick"
    case Reword => "reword"
    case Edit => "edit"
    case Squash => "squash"
    case Fixup => "fixup"
    case Drop => "drop"
  }

  const ActionNames: set<string> := {"pick", "reword", "edit", "squash", "fixup", "drop"}

  /** The `match action_str`: the six names, and Pick for anything else. */
  function ParseAction(s: string): (a: RebaseAction)
    ensures s !in ActionNames ==> a == Pick
  {
    if s == "pick" then Pick
    else if s == "reword" then Reword
    else if s == "edit" then Edit
    else if s == "squash" then Squash
    else if s == "fixup" then Fixup
    else if s == "drop" then Drop
    else Pick
  }

  /** Every action has one of the recognised names, and that name is parsed
      back to the action. */
  lemma ParseActionName(a: RebaseAction)
    ensures ActionName(a) in ActionNames
    ensures ParseAction(ActionName(a)) == a
  {
  }

  /** One suggestion applied to its commit: a complete suggestion sets the
      action, the confidence and the reasoning as given (the confidence is not
      range-checked); an incomplete one falls back to the heuristic for this
      commit only. */
  function ApplySuggestion(c: RebaseCommit, s: Suggestion): (r: RebaseCommit)
    ensures s.action.Some? && s.confidence.Some? && s.reasoning.Some? ==>
              r == c.(suggestedAction := ParseAction(s.action.value), confidence := s.confidence.value,
                      reasoning := s.reasoning.value)
    ensures !(s.action.Some? && s.confidence.Some? && s.reasoning.Some?) ==> r == ApplyFallbackAction(c)
  {
    match (s.action, s.confidence, s.reasoning)
    case (Some(action), Some(confidence), Some(reasoning)) =>
      c.(suggestedAction := ParseAction(action), confidence := confidence, reasoning := reasoning)
    case _ => ApplyFallbackAction(c)
  }

  /** An unknown action becomes Pick but keeps the model's confidence and
      reasoning, even a confidence above 1. */
  lemma UnknownActionKeepsAiFields(c: RebaseCommit)
    ensures var r := ApplySuggestion(c, Suggestion(Some("merge"), Some(1.5), Some("")));
            r.suggestedAction == Pick && r.confidence == 1.5 && r.reasoning == ""
  {
  }

  /** `parse_ai_response`: decodes the trimmed answer; a failed decode or a
      count mismatch falls back for every commit, otherwise each suggestion is
      applied to the commit at its position. */
  method ParseAiResponse(response: string, decodeJson: string -> Option<seq<Suggestion>>, commits: seq<RebaseCommit>)
    returns (r: seq<RebaseCommit>)
    ensures |r| == |commits|
    ensures var decoded := decodeJson(Trim(response));
            decoded.None? || |decoded.value| != |commits| ==> r == FallbackAnalysis(commits)
    ensures var decoded := decodeJson(Trim(response));
            decoded.Some? && |decoded.value| == |commits| ==>
              forall i :: 0 <= i < |r| ==> r[i] == ApplySuggestion(commits[i], decoded.value[i])
    ensures forall i :: 0 <= i < |r| ==>
              r[i].hash == commits[i].hash && r[i].message == commits[i].message
              && r[i].author == commits[i].author && r[i].date == commits[i].date
  {
    var decoded := decodeJson(Trim(response));
    if decoded.None? {
      return FallbackAnalysis(commits);
    }
    var suggestions := decoded.value;
    if |suggestions| != |commits| {
      return FallbackAnalysis(commits);
    }
    r := commits;
    for i := 0 to |suggestions|
      invariant |r| == |commits|
      invariant forall k :: 0 <= k < i ==> r[k] == ApplySuggestion(commits[k], suggestions[k])
      invariant forall k :: i <= k < |r| ==> r[k] == commits[k]
    {
      if i < |r| {
        var suggestion := suggestions[i];
        if suggestion.action.Some? && suggestion.confidence.Some? && suggestion.reasoning.Some? {
          var commit := r[i].(suggestedAction := ParseAction(suggestion.action.value));
          commit := commit.(confidence := suggestion.confidence.value);
          commit := commit.(reasoning := suggestion.reasoning.value);
          r := r[i := commit];
        } else {
          r := r[i := ApplyFallbackAction(r[i])];
        }
      }
    }
  }

  /** `analyze_commit_actions` without the prompt: an empty list comes back
      unchanged, test mode uses the heuristic, and otherwise the model's reply
      (or its error) is parsed. */
  method AnalyzeCommitActions(commits: seq<RebaseCommit>, testMode: bool, reply: Result<string, string>,
                              decodeJson: string -> Option<seq<Suggestion>>)
    returns (r: Result<seq<RebaseCommit>, string>)
    ensures commits == [] ==> r == Ok(commits)
    ensures commits != [] && testMode ==> r == Ok(FallbackAnalysis(commits))
    ensures commits != [] && !testMode && reply.Err? ==> r == Err(reply.error)
    ensures r.Ok? ==> |r.value| == |commits|
    ensures commits != [] && !testMode && reply.Ok? ==>
              r.Ok? &&
              var decoded := decodeJson(Trim(reply.value));
              (decoded.None? || |decoded.value| != |commits| ==> r.value == FallbackAnalysis(commits))
              && (decoded.Some? && |decoded.value| == |commits| ==>
                    forall i :: 0 <= i < |commits| ==> r.value[i] == ApplySuggestion(commits[i], decoded.value[i]))
  {
    if |commits| == 0 {
      return Ok(commits);
    }
    if testMode {
      return Ok(FallbackAnalysis(commits));
    }
    if reply.Err? {
      return Err(reply.error);
    }
    var parsed := ParseAiResponse(reply.value, decodeJson, commits);
    r := Ok(parsed);
  }

  /** `perform_rebase_auto`: an empty analysis succeeds at once with nothing
      done; otherwise the result is the repository's rebase result. */
  function PerformRebaseAuto(analysis: RebaseAnalysis, rebase: Result<RebaseResult, string>): (r: Result<RebaseResult, string>)
    ensures analysis.commits == [] ==>
              r.Ok? && r.value.success && r.value.operationsPerformed == 0
              && r.value.commitsProcessed == 0 && r.value.conflicts == []
    ensures analysis.commits != [] ==> r == rebase
  {
    if analysis.commits == [] then Ok(RebaseResult(0, 0, true, [])) else rebase
  }
}
