/** The state of the commit-message terminal UI, from src/tui/state.rs.

    The state's fields are those of `TuiState` plus the three completion fields
    and the two extra modes that src/tui/input_handler.rs uses. A text area is
    modelled by the text it holds, which is what its lines joined with "\n"
    give back. The spinner is reduced to whether one is shown, and the time of its
    last update is not modelled. `format_commit_message` (defined in
    src/features/commit/types.rs, which is not part of this model) and the text
    area's key handling are parameters of the state. */
module Tui {
  import opened Wrappers
  import opened Text
  import opened RebaseService

  datatype Mode = Normal | EditingMessage | EditingInstructions | Generating | Help
                | RebaseList | RebaseEdit | Completing | ContextSelection

  /** A generated commit message. */
  datatype GeneratedMessage = GeneratedMessage(emoji: Option<string>, title: string, message: string)

  /** The key codes the handlers distinguish. */
  datatype Key = Char(c: char) | Left | Right | Up | Down | Enter | Esc | Tab | BackTab | OtherKey

  /** The text shown for a message in the message text area. */
  function MessageText(m: GeneratedMessage): string {
    m.title + "\n\n" + Trim(m.message)
  }

  /** The message text area shows the current message. */
  predicate ShowsCurrent(v: View) {
    v.currentIndex < |v.messages| && v.messageText == MessageText(v.messages[v.currentIndex])
  }

  /** Every field of the state, as a value. */
  datatype View = View(
    messages: seq<GeneratedMessage>,
    currentIndex: nat,
    customInstructions: string,
    status: string,
    mode: Mode,
    messageText: string,
    instructionsText: string,
    rebaseText: string,
    spinner: bool,
    dirty: bool,
    instructionsVisible: bool,
    navBarVisible: bool,
    rebaseCommits: seq<RebaseCommit>,
    rebaseCurrentIndex: nat,
    completionSuggestions: seq<string>,
    completionIndex: nat,
    pendingCompletionPrefix: Option<string>)

  /** What the UI relies on: at least one message and the current one in range;
      the rebase index in range or 0; the completion index in range whenever
      there are suggestions. */
  predicate ValidView(v: View) {
    |v.messages| > 0 && v.currentIndex < |v.messages|
    && (v.rebaseCurrentIndex < |v.rebaseCommits| || v.rebaseCurrentIndex == 0)
    && (v.completionSuggestions != [] ==> v.completionIndex < |v.completionSuggestions|)
  }

  const InitialStatus: string := "Press '?': help | 'Esc': exit"

  /** The state `new` builds: a placeholder message when none is given. */
  function Initial(initialMessages: seq<GeneratedMessage>, customInstructions: string,
                   format: GeneratedMessage -> string): (v: View)
    ensures ValidView(v)
    ensures initialMessages != [] ==> v.messages == initialMessages
    ensures initialMessages == [] ==> v.messages == [GeneratedMessage(None, "", "")]
    ensures v.currentIndex == 0 && v.mode == Normal && v.dirty && v.rebaseCommits == []
    ensures v.messageText == format(v.messages[0])
    ensures v.instructionsText == customInstructions
  {
    var messages := if initialMessages == [] then [GeneratedMessage(None, "", "")] else initialMessages;
    View(messages, 0, customInstructions, InitialStatus, Normal,
         format(messages[0]), customInstructions, "",
         false, true, false, true, [], 0, [], 0, None)
  }

  /** `set_status`. */
  function WithStatus(v: View, s: string): (r: View)
    ensures ValidView(v) ==> ValidView(r)
    ensures r.status == s && !r.spinner && r.dirty
  {
    v.(status := s, spinner := false, dirty := true)
  }

  /** `update_message_textarea`, which indexes the messages by the current
      index. */
  function WithMessageTextarea(v: View): (r: View)
    requires v.currentIndex < |v.messages|
    ensures ValidView(v) ==> ValidView(r)
    ensures ShowsCurrent(r) && r.dirty
    ensures r.messages == v.messages && r.currentIndex == v.currentIndex && r.mode == v.mode
  {
    v.(messageText := MessageText(v.messages[v.currentIndex]), dirty := true)
  }

  /** `set_rebase_commits`. */
  function WithRebaseCommits(v: View, commits: seq<RebaseCommit>): (r: View)
    ensures ValidView(v) ==> ValidView(r)
    ensures r.rebaseCommits == commits && r.rebaseCurrentIndex == 0 && r.dirty
  {
    v.(rebaseCommits := commits, rebaseCurrentIndex := 0, dirty := true)
  }

  function SaturatingSub(a: nat, b: nat): nat {
    if a >= b then a - b else 0
  }

  /** `next_rebase_commit`: one step down, up to the last commit. */
  function NextRebase(v: View): (r: View)
    ensures ValidView(v) ==> ValidView(r)
    ensures r.rebaseCurrentIndex <= SaturatingSub(|v.rebaseCommits|, 1) || r == v
    ensures v.rebaseCurrentIndex >= SaturatingSub(|v.rebaseCommits|, 1) <==> r == v
  {
    if v.rebaseCurrentIndex < SaturatingSub(|v.rebaseCommits|, 1) then
      v.(rebaseCurrentIndex := v.rebaseCurrentIndex + 1, dirty := true)
    else v
  }

  /** `prev_rebase_commit`: one step up, down to the first commit. */
  function PrevRebase(v: View): (r: View)
    ensures ValidView(v) ==> ValidView(r)
    ensures r.rebaseCurrentIndex <= v.rebaseCurrentIndex
    ensures v.rebaseCurrentIndex == 0 <==> r == v
  {
    if v.rebaseCurrentIndex > 0 then
      v.(rebaseCurrentIndex := SaturatingSub(v.rebaseCurrentIndex, 1), dirty := true)
    else v
  }

  /** A step down followed by a step up returns to the same commit. */
  lemma PrevAfterNext(v: View)
    requires v.rebaseCurrentIndex < SaturatingSub(|v.rebaseCommits|, 1)
    ensures PrevRebase(NextRebase(v)) == v.(dirty := true)
  {
  }

  /** The action cycle of `toggle_rebase_action`. */
  function NextAction(a: RebaseAction): (b: RebaseAction)
    ensures b != Edit
    ensures a == Edit ==> b == Pick
  {
    match a
    case Pick => Reword
    case Reword => Squash
    case Squash => Fixup
    case Fixup => Drop
    case Drop => Pick
    case Edit => Pick
  }

  function Toggled(a: RebaseAction, n: nat): RebaseAction
    decreases n
  {
    if n == 0 then a else Toggled(NextAction(a), n - 1)
  }

  /** Five toggles bring any action but Edit back to itself, and no fewer do. */
  lemma FiveTogglesCycle(a: RebaseAction)
    requires a != Edit
    ensures Toggled(a, 5) == a
    ensures forall n :: 1 <= n < 5 ==> Toggled(a, n) != a
  {
    assert Toggled(a, 1) == NextAction(a);
    assert Toggled(a, 2) == NextAction(NextAction(a));
    assert Toggled(a, 3) == NextAction(NextAction(NextAction(a)));
    assert Toggled(a, 4) == NextAction(NextAction(NextAction(NextAction(a))));
    assert Toggled(a, 5) == NextAction(NextAction(NextAction(NextAction(NextAction(a)))));
  }

  /** `toggle_rebase_action`: advances the action of the current commit only;
      with the index out of range nothing changes, not even `dirty`. */
  function ToggledRebase(v: View): (r: View)
    ensures ValidView(v) ==> ValidView(r)
    ensures v.rebaseCurrentIndex >= |v.rebaseCommits| ==> r == v
    ensures v.rebaseCurrentIndex < |v.rebaseCommits| ==>
              var i := v.rebaseCurrentIndex;
              && |r.rebaseCommits| == |v.rebaseCommits|
              && r.rebaseCommits[i] == v.rebaseCommits[i].(suggestedAction := NextAction(v.rebaseCommits[i].suggestedAction))
              && (forall j :: 0 <= j < |v.rebaseCommits| && j != i ==> r.rebaseCommits[j] == v.rebaseCommits[j])
              && r == v.(rebaseCommits := r.rebaseCommits, dirty := true)
  {
    var i := v.rebaseCurrentIndex;
    if i < |v.rebaseCommits| then
      var c := v.rebaseCommits[i];
      v.(rebaseCommits := v.rebaseCommits[i := c.(suggestedAction := NextAction(c.suggestedAction))], dirty := true)
    else v
  }

  /** `update_rebase_textarea`: shows the current commit's message; a no-op
      with the index out of range. */
  function WithRebaseTextarea(v: View): (r: View)
    ensures ValidView(v) ==> ValidView(r)
    ensures v.rebaseCurrentIndex >= |v.rebaseCommits| ==> r == v
    ensures v.rebaseCurrentIndex < |v.rebaseCommits| ==>
              r.rebaseText == v.rebaseCommits[v.rebaseCurrentIndex].message
              && r == v.(rebaseText := r.rebaseText, dirty := true)
  {
    if v.rebaseCurrentIndex < |v.rebaseCommits| then
      v.(rebaseText := v.rebaseCommits[v.rebaseCurrentIndex].message, dirty := true)
    else v
  }

  // ---------------------------------------------------------------- the object

  class TuiState {
    var messages: seq<GeneratedMessage>
    var currentIndex: nat
    var customInstructions: string
    var status: string
    var mode: Mode
    var messageText: string
    var instructionsText: string
    var rebaseText: string
    var spinner: bool
    var dirty: bool
    var instructionsVisible: bool
    var navBarVisible: bool
    var rebaseCommits: seq<RebaseCommit>
    var rebaseCurrentIndex: nat
    var completionSuggestions: seq<string>
    var completionIndex: nat
    var pendingCompletionPrefix: Option<string>
    /** `format_commit_message`. */
    const format: GeneratedMessage -> string
    /** The text area's own handling of a key. */
    const textInput: (string, Key) -> string

    function Snapshot(): View
      reads this
    {
      View(messages, currentIndex, customInstructions, status, mode, messageText, instructionsText,
           rebaseText, spinner, dirty, instructionsVisible, navBarVisible, rebaseCommits,
           rebaseCurrentIndex, completionSuggestions, completionIndex, pendingCompletionPrefix)
    }

    predicate Valid()
      reads this
    {
      ValidView(Snapshot())
    }

    /** `TuiState::new`. */
    constructor (initialMessages: seq<GeneratedMessage>, customInstructions: string,
                 format: GeneratedMessage -> string, textInput: (string, Key) -> string)
      ensures Snapshot() == Initial(initialMessages, customInstructions, format)
      ensures this.format == format && this.textInput == textInput
      ensures Valid()
    {
      var msgs := if initialMessages == [] then [GeneratedMessage(None, "", "")] else initialMessages;
      messages := msgs;
      messageText := format(msgs[0]);
      instructionsText := customInstructions;
      rebaseText := "";
      currentIndex := 0;
      this.customInstructions := customInstructions;
      status := InitialStatus;
      mode := Normal;
      spinner := false;
      dirty := true;
      instructionsVisible := false;
      navBarVisible := true;
      rebaseCommits := [];
      rebaseCurrentIndex := 0;
      completionSuggestions := [];
      completionIndex := 0;
      pendingCompletionPrefix := None;
      this.format := format;
      this.textInput := textInput;
    }

    method SetStatus(newStatus: string)
      modifies this
      ensures Snapshot() == WithStatus(old(Snapshot()), newStatus)
    {
      status := newStatus;
      spinner := false;
      dirty := true;
    }

    method UpdateMessageTextarea()
      requires currentIndex < |messages|
      modifies this
      ensures Snapshot() == WithMessageTextarea(old(Snapshot()))
    {
      var current := messages[currentIndex];
      var content := current.title + "\n\n" + Trim(current.message);
      messageText := content;
      dirty := true;
    }

    method SetRebaseCommits(commits: seq<RebaseCommit>)
      modifies this
      ensures Snapshot() == WithRebaseCommits(old(Snapshot()), commits)
    {
      rebaseCommits := commits;
      rebaseCurrentIndex := 0;
      dirty := true;
    }

    method NextRebaseCommit()
      modifies this
      ensures Snapshot() == NextRebase(old(Snapshot()))
    {
      if rebaseCurrentIndex < SaturatingSub(|rebaseCommits|, 1) {
        rebaseCurrentIndex := rebaseCurrentIndex + 1;
        dirty := true;
      }
    }

    method PrevRebaseCommit()
      modifies this
      ensures Snapshot() == PrevRebase(old(Snapshot()))
    {
      if rebaseCurrentIndex > 0 {
        rebaseCurrentIndex := SaturatingSub(rebaseCurrentIndex, 1);
        dirty := true;
      }
    }

    method ToggleRebaseAction()
      modifies this
      ensures Snapshot() == ToggledRebase(old(Snapshot()))
    {
      if rebaseCurrentIndex < |rebaseCommits| {
        var commit := rebaseCommits[rebaseCurrentIndex];
        rebaseCommits := rebaseCommits[rebaseCurrentIndex := commit.(suggestedAction := NextAction(commit.suggestedAction))];
        dirty := true;
      }
    }

    method UpdateRebaseTextarea()
      modifies this
      ensures Snapshot() == WithRebaseTextarea(old(Snapshot()))
    {
      if rebaseCurrentIndex < |rebaseCommits| {
        rebaseText := rebaseCommits[rebaseCurrentIndex].message;
        dirty := true;
      }
    }
  }
}
