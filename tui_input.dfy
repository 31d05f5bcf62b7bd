/** Key handling of the commit-message terminal UI, from
    src/tui/input_handler.rs.

    Each handler is specified by a function from the state's value and the key
    to the new value and the `InputResult`; the methods perform the same
    changes on a `TuiState` object. Regeneration ('R', which runs the language
    model in src/tui/app.rs) and the context-selection helpers are not part of
    this model: those keys leave the state as it is. */
module TuiInput {
  import opened Wrappers
  import opened Text
  import opened Tui

  datatype InputResult = Continue | Exit | Commit(message: string)

  /** A handler's outcome: the new state and what the event loop does next. */
  datatype Handled = Handled(view: View, result: InputResult)

  // ---------------------------------------------------------------- status lines

  const EditingMessageStatus: string := "Editing commit message. Press Esc to finish."
  const EditingInstructionsStatus: string := "Editing instructions. Press Esc to finish."
  const InstructionsHiddenStatus: string := "Instructions hidden."
  const ContextSelectionStatus: string := "Context Selection: Use arrow keys to navigate, Space to toggle, Enter to confirm, Esc to cancel"
  const CommittingStatus: string := "Committing..."
  const NavBarShownStatus: string := "Navigation bar shown."
  const NavBarHiddenStatus: string := "Navigation bar hidden."
  const HelpStatus: string := "Viewing help. Press any key to close."
  const MessageUpdatedStatus: string := "Commit message updated."
  const EmptyPrefixStatus: string := "Cannot complete empty message. Type something first."
  const CompletingStatus: string := "Generating completion suggestions..."
  const InstructionsUpdatedStatus: string := "Instructions updated."
  const HelpClosedStatus: string := "Help closed. Press '?' for help."
  const CompletionAcceptedStatus: string := "Completion accepted."
  const CompletionCancelledStatus: string := "Completion cancelled."
  const ContextConfirmedStatus: string := "Context selection confirmed. Press 'R' to regenerate with selected context."
  const ContextCancelledStatus: string := "Context selection cancelled."
  const GenerationCancelledStatus: string := "Message generation cancelled."

  // ---------------------------------------------------------------- helpers

  /** The index one to the left, wrapping from the first to the last. */
  function PrevIndex(i: nat, n: nat): (r: nat)
    requires i < n
    ensures r < n
    ensures i > 0 ==> r == i - 1
    ensures i == 0 ==> r == n - 1
  {
    if i > 0 then i - 1 else n - 1
  }

  /** The index one to the right, wrapping from the last to the first. */
  function NextIndex(i: nat, n: nat): (r: nat)
    requires i < n
    ensures r < n
    ensures r == (i + 1) % n
  {
    if i < n - 1 then i + 1 else 0
  }

  /** The two steps undo each other. */
  lemma WrapInverse(i: nat, n: nat)
    requires i < n
    ensures NextIndex(PrevIndex(i, n), n) == i
    ensures PrevIndex(NextIndex(i, n), n) == i
  {
  }

  /** Lines drop from the front while they are blank. */
  function SkipBlank(lines: seq<string>): (r: seq<string>)
    ensures |r| <= |lines| && r == lines[|lines| - |r|..]
    ensures r == [] || Trim(r[0]) != ""
    ensures forall k :: 0 <= k < |lines| - |r| ==> Trim(lines[k]) == ""
    decreases |lines|
  {
    if lines != [] && Trim(lines[0]) == "" then SkipBlank(lines[1..]) else lines
  }

  /** A message rebuilt from the edited text: the first line, trimmed, is the
      title, and the message is the remaining lines from the first non-blank
      one on. */
  function EditedMessage(m: GeneratedMessage, edited: string): GeneratedMessage {
    FromLines(m, Lines(edited))
  }

  function FromLines(m: GeneratedMessage, lines: seq<string>): GeneratedMessage {
    var title := if lines == [] then "" else Trim(lines[0]);
    var rest := if lines == [] then [] else SkipBlank(lines[1..]);
    m.(title := title, message := Join(rest, "\n"))
  }

  /** The first line of the message being edited, or "". */
  function FirstLine(v: View): string {
    var lines := Lines(v.messageText);
    if lines == [] then "" else lines[0]
  }

  function ViewingStatus(v: View): string {
    "Viewing commit message " + NatToString(v.currentIndex + 1) + "/" + NatToString(|v.messages|)
  }

  /** Shows message `i`: its text in the text area and its position as status. */
  function ShowMessage(v: View, i: nat): (r: View)
    requires i < |v.messages|
    ensures ValidView(v) ==> ValidView(r)
    ensures r.currentIndex == i && r.messages == v.messages && r.mode == v.mode
    ensures ShowsCurrent(r)
  {
    var w := WithMessageTextarea(v.(currentIndex := i));
    WithStatus(w, ViewingStatus(w))
  }

  /** A change of mode announced in the status line. */
  function Transition(v: View, mode: Mode, status: string): (r: View)
    ensures ValidView(v) ==> ValidView(r)
    ensures r.mode == mode && r.status == status && r.dirty && !r.spinner
    ensures r.messages == v.messages && r.rebaseCommits == v.rebaseCommits
    ensures r.instructionsVisible == v.instructionsVisible && r.navBarVisible == v.navBarVisible
    ensures r.completionSuggestions == v.completionSuggestions && r.messageText == v.messageText
  {
    WithStatus(v.(mode := mode), status)
  }

  /** The Normal-mode keys that switch a mode or a panel. */
  predicate SwitchKey(key: Key) {
    key in {Char('e'), Char('i'), Char('C'), Char('?'), Char('h')}
  }

  /** The Normal-mode keys that move between the generated messages. */
  predicate NavigationKey(key: Key) {
    key in {Left, Char('l'), Right, Char('r')}
  }

  predicate LeftKey(key: Key) {
    key == Left || key == Char('l')
  }

  /** The effect of 'e', 'i', 'C', '?' and 'h' in Normal mode. */
  function NormalSwitch(v: View, key: Key): (r: View)
    requires SwitchKey(key)
    ensures ValidView(v) ==> ValidView(r)
    ensures r.messages == v.messages && r.currentIndex == v.currentIndex && r.rebaseCommits == v.rebaseCommits
    ensures r.messageText == v.messageText && r.dirty
    ensures key == Char('e') ==> r.mode == EditingMessage
    ensures key == Char('i') ==>
              r.instructionsVisible == !v.instructionsVisible
              && r.mode == (if r.instructionsVisible then EditingInstructions else Normal)
    ensures key == Char('C') ==> r.mode == ContextSelection
    ensures key == Char('h') ==> r.mode == Help
    ensures key == Char('?') ==> r.navBarVisible == !v.navBarVisible && r.mode == v.mode
    ensures key != Char('i') ==> r.instructionsVisible == v.instructionsVisible
    ensures key != Char('?') ==> r.navBarVisible == v.navBarVisible
  {
    if key == Char('e') then
      Transition(v, EditingMessage, EditingMessageStatus)
    else if key == Char('i') then
      var w := v.(instructionsVisible := !v.instructionsVisible);
      if w.instructionsVisible then Transition(w, EditingInstructions, EditingInstructionsStatus)
      else Transition(w, Normal, InstructionsHiddenStatus)
    else if key == Char('C') then
      Transition(v, ContextSelection, ContextSelectionStatus)
    else if key == Char('?') then
      var w := v.(navBarVisible := !v.navBarVisible);
      WithStatus(w, if w.navBarVisible then NavBarShownStatus else NavBarHiddenStatus)
    else
      Transition(v, Help, HelpStatus)
  }

  /** The effect of Left/'l' and Right/'r' in Normal mode: the previous or next
      message, wrapping around at both ends. */
  function NormalNavigate(v: View, key: Key): (r: View)
    requires ValidView(v) && NavigationKey(key)
    ensures ValidView(r)
    ensures r.messages == v.messages && r.mode == v.mode && r.rebaseCommits == v.rebaseCommits && r.dirty
    ensures LeftKey(key) ==> r.currentIndex == PrevIndex(v.currentIndex, |v.messages|)
    ensures !LeftKey(key) ==> r.currentIndex == NextIndex(v.currentIndex, |v.messages|)
    ensures ShowsCurrent(r)
    ensures r.status == ViewingStatus(r)
  {
    var i := if LeftKey(key) then PrevIndex(v.currentIndex, |v.messages|) else NextIndex(v.currentIndex, |v.messages|);
    ShowMessage(v, i)
  }

  /** `handle_normal_mode`. Enter commits the formatted current message with
      the spinner on, Esc exits, and keys without a binding change nothing. */
  function OnNormal(v: View, key: Key, format: GeneratedMessage -> string): (h: Handled)
    requires ValidView(v)
    ensures ValidView(h.view)
    ensures h.view.messages == v.messages && h.view.rebaseCommits == v.rebaseCommits
    ensures h.result == Exit <==> key == Esc
    ensures h.result.Commit? <==> key == Enter
    ensures key == Enter ==>
              && h.result == Commit(format(v.messages[v.currentIndex]))
              && h.view.spinner && h.view.mode == v.mode && h.view.status == CommittingStatus
    ensures SwitchKey(key) ==> h.view == NormalSwitch(v, key)
    ensures NavigationKey(key) ==> h.view == NormalNavigate(v, key)
    ensures !SwitchKey(key) && !NavigationKey(key) && key != Enter ==> h.view == v
  {
    if SwitchKey(key) then
      Handled(NormalSwitch(v, key), Continue)
    else if NavigationKey(key) then
      Handled(NormalNavigate(v, key), Continue)
    else if key == Enter then
      var message := format(v.messages[v.currentIndex]);
      Handled(WithStatus(v, CommittingStatus).(spinner := true), Commit(message))
    else if key == Esc then
      Handled(v, Exit)
    else
      Handled(v, Continue)
  }

  /** Esc in the message editor: the edited text replaces the current message,
      which is shown again in its normalised form, and the mode is Normal. */
  function FinishEdit(v: View): (r: View)
    requires ValidView(v)
    ensures ValidView(r)
    ensures var m := EditedMessage(v.messages[v.currentIndex], v.messageText);
            && r.mode == Normal && r.currentIndex == v.currentIndex
            && r.messages == v.messages[v.currentIndex := m]
            && ShowsCurrent(r)
            && r.status == MessageUpdatedStatus
  {
    var m := EditedMessage(v.messages[v.currentIndex], v.messageText);
    var w := WithStatus(v.(mode := Normal, messages := v.messages[v.currentIndex := m]), MessageUpdatedStatus);
    assert w.messages[w.currentIndex] == m;
    WithMessageTextarea(w)
  }

  /** Tab in the message editor: completion of a non-blank first line is
      requested; a blank one only gets a status line. */
  function RequestCompletion(v: View): (r: View)
    requires ValidView(v)
    ensures ValidView(r)
    ensures r.messages == v.messages && r.messageText == v.messageText
    ensures Trim(FirstLine(v)) == "" ==>
              r.mode == v.mode && r.pendingCompletionPrefix == v.pendingCompletionPrefix && r.status == EmptyPrefixStatus
    ensures Trim(FirstLine(v)) != "" ==>
              r.mode == Completing && r.pendingCompletionPrefix == Some(FirstLine(v)) && r.status == CompletingStatus
  {
    var prefix := FirstLine(v);
    if Trim(prefix) == "" then WithStatus(v, EmptyPrefixStatus)
    else WithStatus(v.(pendingCompletionPrefix := Some(prefix), mode := Completing), CompletingStatus)
  }

  /** `handle_editing_message`: Esc and Tab as above; the text area handles
      every other key. */
  function OnEditingMessage(v: View, key: Key, textInput: (string, Key) -> string): (h: Handled)
    requires ValidView(v)
    ensures ValidView(h.view) && h.result == Continue
    ensures key == Esc ==> h.view == FinishEdit(v)
    ensures key == Tab ==> h.view == RequestCompletion(v)
    ensures key != Esc && key != Tab ==> h.view == v.(messageText := textInput(v.messageText, key))
  {
    if key == Esc then Handled(FinishEdit(v), Continue)
    else if key == Tab then Handled(RequestCompletion(v), Continue)
    else Handled(v.(messageText := textInput(v.messageText, key)), Continue)
  }

  /** `handle_editing_instructions`. */
  function OnEditingInstructions(v: View, key: Key, textInput: (string, Key) -> string): (h: Handled)
    requires ValidView(v)
    ensures ValidView(h.view) && h.result == Continue
    ensures key == Esc ==>
              h.view.mode == Normal && h.view.customInstructions == v.instructionsText
              && h.view.instructionsText == v.instructionsText && h.view.messages == v.messages
    ensures key != Esc ==> h.view == v.(instructionsText := textInput(v.instructionsText, key))
  {
    if key == Esc then
      Handled(WithStatus(v.(mode := Normal, customInstructions := v.instructionsText), InstructionsUpdatedStatus), Continue)
    else
      Handled(v.(instructionsText := textInput(v.instructionsText, key)), Continue)
  }

  /** `handle_help`: any key closes the help. */
  function OnHelp(v: View): (h: Handled)
    requires ValidView(v)
    ensures ValidView(h.view) && h.result == Continue
    ensures h.view.mode == Normal && h.view.messages == v.messages && h.view.messageText == v.messageText
  {
    Handled(Transition(v, Normal, HelpClosedStatus), Continue)
  }

  function SelectedStatus(v: View): string
    requires v.completionIndex < |v.completionSuggestions|
  {
    "Selected: " + v.completionSuggestions[v.completionIndex]
  }

  /** Tab (forward) and Shift+Tab (backward) while completing: the selection
      moves with wrap-around; without suggestions nothing changes. */
  function CycleCompletion(v: View, forward: bool): (r: View)
    requires ValidView(v)
    ensures ValidView(r)
    ensures v.completionSuggestions == [] ==> r == v
    ensures v.completionSuggestions != [] ==>
              var n := |v.completionSuggestions|;
              && r.completionIndex == (if forward then NextIndex(v.completionIndex, n) else PrevIndex(v.completionIndex, n))
              && r.completionSuggestions == v.completionSuggestions
              && r.mode == v.mode && r.messages == v.messages
              && r.status == SelectedStatus(r)
  {
    if v.completionSuggestions == [] then v
    else
      var n := |v.completionSuggestions|;
      var w := v.(completionIndex := if forward then (v.completionIndex + 1) % n else PrevIndex(v.completionIndex, n));
      WithStatus(w, SelectedStatus(w))
  }

  /** Enter while completing: the selected suggestion becomes the current
      message's title, the suggestions are dropped and editing resumes;
      without suggestions nothing changes. */
  function AcceptCompletion(v: View): (r: View)
    requires ValidView(v)
    ensures ValidView(r)
    ensures v.completionSuggestions == [] ==> r == v
    ensures v.completionSuggestions != [] ==>
              var m := v.messages[v.currentIndex].(title := v.completionSuggestions[v.completionIndex]);
              && r.messages == v.messages[v.currentIndex := m]
              && ShowsCurrent(r)
              && r.completionSuggestions == [] && r.mode == EditingMessage
              && r.status == CompletionAcceptedStatus
  {
    if v.completionSuggestions == [] then v
    else
      var suggestion := v.completionSuggestions[v.completionIndex];
      var w := v.(messages := v.messages[v.currentIndex := v.messages[v.currentIndex].(title := suggestion)]);
      var w := WithMessageTextarea(w);
      var w := w.(completionSuggestions := [], mode := EditingMessage);
      WithStatus(w, CompletionAcceptedStatus)
  }

  /** The suggestions dropped and the message editor back. */
  function LeaveCompletion(v: View): (r: View)
    ensures ValidView(v) ==> ValidView(r)
    ensures r.completionSuggestions == [] && r.mode == EditingMessage && r.messages == v.messages
  {
    v.(completionSuggestions := [], mode := EditingMessage)
  }

  /** `handle_completing`. Any key without a binding here ends the completion
      and is then handled by the message editor. */
  function OnCompleting(v: View, key: Key, textInput: (string, Key) -> string): (h: Handled)
    requires ValidView(v)
    ensures ValidView(h.view) && h.result == Continue
    ensures key == Tab ==> h.view == CycleCompletion(v, true)
    ensures key == BackTab ==> h.view == CycleCompletion(v, false)
    ensures key == Enter ==> h.view == AcceptCompletion(v)
    ensures key == Esc ==> h.view == WithStatus(LeaveCompletion(v), CompletionCancelledStatus)
    ensures key !in {Tab, BackTab, Enter, Esc} ==> h == OnEditingMessage(LeaveCompletion(v), key, textInput)
  {
    if key == Tab then Handled(CycleCompletion(v, true), Continue)
    else if key == BackTab then Handled(CycleCompletion(v, false), Continue)
    else if key == Enter then Handled(AcceptCompletion(v), Continue)
    else if key == Esc then Handled(WithStatus(LeaveCompletion(v), CompletionCancelledStatus), Continue)
    else OnEditingMessage(LeaveCompletion(v), key, textInput)
  }

  /** `handle_context_selection`, mode transitions only. */
  function OnContextSelection(v: View, key: Key): (h: Handled)
    requires ValidView(v)
    ensures ValidView(h.view) && h.result == Continue
    ensures key == Enter || key == Esc ==> h.view.mode == Normal && h.view.messages == v.messages
    ensures key != Enter && key != Esc ==> h.view == v
  {
    if key == Enter then Handled(Transition(v, Normal, ContextConfirmedStatus), Continue)
    else if key == Esc then Handled(Transition(v, Normal, ContextCancelledStatus), Continue)
    else Handled(v, Continue)
  }

  /** `handle_input`: dispatch on the mode. Normal and message-editing handling
      always mark the screen dirty. The two rebase modes have no handler. */
  function OnKey(v: View, key: Key, format: GeneratedMessage -> string,
                 textInput: (string, Key) -> string): (h: Handled)
    requires ValidView(v)
    ensures ValidView(h.view)
    ensures v.mode == Normal || v.mode == EditingMessage ==> h.view.dirty
    ensures v.mode != Normal ==> h.result == Continue
    ensures v.mode == Generating && key == Esc ==> h.view.mode == Normal && h.view.messages == v.messages
    ensures v.mode == Generating && key != Esc ==> h.view == v
    ensures v.mode == RebaseList || v.mode == RebaseEdit ==> h.view == v
  {
    match v.mode
    case Normal =>
      var h := OnNormal(v, key, format);
      h.(view := h.view.(dirty := true))
    case EditingMessage =>
      var h := OnEditingMessage(v, key, textInput);
      h.(view := h.view.(dirty := true))
    case EditingInstructions => OnEditingInstructions(v, key, textInput)
    case Help => OnHelp(v)
    case Completing => OnCompleting(v, key, textInput)
    case ContextSelection => OnContextSelection(v, key)
    case Generating =>
      if key == Esc then Handled(Transition(v, Normal, GenerationCancelledStatus), Continue)
      else Handled(v, Continue)
    case RebaseList => Handled(v, Continue)
    case RebaseEdit => Handled(v, Continue)
  }

  // ---------------------------------------------------------------- properties

  /** Right after Left (or Left after Right) shows the message seen before. */
  lemma RightUndoesLeft(v: View)
    requires ValidView(v)
    ensures NormalNavigate(NormalNavigate(v, Left), Right).currentIndex == v.currentIndex
    ensures NormalNavigate(NormalNavigate(v, Right), Left).currentIndex == v.currentIndex
  {
    WrapInverse(v.currentIndex, |v.messages|);
  }

  /** Shift+Tab undoes Tab while completing, and Tab undoes Shift+Tab. */
  lemma BackTabUndoesTab(v: View)
    requires ValidView(v)
    ensures CycleCompletion(CycleCompletion(v, true), false).completionIndex == v.completionIndex
    ensures CycleCompletion(CycleCompletion(v, false), true).completionIndex == v.completionIndex
  {
    if v.completionSuggestions != [] {
      WrapInverse(v.completionIndex, |v.completionSuggestions|);
    }
  }

  /** The lines of a shown message whose title and body are single lines. */
  lemma {:induction false} MessageTextLines(title: string, body: string)
    requires '\n' !in title && '\n' !in body && StripCR(title) == title
    ensures Lines(title + "\n\n" + body) == if body == "" then [title, ""] else [title, "", body]
  {
    SplitWithout(body, '\n');
    SplitAtFirst("", '\n', body);
    assert "" + ['\n'] + body == "\n" + body;
    SplitAtFirst(title, '\n', "\n" + body);
    assert title + ['\n'] + ("\n" + body) == title + "\n\n" + body;
    assert Split(title + "\n\n" + body, '\n') == [title, "", body];
  }

  /** Re-reading the shown text of a message whose title is a trimmed single
      line and whose body has no line break gives the title back and the body
      trimmed. */
  lemma EditedMessageRoundTrip(m: GeneratedMessage)
    requires '\n' !in m.title && Trim(m.title) == m.title && '\n' !in m.message
    ensures EditedMessage(m, MessageText(m)) == m.(message := Trim(m.message))
  {
    var title, body := m.title, Trim(m.message);
    TrimKeepsAbsent(m.message, '\n');
    TrimmedHasNoCR(title);
    MessageTextLines(title, body);
    TrimIdempotent(m.message);
    EditedFromLines(m, MessageText(m), title, body);
  }

  /** The message read back from a text whose lines are a trimmed title, a
      blank line and an optional trimmed body. */
  lemma EditedFromLines(m: GeneratedMessage, text: string, title: string, body: string)
    requires Trim(title) == title && Trim(body) == body
    requires Lines(text) == if body == "" then [title, ""] else [title, "", body]
    ensures EditedMessage(m, text) == m.(title := title, message := body)
  {
    if body == "" {
      FromTitleLines(m, title);
    } else {
      FromTitleBodyLines(m, title, body);
    }
  }

  lemma FromTitleLines(m: GeneratedMessage, title: string)
    requires Trim(title) == title
    ensures FromLines(m, [title, ""]) == m.(title := title, message := "")
  {
    assert [title, ""][1..] == [""];
    assert SkipBlank([""]) == [];
  }

  lemma FromTitleBodyLines(m: GeneratedMessage, title: string, body: string)
    requires Trim(title) == title && Trim(body) == body && body != ""
    ensures FromLines(m, [title, "", body]) == m.(title := title, message := body)
  {
    assert [title, "", body][1..] == ["", body];
    assert SkipBlank(["", body]) == [body];
  }

  /** A trimmed line does not end in '\r'. */
  lemma TrimmedHasNoCR(s: string)
    requires Trim(s) == s
    ensures StripCR(s) == s
  {
    if |s| > 0 {
      assert !IsWhitespace(Trim(s)[|s| - 1]);
    }
  }

  /** Leaving the editor without touching the text keeps such a message, with
      its body trimmed. */
  lemma EditRoundTrip(v: View)
    requires ValidView(v)
    requires var m := v.messages[v.currentIndex];
             && ShowsCurrent(v)
             && '\n' !in m.title && Trim(m.title) == m.title && '\n' !in m.message
    ensures var m := v.messages[v.currentIndex];
            FinishEdit(v).messages[v.currentIndex] == m.(message := Trim(m.message))
  {
    EditedMessageRoundTrip(v.messages[v.currentIndex]);
  }

  // ---------------------------------------------------------------- handlers on the object

  method SwitchPanel(s: TuiState, key: Key)
    requires SwitchKey(key)
    modifies s
    ensures s.Snapshot() == NormalSwitch(old(s.Snapshot()), key)
  {
    if key == Char('e') {
      s.mode := EditingMessage;
      s.SetStatus(EditingMessageStatus);
    } else if key == Char('i') {
      s.instructionsVisible := !s.instructionsVisible;
      if s.instructionsVisible {
        s.mode := EditingInstructions;
        s.SetStatus(EditingInstructionsStatus);
      } else {
        s.mode := Normal;
        s.SetStatus(InstructionsHiddenStatus);
      }
    } else if key == Char('C') {
      s.mode := ContextSelection;
      s.SetStatus(ContextSelectionStatus);
    } else if key == Char('?') {
      s.navBarVisible := !s.navBarVisible;
      s.SetStatus(if s.navBarVisible then NavBarShownStatus else NavBarHiddenStatus);
    } else {
      s.mode := Help;
      s.SetStatus(HelpStatus);
    }
  }

  method Navigate(s: TuiState, key: Key)
    requires s.Valid() && NavigationKey(key)
    modifies s
    ensures s.Snapshot() == NormalNavigate(old(s.Snapshot()), key)
  {
    if LeftKey(key) {
      if s.currentIndex > 0 {
        s.currentIndex := s.currentIndex - 1;
      } else {
        s.currentIndex := |s.messages| - 1;
      }
    } else {
      if s.currentIndex < |s.messages| - 1 {
        s.currentIndex := s.currentIndex + 1;
      } else {
        s.currentIndex := 0;
      }
    }
    assert s.currentIndex == if LeftKey(key) then PrevIndex(old(s.currentIndex), |s.messages|) else NextIndex(old(s.currentIndex), |s.messages|);
    s.UpdateMessageTextarea();
    s.SetStatus("Viewing commit message " + NatToString(s.currentIndex + 1) + "/" + NatToString(|s.messages|));
  }

  method HandleNormalMode(s: TuiState, key: Key) returns (r: InputResult)
    requires s.Valid()
    modifies s
    ensures s.Snapshot() == OnNormal(old(s.Snapshot()), key, s.format).view
    ensures r == OnNormal(old(s.Snapshot()), key, s.format).result
  {
    if SwitchKey(key) {
      SwitchPanel(s, key);
      r := Continue;
    } else if NavigationKey(key) {
      Navigate(s, key);
      r := Continue;
    } else if key == Enter {
      var message := s.format(s.messages[s.currentIndex]);
      s.SetStatus(CommittingStatus);
      s.spinner := true;
      r := Commit(message);
    } else if key == Esc {
      r := Exit;
    } else {
      r := Continue;
    }
  }

  method FinishEditing(s: TuiState)
    requires s.Valid()
    modifies s
    ensures s.Snapshot() == FinishEdit(old(s.Snapshot()))
  {
    s.mode := Normal;
    var edited := s.messageText;
    s.messages := s.messages[s.currentIndex := EditedMessage(s.messages[s.currentIndex], edited)];
    s.SetStatus(MessageUpdatedStatus);
    s.UpdateMessageTextarea();
  }

  method StartCompletion(s: TuiState)
    requires s.Valid()
    modifies s
    ensures s.Snapshot() == RequestCompletion(old(s.Snapshot()))
  {
    var current := s.messageText;
    var lines := Lines(current);
    var prefix := if lines == [] then "" else lines[0];
    if Trim(prefix) == "" {
      s.SetStatus(EmptyPrefixStatus);
    } else {
      s.pendingCompletionPrefix := Some(prefix);
      s.mode := Completing;
      s.SetStatus(CompletingStatus);
    }
  }

  method HandleEditingMessage(s: TuiState, key: Key) returns (r: InputResult)
    requires s.Valid()
    modifies s
    ensures s.Snapshot() == OnEditingMessage(old(s.Snapshot()), key, s.textInput).view
    ensures r == Continue
  {
    if key == Esc {
      FinishEditing(s);
    } else if key == Tab {
      StartCompletion(s);
    } else {
      s.messageText := s.textInput(s.messageText, key);
    }
    r := Continue;
  }

  method HandleEditingInstructions(s: TuiState, key: Key) returns (r: InputResult)
    requires s.Valid()
    modifies s
    ensures s.Snapshot() == OnEditingInstructions(old(s.Snapshot()), key, s.textInput).view
    ensures r == Continue
  {
    if key == Esc {
      s.mode := Normal;
      s.customInstructions := s.instructionsText;
      s.SetStatus(InstructionsUpdatedStatus);
    } else {
      s.instructionsText := s.textInput(s.instructionsText, key);
    }
    r := Continue;
  }

  method HandleHelp(s: TuiState, key: Key) returns (r: InputResult)
    requires s.Valid()
    modifies s
    ensures s.Snapshot() == OnHelp(old(s.Snapshot())).view
    ensures r == Continue
  {
    s.mode := Normal;
    s.SetStatus(HelpClosedStatus);
    r := Continue;
  }

  method Cycle(s: TuiState, forward: bool)
    requires s.Valid()
    modifies s
    ensures s.Snapshot() == CycleCompletion(old(s.Snapshot()), forward)
  {
    if s.completionSuggestions != [] {
      if forward {
        s.completionIndex := (s.completionIndex + 1) % |s.completionSuggestions|;
      } else if s.completionIndex == 0 {
        s.completionIndex := |s.completionSuggestions| - 1;
      } else {
        s.completionIndex := s.completionIndex - 1;
      }
      s.SetStatus("Selected: " + s.completionSuggestions[s.completionIndex]);
    }
  }

  method Accept(s: TuiState)
    requires s.Valid()
    modifies s
    ensures s.Snapshot() == AcceptCompletion(old(s.Snapshot()))
  {
    if s.completionSuggestions != [] {
      var suggestion := s.completionSuggestions[s.completionIndex];
      s.messages := s.messages[s.currentIndex := s.messages[s.currentIndex].(title := suggestion)];
      s.UpdateMessageTextarea();
      s.completionSuggestions := [];
      s.mode := EditingMessage;
      s.SetStatus(CompletionAcceptedStatus);
    }
  }

  method HandleCompleting(s: TuiState, key: Key) returns (r: InputResult)
    requires s.Valid()
    modifies s
    ensures s.Snapshot() == OnCompleting(old(s.Snapshot()), key, s.textInput).view
    ensures r == Continue
  {
    if key == Tab {
      Cycle(s, true);
      r := Continue;
    } else if key == BackTab {
      Cycle(s, false);
      r := Continue;
    } else if key == Enter {
      Accept(s);
      r := Continue;
    } else if key == Esc {
      s.completionSuggestions := [];
      s.mode := EditingMessage;
      s.SetStatus(CompletionCancelledStatus);
      r := Continue;
    } else {
      s.completionSuggestions := [];
      s.mode := EditingMessage;
      r := HandleEditingMessage(s, key);
    }
  }

  method HandleContextSelection(s: TuiState, key: Key) returns (r: InputResult)
    requires s.Valid()
    modifies s
    ensures s.Snapshot() == OnContextSelection(old(s.Snapshot()), key).view
    ensures r == Continue
  {
    if key == Enter {
      s.mode := Normal;
      s.SetStatus(ContextConfirmedStatus);
    } else if key == Esc {
      s.mode := Normal;
      s.SetStatus(ContextCancelledStatus);
    }
    r := Continue;
  }

  method HandleInput(s: TuiState, key: Key) returns (r: InputResult)
    requires s.Valid()
    modifies s
    ensures s.Snapshot() == OnKey(old(s.Snapshot()), key, s.format, s.textInput).view
    ensures r == OnKey(old(s.Snapshot()), key, s.format, s.textInput).result
  {
    match s.mode
    case Normal => r := HandleNormalKey(s, key);
    case EditingMessage => r := HandleEditingKey(s, key);
    case EditingInstructions => r := HandleEditingInstructions(s, key);
    case Help => r := HandleHelp(s, key);
    case Completing => r := HandleCompleting(s, key);
    case ContextSelection => r := HandleContextSelection(s, key);
    case Generating => r := HandleGenerating(s, key);
    case RebaseList => r := Continue;
    case RebaseEdit => r := Continue;
  }

  /** The Normal-mode handler, after which the screen is redrawn. */
  method HandleNormalKey(s: TuiState, key: Key) returns (r: InputResult)
    requires s.Valid() && s.mode == Normal
    modifies s
    ensures s.Snapshot() == OnKey(old(s.Snapshot()), key, s.format, s.textInput).view
    ensures r == OnKey(old(s.Snapshot()), key, s.format, s.textInput).result
  {
    r := HandleNormalMode(s, key);
    s.dirty := true;
  }

  /** The message-editing handler, after which the screen is redrawn. */
  method HandleEditingKey(s: TuiState, key: Key) returns (r: InputResult)
    requires s.Valid() && s.mode == EditingMessage
    modifies s
    ensures s.Snapshot() == OnKey(old(s.Snapshot()), key, s.format, s.textInput).view
    ensures r == OnKey(old(s.Snapshot()), key, s.format, s.textInput).result
  {
    r := HandleEditingMessage(s, key);
    s.dirty := true;
  }

  /** While a message is being generated only Esc does something: it cancels. */
  method HandleGenerating(s: TuiState, key: Key) returns (r: InputResult)
    requires s.Valid() && s.mode == Generating
    modifies s
    ensures s.Snapshot() == OnKey(old(s.Snapshot()), key, s.format, s.textInput).view
    ensures r == OnKey(old(s.Snapshot()), key, s.format, s.textInput).result
  {
    if key == Esc {
      s.mode := Normal;
      s.SetStatus(GenerationCancelledStatus);
    }
    r := Continue;
  }
}
