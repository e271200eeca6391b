/** What the delivery loop reads off a screen: where the composer is, whether it is empty, and whether it shows the
    message that was pasted (src/server/codex-report-delivery.ts, src/server/codex-prompt-submission.ts). */
module CodexComposer {
  import opened Wrappers
  import opened CodexPasteRecognition
  import CodexMessageEncoding

  const PLACEHOLDER := "Ask Codex to do anything"
  const LABEL_FRONT := "[Pasted Content "
  const LABEL_BACK := " chars]"

  function SkipSpaces(s: string, i: nat): (j: nat)
    requires i <= |s|
    ensures i <= j <= |s|
    decreases |s| - i
  {
    if i < |s| && IsSpace(s[i]) then SkipSpaces(s, i + 1) else i
  }

  function TrimEnd(s: string): string {
    if s != "" && IsSpace(s[|s| - 1]) then TrimEnd(s[..|s| - 1]) else s
  }

  function Trim(s: string): string {
    TrimEnd(s[SkipSpaces(s, 0)..])
  }

  predicate Includes(s: string, part: string) {
    exists i :: 0 <= i <= |s| && StartsAt(s, i, part)
  }

  /** `replace(/\s+/gu, '')`. */
  function WithoutSpaces(s: string): string {
    if s == "" then "" else (if IsSpace(s[0]) then "" else [s[0]]) + WithoutSpaces(s[1..])
  }

  // ---- The composer ----

  /** `line` is the trimmed row of the prompt, `content` everything from that row on. */
  datatype Composer = Composer(line: string, content: string)

  predicate AtPrompt(line: string) {
    var i := SkipSpaces(line, 0);
    i < |line| && line[i] == PROMPT
  }

  /** The last of the first `n` lines that starts with the prompt. */
  function LastPrompt(lines: seq<string>, n: nat): (k: Option<nat>)
    requires n <= |lines|
    ensures k.Some? ==> k.value < n && AtPrompt(lines[k.value]) && forall j :: k.value < j < n ==> !AtPrompt(lines[j])
    ensures k.None? ==> forall j :: 0 <= j < n ==> !AtPrompt(lines[j])
  {
    if n == 0 then None else if AtPrompt(lines[n - 1]) then Some(n - 1) else LastPrompt(lines, n - 1)
  }

  function ComposerOf(screen: string): Composer {
    var lines := SplitLines(screen);
    match LastPrompt(lines, |lines|)
    case None => Composer("", "")
    case Some(start) => Composer(Trim(lines[start]), JoinLines(lines[start..]))
  }

  predicate EmptyComposer(line: string) {
    && line != "" && line[0] == PROMPT
    && var i := SkipSpaces(line, 1);
    i == |line| || (StartsAt(line, i, PLACEHOLDER) && IsBlank(line[i + |PLACEHOLDER|..]))
  }

  /** The label of a paste chip at `i`: its count and where it ends. */
  datatype Label = Label(count: nat, end: nat)

  function LabelAt(line: string, i: nat): (found: Option<Label>)
    requires i <= |line|
    ensures found.Some? ==> found.value.end <= |line|
  {
    if !StartsAt(line, i, LABEL_FRONT) then None
    else
      var digits := i + |LABEL_FRONT|;
      var after := SkipDigits(line, digits);
      if after == digits || !StartsAt(line, after, LABEL_BACK) then None
      else Some(Label(Count(line[digits..after]), after + |LABEL_BACK|))
  }

  /** The label behind the prompt and any spaces, from position `i` on. */
  function PromptLabel(line: string, i: nat): (found: Option<Label>)
    requires i <= |line|
    ensures found.Some? ==> found.value.end <= |line|
  {
    if i < |line| && line[i] == PROMPT then LabelAt(line, SkipSpaces(line, i + 1)) else None
  }

  // ---- Three tests for a visible paste ----

  /** `pastedComposer`: the marker is on screen, or the prompt is followed by a chip of any length. */
  predicate Tagged(input: Composer, marker: string) {
    Includes(input.content, marker) || PromptLabel(input.line, 0).Some?
  }

  /** `completeCodexPasteVisible`: one chip of exactly this length in the first row, or the text up to spaces. */
  predicate CompactVisible(content: string, text: string) {
    var first := SplitLines(content)[0];
    var found := PromptLabel(first, SkipSpaces(first, 0));
    if found.Some? && IsBlank(first[found.value.end..]) then found.value.count == |text|
    else Includes(WithoutSpaces(content), WithoutSpaces(text))
  }

  /** How a message travels decides which test the loop applies to it. */
  datatype Form = Encoded | Compact | Bound

  /** What was pasted. */
  datatype Draft = Draft(text: string, form: Form, marker: string)

  predicate Shows(draft: Draft, screen: string) {
    var input := ComposerOf(screen);
    match draft.form
    case Encoded => CompleteEncoded(input.content, draft.text)
    case Compact => CompactVisible(input.content, draft.text)
    case Bound => Tagged(input, draft.marker) || CompleteText(input.content, draft.text)
  }

  /** The composer accounts for the whole text piece by piece, with nothing left over on either side. */
  ghost predicate Decomposes(content: string, text: string, rawText: bool) {
    && Layout(content).Some?
    && var v := Layout(content).value;
    exists pieces :: Explains(pieces, v, Chips(v.display, 0), rawText, 0, -1, text)
  }

  /** What a screen that passed the test proves. */
  ghost predicate AccountsFor(draft: Draft, screen: string) {
    var input := ComposerOf(screen);
    match draft.form
    case Encoded => '\r' !in draft.text && '\n' !in draft.text && Decomposes(input.content, draft.text, false)
    case Compact => CompactVisible(input.content, draft.text)
    case Bound => Tagged(input, draft.marker) || Decomposes(input.content, draft.text, true)
  }

  lemma ShowsMeans(draft: Draft, screen: string)
    requires Shows(draft, screen)
    ensures AccountsFor(draft, screen)
  {
    hide Layout, Explains, Chips, Complete;
    var content := ComposerOf(screen).content;
    match draft.form
    case Encoded => RecognitionSound(content, draft.text, false);
    case Compact =>
    case Bound => if CompleteText(content, draft.text) { RecognitionSound(content, draft.text, true); }
  }

  // ---- The compact test goes by length alone ----

  function Digits(n: nat): (digits: string)
    ensures digits != "" && (forall i :: 0 <= i < |digits| ==> '0' <= digits[i] <= '9')
  {
    if n < 10 then [('0' as nat + n) as char] else Digits(n / 10) + [('0' as nat + n % 10) as char]
  }

  lemma {:induction false} CountOfDigits(n: nat)
    ensures Count(Digits(n)) == n
  {
    var digits := Digits(n);
    if n >= 10 {
      CountOfDigits(n / 10);
      assert digits[..|digits| - 1] == Digits(n / 10);
    } else {
      assert digits[..|digits| - 1] == "";
    }
  }

  lemma {:induction false} SkipsDigits(front: string, digits: string, back: string, k: nat)
    requires k <= |digits| && forall i :: 0 <= i < |digits| ==> '0' <= digits[i] <= '9'
    requires back != "" && back[0] == ' '
    ensures SkipDigits(front + digits + back, |front| + k) == |front| + |digits|
    decreases |digits| - k
  {
    if k < |digits| { SkipsDigits(front, digits, back, k + 1); }
  }

  /** A composer whose only row is a chip with this count. */
  function ChipScreen(n: nat): string { [PROMPT, ' '] + LABEL_FRONT + Digits(n) + LABEL_BACK }

  lemma LabelBehind(front: string, n: nat)
    ensures var s := front + LABEL_FRONT + Digits(n) + LABEL_BACK; LabelAt(s, |front|) == Some(Label(n, |s|))
  {
    hide Digits, Count, SkipDigits;
    var head, digits := front + LABEL_FRONT, Digits(n);
    var s := head + digits + LABEL_BACK;
    assert s[|front|..|head|] == LABEL_FRONT;
    SkipsDigits(head, digits, LABEL_BACK, 0);
    assert s[|head|..|head| + |digits|] == digits;
    assert s[|head| + |digits|..] == LABEL_BACK;
    CountOfDigits(n);
  }

  lemma ChipScreenLabel(n: nat)
    ensures var s := ChipScreen(n);
            AtPrompt(s) && SkipSpaces(s, 0) == 0 && '\n' !in s && PromptLabel(s, 0) == Some(Label(n, |s|))
  {
    hide LabelAt, Digits;
    var s := ChipScreen(n);
    LabelBehind([PROMPT, ' '], n);
    assert s[0] == PROMPT && s[1] == ' ' && s[2] == '[';
    assert SkipSpaces(s, 2) == 2;
    assert '\n' !in LABEL_FRONT && '\n' !in LABEL_BACK;
  }

  /** Whoever pasted it: one chip of the right length passes for the text. */
  lemma ChipPassesForText(text: string, marker: string)
    ensures Shows(Draft(text, Compact, marker), ChipScreen(|text|))
  {
    hide ChipScreen, PromptLabel, AtPrompt;
    var s := ChipScreen(|text|);
    ChipScreenLabel(|text|);
    SplitSingle(s);
    assert LastPrompt([s], 1) == Some(0);
    assert [s][0..] == [s];
  }

  lemma BarePromptIsEmpty()
    ensures EmptyComposer(ComposerOf([PROMPT]).line)
  {
    var s := [PROMPT];
    SplitSingle(s);
    assert AtPrompt(s) && LastPrompt([s], 1) == Some(0);
    assert s[0..] == s && Trim(s) == s;
  }
}
