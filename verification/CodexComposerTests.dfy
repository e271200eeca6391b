/** The three tests for a visible paste, told from the rows of the screen, in both directions
    (src/server/codex-report-delivery.ts, src/server/codex-prompt-submission.ts). */
module CodexComposerTests {
  import opened Wrappers
  import opened CodexComposer
  import opened CodexPasteContent
  import P = CodexPasteRecognition

  predicate IsCount(s: string) { s != "" && forall c :: c in s ==> '0' <= c <= '9' || c == ',' }

  /** A paste chip: `[Pasted Content 1,234 chars]`. */
  predicate IsChip(s: string) {
    |s| > 23 && s[..16] == "[Pasted Content " && s[|s| - 7..] == " chars]" && IsCount(s[16..|s| - 7])
  }

  /** The number on it, commas removed. */
  function ChipCount(s: string): nat
    requires IsChip(s)
  {
    P.Count(s[16..|s| - 7])
  }

  lemma {:induction false} DigitsSkipped(d: string, i: nat)
    requires i <= |d|
    ensures var j := P.SkipDigits(d, i);
      && (forall k :: i <= k < j ==> '0' <= d[k] <= '9' || d[k] == ',') && (j < |d| ==> !('0' <= d[j] <= '9' || d[j] == ','))
    decreases |d| - i
  {
    if i < |d| && ('0' <= d[i] <= '9' || d[i] == ',') { DigitsSkipped(d, i + 1); }
  }

  lemma LabelIsChip(line: string, i: nat)
    requires i <= |line| && LabelAt(line, i).Some?
    ensures var l := LabelAt(line, i).value; i <= l.end && IsChip(line[i..l.end]) && l.count == ChipCount(line[i..l.end])
  {
    DigitsSkipped(line, i + 16);
    var after := P.SkipDigits(line, i + 16);
    var s, digits := line[i..after + 7], line[i + 16..after];
    assert s[..16] == line[i..i + 16] && s[|s| - 7..] == line[after..after + 7] && s[16..|s| - 7] == digits;
    forall k | 0 <= k < |digits| ensures '0' <= digits[k] <= '9' || digits[k] == ',' {
      assert digits[k] == line[i + 16 + k];
    }
  }

  lemma ChipIsLabel(line: string, i: nat, e: nat)
    requires i <= e <= |line| && IsChip(line[i..e])
    ensures LabelAt(line, i) == Some(Label(ChipCount(line[i..e]), e))
  {
    var s, after := line[i..e], e - 7;
    var digits := s[16..|s| - 7];
    assert forall k :: 0 <= k < |s| ==> s[k] == line[i + k];
    assert s[..16] == line[i..i + 16];
    assert s[|s| - 7..] == line[after..e];
    assert digits == line[i + 16..after];
    assert line[after] == s[|s| - 7..][0] == ' ';
    forall k | i + 16 <= k < after ensures '0' <= line[k] <= '9' || line[k] == ',' {
      var c := digits[k - i - 16];
      assert line[k] == c && c in digits;
    }
    hide IsCount;
    DigitsSkipped(line, i + 16);
    assert P.SkipDigits(line, i + 16) == after;
  }

  /** In this row a prompt at `from` is followed by white space and the chip from `j` to `e`. */
  predicate ChipBehind(row: string, from: nat, j: nat, e: nat) {
    from < j <= e <= |row| && row[from] == '\U{203A}' && Blank(row[from + 1..j]) && IsChip(row[j..e])
  }

  lemma LabelBehind(row: string, from: nat)
    requires from <= |row| && PromptLabel(row, from).Some?
    ensures from < |row| && var j, l := SkipSpaces(row, from + 1), PromptLabel(row, from).value;
      ChipBehind(row, from, j, l.end) && l.count == ChipCount(row[j..l.end])
  {
    SkipSpacesIs(row, from + 1);
    LabelIsChip(row, SkipSpaces(row, from + 1));
  }

  lemma ChipIsBehind(row: string, from: nat, j: nat, e: nat)
    requires ChipBehind(row, from, j, e)
    ensures PromptLabel(row, from) == Some(Label(ChipCount(row[j..e]), e))
  {
    ChipIsLabel(row, j, e);
    assert row[j..e][..16][0] == '[' && row[j] == row[j..e][0];
    hide LabelAt, IsChip;
    SpacesEnd(row, from + 1, j);
  }

  lemma SpacesEnd(row: string, from: nat, j: nat)
    requires from <= j < |row| && Blank(row[from..j]) && row[j] !in WHITE
    ensures SkipSpaces(row, from) == j
  {
    SkipSpacesIs(row, from);
    BlankAt(row, from, j);
    BlankAt(row, from, SkipSpaces(row, from));
  }

  predicate StandsAt(s: string, part: string, i: nat) { i + |part| <= |s| && s[i..i + |part|] == part }

  predicate Contains(s: string, part: string) { exists i :: 0 <= i <= |s| && StandsAt(s, part, i) }

  lemma IncludesIs(s: string, part: string)
    ensures Includes(s, part) <==> Contains(s, part)
  {
    assert forall i :: 0 <= i <= |s| ==> (P.StartsAt(s, i, part) <==> StandsAt(s, part, i));
  }

  /** A paste into a known session is recognised by its marker anywhere from the prompt on, or by any chip behind the prompt. */
  lemma TaggedIff(input: Composer, marker: string)
    ensures Tagged(input, marker) <==> Contains(input.content, marker) || exists j: nat, e: nat :: ChipBehind(input.line, 0, j, e)
  {
    IncludesIs(input.content, marker);
    hide ChipBehind, PromptLabel;
    if PromptLabel(input.line, 0).Some? { LabelBehind(input.line, 0); }
    if exists j: nat, e: nat :: ChipBehind(input.line, 0, j, e) {
      var j: nat, e: nat :| ChipBehind(input.line, 0, j, e);
      ChipIsBehind(input.line, 0, j, e);
    }
  }

  /** The row shows the prompt and one chip, and nothing else. */
  predicate OnlyChip(row: string, a: nat, j: nat, e: nat) {
    a < |row| && Blank(row[..a]) && ChipBehind(row, a, j, e) && Blank(row[e..])
  }

  predicate ShowsOnlyChip(row: string) {
    exists a, j, e :: 0 <= a < |row| && 0 <= j < |row| && 0 <= e <= |row| && OnlyChip(row, a, j, e)
  }

  lemma OnlyChipIs(row: string, a: nat, j: nat, e: nat)
    requires OnlyChip(row, a, j, e)
    ensures a == SkipSpaces(row, 0) && PromptLabel(row, a) == Some(Label(ChipCount(row[j..e]), e)) && P.IsBlank(row[e..])
  {
    ChipIsBehind(row, a, j, e);
    BlankIs(row[e..]);
    assert row[0..a] == row[..a];
    hide IsChip, PromptLabel;
    SpacesEnd(row, 0, a);
  }

  lemma OnlyLabelIs(row: string)
    requires var found := PromptLabel(row, SkipSpaces(row, 0)); found.Some? && P.IsBlank(row[found.value.end..])
    ensures ShowsOnlyChip(row)
  {
    var a := SkipSpaces(row, 0);
    LabelBehind(row, a);
    SkipSpacesIs(row, 0);
    assert row[0..a] == row[..a];
    BlankIs(row[PromptLabel(row, a).value.end..]);
    hide IsChip, PromptLabel;
    assert OnlyChip(row, a, SkipSpaces(row, a + 1), PromptLabel(row, a).value.end);
  }

  /** A paste into a session yet unknown: if the first row shows one chip and nothing else, its number decides; else all of
      the text must be there, white space aside. */
  lemma CompactIff(content: string, text: string, a: nat, j: nat, e: nat)
    ensures var row := P.SplitLines(content)[0];
      && (OnlyChip(row, a, j, e) ==> (CompactVisible(content, text) <==> ChipCount(row[j..e]) == |text|))
      && (!ShowsOnlyChip(row) ==> (CompactVisible(content, text) <==> Contains(WithoutSpaces(content), WithoutSpaces(text))))
  {
    var row := P.SplitLines(content)[0];
    IncludesIs(WithoutSpaces(content), WithoutSpaces(text));
    hide OnlyChip, PromptLabel, ShowsOnlyChip, IsChip, P.IsBlank;
    if OnlyChip(row, a, j, e) {
      ChipInRow(row, a, j, e);
      OnlyChipIs(row, a, j, e);
    }
    var found := PromptLabel(row, SkipSpaces(row, 0));
    if found.Some? && P.IsBlank(row[found.value.end..]) { OnlyLabelIs(row); }
  }

  lemma ChipInRow(row: string, a: nat, j: nat, e: nat)
    requires OnlyChip(row, a, j, e)
    ensures a < j <= e <= |row| && IsChip(row[j..e])
  {}

  /** Which test applies: an encoded wire must be shown completely, a draft for an unknown session passes the compact test, one
      for a known session its tag or its whole text. */
  lemma ShowsIff(draft: Draft, screen: string)
    ensures var content := ComposerOf(screen).content;
      Shows(draft, screen) <==>
        match draft.form
        case Encoded => P.CompleteEncoded(content, draft.text)
        case Compact => CompactVisible(content, draft.text)
        case Bound => Tagged(ComposerOf(screen), draft.marker) || P.CompleteText(content, draft.text)
  {
    hide CompactVisible, Tagged, P.CompleteEncoded, P.CompleteText, ComposerOf;
  }
}
