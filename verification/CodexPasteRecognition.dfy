/** Recognition of a complete paste in a terminal composer (src/server/codex-message-wire.ts).

    Positions count Unicode scalar values; the source counts UTF-16 units on both sides of every
    comparison, which gives the same verdicts on text without lone surrogates. */
module CodexPasteRecognition {
  import opened Wrappers
  import CodexMessageEncoding

  const PROMPT: char := '\U{203A}'
  const MAX_SAFE_INTEGER: nat := 9007199254740991

  // ---- Screen layout: the composer's first row, its continuation rows, its row breaks ----

  function SplitLines(s: string): (lines: seq<string>)
    ensures |lines| > 0
  {
    if s == "" then [""]
    else
      var rest := SplitLines(s[1..]);
      if s[0] == '\n' then [""] + rest else [[s[0]] + rest[0]] + rest[1..]
  }

  /** ECMA-262 WhiteSpace and LineTerminator, what `trim` removes. */
  predicate IsSpace(c: char) {
    || c == ' ' || '\t' <= c <= '\r' || c == '\U{00A0}' || c == '\U{1680}' || c == '\U{FEFF}'
    || '\U{2000}' <= c <= '\U{200A}' || c == '\U{2028}' || c == '\U{2029}' || c == '\U{202F}'
    || c == '\U{205F}' || c == '\U{3000}'
  }

  predicate IsBlank(row: string) {
    forall i :: 0 <= i < |row| ==> IsSpace(row[i])
  }

  /** What `.` refuses in a regular expression. */
  predicate IsLineTerminator(c: char) {
    c == '\n' || c == '\r' || c == '\U{2028}' || c == '\U{2029}'
  }

  /** The capture of `^[ \t]*> (.*)$` with the prompt glyph in place of `>`. */
  function FirstRow(line: string): Option<string> {
    if line == "" then None
    else if line[0] == ' ' || line[0] == '\t' then FirstRow(line[1..])
    else if |line| >= 2 && line[0] == PROMPT && line[1] == ' '
            && forall i :: 2 <= i < |line| ==> !IsLineTerminator(line[i])
    then Some(line[2..])
    else None
  }

  /** The composer's characters without row structure, and where its rows broke. */
  datatype View = View(display: string, rowBreaks: set<nat>)

  function GatherRows(view: View, rows: seq<string>): Option<View>
    decreases |rows|
  {
    if rows == [] || IsBlank(rows[0]) then Some(view)
    else if !("  " <= rows[0]) then None
    else GatherRows(View(view.display + rows[0][2..], view.rowBreaks + {|view.display|}), rows[1..])
  }

  function Layout(content: string): Option<View> {
    var lines := SplitLines(content);
    match FirstRow(lines[0])
    case None => None
    case Some(first) => GatherRows(View(first, {}), lines[1..])
  }

  // ---- Paste chips: \[Pasted[ \t]*Content[ \t]*([\d,]+)[ \t]*chars\] ----

  datatype Chip = Chip(start: nat, end: nat, count: nat)

  function SkipBlanks(d: string, i: nat): (j: nat)
    requires i <= |d|
    ensures i <= j <= |d|
    decreases |d| - i
  {
    if i < |d| && (d[i] == ' ' || d[i] == '\t') then SkipBlanks(d, i + 1) else i
  }

  function SkipDigits(d: string, i: nat): (j: nat)
    requires i <= |d|
    ensures i <= j <= |d|
    decreases |d| - i
  {
    if i < |d| && ('0' <= d[i] <= '9' || d[i] == ',') then SkipDigits(d, i + 1) else i
  }

  predicate StartsAt(d: string, i: nat, literal: string) {
    i + |literal| <= |d| && d[i..i + |literal|] == literal
  }

  /** The decimal value of the digits, commas removed. */
  function Count(digits: string): nat {
    if digits == "" then 0
    else
      var last := digits[|digits| - 1];
      var front := Count(digits[..|digits| - 1]);
      if '0' <= last <= '9' then 10 * front + (last as nat - '0' as nat) else front
  }

  function ChipAt(d: string, i: nat): (chip: Option<Chip>)
    requires i <= |d|
    ensures chip.Some? ==> chip.value.start == i < chip.value.end <= |d|
  {
    if !StartsAt(d, i, "[Pasted") then None
    else
      var content := SkipBlanks(d, i + 7);
      if !StartsAt(d, content, "Content") then None
      else
        var digits := SkipBlanks(d, content + 7);
        var after := SkipDigits(d, digits);
        var chars := SkipBlanks(d, after);
        if after == digits || !StartsAt(d, chars, "chars]") then None
        else Some(Chip(i, chars + 6, Count(d[digits..after])))
  }

  /** All labels from `i` on, leftmost first and without overlap: what `matchAll` yields. */
  function Chips(d: string, i: nat): (chips: seq<Chip>)
    requires i <= |d|
    ensures Ordered(chips, i, |d|)
    decreases |d| - i
  {
    if i == |d| then []
    else match ChipAt(d, i)
      case Some(chip) => [chip] + Chips(d, chip.end)
      case None => Chips(d, i + 1)
  }

  predicate Ordered(chips: seq<Chip>, from: nat, to: nat) {
    && (forall i :: 0 <= i < |chips| ==> from <= chips[i].start < chips[i].end <= to)
    && (forall i, j :: 0 <= i < j < |chips| ==> chips[i].end <= chips[j].start)
  }

  /** Every chip of the list is a label of the display ... */
  lemma {:induction false} ChipsAreLabels(d: string, i: nat, chip: Chip)
    requires i <= |d| && chip in Chips(d, i)
    ensures chip.start < |d| && ChipAt(d, chip.start) == Some(chip)
    decreases |d| - i
  {
    var first := ChipAt(d, i);
    if first.None? {
      ChipsAreLabels(d, i + 1, chip);
    } else if first.value != chip {
      ChipsAreLabels(d, first.value.end, chip);
    }
  }

  /** ... and no label is missing, unless it overlaps an earlier one. */
  lemma {:induction false} LabelsAreChips(d: string, i: nat, k: nat)
    requires i <= k < |d| && ChipAt(d, k).Some?
    ensures exists chip :: chip in Chips(d, i) && chip.start <= k < chip.end
    decreases |d| - i
  {
    var first := ChipAt(d, i);
    if first.None? {
      LabelsAreChips(d, i + 1, k);
    } else if k < first.value.end {
      assert first.value in Chips(d, i);
    } else {
      LabelsAreChips(d, first.value.end, k);
    }
  }

  // ---- The matcher ----

  function SkipRowBreak(v: View, text: string, rawText: bool, opaqueEnd: int, i: nat, offset: nat): (o: nat)
    requires offset <= |text|
    ensures offset <= o <= |text|
  {
    if rawText && i != opaqueEnd && i in v.rowBreaks && offset < |text| && text[offset] == '\n'
    then offset + 1 else offset
  }

  function ConsumeInline(v: View, text: string, rawText: bool, opaqueEnd: int, i: nat, end: nat, offset: nat): (o: Option<nat>)
    requires i <= end <= |v.display| && offset <= |text|
    ensures o.Some? ==> o.value <= |text|
    decreases end - i
  {
    if i == end then Some(offset)
    else
      var o := SkipRowBreak(v, text, rawText, opaqueEnd, i, offset);
      if o < |text| && v.display[i] == text[o]
      then ConsumeInline(v, text, rawText, opaqueEnd, i + 1, end, o + 1)
      else None
  }

  /** Where one chip leaves the match: the end of the last opaque chip and the text offset. */
  datatype Progress = Progress(opaqueEnd: int, offset: nat)

  function ConsumeChip(v: View, chip: Chip, text: string, rawText: bool, opaqueEnd: int, cursor: nat, offset: nat): (p: Option<Progress>)
    requires cursor <= chip.start < chip.end <= |v.display| && offset <= |text|
    ensures p.Some? ==> p.value.offset <= |text|
  {
    match ConsumeInline(v, text, rawText, opaqueEnd, cursor, chip.start, offset)
    case None => None
    case Some(o) =>
      if StartsAt(text, o, v.display[chip.start..chip.end])
      then Some(Progress(opaqueEnd, o + (chip.end - chip.start)))
      else if 0 < chip.count <= MAX_SAFE_INTEGER && o + chip.count <= |text|
      then Some(Progress(chip.end, o + chip.count))
      else None
  }

  function Consume(v: View, chips: seq<Chip>, next: nat, text: string, rawText: bool, opaqueEnd: int, cursor: nat, offset: nat): (o: Option<nat>)
    requires Ordered(chips, 0, |v.display|) && AtChip(v, chips, next, cursor) && offset <= |text|
    ensures o.Some? ==> o.value <= |text|
    decreases |chips| - next
  {
    if next == |chips| then ConsumeInline(v, text, rawText, opaqueEnd, cursor, |v.display|, offset)
    else
      match ConsumeChip(v, chips[next], text, rawText, opaqueEnd, cursor, offset)
      case None => None
      case Some(p) => Consume(v, chips, next + 1, text, rawText, p.opaqueEnd, chips[next].end, p.offset)
  }

  /** The cursor stands between chip `next - 1` and chip `next`. */
  predicate AtChip(v: View, chips: seq<Chip>, next: nat, cursor: nat) {
    && next <= |chips| && cursor <= |v.display|
    && (next < |chips| ==> cursor <= chips[next].start)
  }

  predicate OnlyBreaksFrom(text: string, from: nat) {
    forall i :: from <= i < |text| ==> text[i] == '\n'
  }

  predicate Finished(text: string, rawText: bool, reached: Option<nat>) {
    reached.Some? && (reached.value == |text| || (rawText && OnlyBreaksFrom(text, reached.value)))
  }

  predicate Complete(content: string, text: string, rawText: bool) {
    match Layout(content)
    case None => false
    case Some(v) => Finished(text, rawText, Consume(v, Chips(v.display, 0), 0, text, rawText, -1, 0, 0))
  }

  predicate CompleteEncoded(content: string, wire: string) {
    '\r' !in wire && '\n' !in wire && Complete(content, wire, false)
  }

  predicate CompleteText(content: string, text: string) {
    Complete(content, text, true)
  }

  /** The source's loops, against the specification above. */
  method CompleteVisiblePaste(content: string, text: string, rawText: bool) returns (complete: bool)
    ensures complete == Complete(content, text, rawText)
  {
    var lines := SplitLines(content);
    var first := FirstRow(lines[0]);
    if first.None? {
      return false;
    }
    var display := first.value;
    var rowBreaks: set<nat> := {};
    var row := 1;
    while row < |lines| && !IsBlank(lines[row])
      invariant 1 <= row <= |lines|
      invariant Layout(content) == GatherRows(View(display, rowBreaks), lines[row..])
    {
      if !("  " <= lines[row]) {
        return false;
      }
      rowBreaks := rowBreaks + {|display|};
      display := display + lines[row][2..];
      row := row + 1;
    }
    var v := View(display, rowBreaks);
    assert Layout(content) == Some(v);
    complete := ConsumeDisplay(v, Chips(display, 0), text, rawText);
  }

  method ConsumeDisplay(v: View, chips: seq<Chip>, text: string, rawText: bool) returns (complete: bool)
    requires Ordered(chips, 0, |v.display|)
    ensures complete == Finished(text, rawText, Consume(v, chips, 0, text, rawText, -1, 0, 0))
  {
    var offset: nat, opaquePasteEnd: int, cursor: nat, next: nat := 0, -1, 0, 0;
    ghost var reached := Consume(v, chips, 0, text, rawText, -1, 0, 0);
    while next < |chips|
      invariant AtChip(v, chips, next, cursor) && offset <= |text|
      invariant reached == Consume(v, chips, next, text, rawText, opaquePasteEnd, cursor, offset)
    {
      var step := PassChip(v, chips[next], text, rawText, opaquePasteEnd, cursor, offset);
      if step.None? {
        return false;
      }
      opaquePasteEnd, offset := step.value.opaqueEnd, step.value.offset;
      cursor := chips[next].end;
      next := next + 1;
    }
    var inline := Inline(v, text, rawText, opaquePasteEnd, cursor, |v.display|, offset);
    if inline.None? {
      return false;
    }
    offset := inline.value;
    assert reached == Some(offset);
    return offset == |text| || (rawText && OnlyBreaksFrom(text, offset));
  }

  method PassChip(v: View, chip: Chip, text: string, rawText: bool, opaqueEnd: int, cursor: nat, from: nat)
    returns (step: Option<Progress>)
    requires cursor <= chip.start < chip.end <= |v.display| && from <= |text|
    ensures step == ConsumeChip(v, chip, text, rawText, opaqueEnd, cursor, from)
  {
    var inline := Inline(v, text, rawText, opaqueEnd, cursor, chip.start, from);
    if inline.None? {
      return None;
    }
    var offset := inline.value;
    if StartsAt(text, offset, v.display[chip.start..chip.end]) {
      return Some(Progress(opaqueEnd, offset + (chip.end - chip.start)));
    }
    if !(0 < chip.count <= MAX_SAFE_INTEGER) || offset + chip.count > |text| {
      return None;
    }
    return Some(Progress(chip.end, offset + chip.count));
  }

  method Inline(v: View, text: string, rawText: bool, opaqueEnd: int, start: nat, end: nat, from: nat)
    returns (reached: Option<nat>)
    requires start <= end <= |v.display| && from <= |text|
    ensures reached == ConsumeInline(v, text, rawText, opaqueEnd, start, end, from)
  {
    var index, offset := start, from;
    while index < end
      invariant start <= index <= end && 0 <= offset <= |text|
      invariant ConsumeInline(v, text, rawText, opaqueEnd, start, end, from)
             == ConsumeInline(v, text, rawText, opaqueEnd, index, end, offset)
    {
      if rawText && index != opaqueEnd && index in v.rowBreaks && offset < |text| && text[offset] == '\n' {
        offset := offset + 1;
      }
      if offset >= |text| || v.display[index] != text[offset] {
        return None;
      }
      offset := offset + 1;
      index := index + 1;
    }
    return Some(offset);
  }

  // ---- Soundness: every accepted screen has an explanation ----

  /** One consecutive piece of the text and how the screen accounts for it. */
  datatype Piece =
    | Visible              // one character, shown as itself
    | Hidden(chip: Chip)   // as many characters as the label of this chip says
    | RowBreak             // the line break in front of the first character of a composer row
    | FinalBreaks          // the line breaks that end the text

  /** `pieces` account for all of `rest`, using exactly the display from `at` on. `shut` is the
      position just behind the last chip, where a row break proves nothing. A row boundary accounts for one line
      break at most, and only together with the character behind it. */
  ghost predicate Explains(pieces: seq<Piece>, v: View, chips: seq<Chip>, rawText: bool, at: nat, shut: int, rest: string)
    decreases |pieces|
  {
    if pieces == [] then at == |v.display| && rest == ""
    else match pieces[0]
      case Visible =>
        && at < |v.display| && rest != "" && v.display[at] == rest[0]
        && Explains(pieces[1..], v, chips, rawText, at + 1, shut, rest[1..])
      case Hidden(chip) =>
        && chip in chips && chip.start == at && 0 < chip.count <= |rest|
        && Explains(pieces[1..], v, chips, rawText, chip.end, chip.end, rest[chip.count..])
      case RowBreak =>
        && rawText && at in v.rowBreaks && at != shut && rest != "" && rest[0] == '\n'
        && |pieces| > 1 && pieces[1].Visible?
        && Explains(pieces[1..], v, chips, rawText, at, shut, rest[1..])
      case FinalBreaks =>
        rawText && |pieces| == 1 && at == |v.display| && OnlyBreaksFrom(rest, 0)
  }

  lemma SliceTail(s: string, from: nat, to: nat)
    requires from < to <= |s|
    ensures s[from..to][0] == s[from] && s[from..to][1..] == s[from + 1..to]
  {}

  lemma {:induction false} ExplainVisible(v: View, chips: seq<Chip>, text: string, rawText: bool, shut: int, at: nat, n: nat, offset: nat, tail: seq<Piece>)
    returns (pieces: seq<Piece>)
    requires at + n <= |v.display| && offset + n <= |text|
    requires v.display[at..at + n] == text[offset..offset + n]
    requires Explains(tail, v, chips, rawText, at + n, shut, text[offset + n..])
    ensures Explains(pieces, v, chips, rawText, at, shut, text[offset..])
    decreases n
  {
    if n == 0 {
      pieces := tail;
    } else {
      SliceTail(v.display, at, at + n);
      SliceTail(text, offset, offset + n);
      var rest := ExplainVisible(v, chips, text, rawText, shut, at + 1, n - 1, offset + 1, tail);
      pieces := [Visible] + rest;
      assert pieces[1..] == rest;
      assert text[offset..][1..] == text[offset + 1..];
    }
  }

  lemma {:induction false} ExplainInline(v: View, chips: seq<Chip>, text: string, rawText: bool, shut: int, i: nat, end: nat, offset: nat, tail: seq<Piece>)
    returns (pieces: seq<Piece>)
    requires i <= end <= |v.display| && offset <= |text|
    requires ConsumeInline(v, text, rawText, shut, i, end, offset).Some?
    requires Explains(tail, v, chips, rawText, end, shut, text[ConsumeInline(v, text, rawText, shut, i, end, offset).value..])
    ensures Explains(pieces, v, chips, rawText, i, shut, text[offset..])
    decreases end - i
  {
    if i == end {
      pieces := tail;
    } else {
      var o := SkipRowBreak(v, text, rawText, shut, i, offset);
      var rest := ExplainInline(v, chips, text, rawText, shut, i + 1, end, o + 1, tail);
      pieces := [Visible] + rest;
      hide Explains, ConsumeInline;
      ExplainCharacter(v, chips, text, rawText, shut, i, o, rest);
      if o != offset {
        ExplainRowBreak(v, chips, text, rawText, shut, i, offset, pieces);
        pieces := [RowBreak] + pieces;
      }
    }
  }

  lemma ExplainCharacter(v: View, chips: seq<Chip>, text: string, rawText: bool, shut: int, i: nat, o: nat, rest: seq<Piece>)
    requires i < |v.display| && o < |text| && v.display[i] == text[o]
    requires Explains(rest, v, chips, rawText, i + 1, shut, text[o + 1..])
    ensures Explains([Visible] + rest, v, chips, rawText, i, shut, text[o..])
  {
    assert ([Visible] + rest)[1..] == rest && text[o..][1..] == text[o + 1..];
  }

  lemma ExplainRowBreak(v: View, chips: seq<Chip>, text: string, rawText: bool, shut: int, i: nat, offset: nat, shown: seq<Piece>)
    requires rawText && i != shut && i in v.rowBreaks && offset < |text| && text[offset] == '\n'
    requires shown != [] && shown[0].Visible? && Explains(shown, v, chips, rawText, i, shut, text[offset + 1..])
    ensures Explains([RowBreak] + shown, v, chips, rawText, i, shut, text[offset..])
  {
    assert ([RowBreak] + shown)[1..] == shown && text[offset..][1..] == text[offset + 1..];
  }

  lemma ExplainHidden(v: View, chips: seq<Chip>, text: string, rawText: bool, shut: int, chip: Chip, o: nat, rest: seq<Piece>)
    returns (pieces: seq<Piece>)
    requires chip in chips && 0 < chip.count && o + chip.count <= |text|
    requires Explains(rest, v, chips, rawText, chip.end, chip.end, text[o + chip.count..])
    ensures Explains(pieces, v, chips, rawText, chip.start, shut, text[o..])
  {
    pieces := [Hidden(chip)] + rest;
    assert pieces[1..] == rest && text[o..][chip.count..] == text[o + chip.count..];
  }

  lemma ExplainChip(v: View, chips: seq<Chip>, text: string, rawText: bool, shut: int, cursor: nat, chip: Chip, offset: nat, p: Progress, rest: seq<Piece>)
    returns (pieces: seq<Piece>)
    requires chip in chips && cursor <= chip.start < chip.end <= |v.display| && offset <= |text|
    requires ConsumeChip(v, chip, text, rawText, shut, cursor, offset) == Some(p)
    requires Explains(rest, v, chips, rawText, chip.end, p.opaqueEnd, text[p.offset..])
    ensures Explains(pieces, v, chips, rawText, cursor, shut, text[offset..])
  {
    hide Explains, ConsumeInline;
    var o := ConsumeInline(v, text, rawText, shut, cursor, chip.start, offset).value;
    var tail: seq<Piece>;
    if StartsAt(text, o, v.display[chip.start..chip.end]) {
      tail := ExplainVisible(v, chips, text, rawText, shut, chip.start, chip.end - chip.start, o, rest);
    } else {
      tail := ExplainHidden(v, chips, text, rawText, shut, chip, o, rest);
    }
    pieces := ExplainInline(v, chips, text, rawText, shut, cursor, chip.start, offset, tail);
  }

  lemma ExplainEnd(v: View, chips: seq<Chip>, text: string, rawText: bool, shut: int, cursor: nat, offset: nat)
    returns (pieces: seq<Piece>)
    requires cursor <= |v.display| && offset <= |text|
    requires ConsumeInline(v, text, rawText, shut, cursor, |v.display|, offset).Some?
    requires var o := ConsumeInline(v, text, rawText, shut, cursor, |v.display|, offset).value;
             o == |text| || (rawText && OnlyBreaksFrom(text, o))
    ensures Explains(pieces, v, chips, rawText, cursor, shut, text[offset..])
  {
    var o := ConsumeInline(v, text, rawText, shut, cursor, |v.display|, offset).value;
    var tail := if o == |text| then [] else [FinalBreaks];
    assert Explains(tail, v, chips, rawText, |v.display|, shut, text[o..]);
    pieces := ExplainInline(v, chips, text, rawText, shut, cursor, |v.display|, offset, tail);
  }

  lemma {:induction false} ExplainConsume(v: View, chips: seq<Chip>, next: nat, text: string, rawText: bool, shut: int, cursor: nat, offset: nat)
    returns (pieces: seq<Piece>)
    requires Ordered(chips, 0, |v.display|) && AtChip(v, chips, next, cursor) && offset <= |text|
    requires Finished(text, rawText, Consume(v, chips, next, text, rawText, shut, cursor, offset))
    ensures Explains(pieces, v, chips, rawText, cursor, shut, text[offset..])
    decreases |chips| - next
  {
    if next == |chips| {
      pieces := ExplainEnd(v, chips, text, rawText, shut, cursor, offset);
    } else {
      var chip := chips[next];
      var p := ConsumeChip(v, chip, text, rawText, shut, cursor, offset).value;
      var rest := ExplainConsume(v, chips, next + 1, text, rawText, p.opaqueEnd, chip.end, p.offset);
      pieces := ExplainChip(v, chips, text, rawText, shut, cursor, chip, offset, p, rest);
    }
  }

  /** Soundness of recognition: an accepted screen accounts for the whole text, piece by piece,
      with nothing left over on either side. */
  lemma RecognitionSound(content: string, text: string, rawText: bool)
    requires Complete(content, text, rawText)
    ensures Layout(content).Some?
    ensures var v := Layout(content).value;
            exists pieces :: Explains(pieces, v, Chips(v.display, 0), rawText, 0, -1, text)
  {
    var v := Layout(content).value;
    var chips := Chips(v.display, 0);
    var pieces := ExplainConsume(v, chips, 0, text, rawText, -1, 0, 0);
    assert text[0..] == text;
    assert Explains(pieces, v, chips, rawText, 0, -1, text);
  }

  /** How many characters of the text the pieces account for. */
  ghost function Covered(pieces: seq<Piece>): nat {
    if pieces == [] then 0
    else (match pieces[0] case Hidden(chip) => chip.count case FinalBreaks => 0 case _ => 1) + Covered(pieces[1..])
  }

  /** For an encoded wire the pieces are visible characters and chips only, and their sizes add
      up to the wire: a missing or extra character is never overlooked. */
  lemma {:induction false} EncodedExactCover(pieces: seq<Piece>, v: View, chips: seq<Chip>, at: nat, shut: int, rest: string)
    requires Explains(pieces, v, chips, false, at, shut, rest)
    ensures Covered(pieces) == |rest|
    ensures forall i :: 0 <= i < |pieces| ==> pieces[i].Visible? || pieces[i].Hidden?
    decreases |pieces|
  {
    if pieces != [] {
      match pieces[0] {
        case Visible => EncodedExactCover(pieces[1..], v, chips, at + 1, shut, rest[1..]);
        case Hidden(chip) => EncodedExactCover(pieces[1..], v, chips, chip.end, chip.end, rest[chip.count..]);
        case RowBreak =>
        case FinalBreaks =>
      }
    }
  }

  // ---- Exactness on screens without a chip ----

  lemma {:induction false} InlineIsComparison(v: View, wire: string, shut: int, i: nat, end: nat, offset: nat)
    requires i <= end <= |v.display| && offset <= |wire|
    ensures ConsumeInline(v, wire, false, shut, i, end, offset).Some? <==>
            offset + (end - i) <= |wire| && v.display[i..end] == wire[offset..offset + (end - i)]
    ensures ConsumeInline(v, wire, false, shut, i, end, offset).Some? ==>
            ConsumeInline(v, wire, false, shut, i, end, offset).value == offset + (end - i)
    decreases end - i
  {
    if i < end {
      if offset < |wire| && v.display[i] == wire[offset] {
        InlineIsComparison(v, wire, shut, i + 1, end, offset + 1);
        if offset + (end - i) <= |wire| {
          assert v.display[i..end] == [v.display[i]] + v.display[i + 1..end];
          assert wire[offset..offset + (end - i)] == [wire[offset]] + wire[offset + 1..offset + (end - i)];
        }
      } else if offset + (end - i) <= |wire| {
        assert v.display[i..end][0] == v.display[i] && wire[offset..offset + (end - i)][0] == wire[offset];
      }
    }
  }

  /** Without a chip on screen, an encoded wire is recognised exactly when the screen shows it
      character for character. */
  lemma NoChipMeansEquality(content: string, wire: string)
    requires Layout(content).Some? && Chips(Layout(content).value.display, 0) == []
    ensures Complete(content, wire, false) <==> Layout(content).value.display == wire
  {
    var v := Layout(content).value;
    InlineIsComparison(v, wire, -1, 0, |v.display|, 0);
    assert v.display[0..|v.display|] == v.display;
    assert wire[0..|wire|] == wire;
  }

  // ---- Completeness: which wraps of a wire are recognised ----

  lemma {:induction false} PrefixIsConsumed(v: View, chips: seq<Chip>, next: nat, wire: string, cursor: nat)
    requires v.display <= wire && Ordered(chips, 0, |v.display|) && AtChip(v, chips, next, cursor)
    ensures Consume(v, chips, next, wire, false, -1, cursor, cursor) == Some(|v.display|)
    decreases |chips| - next
  {
    hide ConsumeChip;
    if next == |chips| {
      InlineIsComparison(v, wire, -1, cursor, |v.display|, cursor);
    } else {
      PrefixChip(v, chips[next], wire, cursor);
      PrefixIsConsumed(v, chips, next + 1, wire, chips[next].end);
    }
  }

  /** A label that stands in the text itself is passed as text. */
  lemma PrefixChip(v: View, chip: Chip, wire: string, cursor: nat)
    requires v.display <= wire && cursor <= chip.start < chip.end <= |v.display|
    ensures ConsumeChip(v, chip, wire, false, -1, cursor, cursor) == Some(Progress(-1, chip.end))
  {
    hide ConsumeInline;
    InlineIsComparison(v, wire, -1, cursor, chip.start, cursor);
    assert v.display[cursor..chip.start] == wire[cursor..chip.start];
    assert v.display[chip.start..chip.end] == wire[chip.start..chip.end];
  }

  function Flatten(rows: seq<string>): string {
    if rows == [] then "" else rows[0] + Flatten(rows[1..])
  }

  function JoinLines(lines: seq<string>): string
    requires lines != []
  {
    if |lines| == 1 then lines[0] else lines[0] + "\n" + JoinLines(lines[1..])
  }

  lemma {:induction false} SplitFirst(line: string, rest: string)
    requires '\n' !in line
    ensures SplitLines(line + "\n" + rest) == [line] + SplitLines(rest)
  {
    if line == "" {
      assert line + "\n" + rest == "\n" + rest && ("\n" + rest)[1..] == rest;
    } else {
      var s := line + "\n" + rest;
      assert s[1..] == line[1..] + "\n" + rest;
      SplitFirst(line[1..], rest);
      assert [s[0]] + line[1..] == line;
    }
  }

  lemma {:induction false} SplitSingle(line: string)
    requires '\n' !in line
    ensures SplitLines(line) == [line]
  {
    if line != "" {
      SplitSingle(line[1..]);
      assert [line[0]] + line[1..] == line;
    }
  }

  lemma {:induction false} SplitJoined(lines: seq<string>)
    requires lines != [] && forall i :: 0 <= i < |lines| ==> '\n' !in lines[i]
    ensures SplitLines(JoinLines(lines)) == lines
  {
    if |lines| == 1 {
      SplitSingle(lines[0]);
    } else {
      SplitJoined(lines[1..]);
      SplitFirst(lines[0], JoinLines(lines[1..]));
      assert [lines[0]] + lines[1..] == lines;
    }
  }

  function Indented(rows: seq<string>): (lines: seq<string>)
    ensures |lines| == |rows|
    ensures forall i :: 0 <= i < |rows| ==> lines[i] == "  " + rows[i]
  {
    if rows == [] then [] else ["  " + rows[0]] + Indented(rows[1..])
  }

  /** A composer that shows `first` and `rows`, below it a blank line and any footer, or nothing. */
  function Screen(indent: string, first: string, rows: seq<string>, footer: seq<string>): (lines: seq<string>)
    ensures lines != []
  {
    [indent + [PROMPT, ' '] + first] + Indented(rows) + footer
  }

  /** The rows above the first blank one. */
  function Shown(rows: seq<string>): seq<string> {
    if rows == [] || IsBlank(rows[0]) then [] else [rows[0]] + Shown(rows[1..])
  }

  lemma {:induction false} FirstRowBehindIndent(indent: string, first: string)
    requires forall i :: 0 <= i < |indent| ==> indent[i] == ' ' || indent[i] == '\t'
    requires forall i :: 0 <= i < |first| ==> !IsLineTerminator(first[i])
    ensures FirstRow(indent + [PROMPT, ' '] + first) == Some(first)
  {
    var line := indent + [PROMPT, ' '] + first;
    if indent == "" {
      assert line == [PROMPT, ' '] + first;
      assert line[2..] == first;
    } else {
      assert line[1..] == indent[1..] + [PROMPT, ' '] + first;
      FirstRowBehindIndent(indent[1..], first);
    }
  }

  lemma IndentedBlank(row: string)
    ensures IsBlank("  " + row) <==> IsBlank(row)
    ensures ("  " + row)[2..] == row
  {
    if IsBlank("  " + row) {
      assert forall i :: 0 <= i < |row| ==> row[i] == ("  " + row)[i + 2];
    }
  }

  lemma {:induction false} GatherShown(view: View, rows: seq<string>, footer: seq<string>)
    requires footer == [] || IsBlank(footer[0])
    ensures GatherRows(view, Indented(rows) + footer).Some?
    ensures GatherRows(view, Indented(rows) + footer).value.display == view.display + Flatten(Shown(rows))
    decreases |rows|
  {
    var lines := Indented(rows) + footer;
    if rows == [] {
      assert lines == footer;
    } else {
      IndentedBlank(rows[0]);
      assert lines[0] == "  " + rows[0] && lines[1..] == Indented(rows[1..]) + footer;
      if !IsBlank(rows[0]) {
        var next := View(view.display + rows[0], view.rowBreaks + {|view.display|});
        GatherShown(next, rows[1..], footer);
        FlattenShown(view.display, rows);
      }
    }
  }

  lemma FlattenShown(front: string, rows: seq<string>)
    requires rows != [] && !IsBlank(rows[0])
    ensures front + Flatten(Shown(rows)) == front + rows[0] + Flatten(Shown(rows[1..]))
  {
    var shown := Shown(rows);
    assert shown[0] == rows[0] && shown[1..] == Shown(rows[1..]);
    Regroup(front, rows[0], Flatten(Shown(rows[1..])));
  }

  lemma Regroup(a: string, b: string, c: string)
    ensures a + (b + c) == a + b + c
  {}

  lemma {:induction false} ShownIsPrefix(rows: seq<string>)
    ensures Flatten(Shown(rows)) <= Flatten(rows)
    ensures (forall i :: 0 <= i < |rows| ==> !IsBlank(rows[i])) ==> Shown(rows) == rows
  {
    if rows != [] && !IsBlank(rows[0]) {
      ShownIsPrefix(rows[1..]);
      assert Shown(rows)[1..] == Shown(rows[1..]);
    }
  }

  lemma {:induction false} FlattenHolds(rows: seq<string>)
    ensures forall i, c :: 0 <= i < |rows| && c in rows[i] ==> c in Flatten(rows)
  {
    if rows != [] {
      FlattenHolds(rows[1..]);
      forall i, c | 0 <= i < |rows| && c in rows[i] ensures c in Flatten(rows) {
        if i > 0 {
          assert rows[1..][i - 1] == rows[i];
        }
      }
    }
  }

  lemma ScreenLinesAreLines(indent: string, first: string, rows: seq<string>, footer: seq<string>)
    requires forall i :: 0 <= i < |indent| ==> indent[i] == ' ' || indent[i] == '\t'
    requires forall i :: 0 <= i < |footer| ==> '\n' !in footer[i]
    requires '\n' !in first && '\n' !in Flatten(rows)
    ensures SplitLines(JoinLines(Screen(indent, first, rows, footer))) == Screen(indent, first, rows, footer)
  {
    var lines := Screen(indent, first, rows, footer);
    FlattenHolds(rows);
    forall i | 0 <= i < |lines| ensures '\n' !in lines[i] {
      if i == 0 {
      } else if i <= |rows| {
        assert lines[i] == "  " + rows[i - 1];
        assert '\n' in rows[i - 1] ==> '\n' in Flatten(rows);
      } else {
        assert lines[i] == footer[i - 1 - |rows|];
      }
    }
    SplitJoined(lines);
  }

  lemma ScreenLayout(indent: string, first: string, rows: seq<string>, footer: seq<string>)
    requires forall i :: 0 <= i < |indent| ==> indent[i] == ' ' || indent[i] == '\t'
    requires footer == [] || IsBlank(footer[0])
    requires forall i :: 0 <= i < |footer| ==> '\n' !in footer[i]
    requires forall i :: 0 <= i < |first| ==> !IsLineTerminator(first[i])
    requires '\n' !in Flatten(rows)
    ensures var layout := Layout(JoinLines(Screen(indent, first, rows, footer)));
            layout.Some? && layout.value.display == first + Flatten(Shown(rows))
  {
    ScreenLinesAreLines(indent, first, rows, footer);
    FirstRowBehindIndent(indent, first);
    assert Screen(indent, first, rows, footer)[1..] == Indented(rows) + footer;
    GatherShown(View(first, {}), rows, footer);
  }

  /** A display that is a prefix of the wire is recognised exactly when it is the whole wire. */
  lemma PrefixRecognised(content: string, wire: string)
    requires Layout(content).Some? && Layout(content).value.display <= wire
    ensures Complete(content, wire, false) <==> Layout(content).value.display == wire
  {
    var v := Layout(content).value;
    PrefixIsConsumed(v, Chips(v.display, 0), 0, wire, 0);
  }

  /** However a single-line wire is wrapped, it is recognised exactly when the rows above the
      first blank continuation row already hold all of it. */
  lemma WrapRecognised(indent: string, first: string, rows: seq<string>, footer: seq<string>)
    requires forall i :: 0 <= i < |indent| ==> indent[i] == ' ' || indent[i] == '\t'
    requires footer == [] || IsBlank(footer[0])
    requires forall i :: 0 <= i < |footer| ==> '\n' !in footer[i]
    requires forall i :: 0 <= i < |first| ==> !IsLineTerminator(first[i])
    requires '\n' !in Flatten(rows) && '\r' !in Flatten(rows)
    ensures CompleteEncoded(JoinLines(Screen(indent, first, rows, footer)), first + Flatten(rows))
            <==> Flatten(Shown(rows)) == Flatten(rows)
  {
    ScreenLayout(indent, first, rows, footer);
    ShownIsPrefix(rows);
    PrefixRecognised(JoinLines(Screen(indent, first, rows, footer)), first + Flatten(rows));
  }

  lemma WireWrapComplete(wire: string, indent: string, first: string, rows: seq<string>, footer: seq<string>)
    requires forall i :: 0 <= i < |indent| ==> indent[i] == ' ' || indent[i] == '\t'
    requires footer == [] || IsBlank(footer[0])
    requires forall i :: 0 <= i < |footer| ==> '\n' !in footer[i]
    requires first + Flatten(rows) == wire && CodexMessageEncoding.SingleLine(wire)
    requires forall i :: 0 <= i < |rows| ==> !IsBlank(rows[i])
    ensures CompleteEncoded(JoinLines(Screen(indent, first, rows, footer)), wire)
  {
    SingleLineParts(first, Flatten(rows));
    WrapRecognised(indent, first, rows, footer);
    ShownIsPrefix(rows);
  }

  lemma SingleLineParts(first: string, rest: string)
    requires CodexMessageEncoding.SingleLine(first + rest)
    ensures forall i :: 0 <= i < |first| ==> !IsLineTerminator(first[i])
    ensures '\n' !in rest && '\r' !in rest
  {
    assert forall i :: 0 <= i < |first| ==> first[i] in first + rest;
    assert forall c :: c in rest ==> c in first + rest;
  }

  /** Every wrap of every encoded message without a blank continuation row is the complete paste. */
  lemma EncodedWrapComplete(text: string, indent: string, first: string, rows: seq<string>, footer: seq<string>)
    requires forall i :: 0 <= i < |indent| ==> indent[i] == ' ' || indent[i] == '\t'
    requires footer == [] || IsBlank(footer[0])
    requires forall i :: 0 <= i < |footer| ==> '\n' !in footer[i]
    requires first + Flatten(rows) == CodexMessageEncoding.Encode(text)
    requires forall i :: 0 <= i < |rows| ==> !IsBlank(rows[i])
    ensures CompleteEncoded(JoinLines(Screen(indent, first, rows, footer)), CodexMessageEncoding.Encode(text))
  {
    hide *;
    CodexMessageEncoding.EncodedIsSingleLine(text);
    WireWrapComplete(CodexMessageEncoding.Encode(text), indent, first, rows, footer);
  }
}
