/** How the matcher reads the rows of the composer and the chips in them, told from the characters, in both directions
    (src/server/codex-message-wire.ts). */
module CodexPasteLayout {
  import opened Wrappers
  import opened CodexPasteRecognition

  // ---- Rows ----

  predicate Tabs(s: string) { forall k :: 0 <= k < |s| ==> s[k] == ' ' || s[k] == '\t' }

  predicate OneLine(s: string) {
    forall k :: 0 <= k < |s| ==> s[k] != '\n' && s[k] != '\r' && s[k] != '\U{2028}' && s[k] != '\U{2029}'
  }

  /** Blanks, the prompt and a space at `n`, and one line of text behind them. */
  predicate FirstRowAt(line: string, n: nat) {
    n + 2 <= |line| && Tabs(line[..n]) && line[n] == '\U{203A}' && line[n + 1] == ' ' && OneLine(line[n + 2..])
  }

  lemma TabsSkipped(line: string, n: nat)
    requires line != "" && n > 0 && (line[0] == ' ' || line[0] == '\t')
    ensures FirstRowAt(line, n) <==> FirstRowAt(line[1..], n - 1)
  {
    if n + 2 <= |line| {
      assert line[n + 2..] == line[1..][n + 1..] && line[1..][n - 1] == line[n] && line[1..][n] == line[n + 1];
      assert forall k :: 0 <= k < n - 1 ==> line[1..][k] == line[k + 1];
    }
  }

  lemma BlankFront(line: string, n: nat)
    requires 0 < n <= |line| && Tabs(line[..n])
    ensures line[0] == ' ' || line[0] == '\t'
  {
    assert line[..n][0] == line[0];
  }

  /** The text of the first row: what stands behind the prompt. */
  lemma {:induction false} FirstRowIs(line: string) returns (n: nat)
    ensures FirstRow(line).Some? ==> FirstRowAt(line, n) && FirstRow(line).value == line[n + 2..]
    ensures forall k: nat :: FirstRowAt(line, k) ==> FirstRow(line) == Some(line[k + 2..])
  {
    n := 0;
    if line != "" && (line[0] == ' ' || line[0] == '\t') {
      var m := FirstRowIs(line[1..]);
      n := m + 1;
      TabsSkipped(line, n);
      if FirstRowAt(line[1..], m) { assert line[1..][m + 2..] == line[n + 2..]; }
      assert !FirstRowAt(line, 0);
      forall k: nat | k > 0 && FirstRowAt(line, k) ensures FirstRow(line) == Some(line[k + 2..]) {
        TabsSkipped(line, k);
        assert line[1..][k - 1 + 2..] == line[k + 2..];
      }
    } else {
      forall k: nat | k > 0 ensures !FirstRowAt(line, k) {
        if FirstRowAt(line, k) { BlankFront(line, k); }
      }
    }
  }

  /** The text of the first `n` rows, without the two columns that belong to the composer. */
  function TextOf(rows: seq<string>, n: nat): string
    requires n <= |rows| && forall k :: 0 <= k < n ==> |rows[k]| >= 2
  {
    if n == 0 then "" else TextOf(rows, n - 1) + rows[n - 1][2..]
  }

  /** Where the texts of the first `n` rows begin, `base` characters behind the start of the display. */
  function BreaksOf(base: nat, rows: seq<string>, n: nat): set<nat>
    requires n <= |rows| && forall k :: 0 <= k < n ==> |rows[k]| >= 2
  {
    if n == 0 then {} else BreaksOf(base, rows, n - 1) + {base + |TextOf(rows, n - 1)|}
  }

  predicate Indented(row: string) { |row| >= 2 && row[0] == ' ' && row[1] == ' ' }

  predicate AllIndented(rows: seq<string>, n: nat)
    requires n <= |rows|
  {
    forall k :: 0 <= k < n ==> Indented(rows[k])
  }

  /** The continuation rows end at the first blank one. */
  predicate EndsRows(rows: seq<string>, n: nat) {
    n <= |rows| && (n < |rows| ==> IsBlank(rows[n])) && forall k :: 0 <= k < n ==> !IsBlank(rows[k])
  }

  lemma {:induction false} TextBehind(rows: seq<string>, n: nat)
    requires n + 1 <= |rows| && forall i :: 0 <= i <= n ==> |rows[i]| >= 2
    ensures TextOf(rows, n + 1) == rows[0][2..] + TextOf(rows[1..], n)
  {
    if n > 0 {
      TextBehind(rows, n - 1);
      assert rows[1..][n - 1] == rows[n];
    } else {
      assert TextOf(rows, 1) == "" + rows[0][2..];
    }
  }

  lemma {:induction false} BreaksBehind(base: nat, rows: seq<string>, n: nat)
    requires n + 1 <= |rows| && forall i :: 0 <= i <= n ==> |rows[i]| >= 2
    ensures BreaksOf(base, rows, n + 1) == {base} + BreaksOf(base + |rows[0]| - 2, rows[1..], n)
  {
    assert TextOf(rows, 0) == "";
    if n > 0 {
      BreaksBehind(base, rows, n - 1);
      TextBehind(rows, n - 1);
      hide TextOf;
    } else {
      assert BreaksOf(base, rows, 0) == {} && BreaksOf(base + |rows[0]| - 2, rows[1..], 0) == {};
    }
  }

  lemma Behind(rows: seq<string>, n: nat)
    requires 0 < n <= |rows|
    ensures AllIndented(rows, n) <==> Indented(rows[0]) && AllIndented(rows[1..], n - 1)
    ensures EndsRows(rows, n) ==> EndsRows(rows[1..], n - 1)
  {
    assert forall k :: 1 <= k < |rows| ==> rows[k] == rows[1..][k - 1];
  }

  function NextView(view: View, row: string): View
    requires |row| >= 2
  {
    View(view.display + row[2..], view.rowBreaks + {|view.display|})
  }

  function Extended(view: View, rows: seq<string>, n: nat): View
    requires n <= |rows| && AllIndented(rows, n)
  {
    View(view.display + TextOf(rows, n), view.rowBreaks + BreaksOf(|view.display|, rows, n))
  }

  lemma ExtendedBehind(view: View, rows: seq<string>, n: nat)
    requires 0 < n <= |rows| && AllIndented(rows, n)
    ensures AllIndented(rows[1..], n - 1) && Extended(view, rows, n) == Extended(NextView(view, rows[0]), rows[1..], n - 1)
  {
    Behind(rows, n);
    TextBehind(rows, n - 1);
    BreaksBehind(|view.display|, rows, n - 1);
    hide TextOf, BreaksOf;
    var next := NextView(view, rows[0]);
    assert |next.display| == |view.display| + |rows[0]| - 2;
    assert (view.display + rows[0][2..]) + TextOf(rows[1..], n - 1) == view.display + (rows[0][2..] + TextOf(rows[1..], n - 1));
  }

  /** Each of them must be indented; their texts follow each other, and each begins where a row breaks. */
  lemma {:induction false} GatheredRows(view: View, rows: seq<string>, n: nat)
    requires EndsRows(rows, n)
    ensures GatherRows(view, rows) == if AllIndented(rows, n) then Some(Extended(view, rows, n)) else None
    decreases n
  {
    if n == 0 {
      assert view.display + "" == view.display && view.rowBreaks + {} == view.rowBreaks;
    } else {
      Behind(rows, n);
      assert "  " <= rows[0] <==> Indented(rows[0]);
      assert !IsBlank(rows[0]);
      if Indented(rows[0]) {
        assert GatherRows(view, rows) == GatherRows(NextView(view, rows[0]), rows[1..]);
        hide GatherRows, EndsRows, AllIndented, Extended, IsBlank, NextView;
        GatheredRows(NextView(view, rows[0]), rows[1..], n - 1);
        if AllIndented(rows, n) { ExtendedBehind(view, rows, n); }
      }
    }
  }

  // ---- Chips ----

  predicate Digits(s: string) { s != "" && forall k :: 0 <= k < |s| ==> '0' <= s[k] <= '9' || s[k] == ',' }

  lemma {:induction false} BlanksSkipped(d: string, i: nat, j: nat)
    requires i <= j <= |d| && Tabs(d[i..j]) && (j < |d| ==> d[j] != ' ' && d[j] != '\t')
    ensures SkipBlanks(d, i) == j
    decreases j - i
  {
    if i < j {
      assert d[i..j][0] == d[i] && d[i..j][1..] == d[i + 1..j];
      BlanksSkipped(d, i + 1, j);
    }
  }

  lemma {:induction false} BlanksAre(d: string, i: nat)
    requires i <= |d|
    ensures Tabs(d[i..SkipBlanks(d, i)])
    decreases |d| - i
  {
    if i < |d| && (d[i] == ' ' || d[i] == '\t') {
      BlanksAre(d, i + 1);
      assert d[i..SkipBlanks(d, i)] == [d[i]] + d[i + 1..SkipBlanks(d, i)];
    }
  }

  lemma {:induction false} DigitsSkipped(d: string, i: nat, j: nat)
    requires i <= j <= |d| && (i < j ==> Digits(d[i..j])) && (j < |d| ==> !('0' <= d[j] <= '9' || d[j] == ','))
    ensures SkipDigits(d, i) == j
    decreases j - i
  {
    if i < j {
      assert d[i..j][0] == d[i];
      assert d[i + 1..j] == d[i..j][1..];
      DigitsSkipped(d, i + 1, j);
    }
  }

  lemma {:induction false} DigitsAre(d: string, i: nat)
    requires i <= |d|
    ensures var j := SkipDigits(d, i); i < j ==> Digits(d[i..j])
    decreases |d| - i
  {
    if i < |d| && ('0' <= d[i] <= '9' || d[i] == ',') {
      DigitsAre(d, i + 1);
      assert d[i..SkipDigits(d, i)] == [d[i]] + d[i + 1..SkipDigits(d, i)];
    }
  }

  /** A label from `i` to `e`: `[Pasted`, `Content`, a number and `chars]`, with blanks or nothing between them; `a`, `b`, `c`
      and `z` are where `Content`, the number, what follows it and `chars]` begin. */
  predicate LabelFrom(d: string, i: nat, a: nat, b: nat, c: nat, z: nat) {
    && i + 7 <= a && a + 7 <= b <= c <= z && z + 6 <= |d|
    && d[i..i + 7] == "[Pasted" && Tabs(d[i + 7..a]) && d[a..a + 7] == "Content" && Tabs(d[a + 7..b])
    && Digits(d[b..c]) && Tabs(d[c..z]) && d[z..z + 6] == "chars]"
  }

  lemma ChipIsLabel(d: string, i: nat) returns (a: nat, b: nat, c: nat, z: nat)
    requires i <= |d| && ChipAt(d, i).Some?
    ensures LabelFrom(d, i, a, b, c, z) && ChipAt(d, i) == Some(Chip(i, z + 6, Count(d[b..c])))
  {
    hide Tabs, Digits, SkipBlanks, SkipDigits, Count;
    a := SkipBlanks(d, i + 7);
    b := SkipBlanks(d, a + 7);
    c := SkipDigits(d, b);
    z := SkipBlanks(d, c);
    BlanksAre(d, i + 7);
    BlanksAre(d, a + 7);
    DigitsAre(d, b);
    BlanksAre(d, c);
  }

  lemma InkOfLabel(d: string, i: nat, a: nat, b: nat, c: nat, z: nat)
    requires LabelFrom(d, i, a, b, c, z)
    ensures d[a] == 'C' && d[z] == 'c' && ('0' <= d[b] <= '9' || d[b] == ',') && (c < z ==> d[c] == ' ' || d[c] == '\t')
  {
    assert d[a] == d[a..a + 7][0] && d[z] == d[z..z + 6][0] && d[b] == d[b..c][0];
    if c < z { assert d[c] == d[c..z][0]; }
  }

  lemma ChipFrom(d: string, i: nat, a: nat, b: nat, c: nat, z: nat)
    requires i + 7 <= a && a + 7 <= b < c <= z && z + 6 <= |d|
    requires StartsAt(d, i, "[Pasted") && SkipBlanks(d, i + 7) == a && StartsAt(d, a, "Content") && SkipBlanks(d, a + 7) == b
    requires SkipDigits(d, b) == c && SkipBlanks(d, c) == z && StartsAt(d, z, "chars]")
    ensures ChipAt(d, i) == Some(Chip(i, z + 6, Count(d[b..c])))
  {
    hide SkipBlanks, SkipDigits, StartsAt, Count;
  }

  lemma LabelIsChip(d: string, i: nat, a: nat, b: nat, c: nat, z: nat)
    requires LabelFrom(d, i, a, b, c, z)
    ensures ChipAt(d, i) == Some(Chip(i, z + 6, Count(d[b..c])))
  {
    InkOfLabel(d, i, a, b, c, z);
    hide Tabs, Digits, SkipBlanks, SkipDigits, ChipAt, Count;
    BlanksSkipped(d, i + 7, a);
    BlanksSkipped(d, a + 7, b);
    DigitsSkipped(d, b, c);
    BlanksSkipped(d, c, z);
    ChipFrom(d, i, a, b, c, z);
  }

  /** A number in decimal digits. */
  function Spelled(n: nat): string {
    if n < 10 then [('0' as int + n) as char] else Spelled(n / 10) + [('0' as int + n % 10) as char]
  }

  /** The number on a chip is read back, and commas in it make no difference. */
  lemma {:induction false} CountReads(n: nat, a: string, b: string)
    ensures Count(Spelled(n)) == n && Count(a + "," + b) == Count(a + b)
  {
    if n >= 10 {
      CountReads(n / 10, "", "");
      assert Spelled(n)[..|Spelled(n)| - 1] == Spelled(n / 10);
    } else {
      assert Spelled(n)[..0] == "";
    }
    CommaCounts(a, b);
  }

  lemma {:induction false} CommaCounts(a: string, b: string)
    ensures Count(a + "," + b) == Count(a + b)
  {
    var with, without := a + "," + b, a + b;
    if b == "" {
      assert with[..|with| - 1] == a && without == a;
    } else {
      var front := b[..|b| - 1];
      CommaCounts(a, front);
      assert with[..|with| - 1] == a + "," + front && without[..|without| - 1] == a + front;
    }
  }

  /** A chip is passed by its own text, if that is what was pasted there; else as many characters as it says, if there are so
      many and the number is a safe one. */
  lemma PassedIff(v: View, chip: Chip, text: string, rawText: bool, shut: int, cursor: nat, offset: nat, o: nat)
    requires cursor <= chip.start < chip.end <= |v.display| && offset <= |text|
    requires ConsumeInline(v, text, rawText, shut, cursor, chip.start, offset) == Some(o)
    ensures var p, n := ConsumeChip(v, chip, text, rawText, shut, cursor, offset), chip.end - chip.start;
      var literal := o + n <= |text| && text[o..o + n] == v.display[chip.start..chip.end];
      && (literal ==> p == Some(Progress(shut, o + n)))
      && (!literal && 1 <= chip.count && chip.count < 9007199254740992 && |text| - o >= chip.count ==> p == Some(Progress(chip.end, o + chip.count)))
      && (!literal && !(1 <= chip.count && chip.count < 9007199254740992 && |text| - o >= chip.count) ==> p == None)
  {
    hide ConsumeInline;
  }

  /** An encoded wire must be a single line. */
  lemma EncodedIff(content: string, wire: string)
    ensures CompleteEncoded(content, wire) <==> (forall k :: 0 <= k < |wire| ==> wire[k] != '\r' && wire[k] != '\n') && Complete(content, wire, false)
  {
    hide Complete;
    assert forall k :: 0 <= k < |wire| ==> wire[k] in wire;
  }
}
