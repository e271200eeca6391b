/** The size of a quoted Windows command line (src/server/codex-initial-prompt.ts), against a reader of such
    lines: the length that is checked is the length of a quoting that argument parsing undoes. */
module CodexInitialPrompt {
  import opened Wrappers

  const LIMIT: nat := 32767

  function Backslashes(n: nat): string {
    if n == 0 then "" else ['\\'] + Backslashes(n - 1)
  }

  // ---- The two replacements of `quotedLength`; `n` counts the backslashes just passed ----

  /** `replace(/(\\*)"/gu, '$1$1\\"')`: every quote and the backslashes in front of it. */
  function BeforeQuotes(s: string, n: nat): string {
    if s == "" then Backslashes(n)
    else if s[0] == '\\' then BeforeQuotes(s[1..], n + 1)
    else if s[0] == '"' then Backslashes(2 * n) + ("\\\"" + BeforeQuotes(s[1..], 0))
    else Backslashes(n) + ([s[0]] + BeforeQuotes(s[1..], 0))
  }

  /** How many backslashes the text ends with, when `n` of them stand in front of it. */
  function Trailing(s: string, n: nat): nat {
    if s == "" then n else if s[0] == '\\' then Trailing(s[1..], n + 1) else Trailing(s[1..], 0)
  }

  /** `replace(/(\\+)$/u, '$1$1')`. */
  function AtEnd(s: string): string {
    s + Backslashes(Trailing(s, 0))
  }

  function QuotedLength(value: string): nat {
    |AtEnd(BeforeQuotes(value, 0))| + 2
  }

  // ---- The quoting it measures ----

  function Escape(s: string, n: nat): string {
    if s == "" then Backslashes(n) + Backslashes(n)
    else if s[0] == '\\' then Escape(s[1..], n + 1)
    else if s[0] == '"' then Backslashes(2 * n) + ("\\\"" + Escape(s[1..], 0))
    else Backslashes(n) + ([s[0]] + Escape(s[1..], 0))
  }

  function Quote(value: string): string { "\"" + (Escape(value, 0) + "\"") }

  function CommandLine(args: seq<string>): string {
    if args == [] then "" else Quote(args[0]) + (" " + CommandLine(args[1..]))
  }

  // ---- A reader of command lines: backslashes count only in front of a quote ----

  datatype Parsed = Parsed(argument: string, rest: string)

  function Prepend(front: string, p: Option<Parsed>): Option<Parsed> {
    if p.None? then None else Some(Parsed(front + p.value.argument, p.value.rest))
  }

  /** Reads a quoted argument behind its opening quote: 2n backslashes and a quote are n backslashes and the end,
      2n+1 are n backslashes and a literal quote. `n` counts the backslashes just passed. */
  function ReadQuoted(s: string, n: nat): Option<Parsed> {
    if s == "" then None
    else if s[0] == '\\' then ReadQuoted(s[1..], n + 1)
    else if s[0] == '"' && n % 2 == 0 then Some(Parsed(Backslashes(n / 2), s[1..]))
    else if s[0] == '"' then Prepend(Backslashes(n / 2) + ['"'], ReadQuoted(s[1..], 0))
    else Prepend(Backslashes(n) + [s[0]], ReadQuoted(s[1..], 0))
  }

  function ReadLine(line: string, fuel: nat): Option<seq<string>>
    decreases fuel
  {
    if line == "" then Some([])
    else if fuel == 0 || line[0] != '"' then None
    else
      var first := ReadQuoted(line[1..], 0);
      if first.None? || first.value.rest == "" || first.value.rest[0] != ' ' then None
      else
        var others := ReadLine(first.value.rest[1..], fuel - 1);
        if others.None? then None else Some([first.value.argument] + others.value)
  }

  // ---- The measure is the length of the quoting ----

  lemma {:induction false} TrailingPast(k: nat, s: string, n: nat)
    ensures Trailing(Backslashes(k) + s, n) == Trailing(s, n + k)
  {
    if k == 0 {
      assert Backslashes(0) + s == s;
    } else {
      assert (Backslashes(k) + s)[1..] == Backslashes(k - 1) + s;
      TrailingPast(k - 1, s, n + 1);
    }
  }

  lemma AtEndPast(k: nat, c: char, s: string)
    requires c != '\\'
    ensures AtEnd(Backslashes(k) + ([c] + s)) == Backslashes(k) + ([c] + AtEnd(s))
  {
    TrailingPast(k, [c] + s, 0);
    assert ([c] + s)[1..] == s;
    assert Backslashes(k) + ([c] + s) + Backslashes(Trailing(s, 0)) == Backslashes(k) + ([c] + (s + Backslashes(Trailing(s, 0))));
  }

  lemma {:induction false} AddBackslashes(a: nat, b: nat)
    ensures Backslashes(a) + Backslashes(b) == Backslashes(a + b)
  {
    if a > 0 { AddBackslashes(a - 1, b); }
  }

  lemma OneBehind(n: nat, s: string)
    ensures Backslashes(n + 1) + s == Backslashes(n) + (['\\'] + s)
  {
    AddBackslashes(n, 1);
    assert Backslashes(1) == ['\\'] by { assert Backslashes(0) == ""; }
    assert Backslashes(n) + ['\\'] + s == Backslashes(n) + (['\\'] + s);
  }

  lemma OneMore(k: nat, s: string)
    ensures Backslashes(k) + ("\\\"" + s) == Backslashes(k + 1) + (['"'] + s)
  {
    OneBehind(k, ['"'] + s);
    assert "\\\"" + s == ['\\'] + (['"'] + s);
  }

  /** The two replacements together are the quoting. */
  lemma {:induction false} ReplacementsEscape(s: string, n: nat)
    ensures AtEnd(BeforeQuotes(s, n)) == Escape(s, n)
    decreases |s|
  {
    if s == "" {
      TrailingPast(n, "", 0);
      assert Backslashes(n) + "" == Backslashes(n);
    } else if s[0] == '\\' {
      ReplacementsEscape(s[1..], n + 1);
    } else if s[0] == '"' {
      ReplacementsEscape(s[1..], 0);
      OneMore(2 * n, BeforeQuotes(s[1..], 0));
      AtEndPast(2 * n + 1, '"', BeforeQuotes(s[1..], 0));
      OneMore(2 * n, Escape(s[1..], 0));
    } else {
      ReplacementsEscape(s[1..], 0);
      AtEndPast(n, s[0], BeforeQuotes(s[1..], 0));
    }
  }

  /** `quotedLength` is exactly the length of the quoted argument. */
  lemma QuotedLengthExact(value: string)
    ensures QuotedLength(value) == |Quote(value)|
  {
    ReplacementsEscape(value, 0);
  }

  // ---- Reading undoes the quoting ----

  lemma {:induction false} ReadPast(k: nat, s: string, n: nat)
    ensures ReadQuoted(Backslashes(k) + s, n) == ReadQuoted(s, n + k)
  {
    if k == 0 {
      assert Backslashes(0) + s == s;
    } else {
      assert (Backslashes(k) + s)[1..] == Backslashes(k - 1) + s;
      ReadPast(k - 1, s, n + 1);
    }
  }

  /** Reading a quoted argument gives the argument back, whatever it holds and whatever follows. */
  lemma {:induction false} ReadUndoesEscape(s: string, n: nat, rest: string)
    ensures ReadQuoted(Escape(s, n) + ("\"" + rest), 0) == Some(Parsed(Backslashes(n) + s, rest))
    decreases |s|
  {
    if s == "" {
      AddBackslashes(n, n);
      ReadPast(2 * n, "\"" + rest, 0);
      assert ("\"" + rest)[1..] == rest && Backslashes(n) + "" == Backslashes(n);
    } else if s[0] == '\\' {
      ReadUndoesEscape(s[1..], n + 1, rest);
      OneBehind(n, s[1..]);
      assert s == ['\\'] + s[1..];
    } else {
      ReadUndoesEscape(s[1..], 0, rest);
      assert Backslashes(0) + s[1..] == s[1..];
      UndoOne(s, n, rest);
    }
  }

  /** How many backslashes stand in front of a character once it is quoted. */
  function InFront(c: char, n: nat): nat { if c == '"' then 2 * n + 1 else n }

  lemma EscapeOne(s: string, n: nat)
    requires s != "" && s[0] != '\\'
    ensures Escape(s, n) == Backslashes(InFront(s[0], n)) + ([s[0]] + Escape(s[1..], 0))
  {
    if s[0] == '"' { OneMore(2 * n, Escape(s[1..], 0)); }
  }

  lemma ReadOne(c: char, n: nat, more: string, p: Parsed)
    requires c != '\\' && ReadQuoted(more, 0) == Some(p)
    ensures ReadQuoted(Backslashes(InFront(c, n)) + ([c] + more), 0) == Some(Parsed(Backslashes(n) + [c] + p.argument, p.rest))
  {
    hide Backslashes;
    ReadPast(InFront(c, n), [c] + more, 0);
    assert ([c] + more)[1..] == more;
    assert (2 * n + 1) / 2 == n && (2 * n + 1) % 2 == 1;
  }

  lemma UndoOne(s: string, n: nat, rest: string)
    requires s != "" && s[0] != '\\'
    requires ReadQuoted(Escape(s[1..], 0) + ("\"" + rest), 0) == Some(Parsed(s[1..], rest))
    ensures ReadQuoted(Escape(s, n) + ("\"" + rest), 0) == Some(Parsed(Backslashes(n) + s, rest))
  {
    hide ReadQuoted, Escape, Backslashes, InFront;
    var front, more := Backslashes(InFront(s[0], n)), Escape(s[1..], 0) + ("\"" + rest);
    EscapeOne(s, n);
    ReadOne(s[0], n, more, Parsed(s[1..], rest));
    assert front + ([s[0]] + Escape(s[1..], 0)) + ("\"" + rest) == front + ([s[0]] + more);
    assert Backslashes(n) + [s[0]] + s[1..] == Backslashes(n) + s;
  }

  /** Reading a whole command line gives all arguments back, in order. */
  lemma {:induction false} CommandLineRoundTrip(args: seq<string>)
    ensures ReadLine(CommandLine(args), |args|) == Some(args)
  {
    hide ReadQuoted, Escape;
    if args != [] {
      var line, others := CommandLine(args), CommandLine(args[1..]);
      CommandLineRoundTrip(args[1..]);
      ReadUndoesEscape(args[0], 0, " " + others);
      assert Backslashes(0) + args[0] == args[0];
      assert line[1..] == Escape(args[0], 0) + ("\"" + (" " + others));
      assert (" " + others)[1..] == others && [args[0]] + args[1..] == args;
    }
  }

  // ---- The check ----

  /** `reduce((total, value) => total + quotedLength(value) + 1, 0)`. */
  method LineLength(invocation: seq<string>) returns (length: nat)
    ensures length == |CommandLine(invocation)|
  {
    length := 0;
    var i := 0;
    while i < |invocation|
      invariant 0 <= i <= |invocation| && length + |CommandLine(invocation[i..])| == |CommandLine(invocation)|
    {
      assert invocation[i..][1..] == invocation[i + 1..];
      QuotedLengthExact(invocation[i]);
      length := length + QuotedLength(invocation[i]) + 1;
      i := i + 1;
    }
  }

  /** The prompt is refused, never cut: an accepted invocation fits the limit and reads back unchanged. */
  method PrepareInitialPrompt(invocation: seq<string>) returns (accepted: Option<string>)
    ensures accepted.Some? <==> |CommandLine(invocation)| < LIMIT
    ensures accepted.Some? ==> ReadLine(accepted.value, |invocation|) == Some(invocation)
  {
    var length := LineLength(invocation);
    if length >= LIMIT { return None; }
    CommandLineRoundTrip(invocation);
    return Some(CommandLine(invocation));
  }
}
