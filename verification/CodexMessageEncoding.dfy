/** Encoding of one message as a single JSON string line (src/server/codex-message-wire.ts).

    A Dafny `char` is a Unicode scalar value, so a `string` here is what the source calls
    `Array.from(text)`; lone UTF-16 surrogates are outside this model. */
module CodexMessageEncoding {
  import opened Wrappers

  /** In short pieces, into which the verifier can look. */
  const PREFIX :=
    "Hive message encoded as a " + "JSON string; interpret escapes " + "as the original message: "
  const BACKSPACE: char := '\U{0008}'
  const FORM_FEED: char := '\U{000C}'
  const LINE_SEPARATOR: char := '\U{2028}'
  const PARAGRAPH_SEPARATOR: char := '\U{2029}'
  const HEX_DIGITS := "0123456789abcdef"

  function HexDigit(n: nat): char
    requires n < 16
  {
    HEX_DIGITS[n]
  }

  /** QuoteJSONString of ECMA-262, one character at a time. */
  function QuoteChar(c: char): string {
    if c == '"' then "\\\""
    else if c == '\\' then "\\\\"
    else if c == BACKSPACE then "\\b"
    else if c == '\t' then "\\t"
    else if c == '\n' then "\\n"
    else if c == FORM_FEED then "\\f"
    else if c == '\r' then "\\r"
    else if c < ' ' then "\\u00" + [HexDigit(c as nat / 16), HexDigit(c as nat % 16)]
    else [c]
  }

  function QuoteBody(text: string): string {
    if text == "" then "" else QuoteChar(text[0]) + QuoteBody(text[1..])
  }

  function Stringify(text: string): string {
    "\"" + QuoteBody(text) + "\""
  }

  /** The two `replace` calls that follow `JSON.stringify`. */
  function EscapeSeparators(s: string): string {
    if s == "" then ""
    else (if s[0] == LINE_SEPARATOR then "\\u2028"
          else if s[0] == PARAGRAPH_SEPARATOR then "\\u2029"
          else [s[0]]) + EscapeSeparators(s[1..])
  }

  function Encode(text: string): string {
    PREFIX + EscapeSeparators(Stringify(text))
  }

  // ---- A reference decoder: JSON strings as section 7 of RFC 8259 defines them ----

  function HexValue(c: char): Option<nat> {
    if '0' <= c <= '9' then Some(c as nat - '0' as nat)
    else if 'a' <= c <= 'f' then Some(c as nat - 'a' as nat + 10)
    else if 'A' <= c <= 'F' then Some(c as nat - 'A' as nat + 10)
    else None
  }

  /** The UTF-16 code unit named by the first four characters. */
  function CodeUnit(s: string): Option<nat>
    requires |s| >= 4
    ensures CodeUnit(s).Some? ==> CodeUnit(s).value < 0x10000
  {
    match (HexValue(s[0]), HexValue(s[1]), HexValue(s[2]), HexValue(s[3]))
    case (Some(a), Some(b), Some(c), Some(d)) =>
      assert a < 16 && b < 16 && c < 16 && d < 16;
      Some(4096 * a + 256 * b + 16 * c + d)
    case _ => None
  }

  function Prepend(c: char, rest: Option<string>): Option<string> {
    match rest
    case None => None
    case Some(text) => Some([c] + text)
  }

  function SimpleEscape(c: char): Option<char> {
    if c == '"' || c == '\\' || c == '/' then Some(c)
    else if c == 'b' then Some(BACKSPACE)
    else if c == 'f' then Some(FORM_FEED)
    else if c == 'n' then Some('\n')
    else if c == 'r' then Some('\r')
    else if c == 't' then Some('\t')
    else None
  }

  /** Decodes what follows the opening quotation mark, up to the end of the input. */
  function DecodeBody(s: string): Option<string>
    decreases |s|, 0
  {
    if s == "" then None
    else if s[0] == '"' then if |s| == 1 then Some("") else None
    else if s[0] < ' ' then None
    else if s[0] != '\\' then Prepend(s[0], DecodeBody(s[1..]))
    else if |s| < 2 then None
    else if SimpleEscape(s[1]).Some? then Prepend(SimpleEscape(s[1]).value, DecodeBody(s[2..]))
    else if s[1] != 'u' || |s| < 6 || CodeUnit(s[2..6]).None? then None
    else DecodeUnit(CodeUnit(s[2..6]).value, s[6..])
  }

  /** A code unit outside the surrogate range is a character; a pair of surrogates is one too. */
  function DecodeUnit(unit: nat, rest: string): Option<string>
    requires unit < 0x10000
    decreases |rest|, 1
  {
    if unit < 0xD800 || 0xE000 <= unit then Prepend(unit as char, DecodeBody(rest))
    else if unit < 0xDC00 && |rest| >= 6 && rest[0] == '\\' && rest[1] == 'u' && CodeUnit(rest[2..6]).Some? then
      var low := CodeUnit(rest[2..6]).value;
      if 0xDC00 <= low < 0xE000
      then Prepend((0x10000 + 0x400 * (unit - 0xD800) + (low - 0xDC00)) as char, DecodeBody(rest[6..]))
      else None
    else None
  }

  function DecodeString(s: string): Option<string> {
    if s == "" || s[0] != '"' then None else DecodeBody(s[1..])
  }

  // ---- What the encoding promises ----

  lemma {:induction false} EscapeSeparatorsConcat(a: string, b: string)
    ensures EscapeSeparators(a + b) == EscapeSeparators(a) + EscapeSeparators(b)
  {
    if a == "" {
      assert a + b == b;
    } else {
      assert (a + b)[1..] == a[1..] + b;
      EscapeSeparatorsConcat(a[1..], b);
    }
  }

  lemma {:induction false} EscapeSeparatorsId(s: string)
    requires LINE_SEPARATOR !in s && PARAGRAPH_SEPARATOR !in s
    ensures EscapeSeparators(s) == s
  {
    if s != "" {
      EscapeSeparatorsId(s[1..]);
    }
  }

  /** The escapes of length one, two and six. */
  lemma PlainCharDecodes(c: char, rest: string)
    requires c >= ' ' && c != '"' && c != '\\'
    ensures DecodeBody([c] + rest) == Prepend(c, DecodeBody(rest))
  {
    assert ([c] + rest)[1..] == rest;
  }

  lemma SimpleEscapeDecodes(e: char, rest: string)
    requires SimpleEscape(e).Some?
    ensures DecodeBody(['\\', e] + rest) == Prepend(SimpleEscape(e).value, DecodeBody(rest))
  {
    assert (['\\', e] + rest)[2..] == rest;
  }

  lemma HexEscapeDecodes(hex: string, unit: nat, rest: string)
    requires |hex| == 4 && CodeUnit(hex) == Some(unit) && (unit < 0xD800 || 0xE000 <= unit < 0x10000)
    ensures DecodeBody(['\\', 'u'] + hex + rest) == Prepend(unit as char, DecodeBody(rest))
  {
    var s := ['\\', 'u'] + hex + rest;
    assert s[0] == '\\' && s[1] == 'u' && s[2..6] == hex && s[6..] == rest;
  }

  /** What the two passes make of one character. */
  function WireChar(c: char): string {
    if c == LINE_SEPARATOR then "\\u2028" else if c == PARAGRAPH_SEPARATOR then "\\u2029" else QuoteChar(c)
  }

  lemma WireCharIs(c: char)
    ensures EscapeSeparators(QuoteChar(c)) == WireChar(c)
  {
    if c == LINE_SEPARATOR || c == PARAGRAPH_SEPARATOR {
      assert QuoteChar(c) == [c] && [c][1..] == "";
      assert EscapeSeparators([c][1..]) == "";
    } else {
      EscapeSeparatorsId(QuoteChar(c));
    }
  }

  /** One quoted character decodes to itself, whatever follows it. */
  lemma WireCharDecodes(c: char, rest: string)
    ensures DecodeBody(WireChar(c) + rest) == Prepend(c, DecodeBody(rest))
  {
    hide DecodeBody, DecodeUnit, CodeUnit;
    var n := c as nat;
    if c == LINE_SEPARATOR || c == PARAGRAPH_SEPARATOR {
      var hex := if c == LINE_SEPARATOR then "2028" else "2029";
      assert WireChar(c) == ['\\', 'u'] + hex;
      SeparatorUnit();
      HexEscapeDecodes(hex, n, rest);
    } else if |QuoteChar(c)| == 1 {
      PlainCharDecodes(c, rest);
    } else if |QuoteChar(c)| == 2 {
      SimpleEscapeDecodes(QuoteChar(c)[1], rest);
      assert QuoteChar(c) == ['\\', QuoteChar(c)[1]];
    } else {
      var hex := "00" + [HexDigit(n / 16), HexDigit(n % 16)];
      assert WireChar(c) == ['\\', 'u'] + hex;
      ControlUnit(n);
      HexEscapeDecodes(hex, n, rest);
    }
  }

  lemma SeparatorUnit()
    ensures CodeUnit("2028") == Some(0x2028) && CodeUnit("2029") == Some(0x2029)
  {}

  lemma ControlUnit(n: nat)
    requires n < 32
    ensures CodeUnit("00" + [HexDigit(n / 16), HexDigit(n % 16)]) == Some(n)
  {
    HexDigitValue(n / 16);
    HexDigitValue(n % 16);
  }

  lemma HexDigitValue(n: nat)
    requires n < 16
    ensures HexValue(HexDigit(n)) == Some(n)
  {}

  lemma {:induction false} QuotedBodyDecodes(text: string)
    ensures DecodeBody(EscapeSeparators(QuoteBody(text)) + "\"") == Some(text)
  {
    if text != "" {
      QuotedBodyDecodes(text[1..]);
      EscapeSeparatorsConcat(QuoteChar(text[0]), QuoteBody(text[1..]));
      var first := EscapeSeparators(QuoteChar(text[0]));
      var rest := EscapeSeparators(QuoteBody(text[1..])) + "\"";
      assert EscapeSeparators(QuoteBody(text)) + "\"" == first + rest;
      WireCharIs(text[0]);
      WireCharDecodes(text[0], rest);
      assert text == [text[0]] + text[1..];
    }
  }

  lemma WireLayout(text: string)
    ensures EscapeSeparators(Stringify(text)) == "\"" + EscapeSeparators(QuoteBody(text)) + "\""
  {
    EscapeSeparatorsConcat("\"" + QuoteBody(text), "\"");
    EscapeSeparatorsConcat("\"", QuoteBody(text));
    EscapeSeparatorsId("\"");
  }

  lemma StringifyRoundTrip(text: string)
    ensures DecodeString(EscapeSeparators(Stringify(text))) == Some(text)
  {
    WireLayout(text);
    var body := EscapeSeparators(QuoteBody(text)) + "\"";
    assert EscapeSeparators(Stringify(text)) == "\"" + body;
    assert ("\"" + body)[1..] == body;
    QuotedBodyDecodes(text);
  }

  lemma DropPrefix(prefix: string, rest: string)
    ensures prefix <= prefix + rest
    ensures (prefix + rest)[|prefix|..] == rest
  {}

  /** Decoding the part after the fixed prefix gives back the whole message, for every message. */
  lemma EncodeRoundTrip(text: string)
    ensures PREFIX <= Encode(text)
    ensures DecodeString(Encode(text)[|PREFIX|..]) == Some(text)
  {
    StringifyRoundTrip(text);
    DropPrefix(PREFIX, EscapeSeparators(Stringify(text)));
  }

  /** Distinct messages never share a wire, so a receipt digest names one message. */
  lemma EncodeInjective(a: string, b: string)
    requires Encode(a) == Encode(b)
    ensures a == b
  {
    EncodeRoundTrip(a);
    EncodeRoundTrip(b);
  }

  /** No C0 control and neither line separator: the wire is one line. */
  predicate SingleLine(s: string) {
    forall c :: c in s ==> c >= ' ' && c != LINE_SEPARATOR && c != PARAGRAPH_SEPARATOR
  }

  predicate HighControl(c: char) {
    '\U{007F}' <= c <= '\U{009F}'
  }

  lemma WireCharIsPlain(c: char)
    ensures SingleLine(WireChar(c))
    ensures forall d :: HighControl(d) ==> (d in WireChar(c) <==> d == c)
  {
    if |WireChar(c)| == 6 {
      assert forall k :: 0 <= k < 6 ==> ' ' <= WireChar(c)[k] < '\U{007F}';
    }
  }

  lemma {:induction false} QuotedBodyIsPlain(text: string)
    ensures SingleLine(EscapeSeparators(QuoteBody(text)))
    ensures forall d :: HighControl(d) ==> (d in EscapeSeparators(QuoteBody(text)) <==> d in text)
  {
    if text != "" {
      EscapeSeparatorsConcat(QuoteChar(text[0]), QuoteBody(text[1..]));
      WireCharIs(text[0]);
      WireCharIsPlain(text[0]);
      QuotedBodyIsPlain(text[1..]);
      assert text == [text[0]] + text[1..];
    }
  }

  lemma PrefixIsPlain()
    ensures forall c :: c in PREFIX ==> ' ' <= c < '\U{007F}'
  {}

  lemma PlainConcat(prefix: string, rest: string)
    requires forall c :: c in prefix ==> ' ' <= c < '\U{007F}'
    ensures SingleLine(rest) ==> SingleLine(prefix + rest)
    ensures forall d :: HighControl(d) ==> (d in prefix + rest <==> d in rest)
  {}

  /** The wire never holds a line break the composer could act on. */
  lemma EncodedIsSingleLine(text: string)
    ensures SingleLine(Encode(text))
  {
    hide QuoteBody, EscapeSeparators, Stringify;
    WireLayout(text);
    QuotedBodyIsPlain(text);
    PrefixIsPlain();
    PlainConcat(PREFIX, EscapeSeparators(Stringify(text)));
  }

  /** JSON does not escape U+007F..U+009F: such a control reaches the wire exactly when the
      message holds it, so `free of control characters' holds for C0 only. */
  lemma HighControlsPassThrough(text: string, d: char)
    requires HighControl(d)
    ensures d in Encode(text) <==> d in text
  {
    hide QuoteBody, EscapeSeparators, Stringify;
    WireLayout(text);
    QuotedBodyIsPlain(text);
    PrefixIsPlain();
    PlainConcat(PREFIX, EscapeSeparators(Stringify(text)));
  }
}
