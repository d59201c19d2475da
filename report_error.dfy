/** The diagnostic renderer `write_error`: an error in some production is
    shown as a header, the annotated source line (escaped for display), and
    a marker line that underlines the error's range in displayed columns.
    The input is a sequence of code points; positions are byte offsets into
    its UTF-8 encoding. */
module ReportError {

  //=== code points and byte offsets ===//

  /** The number of bytes of a code point's UTF-8 encoding. */
  function Utf8Width(c: char): (w: nat)
    ensures 1 <= w <= 4
    ensures w == 1 <==> c as int < 0x80
  {
    if c as int < 0x80 then 1 else if c as int < 0x800 then 2 else if c as int < 0x1_0000 then 3 else 4
  }

  /** The byte length of the encoding of `s`. */
  function ByteLength(s: string): (n: nat)
    ensures n >= |s|
  {
    if s == [] then 0 else Utf8Width(s[0]) + ByteLength(s[1..])
  }

  /** The code point at or after byte offset `b`: the number of code points
      that start before `b` (a position inside a code point rounds up). */
  function CpIndex(s: string, b: nat): (i: nat)
    ensures i <= |s| && i <= b
    decreases |s|
  {
    if s == [] || b == 0 then 0
    else 1 + CpIndex(s[1..], if b <= Utf8Width(s[0]) then 0 else b - Utf8Width(s[0]))
  }

  lemma ByteLengthStep(s: string, i: nat)
    requires i < |s|
    ensures ByteLength(s[..i + 1]) == ByteLength(s[..i]) + Utf8Width(s[i])
  {
    ByteLengthAppend(s[..i], [s[i]]);
    assert s[..i + 1] == s[..i] + [s[i]];
  }

  lemma {:induction false} ByteLengthAppend(a: string, b: string)
    ensures ByteLength(a + b) == ByteLength(a) + ByteLength(b)
  {
    if a == [] {
      assert a + b == b;
    } else {
      assert (a + b)[1..] == a[1..] + b;
      ByteLengthAppend(a[1..], b);
    }
  }

  /** `CpIndex` is the least index whose byte offset reaches `b`. */
  lemma {:induction false} CpIndexIsLeast(s: string, b: nat)
    ensures var i := CpIndex(s, b);
            (i == |s| || b <= ByteLength(s[..i]))
            && (i == 0 || ByteLength(s[..i - 1]) < b)
    decreases |s|
  {
    if s != [] && b > 0 {
      var w := Utf8Width(s[0]);
      var b' := if b <= w then 0 else b - w;
      CpIndexIsLeast(s[1..], b');
      var i := CpIndex(s, b);
      assert s[..i][1..] == s[1..][..i - 1];
      assert i - 1 > 0 ==> s[..i - 1][1..] == s[1..][..i - 2];
    }
  }

  /** In ASCII text byte offsets and code point indices coincide. */
  lemma {:induction false} CpIndexAscii(s: string, b: nat)
    requires forall i :: 0 <= i < |s| ==> s[i] as int < 0x80
    ensures CpIndex(s, b) == if b <= |s| then b else |s|
    decreases |s|
  {
    if s != [] && b > 0 {
      CpIndexAscii(s[1..], b - 1);
    }
  }

  /** A byte offset at a code point boundary maps back to that code point. */
  lemma {:induction false} CpIndexOfOffset(s: string, i: nat)
    requires i <= |s|
    ensures CpIndex(s, ByteLength(s[..i])) == i
    decreases |s|
  {
    if i > 0 {
      assert s[..i][1..] == s[1..][..i - 1];
      CpIndexOfOffset(s[1..], i - 1);
    }
  }

  //=== lines ===//

  /** The start of the line holding code point `i`. */
  function LineStart(s: string, i: nat): (k: nat)
    requires i <= |s|
    ensures k <= i && (k == 0 || s[k - 1] == '\n')
    ensures forall j :: k <= j < i ==> s[j] != '\n'
  {
    if i == 0 || s[i - 1] == '\n' then i else LineStart(s, i - 1)
  }

  /** The end of that line: its newline, or the end of the input. */
  function LineEnd(s: string, i: nat): (k: nat)
    requires i <= |s|
    ensures i <= k <= |s| && (k == |s| || s[k] == '\n')
    ensures forall j :: i <= j < k ==> s[j] != '\n'
    decreases |s| - i
  {
    if i == |s| || s[i] == '\n' then i else LineEnd(s, i + 1)
  }

  /** The end of a line is the first newline at or after `i`. */
  lemma {:induction false} LineEndIs(s: string, i: nat, j: nat)
    requires i <= j <= |s| && (j == |s| || s[j] == '\n')
    requires forall k :: i <= k < j ==> s[k] != '\n'
    ensures LineEnd(s, i) == j
    decreases j - i
  {
    if i < j {
      LineEndIs(s, i + 1, j);
    }
  }

  /** The start of a line is just after the last newline before `i`. */
  lemma {:induction false} LineStartIs(s: string, k: nat, i: nat)
    requires k <= i <= |s| && (k == 0 || s[k - 1] == '\n')
    requires forall j :: k <= j < i ==> s[j] != '\n'
    ensures LineStart(s, i) == k
    decreases i - k
  {
    if k < i {
      LineStartIs(s, k, i - 1);
    }
  }

  /** The number of newlines in `t`: a helper for `LineNumber`. */
  function Newlines(t: string): (n: nat)
    ensures n <= |t|
  {
    if t == [] then 0 else Newlines(t[..|t| - 1]) + (if t[|t| - 1] == '\n' then 1 else 0)
  }

  /** Lines are numbered from 1. */
  function LineNumber(s: string, i: nat): (n: nat)
    requires i <= |s|
    ensures n >= 1
  {
    1 + Newlines(s[..i])
  }

  /** Passing a code point moves to the next line iff it is a newline. */
  lemma LineNumberStep(s: string, i: nat)
    requires i < |s|
    ensures LineNumber(s, i + 1) == LineNumber(s, i) + (if s[i] == '\n' then 1 else 0)
  {
    assert s[..i + 1][..i] == s[..i];
  }

  /** Two positions are on the same line iff no newline lies between them. */
  lemma {:induction false} SameLine(s: string, i: nat, j: nat)
    requires i <= j <= |s|
    ensures LineNumber(s, i) == LineNumber(s, j) <==> forall k :: i <= k < j ==> s[k] != '\n'
    decreases j - i
  {
    if i < j {
      SameLine(s, i, j - 1);
      assert s[..j][..j - 1] == s[..j - 1];
      if s[j - 1] == '\n' {
        NewlinesMonotone(s, i, j - 1);
      }
    }
  }

  lemma {:induction false} NewlinesMonotone(s: string, i: nat, j: nat)
    requires i <= j <= |s|
    ensures Newlines(s[..i]) <= Newlines(s[..j])
    decreases j - i
  {
    if i < j {
      NewlinesMonotone(s, i, j - 1);
      assert s[..j][..j - 1] == s[..j - 1];
    }
  }

  //=== escaping ===//

  predicate PrintableAscii(c: char) {
    ' ' <= c <= '~'
  }

  function HexDigit(d: nat): (c: char)
    requires d < 16
  {
    "0123456789ABCDEF"[d]
  }

  function DigitValue(c: char): nat {
    if '0' <= c <= '9' then c as int - '0' as int
    else if 'A' <= c <= 'F' then c as int - 'A' as int + 10
    else 0
  }

  /** `v` in hexadecimal, zero-padded to at least `width` digits. */
  function Hex(v: nat, width: nat): (h: string)
    ensures |h| >= width
    decreases v, width
  {
    if v == 0 && width == 0 then ""
    else Hex(v / 16, if width > 0 then width - 1 else 0) + [HexDigit(v % 16)]
  }

  /** The value of a string of hexadecimal digits. */
  function HexValue(h: string): nat {
    if h == [] then 0 else 16 * HexValue(h[..|h| - 1]) + DigitValue(h[|h| - 1])
  }

  /** Reading the digits back gives the code point. */
  lemma {:induction false} HexRoundTrip(v: nat, width: nat)
    ensures HexValue(Hex(v, width)) == v
    decreases v, width
  {
    if !(v == 0 && width == 0) {
      var w' := if width > 0 then width - 1 else 0;
      HexRoundTrip(v / 16, w');
      var h := Hex(v, width);
      assert h[..|h| - 1] == Hex(v / 16, w');
      assert DigitValue(HexDigit(v % 16)) == v % 16 by {
        HexDigitValue(v % 16);
      }
    }
  }

  /** Every character of the rendering is one of the sixteen digits. */
  lemma {:induction false} HexDigits(v: nat, width: nat)
    ensures forall i :: 0 <= i < |Hex(v, width)| ==> Hex(v, width)[i] in "0123456789ABCDEF"
    decreases v, width
  {
    if !(v == 0 && width == 0) {
      var w' := if width > 0 then width - 1 else 0;
      HexDigits(v / 16, w');
      var h := Hex(v, width);
      assert h == Hex(v / 16, w') + [HexDigit(v % 16)];
      assert h[|h| - 1] == "0123456789ABCDEF"[v % 16];
    }
  }

  lemma HexDigitValue(d: nat)
    requires d < 16
    ensures DigitValue(HexDigit(d)) == d
  {
    var digits := "0123456789ABCDEF";
    assert digits[0] == '0' && digits[1] == '1' && digits[2] == '2' && digits[3] == '3';
    assert digits[4] == '4' && digits[5] == '5' && digits[6] == '6' && digits[7] == '7';
    assert digits[8] == '8' && digits[9] == '9' && digits[10] == 'A' && digits[11] == 'B';
    assert digits[12] == 'C' && digits[13] == 'D' && digits[14] == 'E' && digits[15] == 'F';
  }

  /** Below 16^4 the escape has exactly four digits. */
  lemma {:induction false} HexLength(v: nat, width: nat)
    requires width >= 1 && v < Pow16(width)
    ensures |Hex(v, width)| == width
    decreases width
  {
    if width > 1 {
      HexLength(v / 16, width - 1);
    } else {
      assert v / 16 == 0;
      assert Hex(0, 0) == "";
    }
  }

  /** 16 to the power `n`: a helper for `HexLength`. */
  function Pow16(n: nat): (p: nat)
    ensures p >= 1
  {
    if n == 0 then 1 else 16 * Pow16(n - 1)
  }

  /** How a code point is displayed: printable ASCII as itself, a newline as
      `\n`, anything else as `\u` and at least four hexadecimal digits. */
  function Escape(c: char): (e: string)
    ensures |e| >= 1
    ensures |e| == 1 <==> PrintableAscii(c)
  {
    if PrintableAscii(c) then [c]
    else if c == '\n' then "\\n"
    else "\\u" + Hex(c as int, 4)
  }

  lemma EscapeWidth(c: char)
    ensures PrintableAscii(c) ==> Escape(c) == [c]
    ensures c == '\n' ==> Escape(c) == "\\n"
    ensures !PrintableAscii(c) && c != '\n' ==>
              |Escape(c)| >= 6 && Escape(c)[..2] == "\\u" && HexValue(Escape(c)[2..]) == c as int
              && forall i :: 2 <= i < |Escape(c)| ==> Escape(c)[i] in "0123456789ABCDEF"
    ensures !PrintableAscii(c) && c != '\n' && c as int < 0x1_0000 ==> |Escape(c)| == 6
  {
    if !PrintableAscii(c) && c != '\n' {
      HexRoundTrip(c as int, 4);
      HexDigits(c as int, 4);
      assert Escape(c)[2..] == Hex(c as int, 4);
      if c as int < 0x1_0000 {
        assert Pow16(4) == 0x1_0000;
        HexLength(c as int, 4);
      }
    }
  }

  /** The displayed form of a text: each code point escaped. */
  function Visualize(t: string): string {
    if t == [] then "" else Escape(t[0]) + Visualize(t[1..])
  }

  /** The number of display columns of a text. */
  function Width(t: string): nat {
    |Visualize(t)|
  }

  lemma {:induction false} VisualizeAppend(a: string, b: string)
    ensures Visualize(a + b) == Visualize(a) + Visualize(b)
  {
    if a == [] {
      assert a + b == b;
    } else {
      assert (a + b)[1..] == a[1..] + b;
      VisualizeAppend(a[1..], b);
    }
  }

  /** Printable ASCII is shown as is, one column per code point. */
  lemma {:induction false} VisualizeAscii(t: string)
    requires forall i :: 0 <= i < |t| ==> PrintableAscii(t[i])
    ensures Visualize(t) == t && Width(t) == |t|
  {
    if t != [] {
      VisualizeAscii(t[1..]);
    }
  }

  /** Every code point takes at least one column. */
  lemma {:induction false} WidthAtLeastLength(t: string)
    ensures Width(t) >= |t|
  {
    if t != [] {
      WidthAtLeastLength(t[1..]);
    }
  }

  //=== the annotated line ===//

  /** One line of the input split around the annotated range. */
  datatype Annotation = Annotation(line: nat, before: string, annotated: string, after: string)

  /** The line holding code point `a`, with the range `[a, e)` marked. An
      empty or reversed range marks one code point; a range crossing the
      line's end is clipped to it; a newline at `a` is itself the range and
      ends the line; at the end of the input nothing is marked. */
  function Annotate(s: string, a: nat, e: nat): (ann: Annotation)
    requires a <= |s|
    ensures ann.line == LineNumber(s, a) && ann.before == s[LineStart(s, a)..a]
    ensures ann.before + ann.annotated + ann.after
            == s[LineStart(s, a)..LineEnd(s, a)] + (if a < |s| && s[a] == '\n' then "\n" else "")
    ensures ann.annotated == "" <==> a == |s|
    ensures a < |s| && s[a] != '\n' ==>
              ann.annotated == s[a..if e <= a then a + 1 else if e < LineEnd(s, a) then e else LineEnd(s, a)]
  {
    var ls := LineStart(s, a);
    var le := LineEnd(s, a);
    if a == |s| then Annotation(LineNumber(s, a), s[ls..a], "", "")
    else if s[a] == '\n' then Annotation(LineNumber(s, a), s[ls..a], "\n", "")
    else
      var stop := if e <= a then a + 1 else if e < le then e else le;
      assert a < stop <= le;
      assert s[ls..a] + s[a..stop] == s[ls..stop];
      assert s[ls..stop] + s[stop..le] == s[ls..le];
      Annotation(LineNumber(s, a), s[ls..a], s[a..stop], s[stop..le])
  }

  /** The displayed line never reaches into a following line. */
  lemma AnnotationIsOneLine(s: string, a: nat, e: nat)
    requires a <= |s|
    ensures var ann := Annotate(s, a, e);
            var shown := ann.before + ann.annotated + ann.after;
            forall k :: 0 <= k < |shown| - 1 ==> shown[k] != '\n'
  {
    var ann := Annotate(s, a, e);
    var ls, le := LineStart(s, a), LineEnd(s, a);
    var shown := ann.before + ann.annotated + ann.after;
    forall k | 0 <= k < |shown| - 1
      ensures shown[k] != '\n'
    {
      assert k < le - ls;
      assert shown[k] == s[ls..le][k] == s[ls + k];
    }
  }

  /** The column where the marker starts and the number of markers. */
  function Column(ann: Annotation): nat {
    Width(ann.before)
  }

  function Underline(ann: Annotation): (n: nat)
    ensures n >= 1
  {
    if ann.annotated == "" then 1 else Width(ann.annotated)
  }

  //=== errors and messages ===//

  /** The error kinds the renderer distinguishes. A generic error whose end is
      its position is a point error. */
  datatype Error =
    | Generic(pos: nat, end: nat, tag: string)
    | ExpectedLiteral(pos: nat, text: string, index: nat)
    | ExpectedKeyword(pos: nat, end: nat, text: string)
    | ExpectedCharClass(pos: nat, name: string)

  /** The production being parsed, the input, and where the production began. */
  datatype ErrorContext = ErrorContext(production: string, input: string, pos: nat)

  /** The byte offset where the underlined range ends: the matched prefix plus
      one unit for a literal, one unit for a character class. */
  function RangeEnd(err: Error): (b: nat)
    ensures err.ExpectedLiteral? ==> b == err.pos + err.index + 1
    ensures err.ExpectedCharClass? ==> b == err.pos + 1
    ensures err.Generic? || err.ExpectedKeyword? ==> b == err.end
  {
    match err
    case Generic(_, end, _) => end
    case ExpectedLiteral(pos, _, index) => pos + index + 1
    case ExpectedKeyword(_, end, _) => end
    case ExpectedCharClass(pos, _) => pos + 1
  }

  function Message(err: Error): string {
    match err
    case Generic(_, _, tag) => tag
    case ExpectedLiteral(_, text, _) => "expected '" + Visualize(text) + "'"
    case ExpectedKeyword(_, _, text) => "expected keyword '" + Visualize(text) + "'"
    case ExpectedCharClass(_, name) => "expected '" + name + "' character"
  }

  /** The message never depends on positions. A generic error shows its tag.
      An expected literal or keyword of printable ASCII is quoted as written,
      and a character class by its name. */
  lemma MessageText(err: Error)
    ensures err.Generic? ==> Message(err) == err.tag
    ensures err.ExpectedLiteral? && (forall i :: 0 <= i < |err.text| ==> PrintableAscii(err.text[i])) ==>
              Message(err) == "expected '" + err.text + "'"
                && Message(err) == Message(ExpectedLiteral(0, err.text, 0))
    ensures err.ExpectedKeyword? && (forall i :: 0 <= i < |err.text| ==> PrintableAscii(err.text[i])) ==>
              Message(err) == "expected keyword '" + err.text + "'"
    ensures err.ExpectedCharClass? ==> Message(err) == "expected '" + err.name + "' character"
  {
    if err.ExpectedLiteral? || err.ExpectedKeyword? {
      if forall i :: 0 <= i < |err.text| ==> PrintableAscii(err.text[i]) {
        VisualizeAscii(err.text);
      }
    }
  }

  //=== the report ===//

  /** The empty gutter: five columns and a bar. */
  const Gutter: string := "     |"

  function Repeat(c: char, n: nat): (r: string)
    ensures |r| == n && forall i :: 0 <= i < n ==> r[i] == c
  {
    if n == 0 then "" else Repeat(c, n - 1) + [c]
  }

  function DecimalDigit(d: nat): (c: char)
    requires d < 10
  {
    "0123456789"[d]
  }

  /** `n` in decimal, without leading zeros. */
  function Decimal(n: nat): (t: string)
    ensures |t| >= 1
  {
    if n < 10 then [DecimalDigit(n)] else Decimal(n / 10) + [DecimalDigit(n % 10)]
  }

  /** The value of a string of decimal digits. */
  function DecimalValue(t: string): nat {
    if t == [] then 0 else 10 * DecimalValue(t[..|t| - 1]) + DigitValue(t[|t| - 1])
  }

  lemma DecimalDigitValue(d: nat)
    requires d < 10
    ensures DigitValue(DecimalDigit(d)) == d && '0' <= DecimalDigit(d) <= '9'
  {
    var digits := "0123456789";
    assert digits[0] == '0' && digits[1] == '1' && digits[2] == '2' && digits[3] == '3' && digits[4] == '4';
    assert digits[5] == '5' && digits[6] == '6' && digits[7] == '7' && digits[8] == '8' && digits[9] == '9';
  }

  /** The line number field reads back as the line number: its characters
      are decimal digits, the first of them not a zero unless `n` is 0. */
  lemma {:induction false} DecimalRoundTrip(n: nat)
    ensures var t := Decimal(n);
            DecimalValue(t) == n && (forall i :: 0 <= i < |t| ==> '0' <= t[i] <= '9')
            && (t[0] == '0' <==> n == 0)
  {
    var t := Decimal(n);
    if n < 10 {
      DecimalDigitValue(n);
      assert t[..0] == [];
    } else {
      DecimalRoundTrip(n / 10);
      DecimalDigitValue(n % 10);
      assert t[..|t| - 1] == Decimal(n / 10);
      assert t[0] == Decimal(n / 10)[0];
    }
  }

  /** `t` right-aligned in a field of `width` columns. */
  function PadLeft(t: string, width: nat): (r: string)
    ensures |r| == if |t| < width then width else |t|
    ensures r[|r| - |t|..] == t && forall i :: 0 <= i < |r| - |t| ==> r[i] == ' '
  {
    Repeat(' ', if |t| < width then width - |t| else 0) + t
  }

  /** The two rows of an annotation: the numbered, escaped source line, and
      the marker row with the message. */
  function AnnotationRows(ann: Annotation, marker: char, message: string): seq<string> {
    [ PadLeft(Decimal(ann.line), 4) + " | "
      + Visualize(ann.before) + Visualize(ann.annotated) + Visualize(ann.after),
      Gutter + " " + Repeat(' ', Column(ann)) + Repeat(marker, Underline(ann)) + " " + message ]
  }

  /** On a line of printable ASCII the line is shown as is, the markers start
      at the range's code point offset and there is one marker per code point. */
  lemma AsciiAnnotationRows(ann: Annotation, marker: char, message: string)
    requires forall i :: 0 <= i < |ann.before| ==> PrintableAscii(ann.before[i])
    requires forall i :: 0 <= i < |ann.annotated| ==> PrintableAscii(ann.annotated[i])
    requires forall i :: 0 <= i < |ann.after| ==> PrintableAscii(ann.after[i])
    requires ann.annotated != ""
    ensures AnnotationRows(ann, marker, message)
            == [ PadLeft(Decimal(ann.line), 4) + " | " + ann.before + ann.annotated + ann.after,
                 Gutter + " " + Repeat(' ', |ann.before|) + Repeat(marker, |ann.annotated|) + " " + message ]
  {
    VisualizeAscii(ann.before);
    VisualizeAscii(ann.annotated);
    VisualizeAscii(ann.after);
  }

  /** The code points the context and the error point at. */
  function ContextAt(ctx: ErrorContext): nat {
    CpIndex(ctx.input, ctx.pos)
  }

  function ErrorAt(ctx: ErrorContext, err: Error): nat {
    CpIndex(ctx.input, err.pos)
  }

  /** Whether the error lies on another line than where the production began. */
  predicate OtherLine(ctx: ErrorContext, err: Error) {
    LineNumber(ctx.input, ContextAt(ctx)) != LineNumber(ctx.input, ErrorAt(ctx, err))
  }

  function ContextAnnotation(ctx: ErrorContext): Annotation {
    Annotate(ctx.input, ContextAt(ctx), CpIndex(ctx.input, ctx.pos + 1))
  }

  function ErrorAnnotation(ctx: ErrorContext, err: Error): Annotation {
    Annotate(ctx.input, ErrorAt(ctx, err), CpIndex(ctx.input, RangeEnd(err)))
  }

  /** The headline and an empty gutter row. */
  function HeaderRows(ctx: ErrorContext): seq<string> {
    ["error: while parsing " + ctx.production, Gutter]
  }

  /** The annotation of the line where the production began and an empty
      gutter row, when the error is on another line. */
  function ContextRows(ctx: ErrorContext, err: Error): seq<string> {
    if OtherLine(ctx, err) then AnnotationRows(ContextAnnotation(ctx), '~', "beginning here") + [Gutter]
    else []
  }

  /** The rows of the whole report. */
  function Report(ctx: ErrorContext, err: Error): seq<string> {
    HeaderRows(ctx) + ContextRows(ctx, err) + AnnotationRows(ErrorAnnotation(ctx, err), '^', Message(err))
  }

  /** Rows written out, each ended by a newline. */
  function Lines(rows: seq<string>): string {
    if rows == [] then "" else rows[0] + "\n" + Lines(rows[1..])
  }

  lemma {:induction false} LinesAppend(a: seq<string>, b: seq<string>)
    ensures Lines(a + b) == Lines(a) + Lines(b)
  {
    if a == [] {
      assert a + b == b;
    } else {
      assert (a + b)[1..] == a[1..] + b;
      LinesAppend(a[1..], b);
      AppendAssoc(a[0] + "\n", Lines(a[1..]), Lines(b));
    }
  }

  lemma LinesPair(x: string, y: string)
    ensures Lines([x, y]) == x + "\n" + y + "\n"
  {
    assert [x, y][1..] == [y];
    assert Lines([y]) == y + "\n" + Lines([]);
    AppendAssoc(x + "\n", y, "\n");
  }

  /** The report as text. */
  function Render(ctx: ErrorContext, err: Error): string {
    Lines(Report(ctx, err))
  }

  /** What the error's marker row underlines, by where the error points: one
      column past the line at the end of the input, the two columns of an
      escaped newline at a newline, and otherwise the displayed width of the
      range clipped to its line (at least one code point). The markers start
      at the displayed width of the line before the error. */
  lemma ErrorMarkers(ctx: ErrorContext, err: Error)
    ensures var s, a, e := ctx.input, ErrorAt(ctx, err), CpIndex(ctx.input, RangeEnd(err));
            var ann := ErrorAnnotation(ctx, err);
            Column(ann) == Width(s[LineStart(s, a)..a])
            && (a == |s| ==> Underline(ann) == 1)
            && (a < |s| && s[a] == '\n' ==> Underline(ann) == 2 && ann.after == "")
            && (a < |s| && s[a] != '\n' ==>
                  var stop := if e <= a then a + 1 else if e < LineEnd(s, a) then e else LineEnd(s, a);
                  Underline(ann) == Width(s[a..stop]) >= stop - a >= 1)
  {
    var s, a, e := ctx.input, ErrorAt(ctx, err), CpIndex(ctx.input, RangeEnd(err));
    var ann := ErrorAnnotation(ctx, err);
    if a < |s| && s[a] == '\n' {
      assert ann.annotated == "\n";
      EscapeWidth('\n');
      VisualizeSingle('\n');
    } else if a < |s| {
      WidthAtLeastLength(ann.annotated);
    }
  }

  /** A stretch of printable ASCII takes one column per code point. */
  lemma AsciiWidth(s: string, i: nat, j: nat)
    requires i <= j <= |s|
    requires forall k :: i <= k < j ==> PrintableAscii(s[k])
    ensures Width(s[i..j]) == j - i
  {
    var t := s[i..j];
    assert forall k :: 0 <= k < |t| ==> PrintableAscii(t[k]) by {
      forall k | 0 <= k < |t| ensures PrintableAscii(t[k]) {
        assert t[k] == s[i + k];
      }
    }
    VisualizeAscii(t);
  }

  /** On text of printable ASCII and newlines, byte offsets are columns: the
      markers start at the error's offset within its line, and there are as
      many as the range has bytes up to the line's end, at least one. */
  lemma AsciiErrorMarkers(ctx: ErrorContext, err: Error)
    requires forall i :: 0 <= i < |ctx.input| ==> ctx.input[i] == '\n' || PrintableAscii(ctx.input[i])
    requires err.pos < |ctx.input| && ctx.input[err.pos] != '\n'
    ensures var s, end := ctx.input, RangeEnd(err);
            var ann := ErrorAnnotation(ctx, err);
            var le := LineEnd(s, err.pos);
            Column(ann) == err.pos - LineStart(s, err.pos)
            && Underline(ann) == (if end <= err.pos then 1 else if end < le then end - err.pos else le - err.pos)
  {
    var s, end := ctx.input, RangeEnd(err);
    CpIndexAscii(s, err.pos);
    CpIndexAscii(s, end);
    ErrorMarkers(ctx, err);
    var a, ls, le := err.pos, LineStart(s, err.pos), LineEnd(s, err.pos);
    var e := CpIndex(s, end);
    var stop := if e <= a then a + 1 else if e < le then e else le;
    AsciiWidth(s, ls, a);
    AsciiWidth(s, a, stop);
    var ann := ErrorAnnotation(ctx, err);
    assert Column(ann) == a - ls;
    assert Underline(ann) == stop - a;
  }

  /** The context block appears exactly when the error is on another line
      than where the production began; the report always starts with the
      headline and ends with the error's annotation. */
  lemma ContextShownIff(ctx: ErrorContext, err: Error)
    ensures var r := Report(ctx, err);
            |r| == (if OtherLine(ctx, err) then 7 else 4)
            && r[..2] == HeaderRows(ctx)
            && r[|r| - 2..] == AnnotationRows(ErrorAnnotation(ctx, err), '^', Message(err))
            && (OtherLine(ctx, err) ==>
                  r[2..4] == AnnotationRows(ContextAnnotation(ctx), '~', "beginning here") && r[4] == Gutter)
  {
    var h, c := HeaderRows(ctx), ContextRows(ctx, err);
    var e := AnnotationRows(ErrorAnnotation(ctx, err), '^', Message(err));
    var r := h + c + e;
    assert Report(ctx, err) == r;
    assert |h| == 2 && |e| == 2;
    assert |c| == if OtherLine(ctx, err) then 3 else 0;
    assert r[..2] == h;
    assert r[|r| - 2..] == e;
    if OtherLine(ctx, err) {
      assert r[2..4] == c[..2];
    }
  }

  //=== writing ===//

  /** Finds the code point at byte offset `b`, counting lines on the way, as
      the renderer walks the input to locate a position. */
  method Locate(s: string, b: nat) returns (i: nat, line: nat)
    ensures i == CpIndex(s, b) && line == LineNumber(s, i)
  {
    i, line := 0, 1;
    var rest := b;
    while i < |s| && rest > 0
      invariant i <= |s| && i + CpIndex(s[i..], rest) == CpIndex(s, b)
      invariant line == LineNumber(s, i)
      decreases |s| - i
    {
      assert s[i..][1..] == s[i + 1..];
      assert s[..i + 1][..i] == s[..i];
      var w := Utf8Width(s[i]);
      rest := if rest <= w then 0 else rest - w;
      if s[i] == '\n' {
        line := line + 1;
      }
      i := i + 1;
    }
  }

  lemma VisualizeSingle(c: char)
    ensures Visualize([c]) == Escape(c)
  {
    assert [c][1..] == [];
  }

  lemma VisualizeSnoc(out: string, t: string, k: nat, r: string)
    requires k < |t| && r == out + Visualize(t[..k])
    ensures r + Escape(t[k]) == out + Visualize(t[..k + 1])
  {
    assert t[..k + 1] == t[..k] + [t[k]];
    VisualizeAppend(t[..k], [t[k]]);
    VisualizeSingle(t[k]);
    AppendAssoc(out, Visualize(t[..k]), Escape(t[k]));
  }

  /** Proof glue only: regrouping a concatenation, stated separately so that
      the writing loops do not unfold `Escape` while regrouping. */
  lemma AppendAssoc(a: string, b: string, c: string)
    ensures (a + b) + c == a + (b + c)
  {
  }

  /** Appends the displayed form of `t`, counting the columns written. */
  method WriteVisualized(out: string, t: string) returns (r: string, columns: nat)
    ensures r == out + Visualize(t) && columns == Width(t)
  {
    r := out;
    var k := 0;
    while k < |t|
      invariant k <= |t| && r == out + Visualize(t[..k])
    {
      VisualizeSnoc(out, t, k, r);
      r := r + Escape(t[k]);
      k := k + 1;
    }
    assert t[..k] == t;
    columns := |r| - |out|;
  }

  method WriteRepeated(out: string, c: char, n: nat) returns (r: string)
    ensures r == out + Repeat(c, n)
  {
    r := out;
    var k := 0;
    while k < n
      invariant k <= n && r == out + Repeat(c, k)
    {
      r := r + [c];
      k := k + 1;
    }
  }

  /** Writes the two rows of an annotation, measuring the column and the
      width of the range while the source line is written. */
  method WriteAnnotation(out: string, ann: Annotation, marker: char, message: string) returns (r: string)
    ensures r == out + Lines(AnnotationRows(ann, marker, message))
  {
    var column, width, rest;
    var line := PadLeft(Decimal(ann.line), 4) + " | ";
    line, column := WriteVisualized(line, ann.before);
    line, width := WriteVisualized(line, ann.annotated);
    line, rest := WriteVisualized(line, ann.after);
    var marks := Gutter + " ";
    marks := WriteRepeated(marks, ' ', column);
    marks := WriteRepeated(marks, marker, if ann.annotated == "" then 1 else width);
    marks := marks + " " + message;
    LinesPair(line, marks);
    r := out + (line + "\n" + marks + "\n");
  }

  /** Writes the headline and an empty gutter row. */
  method WriteHeader(ctx: ErrorContext) returns (r: string)
    ensures r == Lines(HeaderRows(ctx))
  {
    LinesPair("error: while parsing " + ctx.production, Gutter);
    r := "error: while parsing " + ctx.production + "\n" + Gutter + "\n";
  }

  lemma LinesSnoc(out: string, rows: seq<string>, row: string)
    ensures out + Lines(rows) + (row + "\n") == out + Lines(rows + [row])
  {
    assert Lines([row]) == row + "\n" + Lines([]);
    LinesAppend(rows, [row]);
    AppendAssoc(out, Lines(rows), row + "\n");
  }

  /** Writes the context block when the production began on another line
      than the error, given both positions located. */
  method WriteContext(out: string, ctx: ErrorContext, err: Error, c: nat, contextLine: nat, errorLine: nat)
    returns (r: string)
    requires c == ContextAt(ctx) && contextLine == LineNumber(ctx.input, c)
    requires errorLine == LineNumber(ctx.input, ErrorAt(ctx, err))
    ensures r == out + Lines(ContextRows(ctx, err))
  {
    if contextLine != errorLine {
      var next := CpIndex(ctx.input, ctx.pos + 1);
      var context := Annotate(ctx.input, c, next);
      r := WriteAnnotation(out, context, '~', "beginning here");
      LinesSnoc(out, AnnotationRows(context, '~', "beginning here"), Gutter);
      r := r + (Gutter + "\n");
    } else {
      r := out;
    }
  }

  /** `write_error`: the header, the context block when the error is on
      another line, and the error's annotation. */
  method WriteError(ctx: ErrorContext, err: Error) returns (r: string)
    ensures r == Render(ctx, err)
  {
    var s := ctx.input;
    var c, contextLine := Locate(s, ctx.pos);
    var a, errorLine := Locate(s, err.pos);
    r := WriteHeader(ctx);
    r := WriteContext(r, ctx, err, c, contextLine, errorLine);
    LinesAppend(HeaderRows(ctx), ContextRows(ctx, err));
    var e := CpIndex(s, RangeEnd(err));
    var annotation := Annotate(s, a, e);
    ghost var rows := AnnotationRows(annotation, '^', Message(err));
    r := WriteAnnotation(r, annotation, '^', Message(err));
    LinesAppend(HeaderRows(ctx) + ContextRows(ctx, err), rows);
  }
}
