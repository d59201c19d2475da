/** The reports the renderer's own tests expect, one lemma per test. Each
    states the rows of the report; `Render` writes each row followed by a
    newline, which gives the test's expected text. */
module ReportErrorScenarios {
  import opened ReportError

  //=== proof glue ===//
  // The lemmas from here to `ReportWithContextIs` model nothing of the
  // renderer: they evaluate the line-number field and put row lists
  // together, so that the scenario lemmas below never reason about the
  // concatenation of literal strings.

  lemma NumberField1()
    ensures PadLeft(Decimal(1), 4) == "   1"
  {
    assert Repeat(' ', 3) == "   ";
  }

  lemma NumberField2()
    ensures PadLeft(Decimal(2), 4) == "   2"
  {
    assert Repeat(' ', 3) == "   ";
  }

  lemma HeaderIs(ctx: ErrorContext, h: string)
    requires ctx.production == "production" && h == "error: while parsing production"
    ensures HeaderRows(ctx) == [h, "     |"]
  {
    assert "error: while parsing " + ctx.production == h;
  }

  lemma Concat4(h: string, g: string, r1: string, r2: string)
    ensures [h, g] + [] + [r1, r2] == [h, g, r1, r2]
  {
  }

  lemma Concat3(c1: string, c2: string, g: string)
    ensures [c1, c2] + [g] == [c1, c2, g]
  {
  }

  lemma Concat7(h: string, g: string, c1: string, c2: string, r1: string, r2: string)
    ensures [h, g] + [c1, c2, g] + [r1, r2] == [h, g, c1, c2, g, r1, r2]
  {
  }

  lemma ReportIs(ctx: ErrorContext, err: Error, h: string, g: string, r1: string, r2: string)
    requires HeaderRows(ctx) == [h, g] && ContextRows(ctx, err) == []
    requires AnnotationRows(ErrorAnnotation(ctx, err), '^', Message(err)) == [r1, r2]
    ensures Report(ctx, err) == [h, g, r1, r2]
  {
    Concat4(h, g, r1, r2);
  }

  lemma ContextIs(ctx: ErrorContext, err: Error, c1: string, c2: string, g: string)
    requires OtherLine(ctx, err) && g == Gutter
    requires AnnotationRows(ContextAnnotation(ctx), '~', "beginning here") == [c1, c2]
    ensures ContextRows(ctx, err) == [c1, c2, g]
  {
    Concat3(c1, c2, g);
  }

  lemma ReportWithContextIs(ctx: ErrorContext, err: Error, h: string, g: string, c1: string, c2: string, r1: string, r2: string)
    requires HeaderRows(ctx) == [h, g] && ContextRows(ctx, err) == [c1, c2, g]
    requires AnnotationRows(ErrorAnnotation(ctx, err), '^', Message(err)) == [r1, r2]
    ensures Report(ctx, err) == [h, g, c1, c2, g, r1, r2]
  {
    Concat7(h, g, c1, c2, r1, r2);
  }

  /** Line facts of the two-line test input. */
  lemma SecondLine(s: string)
    requires s == "hello\nworld"
    ensures LineNumber(s, 0) == 1 && LineNumber(s, 8) == 2
    ensures LineStart(s, 8) == 6 && LineEnd(s, 8) == 11 && LineEnd(s, 0) == 5
  {
    assert s[..0] == [];
    SameLine(s, 0, 5);
    LineNumberStep(s, 5);
    SameLine(s, 6, 8);
    LineStartIs(s, 6, 8);
    LineEndIs(s, 8, |s|);
    LineEndIs(s, 0, 5);
  }

  lemma EscapedBytes(t: string)
    requires t == "hel\U{1234}"
    ensures ByteLength(t) == 6
  {
    assert t[3..][1..] == [];
    assert ByteLength(t[3..]) == 3;
    assert t[2..][1..] == t[3..];
    assert ByteLength(t[2..]) == 4;
    assert t[1..][1..] == t[2..];
    assert ByteLength(t[1..]) == 5;
  }

  lemma EscapedCodePoint()
    ensures Escape('\U{1234}') == "\\u1234"
  {
    assert HexDigit(1) == '1' && HexDigit(2) == '2' && HexDigit(3) == '3' && HexDigit(4) == '4';
    assert Hex(0, 0) == "";
    assert Hex(1, 1) == "1";
    assert Hex(0x12, 2) == "12";
    assert Hex(0x123, 3) == "123";
    assert Hex(0x1234, 4) == "1234";
  }

  lemma WritesGenericPointAnnotation(s: string, before: string, annotated: string, after: string)
    requires s == "hello world" && before == "" && annotated == "h" && after == "ello world"
    ensures ErrorAnnotation(ErrorContext("production", s, 0), Generic(0, 0, "error tag")) == Annotation(1, before, annotated, after)
  {
    CpIndexAscii(s, 0);
    LineEndIs(s, 0, |s|);
    SameLine(s, 0, 0);
    assert s[..0] == before && s[0..1] == annotated && s[1..11] == after;
  }

  lemma WritesGenericPointSameLine(s: string)
    requires s == "hello world"
    ensures ContextRows(ErrorContext("production", s, 0), Generic(0, 0, "error tag")) == []
  {
    CpIndexAscii(s, 0);
    CpIndexAscii(s, 0);
    SameLine(s, 0, 0);
  }

  lemma WritesGenericPointRowsLine(number: string, before: string, annotated: string, after: string, row: string)
    requires number == "   1" && before == "" && annotated == "h" && after == "ello world"
    requires row == "   1 | hello world"
    ensures number + " | " + before + annotated + after == row
  {
  }

  lemma WritesGenericPointRowsMarks(spaces: string, markers: string, marks: string)
    requires spaces == "" && markers == "^" && marks == "     | ^ error tag"
    ensures Gutter + " " + spaces + markers + " " + "error tag" == marks
  {
  }

  lemma WritesGenericPointRows(before: string, annotated: string, after: string, row: string, marks: string)
    requires before == "" && annotated == "h" && after == "ello world"
    requires row == "   1 | hello world" && marks == "     | ^ error tag"
    ensures AnnotationRows(Annotation(1, before, annotated, after), '^', "error tag") == [row, marks]
  {
    var ann := Annotation(1, before, annotated, after);
    VisualizeAscii(before);
    VisualizeAscii(annotated);
    VisualizeAscii(after);
    NumberField1();
    assert Repeat(' ', Column(ann)) == "";
    assert Repeat('^', Underline(ann)) == "^";
    WritesGenericPointRowsLine(PadLeft(Decimal(1), 4), Visualize(before), Visualize(annotated), Visualize(after), row);
    WritesGenericPointRowsMarks(Repeat(' ', Column(ann)), Repeat('^', Underline(ann)), marks);
  }

  lemma WritesGenericPointReport(s: string, h: string, r1: string, r2: string)
    requires s == "hello world" && h == "error: while parsing production"
    requires r1 == "   1 | hello world" && r2 == "     | ^ error tag"
    ensures Report(ErrorContext("production", s, 0), Generic(0, 0, "error tag")) == [h, "     |", r1, r2]
  {
    var ctx, err := ErrorContext("production", s, 0), Generic(0, 0, "error tag");
    WritesGenericPointSameLine(s);
    WritesGenericPointAnnotation(s, "", "h", "ello world");
    WritesGenericPointRows("", "h", "ello world", r1, r2);
    HeaderIs(ctx, h);
    ReportIs(ctx, err, h, "     |", r1, r2);
  }

  /** A point error marks the one code point at its position. */
  lemma WritesGenericPoint()
    ensures Report(ErrorContext("production", "hello world", 0), Generic(0, 0, "error tag"))
            == [ "error: while parsing production",
                 "     |",
                 "   1 | hello world",
                 "     | ^ error tag" ]
  {
    WritesGenericPointReport("hello world", "error: while parsing production", "   1 | hello world", "     | ^ error tag");
  }

  lemma WritesGenericRangeAnnotation(s: string, before: string, annotated: string, after: string)
    requires s == "hello world" && before == "he" && annotated == "ll" && after == "o world"
    ensures ErrorAnnotation(ErrorContext("production", s, 0), Generic(2, 4, "error tag")) == Annotation(1, before, annotated, after)
  {
    CpIndexAscii(s, 2);
    CpIndexAscii(s, 4);
    LineStartIs(s, 0, 2);
    LineEndIs(s, 2, |s|);
    SameLine(s, 0, 2);
    assert s[..0] == [];
    assert s[0..2] == before && s[2..4] == annotated && s[4..11] == after;
  }

  lemma WritesGenericRangeSameLine(s: string)
    requires s == "hello world"
    ensures ContextRows(ErrorContext("production", s, 0), Generic(2, 4, "error tag")) == []
  {
    CpIndexAscii(s, 0);
    CpIndexAscii(s, 2);
    SameLine(s, 0, 2);
  }

  lemma WritesGenericRangeRowsLine(number: string, before: string, annotated: string, after: string, row: string)
    requires number == "   1" && before == "he" && annotated == "ll" && after == "o world"
    requires row == "   1 | hello world"
    ensures number + " | " + before + annotated + after == row
  {
  }

  lemma WritesGenericRangeRowsMarks(spaces: string, markers: string, marks: string)
    requires spaces == "  " && markers == "^^" && marks == "     |   ^^ error tag"
    ensures Gutter + " " + spaces + markers + " " + "error tag" == marks
  {
  }

  lemma WritesGenericRangeRows(before: string, annotated: string, after: string, row: string, marks: string)
    requires before == "he" && annotated == "ll" && after == "o world"
    requires row == "   1 | hello world" && marks == "     |   ^^ error tag"
    ensures AnnotationRows(Annotation(1, before, annotated, after), '^', "error tag") == [row, marks]
  {
    var ann := Annotation(1, before, annotated, after);
    VisualizeAscii(before);
    VisualizeAscii(annotated);
    VisualizeAscii(after);
    NumberField1();
    assert Repeat(' ', Column(ann)) == "  ";
    assert Repeat('^', Underline(ann)) == "^^";
    WritesGenericRangeRowsLine(PadLeft(Decimal(1), 4), Visualize(before), Visualize(annotated), Visualize(after), row);
    WritesGenericRangeRowsMarks(Repeat(' ', Column(ann)), Repeat('^', Underline(ann)), marks);
  }

  lemma WritesGenericRangeReport(s: string, h: string, r1: string, r2: string)
    requires s == "hello world" && h == "error: while parsing production"
    requires r1 == "   1 | hello world" && r2 == "     |   ^^ error tag"
    ensures Report(ErrorContext("production", s, 0), Generic(2, 4, "error tag")) == [h, "     |", r1, r2]
  {
    var ctx, err := ErrorContext("production", s, 0), Generic(2, 4, "error tag");
    WritesGenericRangeSameLine(s);
    WritesGenericRangeAnnotation(s, "he", "ll", "o world");
    WritesGenericRangeRows("he", "ll", "o world", r1, r2);
    HeaderIs(ctx, h);
    ReportIs(ctx, err, h, "     |", r1, r2);
  }

  /** A range error marks one column per code point of its range. */
  lemma WritesGenericRange()
    ensures Report(ErrorContext("production", "hello world", 0), Generic(2, 4, "error tag"))
            == [ "error: while parsing production",
                 "     |",
                 "   1 | hello world",
                 "     |   ^^ error tag" ]
  {
    WritesGenericRangeReport("hello world", "error: while parsing production", "   1 | hello world", "     |   ^^ error tag");
  }

  lemma WritesExpectedLiteralAnnotation(s: string, before: string, annotated: string, after: string)
    requires s == "hello world" && before == "he" && annotated == "ll" && after == "o world"
    ensures ErrorAnnotation(ErrorContext("production", s, 0), ExpectedLiteral(2, "abc", 1)) == Annotation(1, before, annotated, after)
  {
    CpIndexAscii(s, 2);
    CpIndexAscii(s, 4);
    LineStartIs(s, 0, 2);
    LineEndIs(s, 2, |s|);
    SameLine(s, 0, 2);
    assert s[..0] == [];
    assert s[0..2] == before && s[2..4] == annotated && s[4..11] == after;
  }

  lemma WritesExpectedLiteralSameLine(s: string)
    requires s == "hello world"
    ensures ContextRows(ErrorContext("production", s, 0), ExpectedLiteral(2, "abc", 1)) == []
  {
    CpIndexAscii(s, 0);
    CpIndexAscii(s, 2);
    SameLine(s, 0, 2);
  }

  lemma WritesExpectedLiteralMessage(m: string)
    requires m == "expected 'abc'"
    ensures Message(ExpectedLiteral(2, "abc", 1)) == m
  {
    VisualizeAscii("abc");
  }

  lemma WritesExpectedLiteralRowsLine(number: string, before: string, annotated: string, after: string, row: string)
    requires number == "   1" && before == "he" && annotated == "ll" && after == "o world"
    requires row == "   1 | hello world"
    ensures number + " | " + before + annotated + after == row
  {
  }

  lemma WritesExpectedLiteralRowsMarks(spaces: string, markers: string, marks: string)
    requires spaces == "  " && markers == "^^" && marks == "     |   ^^ expected 'abc'"
    ensures Gutter + " " + spaces + markers + " " + "expected 'abc'" == marks
  {
  }

  lemma WritesExpectedLiteralRows(before: string, annotated: string, after: string, row: string, marks: string)
    requires before == "he" && annotated == "ll" && after == "o world"
    requires row == "   1 | hello world" && marks == "     |   ^^ expected 'abc'"
    ensures AnnotationRows(Annotation(1, before, annotated, after), '^', "expected 'abc'") == [row, marks]
  {
    var ann := Annotation(1, before, annotated, after);
    VisualizeAscii(before);
    VisualizeAscii(annotated);
    VisualizeAscii(after);
    NumberField1();
    assert Repeat(' ', Column(ann)) == "  ";
    assert Repeat('^', Underline(ann)) == "^^";
    WritesExpectedLiteralRowsLine(PadLeft(Decimal(1), 4), Visualize(before), Visualize(annotated), Visualize(after), row);
    WritesExpectedLiteralRowsMarks(Repeat(' ', Column(ann)), Repeat('^', Underline(ann)), marks);
  }

  lemma WritesExpectedLiteralReport(s: string, h: string, r1: string, r2: string)
    requires s == "hello world" && h == "error: while parsing production"
    requires r1 == "   1 | hello world" && r2 == "     |   ^^ expected 'abc'"
    ensures Report(ErrorContext("production", s, 0), ExpectedLiteral(2, "abc", 1)) == [h, "     |", r1, r2]
  {
    var ctx, err := ErrorContext("production", s, 0), ExpectedLiteral(2, "abc", 1);
    WritesExpectedLiteralSameLine(s);
    WritesExpectedLiteralAnnotation(s, "he", "ll", "o world");
    WritesExpectedLiteralMessage("expected 'abc'");
    WritesExpectedLiteralRows("he", "ll", "o world", r1, r2);
    HeaderIs(ctx, h);
    ReportIs(ctx, err, h, "     |", r1, r2);
  }

  /** A failed literal marks the matched prefix and the code unit where it failed. */
  lemma WritesExpectedLiteral()
    ensures Report(ErrorContext("production", "hello world", 0), ExpectedLiteral(2, "abc", 1))
            == [ "error: while parsing production",
                 "     |",
                 "   1 | hello world",
                 "     |   ^^ expected 'abc'" ]
  {
    WritesExpectedLiteralReport("hello world", "error: while parsing production", "   1 | hello world", "     |   ^^ expected 'abc'");
  }

  lemma WritesExpectedKeywordAnnotation(s: string, before: string, annotated: string, after: string)
    requires s == "hello world" && before == "he" && annotated == "llo w" && after == "orld"
    ensures ErrorAnnotation(ErrorContext("production", s, 0), ExpectedKeyword(2, 7, "abc")) == Annotation(1, before, annotated, after)
  {
    CpIndexAscii(s, 2);
    CpIndexAscii(s, 7);
    LineStartIs(s, 0, 2);
    LineEndIs(s, 2, |s|);
    SameLine(s, 0, 2);
    assert s[..0] == [];
    assert s[0..2] == before && s[2..7] == annotated && s[7..11] == after;
  }

  lemma WritesExpectedKeywordSameLine(s: string)
    requires s == "hello world"
    ensures ContextRows(ErrorContext("production", s, 0), ExpectedKeyword(2, 7, "abc")) == []
  {
    CpIndexAscii(s, 0);
    CpIndexAscii(s, 2);
    SameLine(s, 0, 2);
  }

  lemma WritesExpectedKeywordMessage(m: string)
    requires m == "expected keyword 'abc'"
    ensures Message(ExpectedKeyword(2, 7, "abc")) == m
  {
    VisualizeAscii("abc");
  }

  lemma WritesExpectedKeywordRowsLine(number: string, before: string, annotated: string, after: string, row: string)
    requires number == "   1" && before == "he" && annotated == "llo w" && after == "orld"
    requires row == "   1 | hello world"
    ensures number + " | " + before + annotated + after == row
  {
  }

  lemma WritesExpectedKeywordRowsMarks(spaces: string, markers: string, marks: string)
    requires spaces == "  " && markers == "^^^^^" && marks == "     |   ^^^^^ expected keyword 'abc'"
    ensures Gutter + " " + spaces + markers + " " + "expected keyword 'abc'" == marks
  {
  }

  lemma WritesExpectedKeywordRows(before: string, annotated: string, after: string, row: string, marks: string)
    requires before == "he" && annotated == "llo w" && after == "orld"
    requires row == "   1 | hello world" && marks == "     |   ^^^^^ expected keyword 'abc'"
    ensures AnnotationRows(Annotation(1, before, annotated, after), '^', "expected keyword 'abc'") == [row, marks]
  {
    var ann := Annotation(1, before, annotated, after);
    VisualizeAscii(before);
    VisualizeAscii(annotated);
    VisualizeAscii(after);
    NumberField1();
    assert Repeat(' ', Column(ann)) == "  ";
    assert Repeat('^', Underline(ann)) == "^^^^^";
    WritesExpectedKeywordRowsLine(PadLeft(Decimal(1), 4), Visualize(before), Visualize(annotated), Visualize(after), row);
    WritesExpectedKeywordRowsMarks(Repeat(' ', Column(ann)), Repeat('^', Underline(ann)), marks);
  }

  lemma WritesExpectedKeywordReport(s: string, h: string, r1: string, r2: string)
    requires s == "hello world" && h == "error: while parsing production"
    requires r1 == "   1 | hello world" && r2 == "     |   ^^^^^ expected keyword 'abc'"
    ensures Report(ErrorContext("production", s, 0), ExpectedKeyword(2, 7, "abc")) == [h, "     |", r1, r2]
  {
    var ctx, err := ErrorContext("production", s, 0), ExpectedKeyword(2, 7, "abc");
    WritesExpectedKeywordSameLine(s);
    WritesExpectedKeywordAnnotation(s, "he", "llo w", "orld");
    WritesExpectedKeywordMessage("expected keyword 'abc'");
    WritesExpectedKeywordRows("he", "llo w", "orld", r1, r2);
    HeaderIs(ctx, h);
    ReportIs(ctx, err, h, "     |", r1, r2);
  }

  /** A failed keyword marks the whole identifier it saw. */
  lemma WritesExpectedKeyword()
    ensures Report(ErrorContext("production", "hello world", 0), ExpectedKeyword(2, 7, "abc"))
            == [ "error: while parsing production",
                 "     |",
                 "   1 | hello world",
                 "     |   ^^^^^ expected keyword 'abc'" ]
  {
    WritesExpectedKeywordReport("hello world", "error: while parsing production", "   1 | hello world", "     |   ^^^^^ expected keyword 'abc'");
  }

  lemma WritesExpectedCharClassAnnotation(s: string, before: string, annotated: string, after: string)
    requires s == "hello world" && before == "hell" && annotated == "o" && after == " world"
    ensures ErrorAnnotation(ErrorContext("production", s, 0), ExpectedCharClass(4, "class")) == Annotation(1, before, annotated, after)
  {
    CpIndexAscii(s, 4);
    CpIndexAscii(s, 5);
    LineStartIs(s, 0, 4);
    LineEndIs(s, 4, |s|);
    SameLine(s, 0, 4);
    assert s[..0] == [];
    assert s[0..4] == before && s[4..5] == annotated && s[5..11] == after;
  }

  lemma WritesExpectedCharClassSameLine(s: string)
    requires s == "hello world"
    ensures ContextRows(ErrorContext("production", s, 0), ExpectedCharClass(4, "class")) == []
  {
    CpIndexAscii(s, 0);
    CpIndexAscii(s, 4);
    SameLine(s, 0, 4);
  }

  lemma WritesExpectedCharClassMessage(m: string)
    requires m == "expected 'class' character"
    ensures Message(ExpectedCharClass(4, "class")) == m
  {
  }

  lemma WritesExpectedCharClassRowsLine(number: string, before: string, annotated: string, after: string, row: string)
    requires number == "   1" && before == "hell" && annotated == "o" && after == " world"
    requires row == "   1 | hello world"
    ensures number + " | " + before + annotated + after == row
  {
  }

  lemma WritesExpectedCharClassRowsMarks(spaces: string, markers: string, marks: string)
    requires spaces == "    " && markers == "^" && marks == "     |     ^ expected 'class' character"
    ensures Gutter + " " + spaces + markers + " " + "expected 'class' character" == marks
  {
  }

  lemma WritesExpectedCharClassRows(before: string, annotated: string, after: string, row: string, marks: string)
    requires before == "hell" && annotated == "o" && after == " world"
    requires row == "   1 | hello world" && marks == "     |     ^ expected 'class' character"
    ensures AnnotationRows(Annotation(1, before, annotated, after), '^', "expected 'class' character") == [row, marks]
  {
    var ann := Annotation(1, before, annotated, after);
    VisualizeAscii(before);
    VisualizeAscii(annotated);
    VisualizeAscii(after);
    NumberField1();
    assert Repeat(' ', Column(ann)) == "    ";
    assert Repeat('^', Underline(ann)) == "^";
    WritesExpectedCharClassRowsLine(PadLeft(Decimal(1), 4), Visualize(before), Visualize(annotated), Visualize(after), row);
    WritesExpectedCharClassRowsMarks(Repeat(' ', Column(ann)), Repeat('^', Underline(ann)), marks);
  }

  lemma WritesExpectedCharClassReport(s: string, h: string, r1: string, r2: string)
    requires s == "hello world" && h == "error: while parsing production"
    requires r1 == "   1 | hello world" && r2 == "     |     ^ expected 'class' character"
    ensures Report(ErrorContext("production", s, 0), ExpectedCharClass(4, "class")) == [h, "     |", r1, r2]
  {
    var ctx, err := ErrorContext("production", s, 0), ExpectedCharClass(4, "class");
    WritesExpectedCharClassSameLine(s);
    WritesExpectedCharClassAnnotation(s, "hell", "o", " world");
    WritesExpectedCharClassMessage("expected 'class' character");
    WritesExpectedCharClassRows("hell", "o", " world", r1, r2);
    HeaderIs(ctx, h);
    ReportIs(ctx, err, h, "     |", r1, r2);
  }

  /** A failed character class marks one code point and names the class. */
  lemma WritesExpectedCharClass()
    ensures Report(ErrorContext("production", "hello world", 0), ExpectedCharClass(4, "class"))
            == [ "error: while parsing production",
                 "     |",
                 "   1 | hello world",
                 "     |     ^ expected 'class' character" ]
  {
    WritesExpectedCharClassReport("hello world", "error: while parsing production", "   1 | hello world", "     |     ^ expected 'class' character");
  }

  lemma WritesContextAnnotationAnnotation(s: string, before: string, annotated: string, after: string)
    requires s == "hello\nworld" && before == "wo" && annotated == "r" && after == "ld"
    ensures ErrorAnnotation(ErrorContext("production", s, 0), Generic(8, 8, "error tag")) == Annotation(2, before, annotated, after)
  {
    CpIndexAscii(s, 8);
    SecondLine(s);
    assert s[6..8] == before && s[8..9] == annotated && s[9..11] == after;
  }

  lemma WritesContextAnnotationContextAnnotation(s: string, before: string, annotated: string, after: string)
    requires s == "hello\nworld" && before == "" && annotated == "h" && after == "ello"
    ensures ContextAnnotation(ErrorContext("production", s, 0)) == Annotation(1, before, annotated, after)
  {
    CpIndexAscii(s, 0);
    CpIndexAscii(s, 1);
    LineEndIs(s, 0, 5);
    assert s[..0] == [];
    assert s[0..0] == before && s[0..1] == annotated && s[1..5] == after;
  }

  lemma WritesContextAnnotationOtherLine(s: string)
    requires s == "hello\nworld"
    ensures OtherLine(ErrorContext("production", s, 0), Generic(8, 8, "error tag"))
  {
    CpIndexAscii(s, 0);
    CpIndexAscii(s, 8);
    SecondLine(s);
  }

  lemma WritesContextAnnotationRowsLine(number: string, before: string, annotated: string, after: string, row: string)
    requires number == "   2" && before == "wo" && annotated == "r" && after == "ld"
    requires row == "   2 | world"
    ensures number + " | " + before + annotated + after == row
  {
  }

  lemma WritesContextAnnotationRowsMarks(spaces: string, markers: string, marks: string)
    requires spaces == "  " && markers == "^" && marks == "     |   ^ error tag"
    ensures Gutter + " " + spaces + markers + " " + "error tag" == marks
  {
  }

  lemma WritesContextAnnotationRows(before: string, annotated: string, after: string, row: string, marks: string)
    requires before == "wo" && annotated == "r" && after == "ld"
    requires row == "   2 | world" && marks == "     |   ^ error tag"
    ensures AnnotationRows(Annotation(2, before, annotated, after), '^', "error tag") == [row, marks]
  {
    var ann := Annotation(2, before, annotated, after);
    VisualizeAscii(before);
    VisualizeAscii(annotated);
    VisualizeAscii(after);
    NumberField2();
    assert Repeat(' ', Column(ann)) == "  ";
    assert Repeat('^', Underline(ann)) == "^";
    WritesContextAnnotationRowsLine(PadLeft(Decimal(2), 4), Visualize(before), Visualize(annotated), Visualize(after), row);
    WritesContextAnnotationRowsMarks(Repeat(' ', Column(ann)), Repeat('^', Underline(ann)), marks);
  }

  lemma WritesContextAnnotationContextRowsLine(number: string, before: string, annotated: string, after: string, row: string)
    requires number == "   1" && before == "" && annotated == "h" && after == "ello"
    requires row == "   1 | hello"
    ensures number + " | " + before + annotated + after == row
  {
  }

  lemma WritesContextAnnotationContextRowsMarks(spaces: string, markers: string, marks: string)
    requires spaces == "" && markers == "~" && marks == "     | ~ beginning here"
    ensures Gutter + " " + spaces + markers + " " + "beginning here" == marks
  {
  }

  lemma WritesContextAnnotationContextRows(before: string, annotated: string, after: string, row: string, marks: string)
    requires before == "" && annotated == "h" && after == "ello"
    requires row == "   1 | hello" && marks == "     | ~ beginning here"
    ensures AnnotationRows(Annotation(1, before, annotated, after), '~', "beginning here") == [row, marks]
  {
    var ann := Annotation(1, before, annotated, after);
    VisualizeAscii(before);
    VisualizeAscii(annotated);
    VisualizeAscii(after);
    NumberField1();
    assert Repeat(' ', Column(ann)) == "";
    assert Repeat('~', Underline(ann)) == "~";
    WritesContextAnnotationContextRowsLine(PadLeft(Decimal(1), 4), Visualize(before), Visualize(annotated), Visualize(after), row);
    WritesContextAnnotationContextRowsMarks(Repeat(' ', Column(ann)), Repeat('~', Underline(ann)), marks);
  }

  lemma WritesContextAnnotationReport(s: string, h: string, c1: string, c2: string, r1: string, r2: string)
    requires s == "hello\nworld" && h == "error: while parsing production"
    requires c1 == "   1 | hello" && c2 == "     | ~ beginning here"
    requires r1 == "   2 | world" && r2 == "     |   ^ error tag"
    ensures Report(ErrorContext("production", s, 0), Generic(8, 8, "error tag")) == [h, "     |", c1, c2, "     |", r1, r2]
  {
    var ctx, err := ErrorContext("production", s, 0), Generic(8, 8, "error tag");
    WritesContextAnnotationAnnotation(s, "wo", "r", "ld");
    WritesContextAnnotationRows("wo", "r", "ld", r1, r2);
    HeaderIs(ctx, h);
    WritesContextAnnotationContextAnnotation(s, "", "h", "ello");
    WritesContextAnnotationOtherLine(s);
    WritesContextAnnotationContextRows("", "h", "ello", c1, c2);
    ContextIs(ctx, err, c1, c2, "     |");
    ReportWithContextIs(ctx, err, h, "     |", c1, c2, r1, r2);
  }

  /** An error on another line than the production's start first shows where the production began. */
  lemma WritesContextAnnotation()
    ensures Report(ErrorContext("production", "hello\nworld", 0), Generic(8, 8, "error tag"))
            == [ "error: while parsing production",
                 "     |",
                 "   1 | hello",
                 "     | ~ beginning here",
                 "     |",
                 "   2 | world",
                 "     |   ^ error tag" ]
  {
    WritesContextAnnotationReport("hello\nworld", "error: while parsing production", "   1 | hello", "     | ~ beginning here", "   2 | world", "     |   ^ error tag");
  }

  lemma WritesErrorAtNewlineAnnotation(s: string, before: string, annotated: string, after: string)
    requires s == "hello\nworld" && before == "hello" && annotated == "\n" && after == ""
    ensures ErrorAnnotation(ErrorContext("production", s, 0), Generic(5, 5, "error tag")) == Annotation(1, before, annotated, after)
  {
    CpIndexAscii(s, 5);
    CpIndexAscii(s, 0);
    LineStartIs(s, 0, 5);
    SameLine(s, 0, 5);
    assert s[..0] == [];
    assert s[0..5] == before;
  }

  lemma WritesErrorAtNewlineSameLine(s: string)
    requires s == "hello\nworld"
    ensures ContextRows(ErrorContext("production", s, 0), Generic(5, 5, "error tag")) == []
  {
    CpIndexAscii(s, 0);
    CpIndexAscii(s, 5);
    SameLine(s, 0, 5);
  }

  lemma WritesErrorAtNewlineRowsLine(number: string, before: string, annotated: string, after: string, row: string)
    requires number == "   1" && before == "hello" && annotated == "\\n" && after == ""
    requires row == "   1 | hello\\n"
    ensures number + " | " + before + annotated + after == row
  {
  }

  lemma WritesErrorAtNewlineRowsMarks(spaces: string, markers: string, marks: string)
    requires spaces == "     " && markers == "^^" && marks == "     |      ^^ error tag"
    ensures Gutter + " " + spaces + markers + " " + "error tag" == marks
  {
  }

  lemma WritesErrorAtNewlineRows(before: string, annotated: string, after: string, row: string, marks: string)
    requires before == "hello" && annotated == "\n" && after == ""
    requires row == "   1 | hello\\n" && marks == "     |      ^^ error tag"
    ensures AnnotationRows(Annotation(1, before, annotated, after), '^', "error tag") == [row, marks]
  {
    var ann := Annotation(1, before, annotated, after);
    VisualizeAscii(before);
    EscapeWidth('\n');
    VisualizeSingle('\n');
    assert annotated == ['\n'];
    NumberField1();
    assert Repeat(' ', Column(ann)) == "     ";
    assert Repeat('^', Underline(ann)) == "^^";
    WritesErrorAtNewlineRowsLine(PadLeft(Decimal(1), 4), Visualize(before), Visualize(annotated), Visualize(after), row);
    WritesErrorAtNewlineRowsMarks(Repeat(' ', Column(ann)), Repeat('^', Underline(ann)), marks);
  }

  lemma WritesErrorAtNewlineReport(s: string, h: string, r1: string, r2: string)
    requires s == "hello\nworld" && h == "error: while parsing production"
    requires r1 == "   1 | hello\\n" && r2 == "     |      ^^ error tag"
    ensures Report(ErrorContext("production", s, 0), Generic(5, 5, "error tag")) == [h, "     |", r1, r2]
  {
    var ctx, err := ErrorContext("production", s, 0), Generic(5, 5, "error tag");
    WritesErrorAtNewlineSameLine(s);
    WritesErrorAtNewlineAnnotation(s, "hello", "\n", "");
    WritesErrorAtNewlineRows("hello", "\n", "", r1, r2);
    HeaderIs(ctx, h);
    ReportIs(ctx, err, h, "     |", r1, r2);
  }

  /** An error at a newline shows the newline escaped and marks both of its columns. */
  lemma WritesErrorAtNewline()
    ensures Report(ErrorContext("production", "hello\nworld", 0), Generic(5, 5, "error tag"))
            == [ "error: while parsing production",
                 "     |",
                 "   1 | hello\\n",
                 "     |      ^^ error tag" ]
  {
    WritesErrorAtNewlineReport("hello\nworld", "error: while parsing production", "   1 | hello\\n", "     |      ^^ error tag");
  }

  lemma WritesErrorAtEofAnnotation(s: string, before: string, annotated: string, after: string)
    requires s == "hello" && before == "hello" && annotated == "" && after == ""
    ensures ErrorAnnotation(ErrorContext("production", s, 0), Generic(5, 5, "error tag")) == Annotation(1, before, annotated, after)
  {
    CpIndexAscii(s, 5);
    CpIndexAscii(s, 0);
    LineStartIs(s, 0, 5);
    SameLine(s, 0, 5);
    assert s[..0] == [];
    assert s[0..5] == before;
  }

  lemma WritesErrorAtEofSameLine(s: string)
    requires s == "hello"
    ensures ContextRows(ErrorContext("production", s, 0), Generic(5, 5, "error tag")) == []
  {
    CpIndexAscii(s, 0);
    CpIndexAscii(s, 5);
    SameLine(s, 0, 5);
  }

  lemma WritesErrorAtEofRowsLine(number: string, before: string, annotated: string, after: string, row: string)
    requires number == "   1" && before == "hello" && annotated == "" && after == ""
    requires row == "   1 | hello"
    ensures number + " | " + before + annotated + after == row
  {
  }

  lemma WritesErrorAtEofRowsMarks(spaces: string, markers: string, marks: string)
    requires spaces == "     " && markers == "^" && marks == "     |      ^ error tag"
    ensures Gutter + " " + spaces + markers + " " + "error tag" == marks
  {
  }

  lemma WritesErrorAtEofRows(before: string, annotated: string, after: string, row: string, marks: string)
    requires before == "hello" && annotated == "" && after == ""
    requires row == "   1 | hello" && marks == "     |      ^ error tag"
    ensures AnnotationRows(Annotation(1, before, annotated, after), '^', "error tag") == [row, marks]
  {
    var ann := Annotation(1, before, annotated, after);
    VisualizeAscii(before);
    NumberField1();
    assert Repeat(' ', Column(ann)) == "     ";
    assert Repeat('^', Underline(ann)) == "^";
    WritesErrorAtEofRowsLine(PadLeft(Decimal(1), 4), Visualize(before), Visualize(annotated), Visualize(after), row);
    WritesErrorAtEofRowsMarks(Repeat(' ', Column(ann)), Repeat('^', Underline(ann)), marks);
  }

  lemma WritesErrorAtEofReport(s: string, h: string, r1: string, r2: string)
    requires s == "hello" && h == "error: while parsing production"
    requires r1 == "   1 | hello" && r2 == "     |      ^ error tag"
    ensures Report(ErrorContext("production", s, 0), Generic(5, 5, "error tag")) == [h, "     |", r1, r2]
  {
    var ctx, err := ErrorContext("production", s, 0), Generic(5, 5, "error tag");
    WritesErrorAtEofSameLine(s);
    WritesErrorAtEofAnnotation(s, "hello", "", "");
    WritesErrorAtEofRows("hello", "", "", r1, r2);
    HeaderIs(ctx, h);
    ReportIs(ctx, err, h, "     |", r1, r2);
  }

  /** An error at the end of the input marks the column after the last code point. */
  lemma WritesErrorAtEof()
    ensures Report(ErrorContext("production", "hello", 0), Generic(5, 5, "error tag"))
            == [ "error: while parsing production",
                 "     |",
                 "   1 | hello",
                 "     |      ^ error tag" ]
  {
    WritesErrorAtEofReport("hello", "error: while parsing production", "   1 | hello", "     |      ^ error tag");
  }

  lemma WritesEscapedCharactersAnnotation(s: string, before: string, annotated: string, after: string)
    requires s == "hel\U{1234}lo" && before == "" && annotated == "hel\U{1234}" && after == "lo"
    ensures ErrorAnnotation(ErrorContext("production", s, 0), Generic(0, 6, "error tag")) == Annotation(1, before, annotated, after)
  {
    assert s[..0] == [];
    assert s[..4] == annotated;
    EscapedBytes(annotated);
    CpIndexOfOffset(s, 4);
    LineEndIs(s, 0, |s|);
    SameLine(s, 0, 0);
    assert s[0..4] == annotated && s[4..6] == after;
  }

  lemma WritesEscapedCharactersSameLine(s: string)
    requires s == "hel\U{1234}lo"
    ensures ContextRows(ErrorContext("production", s, 0), Generic(0, 6, "error tag")) == []
  {
    assert ContextAt(ErrorContext("production", s, 0)) == 0;
    assert ErrorAt(ErrorContext("production", s, 0), Generic(0, 6, "error tag")) == 0;
  }

  lemma WritesEscapedCharactersRowsLine(number: string, before: string, annotated: string, after: string, row: string)
    requires number == "   1" && before == "" && annotated == "hel\\u1234" && after == "lo"
    requires row == "   1 | hel\\u1234lo"
    ensures number + " | " + before + annotated + after == row
  {
  }

  lemma WritesEscapedCharactersRowsMarks(spaces: string, markers: string, marks: string)
    requires spaces == "" && markers == "^^^^^^^^^" && marks == "     | ^^^^^^^^^ error tag"
    ensures Gutter + " " + spaces + markers + " " + "error tag" == marks
  {
  }

  lemma WritesEscapedCharactersRows(before: string, annotated: string, after: string, row: string, marks: string)
    requires before == "" && annotated == "hel\U{1234}" && after == "lo"
    requires row == "   1 | hel\\u1234lo" && marks == "     | ^^^^^^^^^ error tag"
    ensures AnnotationRows(Annotation(1, before, annotated, after), '^', "error tag") == [row, marks]
  {
    var ann := Annotation(1, before, annotated, after);
    VisualizeAscii(after);
    VisualizeAscii("hel");
    assert annotated == "hel" + ['\U{1234}'];
    VisualizeAppend("hel", ['\U{1234}']);
    VisualizeSingle('\U{1234}');
    EscapedCodePoint();
    NumberField1();
    assert Repeat(' ', Column(ann)) == "";
    assert Repeat('^', Underline(ann)) == "^^^^^^^^^";
    WritesEscapedCharactersRowsLine(PadLeft(Decimal(1), 4), Visualize(before), Visualize(annotated), Visualize(after), row);
    WritesEscapedCharactersRowsMarks(Repeat(' ', Column(ann)), Repeat('^', Underline(ann)), marks);
  }

  lemma WritesEscapedCharactersReport(s: string, h: string, r1: string, r2: string)
    requires s == "hel\U{1234}lo" && h == "error: while parsing production"
    requires r1 == "   1 | hel\\u1234lo" && r2 == "     | ^^^^^^^^^ error tag"
    ensures Report(ErrorContext("production", s, 0), Generic(0, 6, "error tag")) == [h, "     |", r1, r2]
  {
    var ctx, err := ErrorContext("production", s, 0), Generic(0, 6, "error tag");
    WritesEscapedCharactersSameLine(s);
    WritesEscapedCharactersAnnotation(s, "", "hel\U{1234}", "lo");
    WritesEscapedCharactersRows("", "hel\U{1234}", "lo", r1, r2);
    HeaderIs(ctx, h);
    ReportIs(ctx, err, h, "     |", r1, r2);
  }

  /** A code point outside printable ASCII is shown as `\\u` and four hexadecimal digits, and the range's byte offsets are translated to display columns. */
  lemma WritesEscapedCharacters()
    ensures Report(ErrorContext("production", "hel\U{1234}lo", 0), Generic(0, 6, "error tag"))
            == [ "error: while parsing production",
                 "     |",
                 "   1 | hel\\u1234lo",
                 "     | ^^^^^^^^^ error tag" ]
  {
    WritesEscapedCharactersReport("hel\U{1234}lo", "error: while parsing production", "   1 | hel\\u1234lo", "     | ^^^^^^^^^ error tag");
  }

  lemma WritesMultiLineRangeAnnotation(s: string, before: string, annotated: string, after: string)
    requires s == "hello\nworld" && before == "" && annotated == "hello" && after == ""
    ensures ErrorAnnotation(ErrorContext("production", s, 0), Generic(0, 8, "error tag")) == Annotation(1, before, annotated, after)
  {
    CpIndexAscii(s, 0);
    CpIndexAscii(s, 8);
    LineEndIs(s, 0, 5);
    SameLine(s, 0, 0);
    assert s[..0] == [];
    assert s[0..5] == annotated && s[5..5] == after;
  }

  lemma WritesMultiLineRangeSameLine(s: string)
    requires s == "hello\nworld"
    ensures ContextRows(ErrorContext("production", s, 0), Generic(0, 8, "error tag")) == []
  {
    CpIndexAscii(s, 0);
    CpIndexAscii(s, 0);
    SameLine(s, 0, 0);
  }

  lemma WritesMultiLineRangeRowsLine(number: string, before: string, annotated: string, after: string, row: string)
    requires number == "   1" && before == "" && annotated == "hello" && after == ""
    requires row == "   1 | hello"
    ensures number + " | " + before + annotated + after == row
  {
  }

  lemma WritesMultiLineRangeRowsMarks(spaces: string, markers: string, marks: string)
    requires spaces == "" && markers == "^^^^^" && marks == "     | ^^^^^ error tag"
    ensures Gutter + " " + spaces + markers + " " + "error tag" == marks
  {
  }

  lemma WritesMultiLineRangeRows(before: string, annotated: string, after: string, row: string, marks: string)
    requires before == "" && annotated == "hello" && after == ""
    requires row == "   1 | hello" && marks == "     | ^^^^^ error tag"
    ensures AnnotationRows(Annotation(1, before, annotated, after), '^', "error tag") == [row, marks]
  {
    var ann := Annotation(1, before, annotated, after);
    VisualizeAscii(annotated);
    NumberField1();
    assert Repeat(' ', Column(ann)) == "";
    assert Repeat('^', Underline(ann)) == "^^^^^";
    WritesMultiLineRangeRowsLine(PadLeft(Decimal(1), 4), Visualize(before), Visualize(annotated), Visualize(after), row);
    WritesMultiLineRangeRowsMarks(Repeat(' ', Column(ann)), Repeat('^', Underline(ann)), marks);
  }

  lemma WritesMultiLineRangeReport(s: string, h: string, r1: string, r2: string)
    requires s == "hello\nworld" && h == "error: while parsing production"
    requires r1 == "   1 | hello" && r2 == "     | ^^^^^ error tag"
    ensures Report(ErrorContext("production", s, 0), Generic(0, 8, "error tag")) == [h, "     |", r1, r2]
  {
    var ctx, err := ErrorContext("production", s, 0), Generic(0, 8, "error tag");
    WritesMultiLineRangeSameLine(s);
    WritesMultiLineRangeAnnotation(s, "", "hello", "");
    WritesMultiLineRangeRows("", "hello", "", r1, r2);
    HeaderIs(ctx, h);
    ReportIs(ctx, err, h, "     |", r1, r2);
  }

  /** A range that crosses the end of its line is clipped to that line. */
  lemma WritesMultiLineRange()
    ensures Report(ErrorContext("production", "hello\nworld", 0), Generic(0, 8, "error tag"))
            == [ "error: while parsing production",
                 "     |",
                 "   1 | hello",
                 "     | ^^^^^ error tag" ]
  {
    WritesMultiLineRangeReport("hello\nworld", "error: while parsing production", "   1 | hello", "     | ^^^^^ error tag");
  }

}
