// workflow/compiler.go: renderStep and escapeTableCell. The rendered text of a step
// is what incremental planning fingerprints, so it must determine the step.
module Render {
  import opened Ids

  datatype StepType = Unknown | Context | Action | Outcome

  datatype DocString = DocString(mediaType: string, content: string)

  datatype Step = Step(kind: StepType, text: string, table: Option<seq<seq<string>>>, doc: Option<DocString>)

  // ------------------------------------------------------------------- escaping

  // strings.ReplaceAll for a pattern of one character.
  function ReplaceAll(s: string, c: char, with: string): string {
    if s == [] then [] else (if s[0] == c then with else [s[0]]) + ReplaceAll(s[1..], c, with)
  }

  function EscapeTableCell(value: string): string {
    ReplaceAll(ReplaceAll(ReplaceAll(value, '\\', "\\\\"), '|', "\\|"), '\n', "\\n")
  }

  function EscapeChar(c: char): string {
    if c == '\\' then "\\\\" else if c == '|' then "\\|" else if c == '\n' then "\\n" else [c]
  }

  // The code that the three passes amount to.
  ghost function Escaped(value: string): string {
    if value == [] then [] else EscapeChar(value[0]) + Escaped(value[1..])
  }

  lemma {:induction false} ReplaceAllAppends(a: string, b: string, c: char, with: string)
    ensures ReplaceAll(a + b, c, with) == ReplaceAll(a, c, with) + ReplaceAll(b, c, with)
  {
    if a == [] {
      assert a + b == b;
    } else {
      ReplaceAllAppends(a[1..], b, c, with);
      assert (a + b)[1..] == a[1..] + b && (a + b)[0] == a[0];
      var head := if a[0] == c then with else [a[0]];
      assert head + ReplaceAll(a[1..], c, with) + ReplaceAll(b, c, with)
        == head + (ReplaceAll(a[1..], c, with) + ReplaceAll(b, c, with));
    }
  }

  lemma ReplaceOne(a: char, c: char, with: string)
    ensures ReplaceAll([a], c, with) == if a == c then with else [a]
  {
    assert [a][1..] == [];
    assert with + [] == with && [a] + [] == [a];
  }

  lemma ReplaceTwo(a: char, b: char, c: char, with: string)
    requires a != c && b != c
    ensures ReplaceAll([a, b], c, with) == [a, b]
  {
    ReplaceAllAppends([a], [b], c, with);
    ReplaceOne(a, c, with);
    ReplaceOne(b, c, with);
    assert [a] + [b] == [a, b];
  }

  lemma EscapeChars(c: char)
    ensures EscapeTableCell([c]) == EscapeChar(c)
  {
    ReplaceOne(c, '\\', "\\\\");
    ReplaceOne(c, '|', "\\|");
    ReplaceOne(c, '\n', "\\n");
    ReplaceTwo('\\', '\\', '|', "\\|");
    ReplaceTwo('\\', '\\', '\n', "\\n");
    ReplaceTwo('\\', '|', '\n', "\\n");
  }

  // Three successive passes never touch what an earlier pass wrote.
  lemma {:induction false} PassesAreOneCode(value: string)
    ensures EscapeTableCell(value) == Escaped(value)
  {
    if value != [] {
      var head, tail := [value[0]], value[1..];
      assert value == head + tail;
      PassesAreOneCode(tail);
      EscapeChars(value[0]);
      ReplaceAllAppends(head, tail, '\\', "\\\\");
      var h1, t1 := ReplaceAll(head, '\\', "\\\\"), ReplaceAll(tail, '\\', "\\\\");
      ReplaceAllAppends(h1, t1, '|', "\\|");
      ReplaceAllAppends(ReplaceAll(h1, '|', "\\|"), ReplaceAll(t1, '|', "\\|"), '\n', "\\n");
    }
  }

  // No raw newline, no pipe outside an escape, no unfinished escape.
  predicate Clean(s: string) {
    if s == [] then true
    else if s[0] == '\\' then |s| >= 2 && (s[1] == '\\' || s[1] == '|' || s[1] == 'n') && Clean(s[2..])
    else s[0] != '|' && s[0] != '\n' && Clean(s[1..])
  }

  function Unescape(s: string): string
    requires Clean(s)
  {
    if s == [] then []
    else if s[0] == '\\' then [if s[1] == 'n' then '\n' else s[1]] + Unescape(s[2..])
    else [s[0]] + Unescape(s[1..])
  }

  // Escaping is invertible, and its results are exactly the clean strings.
  lemma {:induction false} EscapeRoundTrip(value: string)
    ensures Clean(EscapeTableCell(value)) && Unescape(EscapeTableCell(value)) == value
  {
    PassesAreOneCode(value);
    EscapedRoundTrip(value);
  }

  lemma {:induction false} EscapedRoundTrip(value: string)
    ensures Clean(Escaped(value)) && Unescape(Escaped(value)) == value
  {
    if value != [] {
      EscapedRoundTrip(value[1..]);
      CleanCons(value[0], Escaped(value[1..]));
      assert value == [value[0]] + value[1..];
    }
  }

  lemma CleanCons(c: char, rest: string)
    requires Clean(rest)
    ensures Clean(EscapeChar(c) + rest) && Unescape(EscapeChar(c) + rest) == [c] + Unescape(rest)
  {
    var s := EscapeChar(c) + rest;
    assert s[|EscapeChar(c)|..] == rest;
  }

  lemma {:induction false} UnescapeRoundTrip(s: string)
    requires Clean(s)
    ensures EscapeTableCell(Unescape(s)) == s
  {
    PassesAreOneCode(Unescape(s));
    if s != [] {
      var width := if s[0] == '\\' then 2 else 1;
      UnescapeRoundTrip(s[width..]);
      PassesAreOneCode(Unescape(s[width..]));
      assert s == s[..width] + s[width..];
      assert Unescape(s)[1..] == Unescape(s[width..]);
    }
  }

  lemma {:induction false} CleanHasNoNewline(s: string)
    requires Clean(s)
    ensures '\n' !in s
  {
    if s != [] {
      var width := if s[0] == '\\' then 2 else 1;
      CleanHasNoNewline(s[width..]);
      assert s == s[..width] + s[width..];
    }
  }

  // A cell of a row and what follows it.
  ghost function Cell(a: string, x: string): string {
    Escaped(a) + " |" + x
  }

  lemma CellHead(a: string, x: string)
    requires a != []
    ensures Cell(a, x) == EscapeChar(a[0]) + Cell(a[1..], x)
  {
  }

  // A cell ends at the first bare " |" that follows it.
  lemma {:induction false} CellsEndTogether(a: string, b: string, x: string, y: string)
    requires Cell(a, x) == Cell(b, y)
    ensures a == b && x == y
  {
    if a == [] && b == [] {
      assert Cell(a, x)[2..] == x && Cell(b, y)[2..] == y;
    } else if a == [] || b == [] {
      if a == [] { PipeNeverFollows(b, y); } else { PipeNeverFollows(a, x); }
    } else {
      HeadsAgree(a, b, x, y);
      CellHead(a, x);
      CellHead(b, y);
      var width := |EscapeChar(a[0])|;
      assert Cell(a, x)[width..] == Cell(a[1..], x) && Cell(b, y)[width..] == Cell(b[1..], y);
      CellsEndTogether(a[1..], b[1..], x, y);
      assert a == [a[0]] + a[1..] && b == [b[0]] + b[1..];
    }
  }

  lemma PipeNeverFollows(b: string, y: string)
    requires b != []
    ensures var s := Cell(b, y); |s| >= 2 && !(s[0] == ' ' && s[1] == '|')
  {
    CellHead(b, y);
    if b[0] == ' ' && b[1..] != [] {
      CellHead(b[1..], y);
    }
  }

  lemma HeadsAgree(a: string, b: string, x: string, y: string)
    requires a != [] && b != [] && Cell(a, x) == Cell(b, y)
    ensures a[0] == b[0]
  {
    HeadShows(a, x, Cell(a, x));
    HeadShows(b, y, Cell(b, y));
    ShownHeadsAgree(a[0], b[0], Cell(a, x));
  }

  ghost predicate Shows(c: char, s: string) {
    |s| >= 2 && s[0] == EscapeChar(c)[0] && (|EscapeChar(c)| == 2 ==> s[1] == EscapeChar(c)[1])
  }

  lemma HeadShows(a: string, x: string, s: string)
    requires a != [] && s == Cell(a, x)
    ensures Shows(a[0], s)
  {
    CellHead(a, x);
  }

  lemma ShownHeadsAgree(p: char, q: char, s: string)
    requires Shows(p, s) && Shows(q, s)
    ensures p == q
  {
  }

  // ---------------------------------------------------------------------- lines

  // strings.Split(s, "\n")
  function Split(s: string): (lines: seq<string>)
    ensures lines != []
  {
    if s == [] then [[]]
    else
      var rest := Split(s[1..]);
      if s[0] == '\n' then [[]] + rest else [[s[0]] + rest[0]] + rest[1..]
  }

  function Join(lines: seq<string>): string
    requires lines != []
  {
    if |lines| == 1 then lines[0] else lines[0] + "\n" + Join(lines[1..])
  }

  lemma {:induction false} JoinSplit(s: string)
    ensures Join(Split(s)) == s
    ensures forall i :: 0 <= i < |Split(s)| ==> '\n' !in Split(s)[i]
  {
    if s != [] {
      JoinSplit(s[1..]);
      var rest := Split(s[1..]);
      assert s == [s[0]] + s[1..];
      if s[0] != '\n' && |rest| > 1 {
        assert Split(s)[1..] == rest[1..];
      }
    }
  }

  lemma {:induction false} SplitLine(line: string, rest: string)
    requires '\n' !in line
    ensures Split(line + "\n" + rest) == [line] + Split(rest)
  {
    var s := line + "\n" + rest;
    if line == [] {
      assert s[1..] == rest;
    } else {
      SplitLine(line[1..], rest);
      assert s[1..] == line[1..] + "\n" + rest;
      assert line == [line[0]] + line[1..];
    }
  }

  lemma {:induction false} SplitLast(line: string)
    requires '\n' !in line
    ensures Split(line) == [line]
  {
    if line != [] {
      SplitLast(line[1..]);
      assert line == [line[0]] + line[1..];
    }
  }

  lemma {:induction false} SplitJoin(lines: seq<string>)
    requires lines != [] && forall i :: 0 <= i < |lines| ==> '\n' !in lines[i]
    ensures Split(Join(lines)) == lines
  {
    if |lines| == 1 {
      SplitLast(lines[0]);
    } else {
      SplitJoin(lines[1..]);
      SplitLine(lines[0], Join(lines[1..]));
      assert lines == [lines[0]] + lines[1..];
    }
  }

  lemma {:induction false} JoinSnoc(lines: seq<string>, line: string)
    requires lines != []
    ensures Join(lines + [line]) == Join(lines) + "\n" + line
  {
    if |lines| > 1 {
      JoinSnoc(lines[1..], line);
      assert (lines + [line])[1..] == lines[1..] + [line];
    } else {
      assert (lines + [line])[1..] == [line];
    }
  }

  // ------------------------------------------------------------------ rendering

  function StepKeyword(kind: StepType): string {
    match kind
    case Context => "Given"
    case Action => "When"
    case Outcome => "Then"
    case Unknown => "*"
  }

  function Cells(cells: seq<string>): string {
    if cells == [] then [] else Cells(cells[..|cells| - 1]) + " " + EscapeTableCell(cells[|cells| - 1]) + " |"
  }

  ghost function RowLines(rows: seq<seq<string>>): (lines: seq<string>)
    ensures |lines| == |rows| && forall i :: 0 <= i < |lines| ==> lines[i] == "  |" + Cells(rows[i])
  {
    seq(|rows|, i requires 0 <= i < |rows| => "  |" + Cells(rows[i]))
  }

  ghost function Indented(lines: seq<string>): (r: seq<string>)
    ensures |r| == |lines| && forall i :: 0 <= i < |r| ==> r[i] == "  " + lines[i]
  {
    seq(|lines|, i requires 0 <= i < |lines| => "  " + lines[i])
  }

  ghost function DocLines(doc: Option<DocString>): seq<string> {
    if doc.None? then []
    else ["  \"\"\"" + doc.value.mediaType] + Indented(Split(doc.value.content)) + ["  \"\"\""]
  }

  function Rows(step: Step): seq<seq<string>> {
    if step.table.Some? then step.table.value else []
  }

  // The lines of a rendered step.
  ghost function Lines(step: Step): seq<string> {
    [StepKeyword(step.kind) + " " + step.text] + RowLines(Rows(step)) + DocLines(step.doc)
  }

  method RenderStep(step: Step) returns (rendered: string)
    ensures rendered == Join(Lines(step))
    ensures (if step.kind == Context then "Given" else if step.kind == Action then "When"
             else if step.kind == Outcome then "Then" else "*") + " " + step.text <= rendered
  {
    rendered := RenderLines(step);
    KeywordFirst(step);
  }

  lemma KeywordFirst(step: Step)
    ensures (if step.kind == Context then "Given" else if step.kind == Action then "When"
             else if step.kind == Outcome then "Then" else "*") + " " + step.text <= Join(Lines(step))
  {
    JoinStarts(Lines(step));
    assert Lines(step)[0] == StepKeyword(step.kind) + " " + step.text;
  }

  method RenderLines(step: Step) returns (rendered: string)
    ensures rendered == Join(Lines(step))
  {
    rendered := StepKeyword(step.kind);
    rendered := rendered + " ";
    rendered := rendered + step.text;
    ghost var lines := [rendered];
    if step.table.Some? {
      var rows := step.table.value;
      for i := 0 to |rows|
        invariant lines == [StepKeyword(step.kind) + " " + step.text] + RowLines(rows)[..i]
        invariant rendered == Join(lines)
      {
        rendered := RenderRow(rendered, rows[i]);
        JoinSnoc(lines, RowLines(rows)[i]);
        lines := lines + [RowLines(rows)[i]];
      }
    }
    assert lines == [StepKeyword(step.kind) + " " + step.text] + RowLines(Rows(step));
    if step.doc.Some? {
      rendered := RenderDoc(rendered, lines, step.doc.value);
      assert lines + DocLines(step.doc) == Lines(step);
    } else {
      assert Lines(step) == lines;
    }
  }

  lemma JoinStarts(lines: seq<string>)
    requires lines != []
    ensures lines[0] <= Join(lines)
  {
  }

  method RenderRow(start: string, cells: seq<string>) returns (rendered: string)
    ensures rendered == start + "\n" + ("  |" + Cells(cells))
  {
    rendered := start + "\n  |";
    for k := 0 to |cells|
      invariant rendered == start + "\n" + ("  |" + Cells(cells[..k]))
    {
      assert cells[..k + 1][..k] == cells[..k];
      rendered := rendered + " ";
      rendered := rendered + EscapeTableCell(cells[k]);
      rendered := rendered + " |";
    }
    assert cells[..|cells|] == cells;
  }

  method RenderDoc(start: string, ghost lines0: seq<string>, doc: DocString) returns (rendered: string)
    requires lines0 != [] && start == Join(lines0)
    ensures rendered == Join(lines0 + DocLines(Some(doc)))
  {
    rendered := start + "\n" + ("  \"\"\"" + doc.mediaType);
    JoinSnoc(lines0, "  \"\"\"" + doc.mediaType);
    ghost var lines := lines0 + ["  \"\"\"" + doc.mediaType];
    var content := Split(doc.content);
    ghost var body := Indented(content);
    ghost var head := lines;
    for k := 0 to |content|
      invariant lines == head + body[..k] && lines != []
      invariant rendered == Join(lines)
    {
      JoinSnoc(lines, body[k]);
      lines := lines + [body[k]];
      rendered := rendered + "\n" + ("  " + content[k]);
    }
    JoinSnoc(lines, "  \"\"\"");
    rendered := rendered + "\n" + "  \"\"\"";
    assert body[..|body|] == body;
    DocLinesAppended(lines0, doc);
  }

  lemma DocLinesAppended(lines: seq<string>, doc: DocString)
    ensures lines + ["  \"\"\"" + doc.mediaType] + Indented(Split(doc.content)) + ["  \"\"\""]
      == lines + DocLines(Some(doc))
  {
    var first, body, last := ["  \"\"\"" + doc.mediaType], Indented(Split(doc.content)), ["  \"\"\""];
    assert DocLines(Some(doc)) == first + body + last;
    assert lines + first + body + last == lines + (first + body + last);
  }

  // ---------------------------------------------------------------- injectivity

  // Gherkin gives step texts and media types without line breaks.
  ghost predicate SingleLine(step: Step) {
    '\n' !in step.text && (step.doc.Some? ==> '\n' !in step.doc.value.mediaType)
  }

  lemma {:induction false} CellsHaveNoNewline(cells: seq<string>)
    ensures '\n' !in Cells(cells)
  {
    if cells != [] {
      CellsHaveNoNewline(cells[..|cells| - 1]);
      EscapeRoundTrip(cells[|cells| - 1]);
      CleanHasNoNewline(EscapeTableCell(cells[|cells| - 1]));
    }
  }

  lemma LinesHaveNoNewline(step: Step)
    requires SingleLine(step)
    ensures forall i :: 0 <= i < |Lines(step)| ==> '\n' !in Lines(step)[i]
  {
    var rows := RowLines(Rows(step));
    forall i | 0 <= i < |rows| ensures '\n' !in rows[i] {
      CellsHaveNoNewline(Rows(step)[i]);
    }
    if step.doc.Some? {
      JoinSplit(step.doc.value.content);
    }
  }

  lemma {:induction false} CellsFromFront(cells: seq<string>)
    requires cells != []
    ensures Cells(cells) == " " + Escaped(cells[0]) + " |" + Cells(cells[1..])
  {
    PassesAreOneCode(cells[|cells| - 1]);
    if |cells| == 1 {
      assert cells[..0] == [] && cells[1..] == [];
    } else {
      CellsFromFront(cells[..|cells| - 1]);
      assert cells[..|cells| - 1][1..] == cells[1..][..|cells| - 2];
      assert cells[1..][|cells| - 2] == cells[|cells| - 1];
      CellsAssociate(" " + Escaped(cells[0]) + " |", Cells(cells[1..][..|cells| - 2]), Escaped(cells[|cells| - 1]));
    }
  }

  lemma CellsAssociate(a: string, b: string, c: string)
    ensures (a + b) + " " + c + " |" == a + (b + " " + c + " |")
  {
  }

  lemma {:induction false} CellsAreInjective(a: seq<string>, b: seq<string>)
    requires Cells(a) == Cells(b)
    ensures a == b
    decreases |a|
  {
    if a != [] { CellsFromFront(a); }
    if b != [] { CellsFromFront(b); }
    if a != [] && b != [] {
      var x, y := Cells(a[1..]), Cells(b[1..]);
      FirstCell(Escaped(a[0]), x, Escaped(b[0]), y);
      CellsEndTogether(a[0], b[0], x, y);
      CellsAreInjective(a[1..], b[1..]);
      assert a == [a[0]] + a[1..] && b == [b[0]] + b[1..];
    }
  }

  lemma FirstCell(a: string, x: string, b: string, y: string)
    requires " " + a + " |" + x == " " + b + " |" + y
    ensures a + " |" + x == b + " |" + y
  {
    assert (" " + a + " |" + x)[1..] == a + " |" + x;
    assert (" " + b + " |" + y)[1..] == b + " |" + y;
  }

  lemma HeadLineIsInjective(a: Step, b: Step)
    requires StepKeyword(a.kind) + " " + a.text == StepKeyword(b.kind) + " " + b.text
    ensures a.kind == b.kind && a.text == b.text
  {
    var left, right := StepKeyword(a.kind) + " " + a.text, StepKeyword(b.kind) + " " + b.text;
    assert left[0] == StepKeyword(a.kind)[0] && right[0] == StepKeyword(b.kind)[0];
    var n := |StepKeyword(a.kind)| + 1;
    assert left[n..] == a.text && right[n..] == b.text;
  }

  ghost predicate IsRowLine(line: string) {
    |line| >= 3 && line[2] == '|'
  }

  ghost function Rest(step: Step): seq<string> {
    RowLines(Rows(step)) + DocLines(step.doc)
  }

  lemma RowLineAt(step: Step, n: nat)
    requires n < |Rows(step)|
    ensures n < |Rest(step)| && Rest(step)[n] == "  |" + Cells(Rows(step)[n]) && IsRowLine(Rest(step)[n])
  {
  }

  lemma NoRowLineAfter(step: Step)
    ensures |Rest(step)| > |Rows(step)| ==> !IsRowLine(Rest(step)[|Rows(step)|])
  {
    if step.doc.Some? {
      assert Rest(step)[|Rows(step)|] == "  \"\"\"" + step.doc.value.mediaType;
    }
  }

  // After the first line, the rows end where the doc string begins or the text ends.
  lemma RowCountsAgree(a: Step, b: Step)
    requires Rest(a) == Rest(b)
    ensures |Rows(a)| <= |Rows(b)|
  {
    NoRowLineAfter(b);
    if |Rows(b)| < |Rows(a)| { RowLineAt(a, |Rows(b)|); }
  }

  lemma DocIsInjective(a: DocString, b: DocString)
    requires DocLines(Some(a)) == DocLines(Some(b))
    ensures a == b
  {
    var left, right := DocLines(Some(a)), DocLines(Some(b));
    assert left[0][5..] == a.mediaType && right[0][5..] == b.mediaType;
    var s, t := Split(a.content), Split(b.content);
    assert |left| == |s| + 2 && |right| == |t| + 2;
    forall i | 0 <= i < |s| ensures s[i] == t[i] {
      assert left[i + 1] == "  " + s[i] && right[i + 1] == "  " + t[i];
      assert left[i + 1][2..] == s[i] && right[i + 1][2..] == t[i];
    }
    assert s == t;
    JoinSplit(a.content);
    JoinSplit(b.content);
  }

  lemma LinesAreRecovered(step: Step)
    requires SingleLine(step)
    ensures Split(Join(Lines(step))) == Lines(step)
  {
    LinesHaveNoNewline(step);
    SplitJoin(Lines(step));
  }

  // The rendered text determines keyword, text, every cell and the doc string; only a
  // table without rows is not told from no table.
  lemma RenderingIsInjective(a: Step, b: Step)
    requires SingleLine(a) && SingleLine(b) && Join(Lines(a)) == Join(Lines(b))
    ensures a.kind == b.kind && a.text == b.text && Rows(a) == Rows(b) && a.doc == b.doc
  {
    LinesAreRecovered(a);
    LinesAreRecovered(b);
    SameLinesSameStep(a, b);
  }

  lemma SameLinesSameStep(a: Step, b: Step)
    requires Lines(a) == Lines(b)
    ensures a.kind == b.kind && a.text == b.text && Rows(a) == Rows(b) && a.doc == b.doc
  {
    HeadAndRest(a);
    HeadAndRest(b);
    HeadLineIsInjective(a, b);
    RestIsInjective(a, b);
  }

  lemma HeadAndRest(step: Step)
    ensures Lines(step)[0] == StepKeyword(step.kind) + " " + step.text && Lines(step)[1..] == Rest(step)
  {
  }

  lemma RestIsInjective(a: Step, b: Step)
    requires Rest(a) == Rest(b)
    ensures Rows(a) == Rows(b) && a.doc == b.doc
  {
    RowCountsAgree(a, b);
    RowCountsAgree(b, a);
    var n := |Rows(a)|;
    forall i | 0 <= i < n ensures Rows(a)[i] == Rows(b)[i] {
      RowLineAt(a, i);
      RowLineAt(b, i);
      assert Rest(a)[i][3..] == Cells(Rows(a)[i]) && Rest(b)[i][3..] == Cells(Rows(b)[i]);
      CellsAreInjective(Rows(a)[i], Rows(b)[i]);
    }
    assert Rest(a)[n..] == DocLines(a.doc) && Rest(b)[n..] == DocLines(b.doc);
    if a.doc.Some? && b.doc.Some? {
      DocIsInjective(a.doc.value, b.doc.value);
    }
  }
}
