/**
 * Export of generated questions (`export.js` in the teacher interface): the
 * plain-text rendering of one question, the CSV table of a batch with its
 * quoting, the copy-all text and the download file names. The PDF, Word and
 * JSON encoders belong to third-party libraries and are not modelled; their
 * file names are.
 */
module Export {
  import opened Wrappers
  import opened Js
  import opened Text

  // ===== Plain text of one question =====

  const Rule: string := "==============================\n"
  const LabelPrefix: string := "QUESTÃO "

  /** `${v}` of a property read. */
  function FieldText(v: Value, k: string): string
  {
    ToStr(Field(v, k))
  }

  /** `x && x.length > 0` for an array-valued property. */
  predicate HasItems(v: Value)
  {
    v.Arr? && |v.items| > 0
  }

  function ItemsOf(v: Value): seq<Value>
  {
    if v.Arr? then v.items else []
  }

  /** A true/false statement's truth: `correta` when it is defined, `valor` otherwise. */
  predicate Truth(a: Value)
  {
    var c := Field(a, "correta");
    if c != Undefined then Truthy(c) else Truthy(Field(a, "valor"))
  }

  /** The five kinds of listed item a question text contains. */
  datatype ItemKind = Alternative | Statement | ColumnA | ColumnB | Criterion

  /** The line one item contributes; `i` is its position in its list. */
  function ItemLine(kind: ItemKind, a: Value, i: nat): (line: string)
    ensures |line| > 0 && line[|line| - 1] == '\n'
  {
    match kind
    case Alternative => FieldText(a, "letra") + ") " + FieldText(a, "texto") + "\n"
    case Statement =>
      NatToString(i + 1) + ". " + FieldText(a, "texto") + " - " + (if Truth(a) then "VERDADEIRO" else "FALSO") + "\n"
    case ColumnA => FieldText(a, "numero") + ". " + FieldText(a, "texto") + "\n"
    case ColumnB => FieldText(a, "letra") + ") " + FieldText(a, "texto") + "\n"
    case Criterion =>
      "- " + FieldText(a, "aspecto") + " (" + FieldText(a, "peso") + "%): " + FieldText(a, "descricao") + "\n"
  }

  /** The line of every item of a list, in list order. */
  function ItemLines(kind: ItemKind, items: seq<Value>): (lines: seq<string>)
    ensures |lines| == |items| && forall i :: 0 <= i < |items| ==> lines[i] == ItemLine(kind, items[i], i)
  {
    seq(|items|, i requires 0 <= i < |items| => ItemLine(kind, items[i], i))
  }

  /** The text a list contributes. */
  function Lines(kind: ItemKind, items: seq<Value>): string
  {
    Concat(ItemLines(kind, items))
  }

  /** How the label line of question `idx` of a batch starts: the rule, then "QUESTÃO <idx+1> - ". */
  function LabelStart(idx: nat): string
  {
    Rule + LabelPrefix + NatToString(idx + 1) + " - "
  }

  /** The label line: its start, then the question type ("Questão" when missing). */
  function Label(q: Record, idx: nat): string
  {
    LabelStart(idx) + (StrOr(q, "tipo_questao", "Questão") + "\n")
  }

  /** The discipline line, the closing rule and the statement. */
  function Details(q: Record): string
  {
    "Disciplina: " + StrOr(q, "disciplina", "N/A") + " | Série: " + StrOr(q, "serie", "N/A") +
    " | Dificuldade: " + StrOr(q, "dificuldade", "N/A") + "\n" +
    Rule + "\n" + StrOr(q, "enunciado", "") + "\n\n"
  }

  function Header(q: Record, idx: nat): string
  {
    Label(q, idx) + Details(q)
  }

  function AnswerKey(q: Record): (r: string)
    ensures EndsInNewline(r)
  {
    "\nGabarito: " + StrOr(q, "gabarito", "") + "\n"
  }

  function Justification(q: Record): (r: string)
    ensures r == [] || EndsInNewline(r)
  {
    var j := Get(q, "justificativa_gabarito");
    if Truthy(j) then "Justificativa: " + ToStr(j) + "\n" else ""
  }

  function ExpectedAnswer(q: Record): (r: string)
    ensures r == [] || EndsInNewline(r)
  {
    var r := Get(q, "resposta_esperada");
    if Truthy(r) then "\nResposta Esperada:\n" + ToStr(r) + "\n" else ""
  }

  predicate HasColumns(q: Record)
  {
    Truthy(Get(q, "coluna_a")) && Truthy(Get(q, "coluna_b"))
  }

  // Each section appends to the text so far and keeps it ending in "\n".

  function WithAlternatives(t: string, q: Record): string
  {
    var alts := Get(q, "alternativas");
    if HasItems(alts) then t + Lines(Alternative, alts.items) + AnswerKey(q) + Justification(q) else t
  }

  function WithExpectedAnswer(t: string, q: Record): string
  {
    t + ExpectedAnswer(q)
  }

  function WithStatements(t: string, q: Record): string
  {
    var stmts := Get(q, "afirmacoes");
    if HasItems(stmts) then t + Lines(Statement, stmts.items) else t
  }

  function WithColumns(t: string, q: Record): string
  {
    if HasColumns(q) then
      t + "\nColuna A:\n" + Lines(ColumnA, ItemsOf(Get(q, "coluna_a"))) +
      "\nColuna B:\n" + Lines(ColumnB, ItemsOf(Get(q, "coluna_b"))) + AnswerKey(q)
    else t
  }

  function WithCriteria(t: string, q: Record): string
  {
    var crits := Get(q, "criterios_avaliacao");
    if HasItems(crits) then t + "\nCritérios de Avaliação:\n" + Lines(Criterion, crits.items) else t
  }

  /**
   * `formatarQuestaoTexto(q, idx)`: the header, the sections in order, and a
   * closing "\n". Every question text opens with the rule and the label
   * "QUESTÃO <idx+1>" and ends in a blank line: the extra "\n" after a last
   * line that itself ends in "\n".
   */
  function QuestionText(q: Record, idx: nat): (t: string)
    ensures StartsWith(t, LabelStart(idx))
    ensures EndsWith(t, "\n\n")
  {
    var h := Header(q, idx);
    HeaderShape(q, idx);
    SectionsGrow(h, q);
    ClosedText(LabelStart(idx), h, Sections(h, q), Sections(h, q) + "\n");
    Sections(h, q) + "\n"
  }

  /** The sections after the header, in the order the page writes them. */
  function Sections(t: string, q: Record): string
  {
    WithCriteria(WithColumns(WithStatements(WithExpectedAnswer(WithAlternatives(t, q), q), q), q), q)
  }

  /** One `forEach` of `formatarQuestaoTexto`: appends the lines in order. */
  method AppendLines(text: string, lines: seq<string>) returns (t: string)
    ensures t == text + Concat(lines)
  {
    t := text;
    var i := 0;
    while i < |lines|
      invariant 0 <= i <= |lines|
      invariant t == text + Concat(lines[..i])
    {
      assert lines[..i + 1][..i] == lines[..i];
      t := t + lines[i];
      i := i + 1;
    }
    assert lines[..i] == lines;
  }

  /** `formatarQuestaoTexto`: grows the text section by section. */
  method FormatarQuestaoTexto(q: Record, idx: nat) returns (text: string)
    ensures text == QuestionText(q, idx)
  {
    text := Header(q, idx);
    ghost var t0 := text;
    var alts := Get(q, "alternativas");
    if HasItems(alts) {
      text := AppendLines(text, ItemLines(Alternative, alts.items));
      text := text + AnswerKey(q);
      text := text + Justification(q);
    }
    assert text == WithAlternatives(t0, q);
    ghost var t1 := text;
    text := text + ExpectedAnswer(q);
    ghost var t2 := text;
    var stmts := Get(q, "afirmacoes");
    if HasItems(stmts) {
      text := AppendLines(text, ItemLines(Statement, stmts.items));
    }
    assert text == WithStatements(t2, q);
    ghost var t3 := text;
    if HasColumns(q) {
      text := text + "\nColuna A:\n";
      text := AppendLines(text, ItemLines(ColumnA, ItemsOf(Get(q, "coluna_a"))));
      text := text + "\nColuna B:\n";
      text := AppendLines(text, ItemLines(ColumnB, ItemsOf(Get(q, "coluna_b"))));
      text := text + AnswerKey(q);
    }
    assert text == WithColumns(t3, q);
    ghost var t4 := text;
    var crits := Get(q, "criterios_avaliacao");
    if HasItems(crits) {
      text := text + "\nCritérios de Avaliação:\n";
      text := AppendLines(text, ItemLines(Criterion, crits.items));
    }
    assert text == WithCriteria(t4, q);
    text := text + "\n";
  }

  predicate EndsInNewline(s: string)
  {
    |s| > 0 && s[|s| - 1] == '\n'
  }

  lemma {:induction false} LinesEndInNewline(kind: ItemKind, items: seq<Value>)
    ensures items == [] || EndsInNewline(Lines(kind, items))
  {
    if items != [] {
      var ls := ItemLines(kind, items);
      assert Concat(ls) == Concat(ls[..|ls| - 1]) + ItemLine(kind, items[|items| - 1], |items| - 1);
    }
  }

  lemma {:induction false} HeaderShape(q: Record, idx: nat)
    ensures LabelStart(idx) <= Header(q, idx)
    ensures EndsInNewline(Header(q, idx))
  {
    PrefixTrans(LabelStart(idx), Label(q, idx), Header(q, idx));
  }

  /** Appending a piece that is empty or ends in "\n" keeps a prefix and the final "\n". */
  lemma Extend(a: string, b: string)
    requires EndsInNewline(a) && (b == [] || EndsInNewline(b))
    ensures a <= a + b && EndsInNewline(a + b)
  {
  }

  lemma {:induction false} AlternativesGrow(t: string, q: Record)
    requires EndsInNewline(t)
    ensures t <= WithAlternatives(t, q) && EndsInNewline(WithAlternatives(t, q))
  {
    var alts := Get(q, "alternativas");
    if HasItems(alts) {
      var l := Lines(Alternative, alts.items);
      LinesEndInNewline(Alternative, alts.items);
      Extend(t, l);
      Extend(t + l, AnswerKey(q));
      Extend(t + l + AnswerKey(q), Justification(q));
      PrefixTrans(t, t + l, t + l + AnswerKey(q));
      PrefixTrans(t, t + l + AnswerKey(q), WithAlternatives(t, q));
    }
  }

  lemma {:induction false} StatementsGrow(t: string, q: Record)
    requires EndsInNewline(t)
    ensures t <= WithStatements(t, q) && EndsInNewline(WithStatements(t, q))
  {
    var stmts := Get(q, "afirmacoes");
    if HasItems(stmts) {
      LinesEndInNewline(Statement, stmts.items);
      Extend(t, Lines(Statement, stmts.items));
    }
  }

  lemma {:induction false} ColumnsGrow(t: string, q: Record)
    requires EndsInNewline(t)
    ensures t <= WithColumns(t, q) && EndsInNewline(WithColumns(t, q))
  {
    if HasColumns(q) {
      var a := Lines(ColumnA, ItemsOf(Get(q, "coluna_a")));
      var b := Lines(ColumnB, ItemsOf(Get(q, "coluna_b")));
      LinesEndInNewline(ColumnA, ItemsOf(Get(q, "coluna_a")));
      LinesEndInNewline(ColumnB, ItemsOf(Get(q, "coluna_b")));
      var t1 := t + "\nColuna A:\n";
      var t2 := t1 + a;
      var t3 := t2 + "\nColuna B:\n";
      var t4 := t3 + b;
      Extend(t, "\nColuna A:\n");
      Extend(t1, a);
      Extend(t2, "\nColuna B:\n");
      Extend(t3, b);
      Extend(t4, AnswerKey(q));
      PrefixTrans(t, t1, t2);
      PrefixTrans(t, t2, t3);
      PrefixTrans(t, t3, t4);
      PrefixTrans(t, t4, t4 + AnswerKey(q));
    }
  }

  lemma {:induction false} CriteriaGrow(t: string, q: Record)
    requires EndsInNewline(t)
    ensures t <= WithCriteria(t, q) && EndsInNewline(WithCriteria(t, q))
  {
    var crits := Get(q, "criterios_avaliacao");
    if HasItems(crits) {
      var l := Lines(Criterion, crits.items);
      LinesEndInNewline(Criterion, crits.items);
      Extend(t, "\nCritérios de Avaliação:\n");
      Extend(t + "\nCritérios de Avaliação:\n", l);
      PrefixTrans(t, t + "\nCritérios de Avaliação:\n", WithCriteria(t, q));
    }
  }

  /** A text that starts with `p`, grown and closed with one more newline, ends in a blank line. */
  lemma ClosedText(p: string, t0: string, t5: string, t: string)
    requires p <= t0 && t0 <= t5 && EndsInNewline(t5) && t == t5 + "\n"
    ensures StartsWith(t, p) && EndsWith(t, "\n\n")
  {
    PrefixTrans(p, t0, t5);
    PrefixTrans(p, t5, t);
    assert t[|t| - 2..] == "\n\n" by {
      assert t[|t| - 2] == t5[|t5| - 1];
    }
  }

  /** Each section only appends, and the text still ends in a newline. */
  lemma SectionsGrow(t0: string, q: Record)
    requires EndsInNewline(t0)
    ensures t0 <= Sections(t0, q) && EndsInNewline(Sections(t0, q))
  {
    var t1 := WithAlternatives(t0, q);
    var t2 := WithExpectedAnswer(t1, q);
    var t3 := WithStatements(t2, q);
    var t4 := WithColumns(t3, q);
    assert t0 <= t1 && EndsInNewline(t1) by { AlternativesGrow(t0, q); }
    assert t0 <= t2 && EndsInNewline(t2) by { Extend(t1, ExpectedAnswer(q)); PrefixTrans(t0, t1, t2); }
    assert t0 <= t3 && EndsInNewline(t3) by { StatementsGrow(t2, q); PrefixTrans(t0, t2, t3); }
    assert t0 <= t4 && EndsInNewline(t4) by { ColumnsGrow(t3, q); PrefixTrans(t0, t3, t4); }
    CriteriaGrow(t4, q);
    PrefixTrans(t0, t4, WithCriteria(t4, q));
  }

  lemma PrefixTrans(a: string, b: string, c: string)
    requires a <= b && b <= c
    ensures a <= c
  {
  }

  /** Items are written in list order: the lines of items `0..i` are a prefix of the whole list's. */
  lemma {:induction false} LinesInOrder(kind: ItemKind, items: seq<Value>, i: nat)
    requires i < |items|
    ensures Lines(kind, items[..i]) + ItemLine(kind, items[i], i) <= Lines(kind, items)
  {
    var ls := ItemLines(kind, items);
    assert ItemLines(kind, items[..i]) == ls[..i];
    assert ls[..i + 1][..i] == ls[..i];
    ConcatPrefix(ls, i + 1);
  }

  /** A statement is printed "VERDADEIRO" exactly when it is true, "FALSO" otherwise. */
  lemma {:induction false} StatementVerdict(a: Value, i: nat)
    ensures EndsWith(ItemLine(Statement, a, i), "VERDADEIRO\n") <==> Truth(a)
    ensures EndsWith(ItemLine(Statement, a, i), "FALSO\n") <==> !Truth(a)
  {
    var line := ItemLine(Statement, a, i);
    var p := NatToString(i + 1) + ". " + FieldText(a, "texto") + " - ";
    if Truth(a) {
      assert line == p + "VERDADEIRO\n";
      assert line[|line| - 6..] == "DEIRO\n";
    } else {
      assert line == p + "FALSO\n";
      assert line[|line| - 11..|line| - 5] != "VERDAD" || line[|line| - 5] == 'A';
    }
  }

  // ===== CSV =====

  /** The six exported columns, also the header line. */
  const Columns: seq<string> := ["tipo_questao", "disciplina", "serie", "dificuldade", "enunciado", "gabarito"]

  function HeaderLine(): string
  {
    Join(Columns, ",") + "\n"
  }

  /** `String(v ?? "")`: what a cell holds before quoting. */
  function CellText(v: Value): (s: string)
    ensures IsNullish(v) ==> s == ""
    ensures !IsNullish(v) ==> s == ToStr(v)
  {
    ToStr(Coalesce(v, Str("")))
  }

  /** `replace(/"/g, '""')`. */
  function DoubleQuotes(s: string): (r: string)
    ensures |r| >= |s|
  {
    if s == [] then []
    else (if s[0] == '"' then "\"\"" else [s[0]]) + DoubleQuotes(s[1..])
  }

  /** `esc`: the cell between double quotes, inner quotes doubled. */
  function Quote(s: string): string
  {
    "\"" + DoubleQuotes(s) + "\""
  }

  function QuoteAll(cells: seq<string>): (r: seq<string>)
    ensures |r| == |cells| && forall i :: 0 <= i < |cells| ==> r[i] == Quote(cells[i])
  {
    if cells == [] then [] else [Quote(cells[0])] + QuoteAll(cells[1..])
  }

  /** The six cells of one question, in column order. */
  function Cells(q: Record): (cells: seq<string>)
    ensures |cells| == |Columns|
    ensures forall j :: 0 <= j < |Columns| ==> cells[j] == CellText(Get(q, Columns[j]))
  {
    seq(|Columns|, j requires 0 <= j < |Columns| => CellText(Get(q, Columns[j])))
  }

  /** One data line: the quoted cells joined by "," and closed by "\n". */
  function EncodeLine(cells: seq<string>): string
  {
    Join(QuoteAll(cells), ",") + "\n"
  }

  /** The data lines, one per question, in input order. */
  function RowTexts(qs: seq<Record>): (rows: seq<string>)
    ensures |rows| == |qs| && forall i :: 0 <= i < |qs| ==> rows[i] == EncodeLine(Cells(qs[i]))
  {
    seq(|qs|, i requires 0 <= i < |qs| => EncodeLine(Cells(qs[i])))
  }

  function Csv(qs: seq<Record>): string
  {
    HeaderLine() + Concat(RowTexts(qs))
  }

  /** The CSV builder of `exportAllCSV` and `exportAllZIP`: the header, then one line per question. */
  method BuildCsv(qs: seq<Record>) returns (csv: string)
    ensures csv == Csv(qs)
  {
    csv := Join(Columns, ",") + "\n";
    ghost var rows := RowTexts(qs);
    var i := 0;
    while i < |qs|
      invariant 0 <= i <= |qs|
      invariant csv == HeaderLine() + Concat(rows[..i])
    {
      ConcatSnoc(rows, i);
      AppendAssoc(HeaderLine(), Concat(rows[..i]), rows[i]);
      csv := csv + EncodeLine(Cells(qs[i]));
      i := i + 1;
    }
    assert rows[..i] == rows;
  }

  // A reader for the quoted fields of section 2 of RFC 4180, rules 5 to 7,
  // over "\n"-terminated lines: it recovers every cell the builder wrote.

  /** Reads the inside of a quoted field up to its closing quote; returns the cell and what follows. */
  function ReadQuoted(s: string): (r: Option<(string, string)>)
    ensures r.Some? ==> |r.value.1| < |s|
  {
    if s == [] then None
    else if s[0] == '"' then
      if |s| >= 2 && s[1] == '"' then
        match ReadQuoted(s[2..])
        case None => None
        case Some(p) => Some(("\"" + p.0, p.1))
      else Some(("", s[1..]))
    else
      match ReadQuoted(s[1..])
      case None => None
      case Some(p) => Some(([s[0]] + p.0, p.1))
  }

  /** Reads the quoted fields of one line up to and including its "\n". */
  function ReadLine(s: string): (r: Option<(seq<string>, string)>)
    ensures r.Some? ==> |r.value.1| < |s|
    decreases |s|
  {
    if s == [] || s[0] != '"' then None
    else
      match ReadQuoted(s[1..])
      case None => None
      case Some(p) =>
        var rest := p.1;
        if rest != [] && rest[0] == '\n' then Some(([p.0], rest[1..]))
        else if rest != [] && rest[0] == ',' then
          match ReadLine(rest[1..])
          case None => None
          case Some(more) => Some(([p.0] + more.0, more.1))
        else None
  }

  function ReadRows(s: string): Option<seq<seq<string>>>
    decreases |s|
  {
    if s == [] then Some([])
    else
      match ReadLine(s)
      case None => None
      case Some(p) =>
        match ReadRows(p.1)
        case None => None
        case Some(rows) => Some([p.0] + rows)
  }

  /** Reads a whole export: the header line, then the data lines. */
  function ParseCsv(s: string): Option<seq<seq<string>>>
  {
    if HeaderLine() <= s then ReadRows(s[|HeaderLine()|..]) else None
  }

  lemma {:induction false} ReadQuotedInverse(t: string, rest: string)
    requires rest == [] || rest[0] != '"'
    ensures ReadQuoted(DoubleQuotes(t) + "\"" + rest) == Some((t, rest))
  {
    if t == [] {
      assert DoubleQuotes(t) + "\"" + rest == "\"" + rest;
    } else {
      ReadQuotedInverse(t[1..], rest);
      var piece := if t[0] == '"' then "\"\"" else [t[0]];
      var dq := DoubleQuotes(t[1..]);
      var tail := dq + "\"" + rest;
      AppendAssoc(piece + dq, "\"", rest);
      AppendAssoc(piece, dq, "\"" + rest);
      AppendAssoc(dq, "\"", rest);
      assert DoubleQuotes(t) + "\"" + rest == piece + tail;
      assert [t[0]] + t[1..] == t;
    }
  }

  /** A quoted cell followed by a separator reads back as the cell, leaving the separator. */
  lemma {:induction false} ReadQuotedCell(c: string, sep: char, rest: string)
    requires sep != '"'
    ensures var s := Quote(c) + [sep] + rest;
      s[0] == '"' && ReadQuoted(s[1..]) == Some((c, [sep] + rest))
  {
    var s := Quote(c) + [sep] + rest;
    ReadQuotedInverse(c, [sep] + rest);
    assert s == "\"" + (DoubleQuotes(c) + "\"" + ([sep] + rest));
  }

  lemma {:induction false} ReadLineInverse(cells: seq<string>, more: string)
    requires cells != []
    ensures ReadLine(EncodeLine(cells) + more) == Some((cells, more))
  {
    var q := QuoteAll(cells);
    if |cells| == 1 {
      assert Join(q, ",") == Quote(cells[0]);
      ReadQuotedCell(cells[0], '\n', more);
      assert [cells[0]] == cells;
    } else {
      var j := Join(q[1..], ",");
      assert q[1..] == QuoteAll(cells[1..]);
      var tail := EncodeLine(cells[1..]) + more;
      assert Join(q, ",") == Quote(cells[0]) + "," + j;
      AppendAssoc(Quote(cells[0]) + ",", j, "\n");
      AppendAssoc(Quote(cells[0]) + ",", j + "\n", more);
      assert EncodeLine(cells) + more == Quote(cells[0]) + [','] + tail;
      ReadQuotedCell(cells[0], ',', tail);
      ReadLineInverse(cells[1..], more);
      assert [cells[0]] + cells[1..] == cells;
    }
  }

  function CellTable(qs: seq<Record>): (t: seq<seq<string>>)
    ensures |t| == |qs| && forall i :: 0 <= i < |qs| ==> t[i] == Cells(qs[i])
  {
    if qs == [] then [] else [Cells(qs[0])] + CellTable(qs[1..])
  }

  lemma {:induction false} ReadRowsInverse(qs: seq<Record>)
    ensures ReadRows(Concat(RowTexts(qs))) == Some(CellTable(qs))
  {
    if qs != [] {
      var rows := RowTexts(qs);
      ConcatCons(rows);
      assert rows[1..] == RowTexts(qs[1..]);
      ReadLineInverse(Cells(qs[0]), Concat(rows[1..]));
      ReadRowsInverse(qs[1..]);
    }
  }

  /**
   * The CSV round trip: reading an export back yields, line by line, the six
   * cells of each question in input order, each equal to `String(v ?? "")`
   * of the question's property.
   */
  lemma {:induction false} CsvRoundTrip(qs: seq<Record>)
    ensures ParseCsv(Csv(qs)) == Some(CellTable(qs))
    ensures forall i, j :: 0 <= i < |qs| && 0 <= j < |Columns| ==>
      CellTable(qs)[i][j] == CellText(Get(qs[i], Columns[j]))
  {
    assert Csv(qs)[|HeaderLine()|..] == Concat(RowTexts(qs));
    ReadRowsInverse(qs);
  }

  // ===== Batch exports =====

  /** `titulo.replace(/ /g, "_")`. */
  function SafeTitle(titulo: string): (r: string)
    ensures |r| == |titulo| && ' ' !in r
    ensures forall i :: 0 <= i < |titulo| && titulo[i] != ' ' ==> r[i] == titulo[i]
  {
    ReplaceAllChar(titulo, ' ', '_')
  }

  /** `newnerd-<title>-<now>`, the name every batch download starts with. */
  function BaseName(titulo: string, now: int): string
  {
    "newnerd-" + SafeTitle(titulo) + "-" + IntToString(now)
  }

  lemma {:induction false} DigitsHaveNoSpace(n: nat)
    ensures ' ' !in NatToString(n)
    decreases n
  {
    if n >= 10 {
      DigitsHaveNoSpace(n / 10);
    }
  }

  /** A download name has no space in it, and the title sits right after "newnerd-". */
  lemma {:induction false} BaseNameShape(titulo: string, now: int)
    ensures ' ' !in BaseName(titulo, now)
    ensures BaseName(titulo, now)[8..8 + |titulo|] == SafeTitle(titulo)
  {
    DigitsHaveNoSpace(if now < 0 then -now else now);
    var b := BaseName(titulo, now);
    assert b == "newnerd-" + SafeTitle(titulo) + ("-" + IntToString(now));
  }

  /** The file kinds a batch can be downloaded as, with their extensions. */
  datatype Format = Pdf | Docx | Doc | Json | CsvFile | TxtFile | Zip

  function Extension(f: Format): string
  {
    match f
    case Pdf => ".pdf"
    case Docx => ".docx"
    case Doc => ".doc"
    case Json => ".json"
    case CsvFile => ".csv"
    case TxtFile => ".txt"
    case Zip => ".zip"
  }

  function FileName(f: Format, titulo: string, now: int): string
  {
    BaseName(titulo, now) + Extension(f)
  }

  /** `!questoes || questoes.length === 0`: the guard every batch export starts with. */
  predicate NothingToExport(questoes: Option<seq<Record>>)
  {
    questoes.None? || questoes.value == []
  }

  datatype Download = Download(filename: string, content: string)

  /** `exportAllCSV`: nothing for a missing or empty batch, else the CSV under its file name. */
  method ExportAllCsv(questoes: Option<seq<Record>>, titulo: string, now: int) returns (d: Option<Download>)
    ensures NothingToExport(questoes) <==> d.None?
    ensures d.Some? ==> d.value == Download(FileName(CsvFile, titulo, now), Csv(questoes.value))
  {
    if NothingToExport(questoes) {
      return None;
    }
    var csv := BuildCsv(questoes.value);
    return Some(Download(FileName(CsvFile, titulo, now), csv));
  }

  /** `exportAllJSON`'s file name; the JSON text itself is `JSON.stringify`'s. */
  function JsonExportName(questoes: Option<seq<Record>>, titulo: string, now: int): (r: Option<string>)
    ensures NothingToExport(questoes) <==> r.None?
    ensures r.Some? ==> r.value == FileName(Json, titulo, now)
  {
    if NothingToExport(questoes) then None else Some(FileName(Json, titulo, now))
  }

  /**
   * The archive `exportAllZIP` builds and downloads: a JSON, a CSV and a
   * text file sharing one base name, packed as a ".zip" of that name. The
   * JSON text itself is `JSON.stringify`'s.
   */
  datatype Archive = Archive(jsonName: string, csvName: string, csv: string, txtName: string, txt: string, zipName: string)

  /**
   * `exportAllZIP`: nothing for a missing or empty batch or when the ZIP
   * library is not loaded (`zipLoaded`); else the same CSV as
   * `exportAllCSV` and the same text as `copyAllQuestions`, under one base name.
   */
  method ExportAllZip(questoes: Option<seq<Record>>, titulo: string, now: int, zipLoaded: bool) returns (z: Option<Archive>)
    ensures z.None? <==> NothingToExport(questoes) || !zipLoaded
    ensures z.Some? ==>
      z.value.jsonName == FileName(Json, titulo, now) && z.value.csvName == FileName(CsvFile, titulo, now) &&
      z.value.csv == Csv(questoes.value) &&
      z.value.txtName == FileName(TxtFile, titulo, now) && Some(z.value.txt) == CopyAllText(questoes.value) &&
      z.value.zipName == FileName(Zip, titulo, now)
  {
    if NothingToExport(questoes) || !zipLoaded {
      return None;
    }
    var csv := BuildCsv(questoes.value);
    var txt := Join(QuestionTexts(questoes.value), "\n");
    return Some(Archive(FileName(Json, titulo, now), FileName(CsvFile, titulo, now), csv,
                        FileName(TxtFile, titulo, now), txt, FileName(Zip, titulo, now)));
  }

  // ===== Copy all =====

  function QuestionTexts(qs: seq<Record>): (ts: seq<string>)
    ensures |ts| == |qs| && forall i :: 0 <= i < |qs| ==> ts[i] == QuestionText(qs[i], i)
  {
    seq(|qs|, i requires 0 <= i < |qs| => QuestionText(qs[i], i))
  }

  /** `copyAllQuestions`: nothing for an empty batch, else the question texts joined by "\n". */
  function CopyAllText(qs: seq<Record>): (r: Option<string>)
    ensures qs == [] <==> r.None?
    ensures r.Some? ==> r.value == Join(QuestionTexts(qs), "\n")
  {
    if qs == [] then None else Some(Join(QuestionTexts(qs), "\n"))
  }

  /**
   * The copied text lists the questions in batch order: the texts of
   * questions `0..i`, joined, are a prefix of it, and question `i`'s text
   * carries the label `i + 1`.
   */
  lemma {:induction false} CopyAllInOrder(qs: seq<Record>, i: nat)
    requires i < |qs|
    ensures Join(QuestionTexts(qs)[..i + 1], "\n") <= CopyAllText(qs).value
    ensures StartsWith(QuestionTexts(qs)[i], LabelStart(i))
  {
    var ts := QuestionTexts(qs);
    assert CopyAllText(qs).value == Join(ts, "\n");
    JoinPrefix(ts, i + 1, "\n");
    assert ts[i] == QuestionText(qs[i], i);
  }
}
