/** workers/lib/utils.js and workers/lib/server/lib/work.order.export.js: work orders rendered as CSV,
    read back by a parser for RFC 4180 section 2. */
module CsvExport {
  import opened Wrappers

  /** None is null or undefined; other values are text, objects already in JSON. */
  type Cell = Option<string>

  /** A row lists its keys in order. */
  type Row = seq<(string, Cell)>

  // ---------- rendering ----------

  predicate Special(c: char) {
    c == '"' || c == ',' || c == '\n' || c == '\r'
  }

  predicate NeedsQuotes(s: string) {
    exists i :: 0 <= i < |s| && Special(s[i])
  }

  /** s.replace(/"/g, '""'). */
  function Doubled(s: string): string {
    if s == "" then "" else (if s[0] == '"' then "\"\"" else [s[0]]) + Doubled(s[1..])
  }

  function Text(cell: Cell): string {
    if cell.Some? then cell.value else ""
  }

  function CsvEscape(cell: Cell): string {
    if cell.None? then ""
    else if NeedsQuotes(cell.value) then "\"" + Doubled(cell.value) + "\""
    else cell.value
  }

  function CellOf(row: Row, key: string): Cell {
    if row == [] then None else if row[0].0 == key then row[0].1 else CellOf(row[1..], key)
  }

  /** fields.map(csvEscape).join(','). */
  function Line(cells: seq<Cell>): string {
    if cells == [] then ""
    else if |cells| == 1 then CsvEscape(cells[0])
    else CsvEscape(cells[0]) + "," + Line(cells[1..])
  }

  /** lines.join('\r\n') + '\r\n', one line after the other. */
  function Lines(table: seq<seq<Cell>>): string {
    if table == [] then "" else Lines(table[..|table| - 1]) + Line(table[|table| - 1]) + "\r\n"
  }

  function Keys(row: Row): seq<string> {
    seq(|row|, i requires 0 <= i < |row| => row[i].0)
  }

  function AllKeys(rows: seq<Row>): seq<string> {
    if rows == [] then [] else AllKeys(rows[..|rows| - 1]) + Keys(rows[|rows| - 1])
  }

  /** The keys without their repetitions, in first-seen order. */
  function FirstSeen(keys: seq<string>): seq<string> {
    if keys == [] then []
    else
      var seen, last := FirstSeen(keys[..|keys| - 1]), keys[|keys| - 1];
      if last in seen then seen else seen + [last]
  }

  function Headers(rows: seq<Row>): seq<string> {
    FirstSeen(AllKeys(rows))
  }

  function HeaderCells(headers: seq<string>): seq<Cell> {
    seq(|headers|, i requires 0 <= i < |headers| => Some(headers[i]))
  }

  function Cells(headers: seq<string>, row: Row): seq<Cell> {
    seq(|headers|, i requires 0 <= i < |headers| => CellOf(row, headers[i]))
  }

  function Table(rows: seq<Row>): seq<seq<Cell>> {
    [HeaderCells(Headers(rows))] + seq(|rows|, i requires 0 <= i < |rows| => Cells(Headers(rows), rows[i]))
  }

  method CollectHeaders(rows: seq<Row>) returns (headers: seq<string>)
    ensures headers == Headers(rows)
  {
    headers := [];
    var seen: set<string> := {};
    for i := 0 to |rows|
      invariant headers == Headers(rows[..i])
      invariant seen == set h | h in headers
    {
      assert rows[..i + 1][..i] == rows[..i];
      var keys := Keys(rows[i]);
      assert AllKeys(rows[..i]) + keys[..0] == AllKeys(rows[..i]);
      for j := 0 to |keys|
        invariant headers == FirstSeen(AllKeys(rows[..i]) + keys[..j])
        invariant seen == set h | h in headers
      {
        var all := AllKeys(rows[..i]) + keys[..j + 1];
        assert all[..|all| - 1] == AllKeys(rows[..i]) + keys[..j];
        if keys[j] !in seen {
          seen := seen + {keys[j]};
          headers := headers + [keys[j]];
        }
      }
      assert keys[..|keys|] == keys;
    }
    assert rows[..|rows|] == rows;
  }

  method RenderCsvRows(rows: seq<Row>) returns (text: string)
    ensures text == Lines(Table(rows))
  {
    var headers := CollectHeaders(rows);
    var table := Table(rows);
    text := Line(HeaderCells(headers)) + "\r\n";
    assert Lines(table[..1]) == text by {
      assert table[..1][..0] == [];
    }
    for i := 0 to |rows|
      invariant text == Lines(table[..i + 1])
    {
      assert table[..i + 2][..i + 1] == table[..i + 1];
      text := text + Line(Cells(headers, rows[i])) + "\r\n";
    }
    assert table[..|rows| + 1] == table;
  }

  // ---------- the headers ----------

  lemma {:induction false} FirstSeenIsUnion(keys: seq<string>)
    ensures forall k :: k in FirstSeen(keys) <==> k in keys
    ensures forall i, j :: 0 <= i < j < |FirstSeen(keys)| ==> FirstSeen(keys)[i] != FirstSeen(keys)[j]
  {
    if keys != [] {
      FirstSeenIsUnion(keys[..|keys| - 1]);
      assert keys == keys[..|keys| - 1] + [keys[|keys| - 1]];
    }
  }

  /** Where a key first occurs. */
  function FirstIndex(keys: seq<string>, key: string): nat {
    if keys == [] || keys[0] == key then 0 else 1 + FirstIndex(keys[1..], key)
  }

  lemma {:induction false} FirstIndexAppend(keys: seq<string>, last: string, key: string)
    ensures FirstIndex(keys + [last], key) ==
            if key in keys then FirstIndex(keys, key) else if key == last then |keys| else |keys| + 1
    ensures key in keys ==> FirstIndex(keys, key) < |keys|
  {
    if keys == [] {
      assert keys + [last] == [last] && [last][1..] == [];
    } else {
      FirstIndexAppend(keys[1..], last, key);
      assert (keys + [last])[1..] == keys[1..] + [last];
    }
  }

  /** Headers come in the order their keys are first met. */
  lemma {:induction false} FirstSeenInOrder(keys: seq<string>)
    ensures forall i, j :: 0 <= i < j < |FirstSeen(keys)| ==>
            FirstIndex(keys, FirstSeen(keys)[i]) < FirstIndex(keys, FirstSeen(keys)[j])
  {
    if keys != [] {
      var front, last := keys[..|keys| - 1], keys[|keys| - 1];
      FirstSeenInOrder(front);
      FirstSeenIsUnion(front);
      assert keys == front + [last];
      forall k { FirstIndexAppend(front, last, k); }
      var seen := FirstSeen(front);
      forall i | 0 <= i < |seen| ensures seen[i] in front { assert seen[i] in seen; }
    }
  }

  // ---------- RFC 4180, section 2 ----------

  /** Rules 5 to 7: the text inside double quotes, a doubled quote standing for one. */
  function ParseQuoted(s: string): (r: Option<(string, string)>)
    ensures r.Some? ==> |r.value.1| < |s|
  {
    if s == "" then None
    else if s[0] != '"' then
      match ParseQuoted(s[1..])
      case None => None
      case Some(r) => Some(([s[0]] + r.0, r.1))
    else if |s| >= 2 && s[1] == '"' then
      match ParseQuoted(s[2..])
      case None => None
      case Some(r) => Some(("\"" + r.0, r.1))
    else Some(("", s[1..]))
  }

  /** A field without quotes runs up to a comma, a line break or a quote. */
  function ParsePlain(s: string): (r: (string, string))
    ensures |r.1| <= |s|
  {
    if s == "" || Special(s[0]) then ("", s)
    else
      var r := ParsePlain(s[1..]);
      ([s[0]] + r.0, r.1)
  }

  function ParseField(s: string): (r: Option<(string, string)>)
    ensures r.Some? ==> |r.value.1| <= |s|
  {
    if s != "" && s[0] == '"' then ParseQuoted(s[1..]) else Some(ParsePlain(s))
  }

  predicate AtBreak(s: string) {
    |s| >= 2 && s[0] == '\r' && s[1] == '\n'
  }

  /** Rule 4: fields separated by commas; rule 1: a record ends with CRLF. */
  function ParseRecord(s: string): (r: Option<(seq<string>, string)>)
    ensures r.Some? ==> |r.value.1| <= |s| && (s != "" ==> |r.value.1| < |s|)
    decreases |s|
  {
    match ParseField(s)
    case None => None
    case Some(f) =>
      if f.1 == "" then Some(([f.0], ""))
      else if f.1[0] == ',' then
        (match ParseRecord(f.1[1..])
         case None => None
         case Some(r) => Some(([f.0] + r.0, r.1)))
      else if AtBreak(f.1) then Some(([f.0], f.1[2..]))
      else None
  }

  /** Rule 2: the last line break may be the end of the file. */
  function ParseFile(s: string): Option<seq<seq<string>>>
    decreases |s|
  {
    if s == "" then Some([])
    else
      match ParseRecord(s)
      case None => None
      case Some(r) =>
        match ParseFile(r.1)
        case None => None
        case Some(records) => Some([r.0] + records)
  }

  // ---------- round trip ----------

  /** What may follow a field. */
  predicate Ends(s: string) {
    s == "" || s[0] == ',' || AtBreak(s)
  }

  lemma {:induction false} QuotedParses(s: string, rest: string)
    requires rest == "" || rest[0] != '"'
    ensures ParseQuoted(Doubled(s) + "\"" + rest) == Some((s, rest))
  {
    var text := Doubled(s) + "\"" + rest;
    if s == "" {
      assert text == "\"" + rest;
      assert text[1..] == rest;
    } else {
      QuotedParses(s[1..], rest);
      var tail := Doubled(s[1..]) + "\"" + rest;
      assert s == [s[0]] + s[1..];
      if s[0] == '"' {
        assert text == "\"\"" + tail;
        assert text[2..] == tail;
      } else {
        assert text == [s[0]] + tail;
        assert text[1..] == tail;
      }
    }
  }

  lemma {:induction false} PlainParses(s: string, rest: string)
    requires !NeedsQuotes(s) && (rest == "" || Special(rest[0]))
    ensures ParsePlain(s + rest) == (s, rest)
  {
    if s == "" {
      assert s + rest == rest;
    } else {
      assert !Special(s[0]);
      assert forall i :: 0 <= i < |s[1..]| ==> s[1..][i] == s[i + 1];
      PlainParses(s[1..], rest);
      assert s + rest == [s[0]] + (s[1..] + rest);
      assert (s + rest)[1..] == s[1..] + rest;
      assert s == [s[0]] + s[1..];
    }
  }

  /** A field escaped is a field read, whatever follows it. */
  lemma FieldParses(cell: Cell, rest: string)
    requires Ends(rest)
    ensures ParseField(CsvEscape(cell) + rest) == Some((Text(cell), rest))
  {
    var s := Text(cell);
    if NeedsQuotes(s) {
      QuotedParses(s, rest);
      var text := CsvEscape(cell) + rest;
      assert text == "\"" + (Doubled(s) + "\"" + rest);
      assert text[1..] == Doubled(s) + "\"" + rest;
    } else {
      assert CsvEscape(cell) == s;
      PlainParses(s, rest);
      assert s != "" ==> !Special(s[0]);
      assert s + rest != "" ==> (s + rest)[0] == if s != "" then s[0] else rest[0];
    }
  }

  function Texts(cells: seq<Cell>): seq<string> {
    seq(|cells|, i requires 0 <= i < |cells| => Text(cells[i]))
  }

  lemma RecordEnds(s: string, f: string, rest: string)
    requires ParseField(s) == Some((f, "\r\n" + rest))
    ensures ParseRecord(s) == Some(([f], rest))
  {
    assert ("\r\n" + rest)[2..] == rest;
  }

  lemma RecordContinues(s: string, f: string, tail: string, fields: seq<string>, rest: string)
    requires ParseField(s) == Some((f, "," + tail)) && ParseRecord(tail) == Some((fields, rest))
    ensures ParseRecord(s) == Some(([f] + fields, rest))
  {
    assert ("," + tail)[1..] == tail;
  }

  lemma Comma(a: string, line: string, after: string)
    ensures (a + "," + line) + after == a + ("," + (line + after))
  {
  }

  lemma LineCons(cells: seq<Cell>, after: string)
    requires |cells| > 1
    ensures Line(cells) + after == CsvEscape(cells[0]) + ("," + (Line(cells[1..]) + after))
  {
    Comma(CsvEscape(cells[0]), Line(cells[1..]), after);
  }

  lemma TextsCons(cells: seq<Cell>)
    requires cells != []
    ensures Texts(cells) == [Text(cells[0])] + Texts(cells[1..])
  {
  }

  lemma {:induction false} LineParses(cells: seq<Cell>, rest: string)
    requires cells != []
    ensures ParseRecord(Line(cells) + ("\r\n" + rest)) == Some((Texts(cells), rest))
  {
    var after := "\r\n" + rest;
    TextsCons(cells);
    if |cells| == 1 {
      FieldParses(cells[0], after);
      RecordEnds(CsvEscape(cells[0]) + after, Text(cells[0]), rest);
      assert Line(cells) == CsvEscape(cells[0]) && Texts(cells) == [Text(cells[0])];
    } else {
      LineParses(cells[1..], rest);
      LineCons(cells, after);
      ContinuedLineParses(cells[0], Line(cells[1..]) + after, Texts(cells[1..]), rest);
    }
  }

  lemma ContinuedLineParses(cell: Cell, tail: string, fields: seq<string>, rest: string)
    requires ParseRecord(tail) == Some((fields, rest))
    ensures ParseRecord(CsvEscape(cell) + ("," + tail)) == Some(([Text(cell)] + fields, rest))
  {
    FieldParses(cell, "," + tail);
    RecordContinues(CsvEscape(cell) + ("," + tail), Text(cell), tail, fields, rest);
  }

  function AllTexts(table: seq<seq<Cell>>): seq<seq<string>> {
    seq(|table|, i requires 0 <= i < |table| => Texts(table[i]))
  }

  lemma {:induction false} LinesSplit(table: seq<seq<Cell>>)
    requires table != []
    ensures Lines(table) == Line(table[0]) + ("\r\n" + Lines(table[1..]))
  {
    var n := |table| - 1;
    if n == 0 {
      assert table[..0] == [] && table[1..] == [];
      assert Lines(table) == Line(table[0]) + "\r\n";
    } else {
      var front, end := table[..n], Line(table[n]) + "\r\n";
      LinesSplit(front);
      assert table[1..][..n - 1] == front[1..] && table[1..][n - 1] == table[n];
      assert Lines(table[1..]) == Lines(front[1..]) + end;
      assert Lines(table) == Lines(front) + end;
      Regroup(Line(table[0]), "\r\n", Lines(front[1..]), end);
    }
  }

  lemma Regroup(a: string, b: string, c: string, d: string)
    ensures a + (b + c) + d == a + (b + (c + d))
  {
  }

  lemma FileStep(s: string, fields: seq<string>, rest: string, records: seq<seq<string>>)
    requires s != "" && ParseRecord(s) == Some((fields, rest)) && ParseFile(rest) == Some(records)
    ensures ParseFile(s) == Some([fields] + records)
  {
  }

  lemma {:induction false} TableParses(table: seq<seq<Cell>>)
    requires forall i :: 0 <= i < |table| ==> table[i] != []
    ensures ParseFile(Lines(table)) == Some(AllTexts(table))
  {
    if table != [] {
      var rest := Lines(table[1..]);
      LinesSplit(table);
      LineParses(table[0], rest);
      TableParses(table[1..]);
      FileStep(Line(table[0]) + ("\r\n" + rest), Texts(table[0]), rest, AllTexts(table[1..]));
      assert AllTexts(table) == [Texts(table[0])] + AllTexts(table[1..]);
    }
  }

  /** A line without cells is read as one empty field. */
  lemma EmptyHeadersLoseShape(rows: seq<Row>)
    requires Headers(rows) == []
    ensures ParseFile(Lines(Table(rows))) != Some(AllTexts(Table(rows)))
  {
    var table := Table(rows);
    LinesSplit(table);
    var rest := Lines(table[1..]);
    assert Line(table[0]) == "";
    assert Lines(table) == "\r\n" + rest;
    assert ParseField("\r\n" + rest) == Some(("", "\r\n" + rest));
    assert ("\r\n" + rest)[2..] == rest;
    assert ParseRecord("\r\n" + rest) == Some(([""], rest));
    assert AllTexts(table)[0] == [];
  }

  /** Reading the rendered text back gives exactly the header row and all cells, quotes, commas and
      line breaks included, whenever there is a column at all, and only then. */
  lemma RoundTrip(rows: seq<Row>)
    ensures ParseFile(Lines(Table(rows))) == Some(AllTexts(Table(rows))) <==> Headers(rows) != []
  {
    if Headers(rows) == [] {
      EmptyHeadersLoseShape(rows);
    } else {
      TableParses(Table(rows));
    }
  }
}
