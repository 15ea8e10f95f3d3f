/** The CSV branch of the report export, against a reader of the grammar in section 2 of
    RFC 4180 with a line feed as line break. */
module Csv {
  import opened Wrappers

  datatype Column = Column(name: string, value: string)

  /** One exported object, its properties in insertion order. */
  type Item = seq<Column>

  // ---- The printer ----

  function Join(parts: seq<string>, separator: char): string {
    if parts == [] then []
    else if |parts| == 1 then parts[0]
    else parts[0] + [separator] + Join(parts[1..], separator)
  }

  function Names(item: Item): seq<string> {
    if item == [] then [] else [item[0].name] + Names(item[1..])
  }

  /** A missing property prints as the empty string. */
  function ValueOf(item: Item, name: string): string {
    if item == [] then [] else if item[0].name == name then item[0].value else ValueOf(item[1..], name)
  }

  function Values(headers: seq<string>, item: Item): seq<string> {
    if headers == [] then [] else [ValueOf(item, headers[0])] + Values(headers[1..], item)
  }

  function Escape(value: string): string {
    if value == [] then []
    else (if value[0] == '"' then ['"', '"'] else [value[0]]) + Escape(value[1..])
  }

  function Quote(value: string): string {
    ['"'] + Escape(value) + ['"']
  }

  function QuoteAll(values: seq<string>): seq<string> {
    if values == [] then [] else [Quote(values[0])] + QuoteAll(values[1..])
  }

  function Line(values: seq<string>): string {
    Join(QuoteAll(values), ',')
  }

  /** The rows of fields that an export is meant to hold. */
  function Rows(headers: seq<string>, data: seq<Item>): seq<seq<string>> {
    if data == [] then [] else [Values(headers, data[0])] + Rows(headers, data[1..])
  }

  function Lines(rows: seq<seq<string>>): seq<string> {
    if rows == [] then [] else [Line(rows[0])] + Lines(rows[1..])
  }

  function Print(data: seq<Item>): string {
    if data == [] then []
    else
      var headers := Names(data[0]);
      Join([Join(headers, ',')] + Lines(Rows(headers, data)), '\n')
  }

  /** The values of one item under the headers, quoted. */
  method QuotedValues(headers: seq<string>, item: Item) returns (values: seq<string>)
    ensures values == QuoteAll(Values(headers, item))
  {
    values := [];
    for h := 0 to |headers|
      invariant values == QuoteAll(Values(headers[..h], item))
    {
      ValuesSnoc(headers[..h], headers[h], item);
      QuoteAllSnoc(Values(headers[..h], item), ValueOf(item, headers[h]));
      assert headers[..h + 1] == headers[..h] + [headers[h]];
      values := values + [Quote(ValueOf(item, headers[h]))];
    }
    assert headers[..|headers|] == headers;
  }

  method GenerateCsv(data: seq<Item>) returns (text: string)
    ensures text == Print(data)
  {
    if |data| == 0 {
      return [];
    }
    var headers := Names(data[0]);
    var csvRows := [Join(headers, ',')];
    for i := 0 to |data|
      invariant csvRows == [Join(headers, ',')] + Lines(Rows(headers, data[..i]))
    {
      var values := QuotedValues(headers, data[i]);
      RowsSnoc(headers, data[..i], data[i]);
      LinesSnoc(Rows(headers, data[..i]), Values(headers, data[i]));
      assert data[..i + 1] == data[..i] + [data[i]];
      csvRows := csvRows + [Join(values, ',')];
    }
    assert data[..|data|] == data;
    return Join(csvRows, '\n');
  }

  lemma {:induction false} ValuesSnoc(headers: seq<string>, name: string, item: Item)
    ensures Values(headers + [name], item) == Values(headers, item) + [ValueOf(item, name)]
  {
    if headers == [] {
      assert [name][1..] == [];
    } else {
      ValuesSnoc(headers[1..], name, item);
      assert (headers + [name])[1..] == headers[1..] + [name];
    }
  }

  lemma {:induction false} QuoteAllSnoc(values: seq<string>, value: string)
    ensures QuoteAll(values + [value]) == QuoteAll(values) + [Quote(value)]
  {
    if values == [] {
      assert [value][1..] == [];
    } else {
      QuoteAllSnoc(values[1..], value);
      assert (values + [value])[1..] == values[1..] + [value];
    }
  }

  lemma {:induction false} RowsSnoc(headers: seq<string>, data: seq<Item>, item: Item)
    ensures Rows(headers, data + [item]) == Rows(headers, data) + [Values(headers, item)]
  {
    if data == [] {
      assert [item][1..] == [];
    } else {
      RowsSnoc(headers, data[1..], item);
      assert (data + [item])[1..] == data[1..] + [item];
    }
  }

  lemma {:induction false} LinesSnoc(rows: seq<seq<string>>, row: seq<string>)
    ensures Lines(rows + [row]) == Lines(rows) + [Line(row)]
  {
    if rows == [] {
      assert [row][1..] == [];
    } else {
      LinesSnoc(rows[1..], row);
      assert (rows + [row])[1..] == rows[1..] + [row];
    }
  }

  // ---- The reader ----

  /** TEXTDATA: printable ASCII without the comma and the quote. */
  predicate TextData(c: char) {
    ' ' <= c <= '~' && c != '"' && c != ','
  }

  /** The field up to the closing quote, and what follows it. */
  function ReadQuoted(s: string): Option<(string, string)> {
    if s == [] then None
    else if s[0] != '"' then
      var r := ReadQuoted(s[1..]);
      if r.None? then None else Some(([s[0]] + r.value.0, r.value.1))
    else if |s| > 1 && s[1] == '"' then
      var r := ReadQuoted(s[2..]);
      if r.None? then None else Some((['"'] + r.value.0, r.value.1))
    else Some(([], s[1..]))
  }

  function ReadPlain(s: string): (r: (string, string))
    ensures |r.1| <= |s|
  {
    if s != [] && TextData(s[0]) then
      var r := ReadPlain(s[1..]);
      ([s[0]] + r.0, r.1)
    else ([], s)
  }

  function ReadField(s: string): Option<(string, string)> {
    if s != [] && s[0] == '"' then ReadQuoted(s[1..]) else Some(ReadPlain(s))
  }

  lemma {:induction false} QuotedShrinks(s: string)
    ensures ReadQuoted(s).Some? ==> |ReadQuoted(s).value.1| < |s|
  {
    if s != [] {
      if s[0] != '"' {
        QuotedShrinks(s[1..]);
      } else if |s| > 1 && s[1] == '"' {
        QuotedShrinks(s[2..]);
      }
    }
  }

  lemma FieldShrinks(s: string)
    ensures ReadField(s).Some? ==> |ReadField(s).value.1| <= |s|
  {
    if s != [] && s[0] == '"' {
      QuotedShrinks(s[1..]);
    }
  }

  /** Fields separated by commas, and what follows the last. */
  function ReadRecord(s: string): (r: Option<(seq<string>, string)>)
    ensures r.Some? ==> |r.value.1| <= |s|
    decreases |s|
  {
    FieldShrinks(s);
    var f := ReadField(s);
    if f.None? then None
    else if f.value.1 != [] && f.value.1[0] == ',' then
      var r := ReadRecord(f.value.1[1..]);
      if r.None? then None else Some(([f.value.0] + r.value.0, r.value.1))
    else Some(([f.value.0], f.value.1))
  }

  /** Records separated by line feeds; the last may end with one. */
  function ReadFile(s: string): Option<seq<seq<string>>>
    decreases |s|
  {
    var r := ReadRecord(s);
    if r.None? then None
    else if r.value.1 == [] || r.value.1 == ['\n'] then Some([r.value.0])
    else if r.value.1[0] != '\n' then None
    else
      var rest := ReadFile(r.value.1[1..]);
      if rest.None? then None else Some([r.value.0] + rest.value)
  }

  // ---- Reading what was printed ----

  lemma {:induction false} ReadQuotedEscape(value: string, rest: string)
    requires rest == [] || rest[0] != '"'
    ensures ReadQuoted(Escape(value) + ['"'] + rest) == Some((value, rest))
  {
    var s := Escape(value) + ['"'] + rest;
    if value == [] {
      assert s == ['"'] + rest;
    } else {
      ReadQuotedEscape(value[1..], rest);
      var t := Escape(value[1..]) + ['"'] + rest;
      if value[0] == '"' {
        assert s == ['"', '"'] + t;
        assert s[2..] == t;
      } else {
        assert s == [value[0]] + t;
        assert s[1..] == t;
      }
      assert value == [value[0]] + value[1..];
    }
  }

  predicate EndsField(rest: string) {
    rest == [] || rest[0] == ',' || rest[0] == '\n'
  }

  predicate EndsRecord(rest: string) {
    rest == [] || rest[0] == '\n'
  }

  lemma ReadQuote(value: string, rest: string)
    requires EndsField(rest)
    ensures ReadField(Quote(value) + rest) == Some((value, rest))
  {
    ReadQuotedEscape(value, rest);
    assert (Quote(value) + rest)[1..] == Escape(value) + ['"'] + rest;
  }

  predicate Plain(name: string) {
    forall i | 0 <= i < |name| :: TextData(name[i])
  }

  lemma {:induction false} ReadName(name: string, rest: string)
    requires Plain(name) && EndsField(rest)
    ensures ReadPlain(name + rest) == (name, rest)
  {
    if name == [] {
      assert name + rest == rest;
    } else {
      ReadName(name[1..], rest);
      assert (name + rest)[1..] == name[1..] + rest;
      assert name == [name[0]] + name[1..];
    }
  }

  lemma RecordCons(s: string, field: string, more: string, fields: seq<string>, rest: string)
    requires ReadField(s) == Some((field, [','] + more)) && ReadRecord(more) == Some((fields, rest))
    ensures ReadRecord(s) == Some(([field] + fields, rest))
  {
    FieldShrinks(s);
    assert ([','] + more)[1..] == more;
  }

  lemma FileCons(line: string, record: seq<string>, more: string, records: seq<seq<string>>)
    requires ReadRecord(line + (['\n'] + more)) == Some((record, ['\n'] + more))
    requires more != [] && ReadFile(more) == Some(records)
    ensures ReadFile(line + ['\n'] + more) == Some([record] + records)
  {
    assert line + ['\n'] + more == line + (['\n'] + more);
    assert (['\n'] + more)[1..] == more;
  }

  lemma FileEnd(line: string, record: seq<string>)
    requires ReadRecord(line + []) == Some((record, []))
    ensures ReadFile(line) == Some([record])
  {
    assert line + [] == line;
  }

  lemma ReadLastField(value: string, rest: string)
    requires EndsRecord(rest)
    ensures ReadRecord(Line([value]) + rest) == Some(([value], rest))
  {
    assert QuoteAll([value]) == [Quote(value)];
    ReadQuote(value, rest);
  }

  lemma ReadFirstField(value: string, line: string, fields: seq<string>, rest: string)
    requires ReadRecord(line + rest) == Some((fields, rest))
    ensures ReadRecord(Quote(value) + [','] + line + rest) == Some(([value] + fields, rest))
  {
    var more := line + rest;
    assert Quote(value) + [','] + line + rest == Quote(value) + ([','] + more);
    ReadQuote(value, [','] + more);
    RecordCons(Quote(value) + ([','] + more), value, more, fields, rest);
  }

  lemma {:induction false} ReadLine(values: seq<string>, rest: string)
    requires values != [] && EndsRecord(rest)
    ensures ReadRecord(Line(values) + rest) == Some((values, rest))
  {
    if |values| == 1 {
      ReadLastField(values[0], rest);
      assert values == [values[0]];
    } else {
      ReadLine(values[1..], rest);
      LineCons(values);
      ReadFirstField(values[0], Line(values[1..]), values[1..], rest);
      assert values == [values[0]] + values[1..];
    }
  }

  lemma LineCons(values: seq<string>)
    requires |values| > 1
    ensures Line(values) == Quote(values[0]) + [','] + Line(values[1..])
  {
    QuoteAllLength(values);
    assert QuoteAll(values)[1..] == QuoteAll(values[1..]);
  }

  lemma {:induction false} QuoteAllLength(values: seq<string>)
    ensures |QuoteAll(values)| == |values|
  {
    if values != [] {
      QuoteAllLength(values[1..]);
    }
  }

  lemma {:induction false} ReadHeaders(names: seq<string>, rest: string)
    requires names != [] && EndsRecord(rest) && forall i | 0 <= i < |names| :: Plain(names[i])
    ensures ReadRecord(Join(names, ',') + rest) == Some((names, rest))
  {
    var s := Join(names, ',') + rest;
    if |names| == 1 {
      ReadName(names[0], rest);
      PlainField(names[0], rest);
      assert names == [names[0]];
    } else {
      var more := Join(names[1..], ',') + rest;
      assert s == names[0] + ([','] + more);
      ReadName(names[0], [','] + more);
      PlainField(names[0], [','] + more);
      ReadHeaders(names[1..], rest);
      RecordCons(s, names[0], more, names[1..], rest);
      assert names == [names[0]] + names[1..];
    }
  }

  lemma PlainField(name: string, rest: string)
    requires Plain(name) && EndsField(rest)
    ensures ReadField(name + rest) == Some(ReadPlain(name + rest))
  {
    assert name != [] ==> TextData(name[0]);
  }

  lemma LineNotEmpty(values: seq<string>)
    requires values != []
    ensures Line(values) != [] && Line(values) != ['\n']
  {
    assert QuoteAll(values) != [] && QuoteAll(values)[0] == Quote(values[0]);
    assert Line(values)[0] == '"';
  }

  predicate Rectangular(rows: seq<seq<string>>) {
    forall i | 0 <= i < |rows| :: rows[i] != []
  }

  lemma ReadLastLine(row: seq<string>)
    requires row != []
    ensures ReadFile(Join(Lines([row]), '\n')) == Some([row])
  {
    assert Lines([row]) == [Line(row)];
    ReadLine(row, []);
    FileEnd(Line(row), row);
  }

  lemma LinesNotEmpty(rows: seq<seq<string>>)
    requires rows != [] && Rectangular(rows)
    ensures Join(Lines(rows), '\n') != []
  {
    LineNotEmpty(rows[0]);
    assert Lines(rows)[0] == Line(rows[0]);
  }

  lemma ReadFirstLine(rows: seq<seq<string>>, more: string)
    requires |rows| > 1 && rows[0] != [] && more == Join(Lines(rows[1..]), '\n')
    requires more != [] && ReadFile(more) == Some(rows[1..])
    ensures ReadFile(Join(Lines(rows), '\n')) == Some(rows)
  {
    LinesCons(rows);
    ReadLine(rows[0], ['\n'] + more);
    FileCons(Line(rows[0]), rows[0], more, rows[1..]);
    assert rows == [rows[0]] + rows[1..];
  }

  lemma {:induction false} ReadLines(rows: seq<seq<string>>)
    requires rows != [] && Rectangular(rows)
    ensures ReadFile(Join(Lines(rows), '\n')) == Some(rows)
  {
    if |rows| == 1 {
      assert rows == [rows[0]];
      ReadLastLine(rows[0]);
    } else {
      ReadLines(rows[1..]);
      LinesNotEmpty(rows[1..]);
      ReadFirstLine(rows, Join(Lines(rows[1..]), '\n'));
    }
  }

  lemma LinesCons(rows: seq<seq<string>>)
    requires |rows| > 1
    ensures Join(Lines(rows), '\n') == Line(rows[0]) + ['\n'] + Join(Lines(rows[1..]), '\n')
  {
    assert Lines(rows)[1..] == Lines(rows[1..]) && Lines(rows[1..]) != [];
  }

  lemma {:induction false} RowsShape(headers: seq<string>, data: seq<Item>)
    requires headers != []
    ensures |Rows(headers, data)| == |data| && Rectangular(Rows(headers, data))
  {
    if data != [] {
      RowsShape(headers, data[1..]);
    }
  }

  predicate PlainHeaders(headers: seq<string>) {
    headers != [] && forall i | 0 <= i < |headers| :: Plain(headers[i])
  }

  /** Reading a printed report gives back the headers and every field exactly, whatever
      quotes, commas and line breaks the fields hold. */
  lemma ReadPrint(data: seq<Item>)
    requires data != [] && PlainHeaders(Names(data[0]))
    ensures ReadFile(Print(data)) == Some([Names(data[0])] + Rows(Names(data[0]), data))
  {
    var headers := Names(data[0]);
    var rows := Rows(headers, data);
    var head := Join(headers, ',');
    var more := Join(Lines(rows), '\n');
    RowsShape(headers, data);
    ReadLines(rows);
    LinesNotEmpty(rows);
    PrintCons(head, Lines(rows));
    ReadHeaders(headers, ['\n'] + more);
    FileCons(head, headers, more, rows);
  }

  lemma PrintCons(head: string, lines: seq<string>)
    requires lines != []
    ensures Join([head] + lines, '\n') == head + ['\n'] + Join(lines, '\n')
  {
    assert ([head] + lines)[1..] == lines;
  }

  /** Field `j` of row `i` that is read back is the property of item `i` named by header `j`. */
  lemma {:induction false} FieldReadBack(headers: seq<string>, data: seq<Item>, i: nat, j: nat)
    requires i < |data| && j < |headers|
    ensures |Rows(headers, data)| == |data| && |Rows(headers, data)[i]| == |headers|
    ensures Rows(headers, data)[i][j] == ValueOf(data[i], headers[j])
  {
    RowsShape(headers, data);
    if i == 0 {
      ValuesAt(headers, data[0], j);
    } else {
      FieldReadBack(headers, data[1..], i - 1, j);
    }
  }

  lemma {:induction false} ValuesAt(headers: seq<string>, item: Item, j: nat)
    requires j < |headers|
    ensures |Values(headers, item)| == |headers| && Values(headers, item)[j] == ValueOf(item, headers[j])
  {
    if j > 0 {
      ValuesAt(headers[1..], item, j - 1);
    } else if |headers| > 1 {
      ValuesAt(headers[1..], item, 0);
    }
  }

  /** Two reports with the same text hold the same headers and fields. */
  lemma PrintInjective(a: seq<Item>, b: seq<Item>)
    requires a != [] && b != [] && PlainHeaders(Names(a[0])) && PlainHeaders(Names(b[0]))
    requires Print(a) == Print(b)
    ensures Names(a[0]) == Names(b[0]) && Rows(Names(a[0]), a) == Rows(Names(b[0]), b)
  {
    ReadPrint(a);
    ReadPrint(b);
    var x, y := [Names(a[0])] + Rows(Names(a[0]), a), [Names(b[0])] + Rows(Names(b[0]), b);
    assert x == y && x[0] == y[0] && x[1..] == y[1..];
  }

  const SHIPMENT_HEADERS := ["AWB", "Status", "MerchantID", "DistributorID", "WarehouseID", "Weight", "DeclaredValue",
                             "isCOD", "CODAmount", "OriginCity", "DestinationCity", "CreatedAt"]

  const TRANSACTION_HEADERS := ["TransactionID", "WalletID", "UserID", "Type", "Amount", "BalanceBefore",
                                "BalanceAfter", "Reference", "PerformedBy", "CreatedAt"]

  lemma TransactionNamesPlain()
    ensures Plain("TransactionID") && Plain("WalletID") && Plain("UserID") && Plain("Type")
  {
  }

  lemma AmountNamesPlain()
    ensures Plain("Amount") && Plain("BalanceBefore") && Plain("BalanceAfter")
  {
  }

  lemma ShipmentNamesPlain()
    ensures Plain("AWB") && Plain("Status") && Plain("MerchantID") && Plain("DistributorID") && Plain("WarehouseID")
  {
  }

  lemma ParcelNamesPlain()
    ensures Plain("Weight") && Plain("DeclaredValue") && Plain("isCOD") && Plain("CODAmount")
  {
  }

  lemma PlaceNamesPlain()
    ensures Plain("OriginCity") && Plain("DestinationCity") && Plain("CreatedAt")
    ensures Plain("Reference") && Plain("PerformedBy")
  {
  }

  /** The columns of the shipment report need no quoting. */
  lemma ShipmentHeadersPlain()
    ensures PlainHeaders(SHIPMENT_HEADERS)
  {
    ShipmentNamesPlain();
    ParcelNamesPlain();
    PlaceNamesPlain();
  }

  /** Nor do those of the transaction report. */
  lemma TransactionHeadersPlain()
    ensures PlainHeaders(TRANSACTION_HEADERS)
  {
    TransactionNamesPlain();
    AmountNamesPlain();
    PlaceNamesPlain();
  }
}
