/**
 One CSV line written by internal/backend/csv.go and read back by wlParseCSVLine of
 cmd/wl/cmd_browse.go.
 */
module Csv {
  import Escaping

  /** A decoded JSON value.  `Other` carries the text that Go renders for a number,
      an object or an array. */
  datatype Value = Null | Text(text: string) | Flag(on: bool) | Other(rendered: string)

  function TextOf(v: Value): string {
    match v
    case Null => ""
    case Text(s) => s
    case Flag(on) => if on then "1" else "0"
    case Other(s) => s
  }

  predicate NeedsQuotes(s: string) {
    ',' in s || '\n' in s || '"' in s
  }

  /** The quoting step of formatCSVField. */
  function Quoted(s: string): string {
    if NeedsQuotes(s) then "\"" + Escaping.ReplaceAll(s, '"', "\"\"") + "\"" else s
  }

  function FormatField(v: Value): string {
    Quoted(TextOf(v))
  }

  /** Fields in quoted form, separated by commas. */
  function Line(fields: seq<string>): string {
    if fields == [] then ""
    else if |fields| == 1 then Quoted(fields[0])
    else Quoted(fields[0]) + "," + Line(fields[1..])
  }

  function Cell(row: map<string, Value>, column: string): string {
    if column in row then TextOf(row[column]) else ""
  }

  function Cells(row: map<string, Value>, columns: seq<string>): seq<string> {
    seq(|columns|, i requires 0 <= i < |columns| => Cell(row, columns[i]))
  }

  lemma {:induction false} LineAppend(fields: seq<string>, last: string)
    ensures Line(fields + [last]) == if fields == [] then Quoted(last) else Line(fields) + "," + Quoted(last)
  {
    if |fields| == 1 {
      assert (fields + [last])[1..] == [last];
    } else if |fields| > 1 {
      assert (fields + [last])[1..] == fields[1..] + [last];
      LineAppend(fields[1..], last);
    }
  }

  /** The column loop of JSONToCSV for one row. */
  method FormatRow(row: map<string, Value>, columns: seq<string>) returns (b: string)
    ensures b == Line(Cells(row, columns))
  {
    b := "";
    for i := 0 to |columns|
      invariant b == Line(Cells(row, columns)[..i])
    {
      assert Cells(row, columns)[..i + 1] == Cells(row, columns)[..i] + [Cell(row, columns[i])];
      LineAppend(Cells(row, columns)[..i], Cell(row, columns[i]));
      if i > 0 {
        b := b + ",";
      }
      if columns[i] !in row || row[columns[i]].Null? {
        continue;
      }
      b := b + FormatField(row[columns[i]]);
    }
    assert Cells(row, columns)[..|columns|] == Cells(row, columns);
  }

  /** What wlParseCSVLine makes of the rest of a line. */
  function Scan(s: string, inQuote: bool, field: string): seq<string> {
    if s == "" then [field]
    else if s[0] == '"' then
      if !inQuote then Scan(s[1..], true, field)
      else if |s| > 1 && s[1] == '"' then Scan(s[2..], true, field + "\"")
      else Scan(s[1..], false, field)
    else if s[0] == ',' && !inQuote then [field] + Scan(s[1..], false, "")
    else Scan(s[1..], inQuote, field + [s[0]])
  }

  method ParseLine(line: string) returns (fields: seq<string>)
    ensures fields == Scan(line, false, "")
  {
    fields := [];
    var field, inQuote := "", false;
    var i := 0;
    assert line[0..] == line;
    while i < |line|
      invariant 0 <= i <= |line|
      invariant fields + Scan(line[i..], inQuote, field) == Scan(line, false, "")
    {
      ghost var rest := line[i..];
      assert rest[1..] == line[i + 1..];
      var ch := line[i];
      if ch == '"' && !inQuote {
        inQuote := true;
      } else if ch == '"' && inQuote {
        if i + 1 < |line| && line[i + 1] == '"' {
          assert rest[2..] == line[i + 2..];
          field := field + "\"";
          i := i + 1;
        } else {
          inQuote := false;
        }
      } else if ch == ',' && !inQuote {
        fields := fields + [field];
        field := "";
      } else {
        field := field + [ch];
      }
      i := i + 1;
    }
    fields := fields + [field];
  }

  lemma {:induction false} ScanPlain(f: string, t: string, field: string)
    requires !NeedsQuotes(f)
    ensures Scan(f + t, false, field) == Scan(t, false, field + f)
  {
    if f == "" {
      assert f + t == t && field + f == field;
    } else {
      assert (f + t)[1..] == f[1..] + t;
      ScanPlain(f[1..], t, field + [f[0]]);
      assert field + [f[0]] + f[1..] == field + f;
    }
  }

  lemma {:induction false} ScanQuoted(f: string, t: string, field: string)
    requires t == "" || t[0] != '"'
    ensures Scan(Escaping.ReplaceAll(f, '"', "\"\"") + "\"" + t, true, field) == Scan(t, false, field + f)
  {
    var s := Escaping.ReplaceAll(f, '"', "\"\"") + "\"" + t;
    if f == "" {
      assert s == "\"" + t && s[1..] == t && field + f == field;
    } else {
      var s' := Escaping.ReplaceAll(f[1..], '"', "\"\"") + "\"" + t;
      ScanQuoted(f[1..], t, field + [f[0]]);
      assert field + [f[0]] + f[1..] == field + f;
      if f[0] == '"' {
        assert s == "\"\"" + s' && s[2..] == s';
      } else {
        assert s == [f[0]] + s' && s[1..] == s';
      }
    }
  }

  lemma ScanField(f: string, t: string)
    requires t == "" || t[0] != '"'
    ensures Scan(Quoted(f) + t, false, "") == Scan(t, false, f)
  {
    assert "" + f == f;
    if NeedsQuotes(f) {
      var body := Escaping.ReplaceAll(f, '"', "\"\"") + "\"" + t;
      assert Quoted(f) + t == "\"" + body;
      assert ("\"" + body)[1..] == body;
      ScanQuoted(f, t, "");
    } else {
      ScanPlain(f, t, "");
    }
  }

  lemma {:induction false} LineRoundTrip(fields: seq<string>)
    requires fields != []
    ensures Scan(Line(fields), false, "") == fields
  {
    if |fields| == 1 {
      assert Quoted(fields[0]) + "" == Line(fields);
      ScanField(fields[0], "");
    } else {
      var t := "," + Line(fields[1..]);
      assert Line(fields) == Quoted(fields[0]) + t;
      assert t[1..] == Line(fields[1..]);
      ScanField(fields[0], t);
      LineRoundTrip(fields[1..]);
      assert fields == [fields[0]] + fields[1..];
    }
  }

  /** Every row is read back cell by cell; NULL and missing cells come back empty. */
  lemma RowRoundTrip(row: map<string, Value>, columns: seq<string>)
    requires columns != []
    ensures Scan(Line(Cells(row, columns)), false, "") == Cells(row, columns)
  {
    LineRoundTrip(Cells(row, columns));
  }
}
