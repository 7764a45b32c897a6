/** The CSV printer, and a parser for the quoting rules of section 2 of RFC 4180 (records end in LF) that undoes it. */
module Csv {
  import opened Schema

  // ----- the printer

  predicate Special(c: char)
  {
    c == ',' || c == '"' || c == '\n' || c == '\r'
  }

  predicate NeedsQuotes(field: string)
  {
    exists k :: 0 <= k < |field| && Special(field[k])
  }

  /** Every quote doubled. */
  function Doubled(s: string): string
  {
    if s == "" then "" else (if s[0] == '"' then "\"\"" else [s[0]]) + Doubled(s[1..])
  }

  function Escape(field: string): string
  {
    if NeedsQuotes(field) then "\"" + Doubled(field) + "\"" else field
  }

  lemma {:induction false} DoubledLonger(s: string)
    ensures |Doubled(s)| >= |s|
    decreases |s|
  {
    if s != "" {
      DoubledLonger(s[1..]);
    }
  }

  /** A field is printed as it stands exactly if it has no comma, quote, line feed or carriage return. */
  lemma PlainFieldKept(field: string)
    ensures Escape(field) == field
            <==> forall k :: 0 <= k < |field| ==>
                   field[k] != ',' && field[k] != '"' && field[k] != '\n' && field[k] != '\r'
  {
    DoubledLonger(field);
    if NeedsQuotes(field) {
      assert |Escape(field)| == |Doubled(field)| + 2;
    }
  }

  function EscapeAll(fields: seq<string>): (r: seq<string>)
    ensures |r| == |fields| && forall k :: 0 <= k < |r| ==> r[k] == Escape(fields[k])
  {
    seq(|fields|, k requires 0 <= k < |fields| => Escape(fields[k]))
  }

  function Join(parts: seq<string>): string
  {
    if |parts| == 0 then ""
    else if |parts| == 1 then parts[0]
    else parts[0] + "," + Join(parts[1..])
  }

  function Line(fields: seq<string>): string
  {
    Join(EscapeAll(fields)) + "\n"
  }

  function Lines(records: seq<seq<string>>): string
  {
    if records == [] then "" else Line(records[0]) + Lines(records[1..])
  }

  /** Columns hold cells already turned into text. */
  function RowCount(cols: seq<seq<string>>): (n: nat)
    ensures forall c :: 0 <= c < |cols| ==> |cols[c]| <= n
    ensures n == 0 || exists c :: 0 <= c < |cols| && |cols[c]| == n
  {
    if cols == [] then 0
    else
      var rest := RowCount(cols[1..]);
      assert forall c :: 0 <= c < |cols| ==> cols[c] == cols[0] || cols[c] in cols[1..];
      if |cols[0]| > rest then assert |cols[0]| == |cols[0]|; |cols[0]|
      else
        assert rest > 0 ==> exists c :: 0 <= c < |cols[1..]| && |cols[1..][c]| == rest;
        assert forall c :: 0 <= c < |cols[1..]| ==> cols[1..][c] == cols[c + 1];
        rest
  }

  /** Row r across the columns; a column that is too short gives an empty cell. */
  function RowAt(cols: seq<seq<string>>, r: nat): (cells: seq<string>)
    ensures |cells| == |cols|
    ensures forall c :: 0 <= c < |cols| ==> cells[c] == if r < |cols[c]| then cols[c][r] else ""
  {
    seq(|cols|, c requires 0 <= c < |cols| => if r < |cols[c]| then cols[c][r] else "")
  }

  function Rows(cols: seq<seq<string>>, n: nat): (rows: seq<seq<string>>)
    ensures |rows| == n && forall r :: 0 <= r < n ==> rows[r] == RowAt(cols, r)
  {
    seq(n, r requires 0 <= r < n => RowAt(cols, r))
  }

  function Records(names: seq<string>, cols: seq<seq<string>>): seq<seq<string>>
  {
    [names] + Rows(cols, RowCount(cols))
  }

  lemma EmptyNeedsNone()
    ensures Escape("") == ""
  {
  }

  lemma {:induction false} LinesSnoc(records: seq<seq<string>>, last: seq<string>)
    ensures Lines(records + [last]) == Lines(records) + Line(last)
    decreases |records|
  {
    hide Line;
    if records == [] {
      assert records + [last] == [last] && [last][1..] == [];
      assert Lines([last]) == Line(last) + Lines([]);
    } else {
      assert (records + [last])[1..] == records[1..] + [last];
      LinesSnoc(records[1..], last);
    }
  }

  /** One more printed row. */
  lemma RowPrinted(names: seq<string>, cols: seq<seq<string>>, r: nat, cells: seq<string>)
    requires |cells| == |cols|
    requires forall c :: 0 <= c < |cols| ==> cells[c] == if r < |cols[c]| then Escape(cols[c][r]) else ""
    ensures Lines([names] + Rows(cols, r + 1)) == Lines([names] + Rows(cols, r)) + (Join(cells) + "\n")
  {
    hide Line, Lines, Escape, Join;
    EmptyNeedsNone();
    assert cells == EscapeAll(RowAt(cols, r));
    HeaderLine(RowAt(cols, r));
    LinesSnoc([names] + Rows(cols, r), RowAt(cols, r));
    assert [names] + Rows(cols, r) + [RowAt(cols, r)] == [names] + Rows(cols, r + 1);
  }

  lemma HeaderPrinted(names: seq<string>, cols: seq<seq<string>>)
    ensures Lines([names] + Rows(cols, 0)) == Join(EscapeAll(names)) + "\n"
  {
    hide Line, Lines, Join;
    HeaderLine(names);
    NoLines();
    LinesSnoc([], names);
    assert [] + [names] == [names] + Rows(cols, 0);
  }

  /** `render_csv`. */
  method RenderCsv(names: seq<string>, cols: seq<seq<string>>) returns (out: string)
    ensures out == Lines(Records(names, cols))
  {
    hide Line, Lines, Escape, Join;
    out := "";
    out := out + Join(EscapeAll(names));
    out := out + "\n";
    HeaderPrinted(names, cols);
    for r := 0 to RowCount(cols)
      invariant out == Lines([names] + Rows(cols, r))
    {
      var cells := seq(|cols|, c requires 0 <= c < |cols| => if r < |cols[c]| then Escape(cols[c][r]) else "");
      RowPrinted(names, cols, r, cells);
      out := out + (Join(cells) + "\n");
    }
  }

  lemma NoLines()
    ensures Lines([]) == ""
  {
  }

  lemma HeaderLine(fields: seq<string>)
    ensures Line(fields) == Join(EscapeAll(fields)) + "\n"
  {
  }

  // ----- the parser

  /** The rest of a quoted field after its opening quote: its value and what follows the closing quote. */
  function ParseQuoted(s: string): Option<(string, string)>
  {
    if s == "" then None
    else if s[0] != '"' then
      match ParseQuoted(s[1..])
      case None => None
      case Some((value, rest)) => Some(([s[0]] + value, rest))
    else if |s| > 1 && s[1] == '"' then
      match ParseQuoted(s[2..])
      case None => None
      case Some((value, rest)) => Some((['"'] + value, rest))
    else Some(("", s[1..]))
  }

  /** A field without quotes runs up to a comma, a line feed or the end; quotes and carriage returns are errors. */
  function ParsePlain(s: string): Option<(string, string)>
  {
    if s == "" || s[0] == ',' || s[0] == '\n' then Some(("", s))
    else if Special(s[0]) then None
    else
      match ParsePlain(s[1..])
      case None => None
      case Some((value, rest)) => Some(([s[0]] + value, rest))
  }

  function ParseField(s: string): (r: Option<(string, string)>)
  {
    if s != "" && s[0] == '"' then ParseQuoted(s[1..]) else ParsePlain(s)
  }

  lemma {:induction false} QuotedShrinks(s: string)
    ensures ParseQuoted(s).Some? ==> |ParseQuoted(s).value.1| <= |s|
    decreases |s|
  {
    if s != "" {
      QuotedShrinks(s[1..]);
      if |s| > 1 {
        QuotedShrinks(s[2..]);
      }
    }
  }

  lemma {:induction false} PlainShrinks(s: string)
    ensures ParsePlain(s).Some? ==> |ParsePlain(s).value.1| <= |s|
    decreases |s|
  {
    if s != "" {
      PlainShrinks(s[1..]);
    }
  }

  lemma FieldShrinks(s: string)
    ensures ParseField(s).Some? ==> |ParseField(s).value.1| <= |s|
  {
    PlainShrinks(s);
    if s != "" {
      QuotedShrinks(s[1..]);
    }
  }

  /** A record: at least one field, separated by commas, ended by a line feed or the end of the text. */
  function ParseRecord(s: string): Option<(seq<string>, string)>
    decreases |s|
  {
    FieldShrinks(s);
    match ParseField(s)
    case None => None
    case Some((value, rest)) =>
      if rest == "" then Some(([value], rest))
      else if rest[0] == '\n' then Some(([value], rest[1..]))
      else if rest[0] != ',' then None
      else
        match ParseRecord(rest[1..])
        case None => None
        case Some((more, after)) => Some(([value] + more, after))
  }

  lemma {:induction false} RecordShrinks(s: string)
    requires s != ""
    ensures ParseRecord(s).Some? ==> |ParseRecord(s).value.1| < |s|
    decreases |s|
  {
    FieldShrinks(s);
    if ParseField(s).Some? {
      var rest := ParseField(s).value.1;
      if rest != "" && rest[0] == ',' {
        if rest[1..] != "" {
          RecordShrinks(rest[1..]);
        }
      }
    }
  }

  function Parse(s: string): Option<seq<seq<string>>>
    decreases |s|
  {
    if s == "" then Some([])
    else
      RecordShrinks(s);
      match ParseRecord(s)
      case None => None
      case Some((fields, rest)) =>
        match Parse(rest)
        case None => None
        case Some(more) => Some([fields] + more)
  }

  // ----- the parser undoes the printer

  lemma {:induction false} QuotedParses(f: string, rest: string)
    requires rest == "" || rest[0] != '"'
    ensures ParseQuoted(Doubled(f) + "\"" + rest) == Some((f, rest))
    decreases |f|
  {
    var s := Doubled(f) + "\"" + rest;
    if f == "" {
      assert s == "\"" + rest;
      assert s[1..] == rest;
    } else {
      var tail := Doubled(f[1..]) + "\"" + rest;
      QuotedParses(f[1..], rest);
      assert f == [f[0]] + f[1..];
      if f[0] == '"' {
        assert s == "\"\"" + tail;
        assert s[2..] == tail;
      } else {
        assert s == [f[0]] + tail;
        assert s[1..] == tail;
      }
    }
  }

  lemma {:induction false} PlainParses(f: string, rest: string)
    requires !NeedsQuotes(f) && rest != "" && (rest[0] == ',' || rest[0] == '\n')
    ensures ParsePlain(f + rest) == Some((f, rest))
    decreases |f|
  {
    if f == "" {
      assert f + rest == rest;
    } else {
      assert !Special(f[0]);
      assert forall k :: 0 <= k < |f[1..]| ==> f[1..][k] == f[k + 1];
      PlainParses(f[1..], rest);
      assert (f + rest)[1..] == f[1..] + rest;
      assert f == [f[0]] + f[1..];
    }
  }

  lemma FieldParses(f: string, rest: string)
    requires rest != "" && (rest[0] == ',' || rest[0] == '\n')
    ensures ParseField(Escape(f) + rest) == Some((f, rest))
  {
    hide ParseQuoted, ParsePlain, Doubled;
    if NeedsQuotes(f) {
      QuotedParses(f, rest);
      var s := Escape(f) + rest;
      assert s[0] == '"' && s[1..] == Doubled(f) + "\"" + rest;
    } else {
      PlainParses(f, rest);
      if f != "" {
        assert !Special(f[0]);
      }
      assert (f + rest)[0] == if f != "" then f[0] else rest[0];
    }
  }

  lemma RecordStep(s: string, value: string, rest: string)
    requires ParseField(s) == Some((value, rest)) && rest != "" && rest[0] == ',' && ParseRecord(rest[1..]).Some?
    ensures ParseRecord(s) == Some(([value] + ParseRecord(rest[1..]).value.0, ParseRecord(rest[1..]).value.1))
  {
    FieldShrinks(s);
  }

  lemma RecordEnd(s: string, value: string, rest: string)
    requires ParseField(s) == Some((value, rest)) && rest != "" && rest[0] == '\n'
    ensures ParseRecord(s) == Some(([value], rest[1..]))
  {
    FieldShrinks(s);
  }

  lemma {:induction false} LineParses(fields: seq<string>, rest: string)
    requires fields != []
    ensures ParseRecord(Line(fields) + rest) == Some((fields, rest))
    decreases |fields|
  {
    hide Escape, ParseRecord, ParseField;
    var s := Line(fields) + rest;
    if |fields| == 1 {
      FieldParses(fields[0], "\n" + rest);
      assert s == Escape(fields[0]) + ("\n" + rest);
      RecordEnd(s, fields[0], "\n" + rest);
      assert ("\n" + rest)[1..] == rest && fields == [fields[0]];
    } else {
      var tail := Line(fields[1..]) + rest;
      LineParses(fields[1..], rest);
      FieldParses(fields[0], "," + tail);
      LineSplits(fields);
      assert s == Escape(fields[0]) + ("," + tail);
      assert ("," + tail)[1..] == tail;
      RecordStep(s, fields[0], "," + tail);
      assert fields == [fields[0]] + fields[1..];
    }
  }

  lemma LineSplits(fields: seq<string>)
    requires |fields| > 1
    ensures Line(fields) == Escape(fields[0]) + "," + Line(fields[1..])
  {
    hide Escape;
    assert EscapeAll(fields)[1..] == EscapeAll(fields[1..]);
  }

  lemma ParseStep(s: string, fields: seq<string>, rest: string, more: seq<seq<string>>)
    requires s != "" && ParseRecord(s) == Some((fields, rest)) && |rest| < |s| && Parse(rest) == Some(more)
    ensures Parse(s) == Some([fields] + more)
  {
    RecordShrinks(s);
  }

  lemma {:induction false} LinesParse(records: seq<seq<string>>)
    requires forall k :: 0 <= k < |records| ==> records[k] != []
    ensures Parse(Lines(records)) == Some(records)
    decreases |records|
  {
    hide ParseRecord, Parse;
    if records == [] {
      ParseNothing();
    } else {
      LinesParse(records[1..]);
      LineParses(records[0], Lines(records[1..]));
      ParseStep(Lines(records), records[0], Lines(records[1..]), records[1..]);
      assert records == [records[0]] + records[1..];
    }
  }

  lemma ParseNothing()
    ensures Parse("") == Some([])
  {
  }

  /** What the parser makes of a table without a column: one record of one empty field. */
  lemma NamelessHeader(rest: string)
    ensures Parse("\n" + rest).Some? ==> |Parse("\n" + rest).value| > 0 && Parse("\n" + rest).value[0] == [""]
  {
    var s := "\n" + rest;
    assert ParseField(s) == Some(("", s));
    RecordEnd(s, "", s);
    assert s[1..] == rest;
    if Parse(rest).Some? {
      ParseStep(s, [""], rest, Parse(rest).value);
    } else {
      RecordShrinks(s);
    }
  }

  /**
   Printing is inverted by parsing, whatever commas, quotes or line breaks names and cells contain,
   if and only if the table has at least one column name.
   */
  lemma CsvRoundTrip(names: seq<string>, cols: seq<seq<string>>)
    ensures Parse(Lines(Records(names, cols))) == Some(Records(names, cols)) <==> names != []
  {
    hide Parse, Line;
    var records := Records(names, cols);
    if names != [] {
      forall k | 0 <= k < |records|
        ensures records[k] != []
      {
        if k > 0 {
          assert records[k] == RowAt(cols, k - 1);
          assert |cols| > 0;
        }
      }
      LinesParse(records);
    } else {
      HeaderLine(names);
      assert Join(EscapeAll(names)) == "";
      assert Lines(records) == "\n" + Lines(records[1..]);
      NamelessHeader(Lines(records[1..]));
      assert records[0] == [];
    }
  }
}
