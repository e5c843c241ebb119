/** What a reader of the download gets back: every escaped field decodes to
    the value that was escaped, so the file decodes to the header row and one
    row of cell values per post. Because the text fields are escaped twice,
    those cells decode to the escaped text, not to the text itself. */
module CsvRoundTrip {
  import opened Options
  import opened Text
  import opened Schemas
  import opened CsvHeader
  import opened Csv
  import opened CsvParse

  lemma ParseQuotedPlainChar(c: char, t: string)
    requires c != '"'
    ensures ParseQuoted([c] + t) == Prepend([c], ParseQuoted(t))
  {
    assert ([c] + t)[1..] == t;
  }

  lemma ParseQuotedDoubledQuote(t: string)
    ensures ParseQuoted("\"\"" + t) == Prepend("\"", ParseQuoted(t))
  {
    assert ("\"\"" + t)[2..] == t;
  }

  lemma ParseQuotedClosing(t: string)
    requires |t| == 0 || t[0] != '"'
    ensures ParseQuoted("\"" + t) == Some(("", t))
  {
    assert ("\"" + t)[1..] == t;
  }

  lemma DoubleQuotesCons(v: string)
    requires |v| > 0
    ensures DoubleQuotes(v) == (if v[0] == '"' then "\"\"" else [v[0]]) + DoubleQuotes(v[1..])
  {
  }

  /** The inside of an enclosed field reads back as the undoubled text. */
  lemma {:induction false} ParseDoubled(v: string, rest: string)
    requires |rest| == 0 || rest[0] != '"'
    ensures ParseQuoted(DoubleQuotes(v) + "\"" + rest) == Some((v, rest))
    decreases |v|
  {
    if |v| == 0 {
      assert DoubleQuotes(v) + "\"" + rest == "\"" + rest;
      ParseQuotedClosing(rest);
    } else {
      ParseDoubled(v[1..], rest);
      ParseDoubledStep(v, rest);
    }
  }

  /** One step of `ParseDoubled`: reading the first (possibly doubled)
      character of a non-empty value. */
  lemma ParseDoubledStep(v: string, rest: string)
    requires |v| > 0
    requires ParseQuoted(DoubleQuotes(v[1..]) + "\"" + rest) == Some((v[1..], rest))
    ensures ParseQuoted(DoubleQuotes(v) + "\"" + rest) == Some((v, rest))
  {
    var piece := if v[0] == '"' then "\"\"" else [v[0]];
    var t := DoubleQuotes(v[1..]) + "\"" + rest;
    DoubleQuotesCons(v);
    Associative(piece, DoubleQuotes(v[1..]), "\"");
    Associative(piece, DoubleQuotes(v[1..]) + "\"", rest);
    assert DoubleQuotes(v) + "\"" + rest == piece + t;
    if v[0] == '"' {
      ParseQuotedDoubledQuote(t);
    } else {
      ParseQuotedPlainChar(v[0], t);
    }
    assert [v[0]] + v[1..] == v;
  }

  /** A plain value followed by a field boundary is read up to the boundary. */
  lemma {:induction false} PlainLengthOf(v: string, rest: string)
    requires ',' !in v && '\n' !in v
    requires AtFieldEnd(rest)
    ensures PlainLength(v + rest) == |v|
    decreases |v|
  {
    if |v| == 0 {
      assert v + rest == rest;
    } else {
      assert v[0] in v;
      assert forall c :: c in v[1..] ==> c in v;
      assert (v + rest)[1..] == v[1..] + rest;
      PlainLengthOf(v[1..], rest);
    }
  }

  /** An escaped value followed by a field boundary reads back as the value. */
  lemma EscapedFieldParses(v: string, rest: string)
    requires AtFieldEnd(rest)
    ensures ParseField(Escape(v) + rest) == Some((v, rest))
  {
    if NeedsQuoting(v) {
      EnclosedFieldParses(v, rest);
    } else {
      PlainFieldParses(v, rest);
    }
  }

  lemma EnclosedFieldParses(v: string, rest: string)
    requires AtFieldEnd(rest)
    requires NeedsQuoting(v)
    ensures ParseField(Escape(v) + rest) == Some((v, rest))
  {
    var s := Escape(v) + rest;
    Associative("\"", DoubleQuotes(v) + "\"", rest);
    Associative("\"", DoubleQuotes(v), "\"");
    assert s == "\"" + (DoubleQuotes(v) + "\"" + rest);
    assert s[1..] == DoubleQuotes(v) + "\"" + rest;
    ParseDoubled(v, rest);
  }

  lemma PlainFieldParses(v: string, rest: string)
    requires AtFieldEnd(rest)
    requires !NeedsQuoting(v)
    ensures ParseField(Escape(v) + rest) == Some((v, rest))
  {
    var s := v + rest;
    PlainLengthOf(v, rest);
    assert s[..|v|] == v;
    assert s[|v|..] == rest;
    if |v| > 0 {
      assert v[0] in v;
    }
  }

  /** `csvEscape` round-trips: decoding its output gives back its input. */
  lemma EscapeRoundTrip(v: string)
    ensures DecodeField(Escape(v)) == Some(v)
  {
    EscapedFieldParses(v, "");
    assert Escape(v) + "" == Escape(v);
  }

  /** A null value is written as `""`, which decodes to the empty string: a
      reader cannot tell it from an empty string, which is written as
      nothing at all. */
  lemma NullDecodesAsEmpty()
    ensures EscapeNullable(None) == "\"\""
    ensures DecodeField(EscapeNullable(None)) == Some("")
    ensures Escape("") == "" && EscapeNullable(None) != EscapeNullable(Some(""))
  {
    ParseQuotedClosing("");
    assert "\"\"" == "\"" + ("\"" + "");
  }

  /** A record of escaped cells followed by a record boundary reads back as
      the cells. */
  lemma {:induction false} RecordParses(cells: seq<string>, rest: string)
    requires |cells| > 0
    requires AtRecordEnd(rest)
    ensures ParseRecord(Record(cells) + rest) == Some((cells, rest))
    decreases |cells|
  {
    if |cells| == 1 {
      assert Record(cells) == Escape(cells[0]);
      EscapedFieldParses(cells[0], rest);
      assert [cells[0]] == cells;
    } else {
      RecordParses(cells[1..], rest);
      RecordParsesStep(cells, rest);
    }
  }

  /** A record of two or more cells is its first escaped cell, a comma and
      the record of the others. */
  lemma RecordCons(cells: seq<string>)
    requires |cells| >= 2
    ensures Record(cells) == Escape(cells[0]) + [','] + Record(cells[1..])
  {
    assert EscapeAll(cells)[1..] == EscapeAll(cells[1..]);
  }

  /** One step of `RecordParses`: reading the first cell and its comma. */
  lemma RecordParsesStep(cells: seq<string>, rest: string)
    requires |cells| >= 2
    requires ParseRecord(Record(cells[1..]) + rest) == Some((cells[1..], rest))
    ensures ParseRecord(Record(cells) + rest) == Some((cells, rest))
  {
    var after := Record(cells[1..]) + rest;
    var tail := [','] + after;
    SplitFirstCell(cells, rest);
    EscapedFieldParses(cells[0], tail);
    DropComma(after);
    ParseRecordAfterComma(Record(cells) + rest, cells[0], tail, cells[1..], rest);
    ConsTail(cells);
  }

  lemma SplitFirstCell(cells: seq<string>, rest: string)
    requires |cells| >= 2
    ensures Record(cells) + rest == Escape(cells[0]) + ([','] + (Record(cells[1..]) + rest))
  {
    RecordCons(cells);
    Associative(Escape(cells[0]) + [','], Record(cells[1..]), rest);
    Associative(Escape(cells[0]), [','], Record(cells[1..]) + rest);
  }

  /** A field followed by a comma continues the record. */
  lemma ParseRecordAfterComma(s: string, field: string, tail: string, fields: seq<string>, rest: string)
    requires ParseField(s) == Some((field, tail))
    requires |tail| > 0 && tail[0] == ','
    requires ParseRecord(tail[1..]) == Some((fields, rest))
    ensures ParseRecord(s) == Some(([field] + fields, rest))
  {
  }

  /** The lines of a file made of the given records. */
  function Encoded(records: seq<seq<string>>): (lines: seq<string>)
    ensures |lines| == |records|
  {
    seq(|records|, i requires 0 <= i < |records| => Record(records[i]))
  }

  /** A file of non-empty records reads back as those records. */
  lemma {:induction false} DocumentParses(records: seq<seq<string>>)
    requires |records| > 0
    requires forall i :: 0 <= i < |records| ==> |records[i]| > 0
    ensures ParseDocument(Join(Encoded(records), '\n')) == Some(records)
    decreases |records|
  {
    if |records| == 1 {
      assert Join(Encoded(records), '\n') == Record(records[0]) + "";
      RecordParses(records[0], "");
      assert [records[0]] == records;
    } else {
      DocumentParses(records[1..]);
      DocumentParsesStep(records);
    }
  }

  /** One step of `DocumentParses`: reading the first record and its line
      feed. */
  lemma DocumentParsesStep(records: seq<seq<string>>)
    requires |records| >= 2 && |records[0]| > 0
    requires ParseDocument(Join(Encoded(records[1..]), '\n')) == Some(records[1..])
    ensures ParseDocument(Join(Encoded(records), '\n')) == Some(records)
  {
    var rest := Join(Encoded(records[1..]), '\n');
    var tail := "\n" + rest;
    SplitFirstRecord(records);
    RecordParses(records[0], tail);
    DropNewline(rest);
    ParseDocumentAfterNewline(Join(Encoded(records), '\n'), records[0], tail, records[1..]);
    ConsTail(records);
  }

  lemma SplitFirstRecord(records: seq<seq<string>>)
    requires |records| >= 2
    ensures Join(Encoded(records), '\n') == Record(records[0]) + ("\n" + Join(Encoded(records[1..]), '\n'))
  {
    assert Encoded(records)[1..] == Encoded(records[1..]);
  }

  /** A record followed by a line feed continues the file. */
  lemma ParseDocumentAfterNewline(s: string, record: seq<string>, tail: string, records: seq<seq<string>>)
    requires ParseRecord(s) == Some((record, tail))
    requires |tail| > 0
    requires ParseDocument(tail[1..]) == Some(records)
    ensures ParseDocument(s) == Some([record] + records)
  {
  }

  /** The column names need no quoting. */
  lemma HeadersArePlain()
    ensures EscapeAll(Headers) == Headers
  {
    assert forall i :: 0 <= i < |Headers| ==> !NeedsQuoting(Headers[i]);
  }

  /** The header line is the record of the column names. */
  lemma HeaderRecord()
    ensures Record(Headers) == Join(Headers, ',')
  {
    HeadersArePlain();
  }

  /** The rows a reader gets back from `formatCSV`'s output, as written:
      the header, then per post its eight cell values in column order. */
  function DecodedRows(posts: seq<Post>): (rows: seq<seq<string>>)
    ensures |rows| == |posts| + 1
  {
    [Headers] + CellRows(posts)
  }

  /** Per post, its eight cell values, in input order. */
  function CellRows(posts: seq<Post>): (rows: seq<seq<string>>)
    ensures |rows| == |posts|
  {
    seq(|posts|, i requires 0 <= i < |posts| => CellValues(posts[i]))
  }

  /** Encoding the decoded rows gives back `formatCSV`'s lines. */
  lemma EncodedRowsAreLines(posts: seq<Post>)
    ensures Encoded(DecodedRows(posts)) == Lines(posts)
  {
    EncodedCons(Headers, CellRows(posts));
    HeaderRecord();
    EncodedCellRows(posts);
  }

  lemma EncodedCellRows(posts: seq<Post>)
    ensures Encoded(CellRows(posts)) == Rows(posts)
  {
    forall i | 0 <= i < |posts|
      ensures Encoded(CellRows(posts))[i] == Rows(posts)[i]
    {
      assert CellRows(posts)[i] == CellValues(posts[i]);
    }
  }

  /** Encoding distributes over a leading record. */
  lemma EncodedCons(head: seq<string>, tail: seq<seq<string>>)
    ensures Encoded([head] + tail) == [Record(head)] + Encoded(tail)
  {
    forall i | 0 <= i < |tail| + 1
      ensures Encoded([head] + tail)[i] == ([Record(head)] + Encoded(tail))[i]
    {
      if i > 0 {
        assert ([head] + tail)[i] == tail[i - 1];
      }
    }
  }

  /** `formatCSV`'s output decodes to the header row followed by one row
      per post, in input order. */
  lemma FormatCsvDecodes(response: SearchResponse)
    ensures ParseDocument(FormatCsv(response)) == Some(DecodedRows(response.results))
  {
    var rows := DecodedRows(response.results);
    EncodedRowsAreLines(response.results);
    assert forall i :: 0 <= i < |rows| ==> |rows[i]| == 8;
    DocumentParses(rows);
  }

  /** Each decoded post row holds the id, score, comment count, date and url
      verbatim, but the title, body text and subreddit in their escaped
      form: a reader sees `csvEscape(title)`, not the title. */
  lemma DecodedPostRow(response: SearchResponse, i: int)
    requires 0 <= i < |response.results|
    ensures var p := response.results[i];
      var rows := DecodedRows(response.results);
      && ParseDocument(FormatCsv(response)) == Some(rows)
      && |rows[i + 1]| == 8
      && rows[i + 1][0] == p.id && rows[i + 1][6] == p.createdDate && rows[i + 1][7] == p.url
      && rows[i + 1][1] == Escape(p.title) && rows[i + 1][2] == Escape(p.selftext)
      && rows[i + 1][3] == Escape(p.subreddit)
      && DecimalValue(rows[i + 1][4]) == p.score && DecimalValue(rows[i + 1][5]) == p.numComments
  {
    var p := response.results[i];
    FormatCsvDecodes(response);
    DecodedRowIsCells(response.results, i);
    CellsOfPost(p);
  }

  lemma DecodedRowIsCells(posts: seq<Post>, i: int)
    requires 0 <= i < |posts|
    ensures DecodedRows(posts)[i + 1] == CellValues(posts[i])
  {
  }

  lemma CellsOfPost(p: Post)
    ensures var cells := CellValues(p);
      && |cells| == 8
      && cells[0] == p.id && cells[6] == p.createdDate && cells[7] == p.url
      && cells[1] == Escape(p.title) && cells[2] == Escape(p.selftext) && cells[3] == Escape(p.subreddit)
      && DecimalValue(cells[4]) == p.score && DecimalValue(cells[5]) == p.numComments
  {
    DecimalRoundTrip(p.score);
    DecimalRoundTrip(p.numComments);
  }

  /** A text field comes back unchanged exactly when it needs no quoting. */
  lemma DoubleEscapeVerbatimIff(text: string)
    ensures Escape(Escape(text)) == text <==> !NeedsQuoting(text)
    ensures DecodeField(Escape(Escape(text))) == Some(text) <==> !NeedsQuoting(text)
  {
    EscapeRoundTrip(Escape(text));
  }

  /** Doubling quotes distributes over concatenation. */
  lemma {:induction false} DoubleQuotesAppend(x: string, y: string)
    ensures DoubleQuotes(x + y) == DoubleQuotes(x) + DoubleQuotes(y)
    decreases |x|
  {
    if |x| > 0 {
      DoubleQuotesAppend(x[1..], y);
      DoubleQuotesAppendStep(x, y);
    } else {
      assert x + y == y;
    }
  }

  lemma DoubleQuotesAppendStep(x: string, y: string)
    requires |x| > 0
    requires DoubleQuotes(x[1..] + y) == DoubleQuotes(x[1..]) + DoubleQuotes(y)
    ensures DoubleQuotes(x + y) == DoubleQuotes(x) + DoubleQuotes(y)
  {
    var piece := if x[0] == '"' then "\"\"" else [x[0]];
    DoubleQuotesConsAppend(x, y);
    DoubleQuotesCons(x);
    Associative(piece, DoubleQuotes(x[1..]), DoubleQuotes(y));
  }

  lemma DoubleQuotesConsAppend(x: string, y: string)
    requires |x| > 0
    ensures DoubleQuotes(x + y) == (if x[0] == '"' then "\"\"" else [x[0]]) + DoubleQuotes(x[1..] + y)
  {
    assert (x + y)[1..] == x[1..] + y;
    DoubleQuotesCons(x + y);
  }

  /** A text that needs quoting but holds no quote (a title with a comma,
      say) is written with three quotes on each side. */
  lemma DoubleEscapeOfUnquotedText(text: string)
    requires NeedsQuoting(text) && '"' !in text
    ensures Escape(text) == "\"" + text + "\""
    ensures Escape(Escape(text)) == "\"\"\"" + text + "\"\"\""
  {
    var once := "\"" + text + "\"";
    assert once[0] == '"';
    DoubleQuotesOfEnclosed(text);
    assert "\"" + ("\"\"" + text + "\"\"") + "\"" == "\"\"\"" + text + "\"\"\"";
  }

  /** Enclosing quotes come out doubled. */
  lemma DoubleQuotesOfEnclosed(text: string)
    requires '"' !in text
    ensures DoubleQuotes("\"" + text + "\"") == "\"\"" + text + "\"\""
  {
    DoubleQuotesAppend("\"" + text, "\"");
    DoubleQuotesAppend("\"", text);
    DoubleQuotesOfQuote();
  }

  lemma DoubleQuotesOfQuote()
    ensures DoubleQuotes("\"") == "\"\""
  {
    DoubleQuotesCons("\"");
  }

  /** A title `a,b` is written as `"""a,b"""`. */
  lemma CommaTitleOverQuoted()
    ensures Escape(Escape("a,b")) == "\"\"\"a,b\"\"\""
  {
    CommaTextNeedsQuoting();
    DoubleEscapeOfUnquotedText("a,b");
    TripleQuotedCommaText();
  }

  lemma CommaTextNeedsQuoting()
    ensures NeedsQuoting("a,b") && '"' !in "a,b"
  {
    assert "a,b"[1] == ',';
  }

  /** The rows a reader would get back had each field been escaped once. */
  function IntendedDecodedRows(posts: seq<Post>): (rows: seq<seq<string>>)
    ensures |rows| == |posts| + 1
  {
    [Headers] + IntendedCellRows(posts)
  }

  /** Per post, its raw field values, in input order. */
  function IntendedCellRows(posts: seq<Post>): (rows: seq<seq<string>>)
    ensures |rows| == |posts|
  {
    seq(|posts|, i requires 0 <= i < |posts| => IntendedCellValues(posts[i]))
  }

  lemma EncodedIntendedRowsAreLines(posts: seq<Post>)
    ensures Encoded(IntendedDecodedRows(posts)) == IntendedLines(posts)
  {
    EncodedCons(Headers, IntendedCellRows(posts));
    HeaderRecord();
    EncodedIntendedCellRows(posts);
  }

  lemma EncodedIntendedCellRows(posts: seq<Post>)
    ensures Encoded(IntendedCellRows(posts)) == IntendedRows(posts)
  {
    forall i | 0 <= i < |posts|
      ensures Encoded(IntendedCellRows(posts))[i] == IntendedRows(posts)[i]
    {
      assert IntendedCellRows(posts)[i] == IntendedCellValues(posts[i]);
    }
  }

  /** Had each field been escaped once, the file would decode to the posts'
      own values. */
  lemma FormatCsvIntendedDecodes(response: SearchResponse)
    ensures ParseDocument(FormatCsvIntended(response)) == Some(IntendedDecodedRows(response.results))
  {
    var rows := IntendedDecodedRows(response.results);
    EncodedIntendedRowsAreLines(response.results);
    assert forall i :: 0 <= i < |rows| ==> |rows[i]| == 8;
    DocumentParses(rows);
  }

  /** In the intended serialisation every text field decodes to itself. */
  lemma IntendedTitleRoundTrips(response: SearchResponse, i: int)
    requires 0 <= i < |response.results|
    ensures var p := response.results[i];
      var rows := IntendedDecodedRows(response.results);
      && ParseDocument(FormatCsvIntended(response)) == Some(rows)
      && |rows[i + 1]| == 8
      && rows[i + 1][1] == p.title && rows[i + 1][2] == p.selftext && rows[i + 1][3] == p.subreddit
  {
    FormatCsvIntendedDecodes(response);
    IntendedRowIsCells(response.results, i);
    IntendedCellsOfPost(response.results[i]);
  }

  lemma IntendedCellsOfPost(p: Post)
    ensures var cells := IntendedCellValues(p);
      |cells| == 8 && cells[1] == p.title && cells[2] == p.selftext && cells[3] == p.subreddit
  {
  }

  lemma IntendedRowIsCells(posts: seq<Post>, i: int)
    requires 0 <= i < |posts|
    ensures IntendedDecodedRows(posts)[i + 1] == IntendedCellValues(posts[i])
  {
    assert IntendedCellRows(posts)[i] == IntendedCellValues(posts[i]);
  }

  /** `created_utc` never reaches the file: posts that differ only in it
      produce the same download, and so do responses that differ only in
      `total` and `has_more`. */
  lemma FormatCsvIgnoresCreatedUtc(a: SearchResponse, b: SearchResponse)
    requires |a.results| == |b.results|
    requires forall i :: 0 <= i < |a.results| ==>
      a.results[i] == b.results[i].(createdUtc := a.results[i].createdUtc)
    ensures FormatCsv(a) == FormatCsv(b)
  {
    assert forall i :: 0 <= i < |a.results| ==> Row(a.results[i]) == Row(b.results[i]);
    assert Lines(a.results) == Lines(b.results);
  }

  // Solver hints. Each states a fact about sequences or string literals that
  // Dafny knows but does not always find on its own; calling one of these
  // lemmas keeps the proofs that need the fact small and fast.

  lemma DropComma(rest: string)
    ensures ([','] + rest)[1..] == rest
  {
  }

  lemma DropNewline(rest: string)
    ensures ("\n" + rest)[1..] == rest
  {
  }

  lemma ConsTail<T>(xs: seq<T>)
    requires |xs| > 0
    ensures [xs[0]] + xs[1..] == xs
  {
  }

  lemma Associative(a: string, b: string, c: string)
    ensures a + (b + c) == (a + b) + c
  {
  }

  lemma TripleQuotedCommaText()
    ensures "\"\"\"" + "a,b" + "\"\"\"" == "\"\"\"a,b\"\"\""
  {
  }
}
