/** The CSV serialiser of the frontend's download feature: `csvEscape`, an
    RFC 4180 (section 2) style field quoter, and `formatCSV`, which writes a
    search response as a header line followed by one line per post. */
module Csv {
  import opened Options
  import opened Text
  import opened Schemas
  import opened CsvHeader

  /** The characters that force a field to be enclosed in double quotes. */
  predicate NeedsQuoting(s: string)
  {
    ',' in s || '"' in s || '\n' in s
  }

  /** `value.replace(/"/g, '""')`: every double quote is doubled, nothing
      else changes. */
  function DoubleQuotes(s: string): (r: string)
    ensures |r| == |s| + Count(s, '"')
    ensures '"' in r <==> '"' in s
    ensures ',' in r <==> ',' in s
    ensures '\n' in r <==> '\n' in s
    ensures '"' !in s ==> r == s
    decreases |s|
  {
    if |s| == 0 then ""
    else
      assert s == [s[0]] + s[1..];
      (if s[0] == '"' then "\"\"" else [s[0]]) + DoubleQuotes(s[1..])
  }

  /** `csvEscape` on a string: double every quote, then enclose the result in
      quotes when it contains a comma, a quote or a line feed. */
  function Escape(value: string): (r: string)
    ensures !NeedsQuoting(value) ==> r == value
    ensures NeedsQuoting(value) <==> |r| >= 2 && r[0] == '"' && r[|r| - 1] == '"'
    ensures |r| == |value| + Count(value, '"') + (if NeedsQuoting(value) then 2 else 0)
    ensures r == value <==> !NeedsQuoting(value)
  {
    var doubled := DoubleQuotes(value);
    if ',' in doubled || '"' in doubled || '\n' in doubled then "\"" + doubled + "\""
    else doubled
  }

  /** `csvEscape` on a possibly null value: null becomes the two-character
      string `""`. */
  function EscapeNullable(value: Option<string>): (r: string)
    ensures value.None? ==> r == "\"\""
    ensures value.Some? ==> r == Escape(value.value)
  {
    match value
    case None => "\"\""
    case Some(s) => Escape(s)
  }

  /** `.map(csvEscape)`: each cell escaped, in order. */
  function EscapeAll(cells: seq<string>): (r: seq<string>)
    ensures |r| == |cells|
  {
    seq(|cells|, i requires 0 <= i < |cells| => Escape(cells[i]))
  }

  /** One CSV line: the escaped cells joined by commas. */
  function Record(cells: seq<string>): string
  {
    Join(EscapeAll(cells), ',')
  }

  /** The values a post contributes to its line before the final escape, as
      the source computes them: the three text fields are already escaped
      once here, and numbers are rendered in decimal. */
  function CellValues(p: Post): seq<string>
  {
    [p.id, Escape(p.title), Escape(p.selftext), Escape(p.subreddit),
     DecimalString(p.score), DecimalString(p.numComments), p.createdDate, p.url]
  }

  /** The line written for one post. */
  function Row(p: Post): string
  {
    Record(CellValues(p))
  }

  /** The lines of the file: the header line, then one line per post in
      input order. */
  function Lines(posts: seq<Post>): (r: seq<string>)
    ensures |r| == |posts| + 1
  {
    [Join(Headers, ',')] + Rows(posts)
  }

  /** The post lines, one per post in input order. */
  function Rows(posts: seq<Post>): (r: seq<string>)
    ensures |r| == |posts|
  {
    seq(|posts|, i requires 0 <= i < |posts| => Row(posts[i]))
  }

  /** `formatCSV`: the lines joined by line feeds, without a trailing one. */
  function FormatCsv(response: SearchResponse): (csv: string)
    ensures |response.results| == 0 ==> csv == HeaderLine
    ensures |response.results| > 0 ==> |csv| > |HeaderLine| && csv[..|HeaderLine| + 1] == HeaderLine + "\n"
    ensures |csv| > 0 && csv[|csv| - 1] != '\n'
  {
    var lines := Lines(response.results);
    FileShape(lines);
    LastLineNotNewline(response.results);
    JoinEndsWithLastChar(lines, '\n');
    Join(lines, '\n')
  }

  /** The cells as `formatCSV` would have written them had each field been
      escaped exactly once. */
  function IntendedCellValues(p: Post): seq<string>
  {
    [p.id, p.title, p.selftext, p.subreddit,
     DecimalString(p.score), DecimalString(p.numComments), p.createdDate, p.url]
  }

  /** The lines of the file had each field been escaped exactly once. */
  function IntendedLines(posts: seq<Post>): (r: seq<string>)
    ensures |r| == |posts| + 1
  {
    [Join(Headers, ',')] + IntendedRows(posts)
  }

  /** The post lines had each field been escaped exactly once. */
  function IntendedRows(posts: seq<Post>): (r: seq<string>)
    ensures |r| == |posts|
  {
    seq(|posts|, i requires 0 <= i < |posts| => Record(IntendedCellValues(posts[i])))
  }

  /** `formatCSV` with each field escaped exactly once. */
  function FormatCsvIntended(response: SearchResponse): (csv: string)
    ensures |response.results| == 0 ==> csv == HeaderLine
    ensures |response.results| > 0 ==> |csv| > |HeaderLine| && csv[..|HeaderLine| + 1] == HeaderLine + "\n"
  {
    var lines := IntendedLines(response.results);
    FileShape(lines);
    Join(lines, '\n')
  }

  /** A file whose first line is the header line starts with it, followed by
      a line feed when more lines follow. */
  lemma FileShape(lines: seq<string>)
    requires |lines| > 0 && lines[0] == Join(Headers, ',')
    ensures |lines| == 1 ==> Join(lines, '\n') == HeaderLine
    ensures |lines| > 1 ==> |Join(lines, '\n')| > |HeaderLine|
    ensures |lines| > 1 ==> Join(lines, '\n')[..|HeaderLine| + 1] == HeaderLine + "\n"
  {
    HeaderLineIsJoin();
    if |lines| > 1 {
      assert Join(lines, '\n') == HeaderLine + "\n" + Join(lines[1..], '\n');
    }
  }

  // ---------------------------------------------------------------------
  // Facts about the end of the output.

  /** An escaped value never ends with a line feed. */
  lemma EscapeNotEndingInNewline(v: string)
    ensures |Escape(v)| > 0 ==> Escape(v)[|Escape(v)| - 1] != '\n'
  {
    if !NeedsQuoting(v) && |v| > 0 {
      assert v[|v| - 1] in v;
    }
  }

  /** A join ends with its last part's last character. */
  lemma JoinEndsWithLastChar(parts: seq<string>, sep: char)
    requires |parts| > 0 && |parts[|parts| - 1]| > 0
    ensures var j := Join(parts, sep); var last := parts[|parts| - 1];
      |j| > 0 && j[|j| - 1] == last[|last| - 1]
  {
    if |parts| >= 2 {
      JoinSnoc(parts, sep);
    }
  }

  /** Every post line is non-empty and does not end in a line feed, so
      neither does the file. */
  lemma LastLineNotNewline(posts: seq<Post>)
    ensures var lines := Lines(posts);
      |lines[|lines| - 1]| > 0 && lines[|lines| - 1][|lines[|lines| - 1]| - 1] != '\n'
  {
    HeaderLineIsJoin();
    if |posts| > 0 {
      var p := posts[|posts| - 1];
      var cells := EscapeAll(CellValues(p));
      JoinSnoc(cells, ',');
      EscapeNotEndingInNewline(p.url);
    }
  }
}
