/** A reader for the CSV format of section 2 of RFC 4180, with a line feed as
    the record separator: the decoding that the serialiser's output is meant
    for. A field is either enclosed in double quotes, with `""` standing for
    one quote inside, or plain text free of quotes, commas and line feeds. */
module CsvParse {
  import opened Options

  /** Where a field may stop: end of input, a comma or a line feed. */
  predicate AtFieldEnd(s: string)
  {
    |s| == 0 || s[0] == ',' || s[0] == '\n'
  }

  /** Where a record may stop: end of input or a line feed. */
  predicate AtRecordEnd(s: string)
  {
    |s| == 0 || s[0] == '\n'
  }

  /** Puts `prefix` in front of the text of a successful read. */
  function Prepend(prefix: string, r: Option<(string, string)>): Option<(string, string)>
  {
    match r
    case None => None
    case Some((text, rest)) => Some((prefix + text, rest))
  }

  /** Reads the inside of an enclosed field, starting just after its opening
      quote, up to and including the closing quote. Returns the decoded text
      and what follows the closing quote; None when the quote is never
      closed. */
  function ParseQuoted(s: string): (r: Option<(string, string)>)
    ensures r.Some? ==> |r.value.1| < |s|
    decreases |s|
  {
    if |s| == 0 then None
    else if s[0] != '"' then Prepend([s[0]], ParseQuoted(s[1..]))
    else if |s| >= 2 && s[1] == '"' then Prepend("\"", ParseQuoted(s[2..]))
    else Some(("", s[1..]))
  }

  /** Length of the longest prefix free of commas and line feeds. */
  function PlainLength(s: string): (n: nat)
    ensures n <= |s|
    ensures AtFieldEnd(s[n..])
    ensures forall i :: 0 <= i < n ==> s[i] != ',' && s[i] != '\n'
  {
    if |s| == 0 || s[0] == ',' || s[0] == '\n' then 0 else 1 + PlainLength(s[1..])
  }

  /** Reads one field. Returns its decoded value and the rest of the input,
      which starts at a field boundary; None when the field is malformed (an
      unclosed quote, text after a closing quote, or a quote inside a plain
      field). */
  function ParseField(s: string): (r: Option<(string, string)>)
    ensures r.Some? ==> |r.value.1| <= |s| && AtFieldEnd(r.value.1)
  {
    if |s| > 0 && s[0] == '"' then
      match ParseQuoted(s[1..])
      case None => None
      case Some((text, rest)) => if AtFieldEnd(rest) then Some((text, rest)) else None
    else
      var n := PlainLength(s);
      if '"' in s[..n] then None else Some((s[..n], s[n..]))
  }

  /** Reads the comma-separated fields of one record. */
  function ParseRecord(s: string): (r: Option<(seq<string>, string)>)
    ensures r.Some? ==> |r.value.0| > 0 && |r.value.1| <= |s| && AtRecordEnd(r.value.1)
    decreases |s|
  {
    match ParseField(s)
    case None => None
    case Some((field, rest)) =>
      if |rest| > 0 && rest[0] == ',' then
        match ParseRecord(rest[1..])
        case None => None
        case Some((fields, rest')) => Some(([field] + fields, rest'))
      else
        Some(([field], rest))
  }

  /** Reads a whole file: records separated by line feeds. Unlike RFC 4180,
      a line feed at the very end is a separator too, followed by one empty
      record. */
  function ParseDocument(s: string): Option<seq<seq<string>>>
    decreases |s|
  {
    match ParseRecord(s)
    case None => None
    case Some((record, rest)) =>
      if |rest| == 0 then Some([record])
      else
        match ParseDocument(rest[1..])
        case None => None
        case Some(records) => Some([record] + records)
  }

  /** Decodes a string holding exactly one field. */
  function DecodeField(s: string): Option<string>
  {
    match ParseField(s)
    case None => None
    case Some((value, rest)) => if |rest| == 0 then Some(value) else None
  }
}
