/**
 * A reader for comma-separated text in the style of section 2 of RFC 4180:
 * fields separated by `,`, a field either bare (no `,` or line break in it)
 * or enclosed in double quotes, with a doubled quote standing for one quote
 * inside an enclosed field.  Records end at a line feed (the export writes
 * `\n`, not the CRLF of RFC 4180).  The reader is the reference against
 * which the CSV export is proved to be decodable.
 */
module CsvReader {
  import opened Seqs

  /**
   * Reads the body of an enclosed field; `s` starts just after the opening
   * quote.  Returns the unescaped text and what follows the closing quote,
   * or `None` when the closing quote is missing.
   */
  function ReadQuoted(s: string): (r: Option<(string, string)>)
    ensures r.Some? ==> |r.value.1| < |s|
    decreases |s|
  {
    if s == [] then None
    else if s[0] == '"' then
      if |s| >= 2 && s[1] == '"' then
        match ReadQuoted(s[2..])
        case None => None
        case Some(fr) => Some(("\"" + fr.0, fr.1))
      else Some(([], s[1..]))
    else
      match ReadQuoted(s[1..])
      case None => None
      case Some(fr) => Some(([s[0]] + fr.0, fr.1))
  }

  /** Reads a bare field: everything up to the next `,` or line feed. */
  function ReadBare(s: string): (r: (string, string))
    ensures r.0 + r.1 == s
    ensures ',' !in r.0 && '\n' !in r.0
    ensures r.1 == [] || r.1[0] == ',' || r.1[0] == '\n'
  {
    if s == [] || s[0] == ',' || s[0] == '\n' then ([], s)
    else
      var fr := ReadBare(s[1..]);
      assert s == [s[0]] + s[1..];
      ([s[0]] + fr.0, fr.1)
  }

  /** Reads one field, enclosed or bare, and returns it with the unread rest. */
  function ReadField(s: string): (r: Option<(string, string)>)
    ensures r.Some? ==> |r.value.1| <= |s|
  {
    if s != [] && s[0] == '"' then ReadQuoted(s[1..]) else Some(ReadBare(s))
  }

  /**
   * Reads the fields of one record.  The rest it returns is empty or starts
   * with the line feed that ends the record; a field followed by anything
   * but `,`, a line feed or the end is malformed.
   */
  function ReadRecord(s: string): (r: Option<(seq<string>, string)>)
    ensures r.Some? ==> |r.value.0| >= 1 && |r.value.1| <= |s|
    ensures r.Some? ==> r.value.1 == [] || r.value.1[0] == '\n'
    decreases |s|
  {
    match ReadField(s)
    case None => None
    case Some(fr) =>
      var rest := fr.1;
      if rest == [] || rest[0] == '\n' then Some(([fr.0], rest))
      else if rest[0] == ',' then
        match ReadRecord(rest[1..])
        case None => None
        case Some(rr) => Some(([fr.0] + rr.0, rr.1))
      else None
  }

  /** Reads a whole document: records separated by line feeds, none after the last. */
  function ReadDocument(s: string): (r: Option<seq<seq<string>>>)
    ensures r.Some? ==> |r.value| >= 1
    decreases |s|
  {
    match ReadRecord(s)
    case None => None
    case Some(rr) =>
      if rr.1 == [] then Some([rr.0])
      else
        match ReadDocument(rr.1[1..])
        case None => None
        case Some(recs) => Some([rr.0] + recs)
  }
}
