/**
 * The CSV text the exports build: a header line `headers.join(',')`, then for each record
 * `fields.map(field => `"${field}"`).join(',')`, each line ended by a newline. Fields are wrapped
 * in double quotes and nothing is escaped; the lemmas say when the text can be read back.
 */
module Csv {
  import opened Wrappers

  /** `"${field}"`. */
  function Quote(field: string): (q: string)
    ensures |q| == |field| + 2 && q[0] == '"' && q[|q| - 1] == '"' && q[1..|q| - 1] == field
  {
    "\"" + field + "\""
  }

  function QuoteAll(fields: seq<string>): (r: seq<string>)
    ensures |r| == |fields| && forall i :: 0 <= i < |fields| ==> r[i] == Quote(fields[i])
  {
    if fields == [] then [] else [Quote(fields[0])] + QuoteAll(fields[1..])
  }

  /** `parts.join(',')`. */
  function Join(parts: seq<string>): string
  {
    if parts == [] then ""
    else if |parts| == 1 then parts[0]
    else parts[0] + "," + Join(parts[1..])
  }

  /** One data line: the quoted fields joined by commas, then a newline. */
  function Line(fields: seq<string>): string
  {
    Join(QuoteAll(fields)) + "\n"
  }

  /** The header line: the names joined by commas, unquoted, then a newline. */
  function HeaderLine(names: seq<string>): string
  {
    Join(names) + "\n"
  }

  /** The concatenation of the data lines of `records`, in order. */
  function Lines(records: seq<seq<string>>): string
  {
    if records == [] then "" else Lines(records[..|records| - 1]) + Line(records[|records| - 1])
  }

  /** A whole CSV document. */
  function Document(names: seq<string>, records: seq<seq<string>>): string
  {
    HeaderLine(names) + Lines(records)
  }

  /** Appending a record appends its line. */
  lemma DocumentSnoc(names: seq<string>, records: seq<seq<string>>, fields: seq<string>)
    ensures Document(names, records + [fields]) == Document(names, records) + Join(QuoteAll(fields)) + "\n"
  {
    assert (records + [fields])[..|records|] == records;
  }

  // ---------------------------------------------------------------------------
  // Reading the text back
  // ---------------------------------------------------------------------------

  /** The first index at or after `from` holding `c`, or `|s|`. */
  function Find(s: string, c: char, from: nat): (k: nat)
    requires from <= |s|
    ensures from <= k <= |s| && (k < |s| ==> s[k] == c)
    ensures forall j :: from <= j < k ==> s[j] != c
    decreases |s| - from
  {
    if from == |s| then from else if s[from] == c then from else Find(s, c, from + 1)
  }

  /** Splits newline-terminated text into its lines; text after the last newline is a line too. */
  function SplitLines(s: string): seq<string>
    decreases |s|
  {
    if s == [] then []
    else
      var k := Find(s, '\n', 0);
      if k == |s| then [s] else [s[..k]] + SplitLines(s[k + 1..])
  }

  /** Reads a comma-separated list of `"..."` fields, each ending at the next double quote. */
  function ParseQuoted(s: string): Option<seq<string>>
    decreases |s|
  {
    if |s| < 2 || s[0] != '"' then None
    else
      var k := Find(s, '"', 1);
      if k == |s| then None
      else if k + 1 == |s| then Some([s[1..k]])
      else if s[k + 1] != ',' then None
      else match ParseQuoted(s[k + 2..])
        case None => None
        case Some(rest) => Some([s[1..k]] + rest)
  }

  predicate Free(s: string, c: char)
  {
    forall i :: 0 <= i < |s| ==> s[i] != c
  }

  predicate AllFree(fields: seq<string>, c: char)
  {
    forall i :: 0 <= i < |fields| ==> Free(fields[i], c)
  }

  lemma FindPast(a: string, b: string, c: char, from: nat)
    requires from <= |a| && Free(a[from..], c) && |b| > 0 && b[0] == c
    ensures Find(a + b, c, from) == |a|
    decreases |a| - from
  {
    if from < |a| {
      assert (a + b)[from] == a[from..][0];
      assert a[from + 1..] == a[from..][1..];
      FindPast(a, b, c, from + 1);
    }
  }

  lemma FindNone(s: string, c: char, from: nat)
    requires from <= |s| && Free(s[from..], c)
    ensures Find(s, c, from) == |s|
    decreases |s| - from
  {
    if from < |s| {
      assert s[from] == s[from..][0];
      assert s[from + 1..] == s[from..][1..];
      FindNone(s, c, from + 1);
    }
  }

  /** The first field of a quoted line ends at the quote that closes it. */
  lemma QuotedPrefix(f: string, tail: string)
    requires Free(f, '"')
    ensures var s := Quote(f) + tail;
      Find(s, '"', 1) == |f| + 1 && s[1..|f| + 1] == f && s[|f| + 2..] == tail
  {
    var a := "\"" + f;
    assert Quote(f) + tail == a + ("\"" + tail);
    assert a[1..] == f;
    FindPast(a, "\"" + tail, '"', 1);
  }

  lemma ParseQuotedSingle(f: string)
    requires Free(f, '"')
    ensures ParseQuoted(Quote(f)) == Some([f])
  {
    QuotedPrefix(f, "");
    assert Quote(f) + "" == Quote(f);
  }

  lemma ParseQuotedCons(f: string, rest: string)
    requires Free(f, '"')
    ensures ParseQuoted(Quote(f) + ("," + rest)) ==
      match ParseQuoted(rest) case None => None case Some(r) => Some([f] + r)
  {
    QuotedPrefix(f, "," + rest);
    var s := Quote(f) + ("," + rest);
    assert s[|f| + 2] == ',';
    assert s[|f| + 3..] == rest;
  }

  /** A quoted line reads back to its fields, as long as no field holds a double quote. */
  lemma {:induction false} ParseQuotedJoin(fields: seq<string>)
    requires |fields| > 0 && AllFree(fields, '"')
    ensures ParseQuoted(Join(QuoteAll(fields))) == Some(fields)
  {
    var f := fields[0];
    var q := QuoteAll(fields);
    assert Free(f, '"');
    if |fields| == 1 {
      assert Join(q) == Quote(f);
      ParseQuotedSingle(f);
      assert fields == [f];
    } else {
      var tail := fields[1..];
      assert q[1..] == QuoteAll(tail);
      assert Join(q) == Quote(f) + ("," + Join(QuoteAll(tail)));
      assert AllFree(tail, '"') by {
        forall i | 0 <= i < |tail| ensures Free(tail[i], '"') {
          assert tail[i] == fields[i + 1];
        }
      }
      ParseQuotedJoin(tail);
      ParseQuotedCons(f, Join(QuoteAll(tail)));
      assert fields == [f] + tail;
    }
  }

  /** Without a newline inside a field, every line except the last and the header. */
  lemma {:induction false} JoinFree(parts: seq<string>, c: char)
    requires c != ',' && AllFree(parts, c)
    ensures Free(Join(parts), c)
  {
    if |parts| > 1 {
      assert AllFree(parts[1..], c) by {
        forall i | 0 <= i < |parts[1..]| ensures Free(parts[1..][i], c) {
          assert parts[1..][i] == parts[i + 1];
        }
      }
      JoinFree(parts[1..], c);
      var s := Join(parts);
      assert s == parts[0] + "," + Join(parts[1..]);
      forall i | 0 <= i < |s| ensures s[i] != c {
        if i < |parts[0]| {
          assert s[i] == parts[0][i];
        } else if i > |parts[0]| {
          assert s[i] == Join(parts[1..])[i - |parts[0]| - 1];
        }
      }
    } else if |parts| == 1 {
      assert Free(parts[0], c);
    }
  }

  lemma QuoteAllFree(fields: seq<string>, c: char)
    requires c != '"' && AllFree(fields, c)
    ensures AllFree(QuoteAll(fields), c)
  {
    forall i | 0 <= i < |fields| ensures Free(QuoteAll(fields)[i], c) {
      var q := Quote(fields[i]);
      forall j | 0 <= j < |q| ensures q[j] != c {
        if 0 < j < |q| - 1 {
          assert q[j] == q[1..|q| - 1][j - 1];
        }
      }
    }
  }

  /** Splitting newline-terminated lines that hold no newline gives the lines back. */
  lemma SplitTerminated(line: string, rest: string)
    requires Free(line, '\n')
    ensures SplitLines(line + "\n" + rest) == [line] + SplitLines(rest)
  {
    var s := line + "\n" + rest;
    assert s == line + ("\n" + rest);
    FindPast(line, "\n" + rest, '\n', 0);
    assert line[0..] == line;
    assert s[..|line|] == line;
    assert s[|line| + 1..] == rest;
  }

  /** The body of a document, read line by line. */
  function LineTexts(records: seq<seq<string>>): seq<string>
  {
    if records == [] then [] else LineTexts(records[..|records| - 1]) + [Join(QuoteAll(records[|records| - 1]))]
  }

  lemma {:induction false} SplitLinesOfLines(records: seq<seq<string>>, tail: string)
    requires forall i :: 0 <= i < |records| ==> AllFree(records[i], '\n')
    ensures SplitLines(Lines(records) + tail) == LineTexts(records) + SplitLines(tail)
    decreases |records|
  {
    if records != [] {
      var prefix := records[..|records| - 1];
      var text := Join(QuoteAll(records[|records| - 1]));
      assert forall i :: 0 <= i < |prefix| ==> prefix[i] == records[i];
      SplitLinesOfLines(prefix, text + "\n" + tail);
      SplitLinesSnoc(records, tail);
    } else {
      assert Lines(records) + tail == tail;
    }
  }

  /** The step of `SplitLinesOfLines`: the last record's line is split off after the others. */
  lemma SplitLinesSnoc(records: seq<seq<string>>, tail: string)
    requires records != [] && AllFree(records[|records| - 1], '\n')
    requires var prefix := records[..|records| - 1];
      var text := Join(QuoteAll(records[|records| - 1]));
      SplitLines(Lines(prefix) + (text + "\n" + tail)) == LineTexts(prefix) + SplitLines(text + "\n" + tail)
    ensures SplitLines(Lines(records) + tail) == LineTexts(records) + SplitLines(tail)
  {
    var last := records[|records| - 1];
    var prefix := records[..|records| - 1];
    var text := Join(QuoteAll(last));
    QuoteAllFree(last, '\n');
    JoinFree(QuoteAll(last), '\n');
    LinesSnoc(records, tail);
    SplitTerminated(text, tail);
    assert LineTexts(records) == LineTexts(prefix) + [text];
  }

  lemma LinesSnoc(records: seq<seq<string>>, tail: string)
    requires records != []
    ensures Lines(records) + tail
         == Lines(records[..|records| - 1]) + (Join(QuoteAll(records[|records| - 1])) + "\n" + tail)
  {
  }

  /** A document whose fields and header names hold no newline splits into the header and one
      line per record, and each data line reads back to its record's fields when no field holds
      a double quote. */
  lemma DocumentReadsBack(names: seq<string>, records: seq<seq<string>>)
    requires AllFree(names, '\n') && forall i :: 0 <= i < |records| ==> AllFree(records[i], '\n')
    ensures SplitLines(Document(names, records)) == [Join(names)] + LineTexts(records)
    ensures |LineTexts(records)| == |records|
    ensures forall i :: 0 <= i < |records| ==> LineTexts(records)[i] == Join(QuoteAll(records[i]))
  {
    JoinFree(names, '\n');
    SplitLinesOfLines(records, "");
    assert Lines(records) + "" == Lines(records);
    assert Document(names, records) == Join(names) + "\n" + Lines(records);
    SplitTerminated(Join(names), Lines(records));
    LineTextsAt(records);
  }

  /** Each data line of such a document parses back to its record when no field holds a double
      quote either. */
  lemma DocumentParses(names: seq<string>, records: seq<seq<string>>)
    requires AllFree(names, '\n')
    requires forall i :: 0 <= i < |records| ==> |records[i]| > 0 && AllFree(records[i], '\n') && AllFree(records[i], '"')
    ensures var lines := SplitLines(Document(names, records));
      && |lines| == |records| + 1
      && lines[0] == Join(names)
      && forall i :: 0 <= i < |records| ==> ParseQuoted(lines[i + 1]) == Some(records[i])
  {
    DocumentReadsBack(names, records);
    LinesParse(SplitLines(Document(names, records)), Join(names), LineTexts(records), records);
  }

  /** The header line followed by one quoted line per record reads back record by record. */
  lemma LinesParse(lines: seq<string>, header: string, texts: seq<string>, records: seq<seq<string>>)
    requires lines == [header] + texts && |texts| == |records|
    requires forall i :: 0 <= i < |records| ==> texts[i] == Join(QuoteAll(records[i]))
    requires forall i :: 0 <= i < |records| ==> |records[i]| > 0 && AllFree(records[i], '"')
    ensures |lines| == |records| + 1 && lines[0] == header
    ensures forall i :: 0 <= i < |records| ==> ParseQuoted(lines[i + 1]) == Some(records[i])
  {
    forall i | 0 <= i < |records| ensures ParseQuoted(lines[i + 1]) == Some(records[i]) {
      assert lines[i + 1] == texts[i];
      ParseQuotedJoin(records[i]);
    }
  }

  lemma {:induction false} LineTextsAt(records: seq<seq<string>>)
    ensures |LineTexts(records)| == |records|
    ensures forall i :: 0 <= i < |records| ==> LineTexts(records)[i] == Join(QuoteAll(records[i]))
  {
    if records != [] {
      var prefix := records[..|records| - 1];
      LineTextsAt(prefix);
      assert forall i :: 0 <= i < |prefix| ==> prefix[i] == records[i];
    }
  }

  /** Nothing is escaped: a field holding a double quote does not read back. */
  lemma QuoteInFieldBreaks()
    ensures ParseQuoted(Join(QuoteAll(["a\"b"]))) != Some(["a\"b"])
  {
    var s := Join(QuoteAll(["a\"b"]));
    assert s == "\"a\"b\"";
    assert Find(s, '"', 1) == 2;
  }
}
