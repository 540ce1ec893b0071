/**
 * `process_data` of shotz_plotz.py: turns the lines of a DE1+ shot file
 * into one row of tokens per recognised data line, then into the list of
 * channel labels and the list of numeric sample rows.
 */
module Extractor {
  import opened Wrappers
  import opened PyText

  /** The seven channel names a data line may start with. */
  const Headers: seq<string> := [
    "espresso_elapsed", "espresso_pressure", "espresso_weight", "espresso_flow",
    "espresso_flow_weight", "espresso_temperature_basket", "espresso_temperature_mix"
  ]

  /** What `float` raised on: the first token, in row order, that is not a number. */
  datatype ParseError = NotANumber(token: string)

  /** The result of a successful call: one label and one sample row per kept line. */
  datatype Table = Table(labels: seq<string>, values: seq<seq<real>>)

  /** A row as it is stored in `data`: a known channel name followed by tokens without braces or whitespace. */
  predicate IsDataRow(row: seq<string>) {
    && |row| > 0
    && row[0] in Headers
    && forall k :: 0 <= k < |row| ==> IsToken(row[k]) && '{' !in row[k] && '}' !in row[k]
  }

  /** The row one line contributes, or None when the loop skips the line. */
  function LineRow(line: string): (r: Option<seq<string>>)
    ensures r.Some? ==> |r.value| > 0 && r.value[0] in Headers
  {
    if '{' !in line then None
    else
      var tokens := Split(Erase(Erase(line, '{'), '}'));
      if |tokens| == 0 then None
      else if tokens[0] !in Headers then None
      else Some(tokens)
  }

  /** The `data` list after the first loop has read `lines`. */
  function KeptRows(lines: seq<string>): (rows: seq<seq<string>>)
    ensures |rows| <= |lines|
    ensures forall k :: 0 <= k < |rows| ==> |rows[k]| > 0 && rows[k][0] in Headers
  {
    if lines == [] then []
    else
      var before := KeptRows(lines[..|lines| - 1]);
      match LineRow(lines[|lines| - 1])
      case None => before
      case Some(row) => before + [row]
  }

  /** `[row[0] for row in data]` */
  function Labels(rows: seq<seq<string>>): (labels: seq<string>)
    requires forall k :: 0 <= k < |rows| ==> |rows[k]| > 0
    ensures |labels| == |rows| && forall k :: 0 <= k < |rows| ==> labels[k] == rows[k][0]
  {
    seq(|rows|, k requires 0 <= k < |rows| => rows[k][0])
  }

  /** A string-to-number conversion that may raise; `process_data` uses Python's `float`. */
  type Converter = string -> Option<real>

  /** `[float(c) for c in tokens]`: every token converted, or the first that is not a number. */
  function ConvertRow(tokens: seq<string>, convert: Converter): (r: Result<seq<real>, string>)
    ensures r.Success? <==> forall k :: 0 <= k < |tokens| ==> convert(tokens[k]).Some?
    ensures r.Success? ==> |r.value| == |tokens|
    ensures r.Success? ==> forall k :: 0 <= k < |tokens| ==> convert(tokens[k]) == Some(r.value[k])
    ensures r.Failure? ==>
      (exists k :: 0 <= k < |tokens| && tokens[k] == r.error && convert(tokens[k]).None?
        && forall j :: 0 <= j < k ==> convert(tokens[j]).Some?)
  {
    if tokens == [] then Success([])
    else
      match convert(tokens[0])
      case None => Failure(tokens[0])
      case Some(v) =>
        match ConvertRow(tokens[1..], convert)
        case Failure(e) => Failure(e)
        case Success(vs) => Success([v] + vs)
  }

  /** Every token after a row's channel name converts. */
  ghost predicate AllNumeric(rows: seq<seq<string>>, convert: Converter) {
    forall k, j :: 0 <= k < |rows| && 1 <= j < |rows[k]| ==> convert(rows[k][j]).Some?
  }

  /** The `values` list built by the second loop, or the token of the first `float` that raises. */
  function ConvertRows(rows: seq<seq<string>>, convert: Converter): (r: Result<seq<seq<real>>, string>)
    requires forall k :: 0 <= k < |rows| ==> |rows[k]| > 0
    ensures r.Success? ==> |r.value| == |rows|
  {
    if rows == [] then Success([])
    else
      var before := rows[..|rows| - 1];
      match ConvertRows(before, convert)
      case Failure(e) => Failure(e)
      case Success(vs) =>
        match ConvertRow(rows[|rows| - 1][1..], convert)
        case Failure(e) => Failure(e)
        case Success(v) => Success(vs + [v])
  }

  /** The second loop succeeds exactly when every row converts. */
  lemma {:induction false} ConvertRowsSucceedsIff(rows: seq<seq<string>>, convert: Converter)
    requires forall k :: 0 <= k < |rows| ==> |rows[k]| > 0
    ensures ConvertRows(rows, convert).Success? <==>
      forall k :: 0 <= k < |rows| ==> ConvertRow(rows[k][1..], convert).Success?
  {
    if rows != [] {
      var before := rows[..|rows| - 1];
      ConvertRowsSucceedsIff(before, convert);
      assert forall k :: 0 <= k < |before| ==> rows[k] == before[k];
    }
  }

  /** On success, value k is row k converted. */
  lemma {:induction false} ConvertRowsValues(rows: seq<seq<string>>, convert: Converter)
    requires forall k :: 0 <= k < |rows| ==> |rows[k]| > 0
    requires ConvertRows(rows, convert).Success?
    ensures forall k :: 0 <= k < |rows| ==> ConvertRow(rows[k][1..], convert) == Success(ConvertRows(rows, convert).value[k])
  {
    if rows != [] {
      var before := rows[..|rows| - 1];
      ConvertRowsValues(before, convert);
      assert forall k :: 0 <= k < |before| ==> rows[k] == before[k];
    }
  }

  /** On failure, the token reported is one some row failed on. */
  lemma {:induction false} ConvertRowsFailure(rows: seq<seq<string>>, convert: Converter)
    requires forall k :: 0 <= k < |rows| ==> |rows[k]| > 0
    requires ConvertRows(rows, convert).Failure?
    ensures exists k :: 0 <= k < |rows| && ConvertRow(rows[k][1..], convert) == Failure(ConvertRows(rows, convert).error)
  {
    var last := |rows| - 1;
    var before := rows[..last];
    if ConvertRows(before, convert).Failure? {
      ConvertRowsFailure(before, convert);
      var k :| 0 <= k < last && ConvertRow(before[k][1..], convert) == Failure(ConvertRows(before, convert).error);
      assert rows[k] == before[k];
    } else {
      assert ConvertRow(rows[last][1..], convert) == Failure(ConvertRows(rows, convert).error);
    }
  }

  /** On failure, the token reported is a token after some row's name that does not convert. */
  lemma ConvertRowsFailureToken(rows: seq<seq<string>>, convert: Converter)
    requires forall k :: 0 <= k < |rows| ==> |rows[k]| > 0
    requires ConvertRows(rows, convert).Failure?
    ensures exists k, j :: (0 <= k < |rows| && 1 <= j < |rows[k]|
      && rows[k][j] == ConvertRows(rows, convert).error && convert(rows[k][j]).None?)
  {
    var e := ConvertRows(rows, convert).error;
    ConvertRowsFailure(rows, convert);
    var k :| 0 <= k < |rows| && ConvertRow(rows[k][1..], convert) == Failure(e);
    var tokens := rows[k][1..];
    var i :| 0 <= i < |tokens| && tokens[i] == e && convert(e).None?;
    assert rows[k][i + 1] == e;
  }

  /**
   * The second loop fails exactly when some token after a row's name is
   * not a number, and the token it reports is one of those.
   */
  lemma ConvertRowsFailsIff(rows: seq<seq<string>>, convert: Converter)
    requires forall k :: 0 <= k < |rows| ==> |rows[k]| > 0
    ensures ConvertRows(rows, convert).Failure? <==> !AllNumeric(rows, convert)
    ensures ConvertRows(rows, convert).Failure? ==>
      (exists k, j :: 0 <= k < |rows| && 1 <= j < |rows[k]|
        && rows[k][j] == ConvertRows(rows, convert).error && convert(rows[k][j]).None?)
  {
    AllNumericIff(rows, convert);
    ConvertRowsSucceedsIff(rows, convert);
    if ConvertRows(rows, convert).Failure? {
      ConvertRowsFailureToken(rows, convert);
    }
  }

  lemma AllNumericIff(rows: seq<seq<string>>, convert: Converter)
    requires forall k :: 0 <= k < |rows| ==> |rows[k]| > 0
    ensures AllNumeric(rows, convert) <==> forall k :: 0 <= k < |rows| ==> ConvertRow(rows[k][1..], convert).Success?
  {
    forall k | 0 <= k < |rows|
      ensures ConvertRow(rows[k][1..], convert).Success?
          <==> forall j :: 1 <= j < |rows[k]| ==> convert(rows[k][j]).Some?
    {
      assert forall j :: 1 <= j < |rows[k]| ==> rows[k][1..][j - 1] == rows[k][j];
    }
  }

  /** `process_data(lines)`: the labels and values it returns, or the error `float` raises. */
  function ProcessDataSpec(lines: seq<string>, float: Converter): (r: Result<Table, ParseError>)
    ensures r.Success? ==> |r.value.labels| == |r.value.values| == |KeptRows(lines)|
    ensures r.Success? ==> forall k :: 0 <= k < |r.value.labels| ==> r.value.labels[k] in Headers
  {
    var rows := KeptRows(lines);
    match ConvertRows(rows, float)
    case Failure(e) => Failure(NotANumber(e))
    case Success(vs) => Success(Table(Labels(rows), vs))
  }

  /** `process_data`, loop for loop: filter the lines into `data`, then convert each row. */
  method ProcessData(lines: seq<string>, float: Converter) returns (r: Result<Table, ParseError>)
    ensures r == ProcessDataSpec(lines, float)
    ensures r.Success? ==> |r.value.labels| == |r.value.values| == |KeptRows(lines)|
    ensures r.Success? ==> forall k :: 0 <= k < |r.value.labels| ==> r.value.labels[k] in Headers
  {
    var data := FilterLines(lines);
    var labels := Labels(data);
    var converted := ConvertData(data, float);
    match converted
    case Failure(token) =>
      r := Failure(NotANumber(token));
    case Success(values) =>
      r := Success(Table(labels, values));
  }

  /** The first loop of `process_data`: the token rows of the lines that pass its three checks. */
  method FilterLines(lines: seq<string>) returns (data: seq<seq<string>>)
    ensures data == KeptRows(lines)
  {
    data := [];
    for i := 0 to |lines|
      invariant data == KeptRows(lines[..i])
    {
      assert lines[..i + 1][..i] == lines[..i];
      var line := lines[i];
      if '{' !in line {
        continue;
      }
      var tokens := Split(Erase(Erase(line, '{'), '}'));
      if |tokens| == 0 {
        continue;
      }
      if tokens[0] !in Headers {
        continue;
      }
      data := data + [tokens];
    }
    assert lines[..|lines|] == lines;
  }

  /** The second loop of `process_data`: `float` applied to every token after each row's name. */
  method ConvertData(data: seq<seq<string>>, float: Converter) returns (r: Result<seq<seq<real>>, string>)
    requires forall k :: 0 <= k < |data| ==> |data[k]| > 0
    ensures r == ConvertRows(data, float)
  {
    var values: seq<seq<real>> := [];
    for i := 0 to |data|
      invariant ConvertRows(data[..i], float) == Success(values)
    {
      assert data[..i + 1][..i] == data[..i];
      var converted := ConvertRow(data[i][1..], float);
      if converted.Failure? {
        ConvertRowsFailurePersists(data, i + 1, float);
        return Failure(converted.error);
      }
      values := values + [converted.value];
    }
    assert data[..|data|] == data;
    r := Success(values);
  }

  /** Once a prefix of the rows fails to convert, the whole call fails with the same token. */
  lemma {:induction false} ConvertRowsFailurePersists(rows: seq<seq<string>>, n: nat, convert: Converter)
    requires forall k :: 0 <= k < |rows| ==> |rows[k]| > 0
    requires n <= |rows| && ConvertRows(rows[..n], convert).Failure?
    ensures ConvertRows(rows, convert) == ConvertRows(rows[..n], convert)
    decreases |rows|
  {
    if n < |rows| {
      var init := rows[..|rows| - 1];
      assert init[..n] == rows[..n];
      ConvertRowsFailurePersists(init, n, convert);
    } else {
      assert rows[..n] == rows;
    }
  }

  /** The filter works line by line: the rows of two files laid end to end are the rows of each, in order. */
  lemma {:induction false} KeptRowsAppend(a: seq<string>, b: seq<string>)
    ensures KeptRows(a + b) == KeptRows(a) + KeptRows(b)
    decreases |b|
  {
    if b == [] {
      assert a + b == a;
    } else {
      var b' := b[..|b| - 1];
      assert (a + b)[..|a + b| - 1] == a + b';
      assert (a + b)[|a + b| - 1] == b[|b| - 1];
      KeptRowsAppend(a, b');
    }
  }

  lemma KeptRowsSingle(line: string)
    ensures KeptRows([line]) == match LineRow(line) case None => [] case Some(row) => [row]
  {
    assert [line][..0] == [];
  }

  /**
   * Every kept token is non-empty and holds neither whitespace nor a brace,
   * since the braces are removed before the split; every character of it
   * comes from the line.
   */
  lemma LineRowTokens(line: string)
    requires LineRow(line).Some?
    ensures '{' in line && IsDataRow(LineRow(line).value)
    ensures forall k, c :: 0 <= k < |LineRow(line).value| && c in LineRow(line).value[k] ==> c in line
  {
    var once := Erase(line, '{');
    var twice := Erase(once, '}');
    EraseKeepsOthers(line, '{');
    EraseKeepsOthers(once, '}');
    SplitTokensFromText(twice);
    assert '{' !in twice;
  }

  /** Every row the filter keeps satisfies `IsDataRow`. */
  lemma {:induction false} KeptRowsAreDataRows(lines: seq<string>)
    ensures forall k :: 0 <= k < |KeptRows(lines)| ==> IsDataRow(KeptRows(lines)[k])
  {
    if lines != [] {
      KeptRowsAreDataRows(lines[..|lines| - 1]);
      if LineRow(lines[|lines| - 1]).Some? {
        LineRowTokens(lines[|lines| - 1]);
      }
    }
  }

  /**
   * A line without `{`, with nothing left after the braces are removed,
   * or whose first token is not a channel name yields no row: removing
   * it from a file leaves the rows unchanged.
   */
  lemma DroppedLineIsIgnored(before: seq<string>, line: string, after: seq<string>)
    requires '{' !in line || Split(Erase(Erase(line, '{'), '}')) == []
      || Split(Erase(Erase(line, '{'), '}'))[0] !in Headers
    ensures KeptRows(before + [line] + after) == KeptRows(before + after)
  {
    KeptRowsAppend(before + [line], after);
    KeptRowsAppend(before, [line]);
    KeptRowsSingle(line);
    KeptRowsAppend(before, after);
  }

  /** A line of the shape `{name v1 ... vn}` with `name` a channel name is kept whole. */
  lemma FormattedLineIsKept(line: string)
    requires '{' in line && Split(Erase(Erase(line, '{'), '}')) != []
    requires Split(Erase(Erase(line, '{'), '}'))[0] in Headers
    ensures KeptRows([line]) == [Split(Erase(Erase(line, '{'), '}'))]
  {
    KeptRowsSingle(line);
  }

  /**
   * A data line as the shot file writes it and `readlines()` returns it:
   * `{name v1 ... vn}` followed by its newline.
   */
  function FormatLine(name: string, fields: seq<string>): string {
    "{" + Unwords([name] + fields) + "}\n"
  }

  /** Lower-case ASCII letters, digits, `_` and `.`: the characters of channel names and decimal samples. */
  predicate IsWordChar(c: char) {
    ('a' <= c <= 'z') || ('0' <= c <= '9') || c == '_' || c == '.'
  }

  /** A non-empty run of word characters; a cheap way to show a literal is a brace-free token. */
  predicate IsWord(t: string) {
    t != [] && forall i :: 0 <= i < |t| ==> IsWordChar(t[i])
  }

  /** A word is a token and holds no brace. */
  lemma WordIsToken(t: string)
    requires IsWord(t)
    ensures IsToken(t) && '{' !in t && '}' !in t
  {
  }

  lemma FirstHeadersAreWords()
    ensures IsWord("espresso_elapsed") && IsWord("espresso_pressure")
    ensures IsWord("espresso_weight") && IsWord("espresso_flow")
  {
  }

  lemma LastHeadersAreWords()
    ensures IsWord("espresso_flow_weight")
    ensures IsWord("espresso_temperature_basket") && IsWord("espresso_temperature_mix")
  {
  }

  lemma HeadersAreWords()
    ensures forall k :: 0 <= k < |Headers| ==> IsWord(Headers[k])
  {
    FirstHeadersAreWords();
    LastHeadersAreWords();
  }

  lemma HeadersAreTokens()
    ensures forall k :: 0 <= k < |Headers| ==> IsToken(Headers[k]) && '{' !in Headers[k] && '}' !in Headers[k]
  {
    HeadersAreWords();
    forall k | 0 <= k < |Headers|
      ensures IsToken(Headers[k]) && '{' !in Headers[k] && '}' !in Headers[k]
    {
      WordIsToken(Headers[k]);
    }
  }

  lemma EraseOne(c: char, ch: char)
    ensures Erase([c], ch) == (if c == ch then [] else [c])
  {
    assert [c][1..] == [];
  }

  lemma EraseOpeningBrace(body: string)
    requires '{' !in body
    ensures Erase("{" + body, '{') == body
  {
    EraseAppend("{", body, '{');
    EraseOne('{', '{');
    EraseAbsent(body, '{');
  }

  lemma EraseClosingBrace(body: string)
    requires '}' !in body
    ensures Erase(body + "}\n", '}') == body + "\n"
  {
    EraseAppend(body, "}\n", '}');
    EraseAbsent(body, '}');
    EraseAppend("}", "\n", '}');
    EraseOne('}', '}');
    EraseOne('\n', '}');
  }

  /** Removing the braces of `{body}\n` gives back `body\n` when `body` has none of its own. */
  lemma StripBraces(body: string)
    requires '{' !in body && '}' !in body
    ensures Erase(Erase("{" + body + "}\n", '{'), '}') == body + "\n"
  {
    assert "{" + body + "}\n" == "{" + (body + "}\n");
    EraseOpeningBrace(body + "}\n");
    EraseClosingBrace(body);
  }

  /** The tokens of a formatted line, once its braces are removed, are the name and the fields. */
  lemma FormattedLineTokens(name: string, fields: seq<string>)
    requires IsToken(name) && '{' !in name && '}' !in name
    requires forall k :: 0 <= k < |fields| ==> IsToken(fields[k]) && '{' !in fields[k] && '}' !in fields[k]
    ensures '{' in FormatLine(name, fields)
    ensures Split(Erase(Erase(FormatLine(name, fields), '{'), '}')) == [name] + fields
  {
    var ts := [name] + fields;
    assert forall k :: 0 <= k < |ts| ==> IsToken(ts[k]) && '{' !in ts[k] && '}' !in ts[k];
    var body := Unwords(ts);
    UnwordsChars(ts, '{');
    UnwordsChars(ts, '}');
    StripBraces(body);
    SplitUnwordsThen(ts, "\n");
    assert "\n"[1..] == [];
    assert ts + [] == ts;
    assert FormatLine(name, fields)[0] == '{';
  }

  /**
   * Parsing undoes formatting: a line written from a channel name and
   * fields that are tokens without braces is kept, and its row is exactly
   * the name followed by the fields.
   */
  lemma FormattedLineRoundTrip(name: string, fields: seq<string>)
    requires name in Headers
    requires forall k :: 0 <= k < |fields| ==> IsToken(fields[k]) && '{' !in fields[k] && '}' !in fields[k]
    ensures LineRow(FormatLine(name, fields)) == Some([name] + fields)
  {
    HeadersAreTokens();
    FormattedLineTokens(name, fields);
  }

  /** A well-formed line whose first word is not a channel name is skipped. */
  lemma UnknownChannelIsDropped(name: string, fields: seq<string>)
    requires IsToken(name) && '{' !in name && '}' !in name && name !in Headers
    requires forall k :: 0 <= k < |fields| ==> IsToken(fields[k]) && '{' !in fields[k] && '}' !in fields[k]
    ensures LineRow(FormatLine(name, fields)) == None
  {
    FormattedLineTokens(name, fields);
  }

  /** The lines of a shot file written from its rows, one formatted line per row. */
  function FormatRows(rows: seq<seq<string>>): (lines: seq<string>)
    requires forall k :: 0 <= k < |rows| ==> |rows[k]| > 0
    ensures |lines| == |rows|
  {
    if rows == [] then []
    else
      var last := rows[|rows| - 1];
      FormatRows(rows[..|rows| - 1]) + [FormatLine(last[0], last[1..])]
  }

  /** The rows of a file made of formatted lines are the rows it was written from. */
  lemma {:induction false} FormattedShotRoundTrip(rows: seq<seq<string>>)
    requires forall k :: 0 <= k < |rows| ==> |rows[k]| > 0 && IsDataRow(rows[k])
    ensures KeptRows(FormatRows(rows)) == rows
  {
    if rows != [] {
      var init := rows[..|rows| - 1];
      var lines := FormatRows(rows);
      FormattedShotRoundTrip(init);
      assert lines[..|lines| - 1] == FormatRows(init);
      var last := rows[|rows| - 1];
      DataRowRoundTrip(last);
      assert init + [last] == rows;
    }
  }

  /** A data row written as a line is read back as itself. */
  lemma DataRowRoundTrip(row: seq<string>)
    requires IsDataRow(row)
    ensures LineRow(FormatLine(row[0], row[1..])) == Some(row)
  {
    assert forall k :: 0 <= k < |row[1..]| ==> row[1..][k] == row[k + 1];
    FormattedLineRoundTrip(row[0], row[1..]);
    assert [row[0]] + row[1..] == row;
  }

  /** The positions of the lines the filter keeps, in increasing order. */
  function KeptPositions(lines: seq<string>): seq<nat> {
    if lines == [] then []
    else
      var before := KeptPositions(lines[..|lines| - 1]);
      if LineRow(lines[|lines| - 1]).Some? then before + [|lines| - 1] else before
  }

  /** Kept positions are line indices, listed in increasing order. */
  lemma {:induction false} KeptPositionsIncrease(lines: seq<string>)
    ensures forall k :: 0 <= k < |KeptPositions(lines)| ==> KeptPositions(lines)[k] < |lines|
    ensures forall k, l :: 0 <= k < l < |KeptPositions(lines)| ==> KeptPositions(lines)[k] < KeptPositions(lines)[l]
  {
    if lines != [] {
      KeptPositionsIncrease(lines[..|lines| - 1]);
    }
  }

  /** Row k of the kept rows is the row of the line at kept position k. */
  lemma {:induction false} KeptRowsAtPositions(lines: seq<string>)
    ensures |KeptPositions(lines)| == |KeptRows(lines)|
    ensures forall k :: 0 <= k < |KeptPositions(lines)| ==>
      KeptPositions(lines)[k] < |lines| && LineRow(lines[KeptPositions(lines)[k]]) == Some(KeptRows(lines)[k])
  {
    if lines != [] {
      var last := |lines| - 1;
      var init := lines[..last];
      KeptRowsAtPositions(init);
      KeptPositionsIncrease(init);
      var p, rows := KeptPositions(init), KeptRows(init);
      forall k | 0 <= k < |p|
        ensures lines[p[k]] == init[p[k]]
      {
      }
    }
  }

  /** Every line the filter keeps is at a kept position. */
  lemma {:induction false} KeptPositionsComplete(lines: seq<string>)
    ensures forall j :: 0 <= j < |lines| && LineRow(lines[j]).Some? ==> j in KeptPositions(lines)
  {
    if lines != [] {
      var last := |lines| - 1;
      var init := lines[..last];
      KeptPositionsComplete(init);
      forall j | 0 <= j < last
        ensures lines[j] == init[j]
      {
      }
    }
  }

  /**
   * Rows keep the order of the lines they come from and nothing else
   * gets in: row k is the tokens of line p[k] for strictly increasing
   * positions p, and every line not among them is one the filter drops.
   */
  ghost predicate KeptInOrder(lines: seq<string>, p: seq<nat>, rows: seq<seq<string>>) {
    && |p| == |rows|
    && (forall k :: 0 <= k < |p| ==> p[k] < |lines| && LineRow(lines[p[k]]) == Some(rows[k]))
    && (forall k, l :: 0 <= k < l < |p| ==> p[k] < p[l])
    && (forall j :: 0 <= j < |lines| && LineRow(lines[j]).Some? ==> j in p)
  }

  lemma KeptRowsInLineOrder(lines: seq<string>)
    ensures KeptInOrder(lines, KeptPositions(lines), KeptRows(lines))
  {
    KeptPositionsIncrease(lines);
    KeptRowsAtPositions(lines);
    KeptPositionsComplete(lines);
  }

  /** Every label is a channel name, and label k names row k of the values. */
  lemma LabelsAreHeaders(lines: seq<string>, float: Converter)
    requires ProcessDataSpec(lines, float).Success?
    ensures var t := ProcessDataSpec(lines, float).value;
      && |t.labels| == |t.values| == |KeptRows(lines)|
      && forall k :: 0 <= k < |t.labels| ==> t.labels[k] in Headers && t.labels[k] == KeptRows(lines)[k][0]
  {
  }

  /**
   * `process_data` fails exactly when some token after a channel name is
   * not a number; it then returns no partial result, only that token.
   */
  lemma ProcessDataFailsIff(lines: seq<string>, float: Converter)
    ensures ProcessDataSpec(lines, float).Failure? <==> !AllNumeric(KeptRows(lines), float)
    ensures ProcessDataSpec(lines, float).Failure? ==>
      (exists k, j :: 0 <= k < |KeptRows(lines)| && 1 <= j < |KeptRows(lines)[k]|
        && KeptRows(lines)[k][j] == ProcessDataSpec(lines, float).error.token
        && float(KeptRows(lines)[k][j]).None?)
  {
    ConvertRowsFailsIff(KeptRows(lines), float);
  }

  /**
   * Row k of the samples has one entry per token after the channel name of
   * the k-th kept line (none for a line holding only the name), and sample
   * j is the value of token j + 1.
   */
  lemma ValuesAreConvertedTokens(lines: seq<string>, float: Converter, k: nat)
    requires ProcessDataSpec(lines, float).Success?
    requires k < |KeptRows(lines)|
    ensures |ProcessDataSpec(lines, float).value.values[k]| == |KeptRows(lines)[k]| - 1
    ensures forall j :: 0 <= j < |ProcessDataSpec(lines, float).value.values[k]| ==>
      float(KeptRows(lines)[k][j + 1]) == Some(ProcessDataSpec(lines, float).value.values[k][j])
  {
    var rows := KeptRows(lines);
    var vs := ConvertRows(rows, float).value;
    assert ProcessDataSpec(lines, float).value.values == vs;
    ConvertRowsValues(rows, float);
    SampleRowOfTokens(rows[k], vs[k], float);
  }

  lemma SampleRowOfTokens(row: seq<string>, samples: seq<real>, float: Converter)
    requires |row| > 0 && ConvertRow(row[1..], float) == Success(samples)
    ensures |samples| == |row| - 1
    ensures forall j :: 0 <= j < |samples| ==> float(row[j + 1]) == Some(samples[j])
  {
    assert forall j :: 0 <= j < |row| - 1 ==> row[1..][j] == row[j + 1];
  }

  /** A row whose every token converts converts to exactly those values. */
  lemma ConvertRowOf(tokens: seq<string>, values: seq<real>, convert: Converter)
    requires |values| == |tokens|
    requires forall j :: 0 <= j < |tokens| ==> convert(tokens[j]) == Some(values[j])
    ensures ConvertRow(tokens, convert) == Success(values)
  {
    var r := ConvertRow(tokens, convert);
    assert r.Success?;
    assert forall j :: 0 <= j < |tokens| ==> r.value[j] == values[j];
    assert r.value == values;
  }

  lemma ConvertRowsOf(rows: seq<seq<string>>, values: seq<seq<real>>, convert: Converter)
    requires forall k :: 0 <= k < |rows| ==> |rows[k]| > 0
    requires |values| == |rows|
    requires forall k :: 0 <= k < |rows| ==> ConvertRow(rows[k][1..], convert) == Success(values[k])
    ensures ConvertRows(rows, convert) == Success(values)
  {
    ConvertRowsSucceedsIff(rows, convert);
    var r := ConvertRows(rows, convert);
    ConvertRowsValues(rows, convert);
    assert r.Success?;
    assert forall k :: 0 <= k < |rows| ==> r.value[k] == values[k];
    assert r.value == values;
  }

  /**
   * A file written from data rows whose every sample token converts
   * yields those rows' channel names and exactly the converted samples.
   */
  lemma FormattedShotProcesses(rows: seq<seq<string>>, values: seq<seq<real>>, float: Converter)
    requires forall k :: 0 <= k < |rows| ==> |rows[k]| > 0 && IsDataRow(rows[k])
    requires |values| == |rows|
    requires forall k :: 0 <= k < |rows| ==> |values[k]| == |rows[k]| - 1
    requires forall k, j :: 0 <= k < |rows| && 0 <= j < |values[k]| ==> float(rows[k][j + 1]) == Some(values[k][j])
    ensures ProcessDataSpec(FormatRows(rows), float) == Success(Table(Labels(rows), values))
  {
    FormattedShotRoundTrip(rows);
    forall k | 0 <= k < |rows|
      ensures ConvertRow(rows[k][1..], float) == Success(values[k])
    {
      var tokens := rows[k][1..];
      assert forall j :: 0 <= j < |tokens| ==> tokens[j] == rows[k][j + 1];
      ConvertRowOf(tokens, values[k], float);
    }
    ConvertRowsOf(rows, values, float);
  }

}
