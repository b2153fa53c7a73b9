/** Samples and the scored doc-tuple reader of mvr/data.py: the reader picks
    a file type from the suffix of the doc-pairs file and turns every line,
    TSV or JSON, into a `ScoredDocTuple`. */
module MvrData {
  import opened Common
  import opened Strings
  import Paths

  /** A scored tuple of documents for one query; `scores` is absent for
      unscored tuples. */
  datatype ScoredDocTuple = ScoredDocTuple(queryId: string, docIds: seq<string>, scores: Option<seq<Score>>, numDocs: int)

  /** A score as the reader hands it on: a float converted from a TSV
      column, or the value a JSON line holds, unconverted. */
  datatype Score = Float(value: real) | Decoded(json: Json)

  /** A record as the benchmark-dataset library hands it out: its positional
      fields and the text its `default_text()` returns. */
  datatype IrRecord = IrRecord(fields: seq<string>, defaultText: string)

  datatype Sample = QuerySample(queryId: string, query: string) | DocSample(docId: string, doc: string)

  /** `QuerySample.from_ir_dataset_sample`: fields 0 and 1 of the record. */
  function QuerySampleFrom(r: IrRecord): (res: Result<Sample>)
    ensures res.Ok? <==> |r.fields| >= 2
    ensures res.Ok? ==> res.value.QuerySample? && res.value.queryId == r.fields[0] && res.value.query == r.fields[1]
  {
    if |r.fields| < 2 then Err(IndexError) else Ok(QuerySample(r.fields[0], r.fields[1]))
  }

  /** `DocSample.from_ir_dataset_sample`: field 0 and the record's default text. */
  function DocSampleFrom(r: IrRecord): (res: Result<Sample>)
    ensures res.Ok? <==> |r.fields| >= 1
    ensures res.Ok? ==> res.value.DocSample? && res.value.docId == r.fields[0] && res.value.doc == r.defaultText
  {
    if |r.fields| < 1 then Err(IndexError) else Ok(DocSample(r.fields[0], r.defaultText))
  }

  datatype FileType = JsonLines | TsvLines

  /** The file type of a doc-pairs file, from the last suffix of its name. */
  function DocpairsFileType(name: string): (r: Result<FileType>)
    ensures r == Ok(JsonLines) <==> Paths.Suffix(name) == ".json"
    ensures r == Ok(TsvLines) <==> Paths.Suffix(name) in {".tsv", ".run"}
    ensures r.Err? <==> Paths.Suffix(name) !in {".json", ".tsv", ".run"}
    ensures r.Err? ==> r.error.ValueError?
  {
    var suffix := Paths.Suffix(name);
    if suffix == ".json" then Ok(JsonLines)
    else if suffix == ".tsv" || suffix == ".run" then Ok(TsvLines)
    else Err(ValueError("Unknown file type: " + suffix))
  }

  /** A TSV line `pos_score neg_score qid pid1 pid2`. `toFloat` stands for
      Python's `float()` on a string (None where it raises). The line is
      right-stripped before the split in the source; `split()` already drops
      trailing whitespace, so the split is taken directly. */
  function ParseTsvLine(line: string, toFloat: string -> Option<real>): (r: Result<ScoredDocTuple>)
    ensures r.Ok? <==> (|SplitWhitespace(line)| == 5
      && toFloat(SplitWhitespace(line)[0]).Some? && toFloat(SplitWhitespace(line)[1]).Some?)
    ensures r.Ok? ==>
      var cols := SplitWhitespace(line);
      r.value == ScoredDocTuple(cols[2], [cols[3], cols[4]], Some([Float(toFloat(cols[0]).value), Float(toFloat(cols[1]).value)]), 2)
    ensures r.Err? ==> r.error.ValueError?
  {
    var cols := SplitWhitespace(line);
    if |cols| < 5 then Err(ValueError("not enough values to unpack"))
    else if |cols| > 5 then Err(ValueError("too many values to unpack"))
    else match toFloat(cols[0])
      case None => Err(ValueError("could not convert string to float: " + cols[0]))
      case Some(pos) =>
        match toFloat(cols[1])
        case None => Err(ValueError("could not convert string to float: " + cols[1]))
        case Some(neg) => Ok(ScoredDocTuple(cols[2], [cols[3], cols[4]], Some([Float(pos), Float(neg)]), 2))
  }

  /** A line written as the five columns separated by single spaces is read
      back as the tuple it came from. */
  lemma TsvLineRoundTrip(posText: string, negText: string, qid: string, pid1: string, pid2: string,
                         toFloat: string -> Option<real>)
    requires IsWord(posText) && IsWord(negText) && IsWord(qid) && IsWord(pid1) && IsWord(pid2)
    requires toFloat(posText).Some? && toFloat(negText).Some?
    ensures ParseTsvLine(Join([posText, negText, qid, pid1, pid2], " ") + "\n", toFloat)
         == Ok(ScoredDocTuple(qid, [pid1, pid2], Some([Float(toFloat(posText).value), Float(toFloat(negText).value)]), 2))
  {
    var words := [posText, negText, qid, pid1, pid2];
    assert AllWords(words) by {
      forall k | 0 <= k < 5 ensures IsWord(words[k]) { }
    }
    var body := Join(words, " ");
    calc {
      SplitWhitespace(body + "\n");
      == { SplitWhitespaceKeepsNewline(body); }
      SplitWhitespace(body);
      == { SplitWhitespaceJoin(words); }
      words;
    }
  }

  lemma {:induction false} SplitWhitespaceKeepsNewline(body: string)
    ensures SplitWhitespace(body + "\n") == SplitWhitespace(body)
    decreases |body|
  {
    var m := SpaceRun(body);
    var s := body + "\n";
    SpaceRunPrefix(body, "\n");
    SplitWhitespaceStep(body);
    SplitWhitespaceStep(s);
    if m == |body| {
      assert SpaceRun("\n") == 1;
    } else {
      var t := body[m..];
      var n := WordRun(t);
      SliceAppend(body, "\n", m);
      WordRunPrefix(t, "\n");
      calc {
        SplitWhitespace(s);
        [(t + "\n")[..n]] + SplitWhitespace((t + "\n")[n..]);
        == { SliceAppend(t, "\n", n); }
        [t[..n]] + SplitWhitespace(t[n..] + "\n");
        == { SplitWhitespaceKeepsNewline(t[n..]); }
        [t[..n]] + SplitWhitespace(t[n..]);
        SplitWhitespace(body);
      }
    }
  }

  lemma SpaceRunPrefix(a: string, b: string)
    ensures SpaceRun(a) < |a| ==> SpaceRun(a + b) == SpaceRun(a)
    ensures SpaceRun(a) == |a| ==> SpaceRun(a + b) == |a| + SpaceRun(b)
    decreases |a|
  {
    if |a| > 0 {
      assert (a + b)[0] == a[0];
      assert (a + b)[1..] == a[1..] + b;
      SpaceRunPrefix(a[1..], b);
    } else {
      assert a + b == b;
    }
  }

  lemma WordRunPrefix(a: string, b: string)
    requires WordRun(a) < |a| || |b| == 0 || IsSpace(b[0])
    ensures WordRun(a + b) == WordRun(a)
    decreases |a|
  {
    if |a| > 0 {
      assert (a + b)[0] == a[0];
      assert (a + b)[1..] == a[1..] + b;
      if !IsSpace(a[0]) {
        WordRunPrefix(a[1..], b);
      }
    } else {
      assert a + b == b;
    }
  }

  /** A JSON value as `json.loads` returns it. A float carries the text
      Python's `str()` gives for it; an object is the decoded dict, its
      distinct keys in insertion order with their values. */
  datatype Json =
    | JNull | JBool(b: bool) | JInt(i: int) | JFloat(f: real, text: string) | JStr(s: string)
    | JArr(items: seq<Json>) | JObj(entries: seq<(string, Json)>)

  /** Python's `str()` of a decoded JSON value. */
  function PyStr(j: Json): string
  {
    match j
    case JStr(s) => s
    case _ => PyRepr(j)
  }

  /** Python's `repr()` of a decoded JSON value (strings are quoted with
      single quotes and not escaped). */
  function PyRepr(j: Json): string
    decreases j
  {
    match j
    case JNull => "None"
    case JBool(b) => if b then "True" else "False"
    case JInt(i) => IntToDecimal(i)
    case JFloat(_, text) => text
    case JStr(s) => "'" + s + "'"
    case JArr(items) => "[" + Join(seq(|items|, k requires 0 <= k < |items| => PyRepr(items[k])), ", ") + "]"
    case JObj(entries) =>
      "{" + Join(seq(|entries|, k requires 0 <= k < |entries| => "'" + entries[k].0 + "': " + PyRepr(entries[k].1)), ", ") + "}"
  }

  /** What iterating over a decoded value yields: the items of a list, the
      one-character strings of a string, the keys of a dict; None for a
      value that is not iterable. */
  function Iterate(j: Json): (r: Option<seq<Json>>)
    ensures r.Some? <==> j.JArr? || j.JStr? || j.JObj?
    ensures j.JObj? ==> r == Some(seq(|j.entries|, k requires 0 <= k < |j.entries| => JStr(j.entries[k].0)))
  {
    match j
    case JArr(items) => Some(items)
    case JStr(s) => Some(seq(|s|, k requires 0 <= k < |s| => JStr([s[k]])))
    case JObj(entries) => Some(seq(|entries|, k requires 0 <= k < |entries| => JStr(entries[k].0)))
    case _ => None
  }

  /** Length of the shortest sequence: how many tuples `zip` yields. */
  function ShortestLength(rows: seq<seq<Json>>): nat
    requires |rows| > 0
  {
    if |rows| == 1 then |rows[0]|
    else var rest := ShortestLength(rows[1..]); if |rows[0]| < rest then |rows[0]| else rest
  }

  lemma {:induction false} ShortestLengthIsMin(rows: seq<seq<Json>>)
    requires |rows| > 0
    ensures forall k :: 0 <= k < |rows| ==> ShortestLength(rows) <= |rows[k]|
    ensures exists k :: 0 <= k < |rows| && ShortestLength(rows) == |rows[k]|
    decreases |rows|
  {
    if |rows| > 1 {
      ShortestLengthIsMin(rows[1..]);
      forall k | 1 <= k < |rows| ensures rows[k] == rows[1..][k - 1] { }
      var j :| 0 <= j < |rows[1..]| && ShortestLength(rows[1..]) == |rows[1..][j]|;
      assert rows[1..][j] == rows[j + 1];
    }
  }

  /** Every entry as iterated, or the index of the first entry that is not iterable. */
  function IterateAll(entries: seq<Json>): (r: Result<seq<seq<Json>>>)
    ensures r.Ok? ==> |r.value| == |entries|
    ensures r.Ok? ==> forall k :: 0 <= k < |entries| ==> Iterate(entries[k]) == Some(r.value[k])
    ensures r.Ok? <==> forall k :: 0 <= k < |entries| ==> Iterate(entries[k]).Some?
  {
    if |entries| == 0 then Ok([])
    else match Iterate(entries[0])
      case None => Err(TypeError("object is not iterable"))
      case Some(first) =>
        match IterateAll(entries[1..])
        case Err(e) => Err(e)
        case Ok(rest) => Ok([first] + rest)
  }

  /** A JSON line `[qid, [pid, score], ...]`. `decode` stands for `json.loads`
      (None where it raises). The scores are passed on as decoded, whatever
      their type. */
  function ParseJsonLine(line: string, decode: string -> Option<Json>): (r: Result<ScoredDocTuple>)
  {
    match decode(line)
    case None => Err(ValueError("invalid JSON"))
    case Some(data) =>
      match Iterate(data)
      case None => Err(TypeError("cannot unpack non-iterable object"))
      case Some(values) =>
        if |values| == 0 then Err(ValueError("not enough values to unpack"))
        else
          var qid := values[0];
          var docData := values[1..];
          match IterateAll(docData)
          case Err(e) => Err(e)
          case Ok(rows) =>
            if |rows| == 0 || ShortestLength(rows) != 2 then Err(ValueError("wrong number of values to unpack"))
            else
              ShortestLengthIsMin(rows);
              var pids := seq(|rows|, k requires 0 <= k < |rows| => PyStr(rows[k][0]));
              var scores := seq(|rows|, k requires 0 <= k < |rows| => Decoded(rows[k][1]));
              Ok(ScoredDocTuple(PyStr(qid), pids, Some(scores), |pids|))
  }

  /** A parsed JSON line keeps the documents in input order: doc id k is the
      stringified first element of entry k, score k its second element, and
      there are as many scores as doc ids. */
  lemma JsonLineShape(line: string, decode: string -> Option<Json>, qid: Json, entries: seq<seq<Json>>)
    requires decode(line) == Some(JArr([qid] + seq(|entries|, k requires 0 <= k < |entries| => JArr(entries[k]))))
    requires |entries| > 0 && forall k :: 0 <= k < |entries| ==> |entries[k]| == 2
    ensures ParseJsonLine(line, decode).Ok?
    ensures var t := ParseJsonLine(line, decode).value;
      && t.queryId == PyStr(qid) && t.numDocs == |t.docIds| == |entries|
      && t.scores.Some? && |t.scores.value| == |entries|
      && forall k :: 0 <= k < |entries| ==> t.docIds[k] == PyStr(entries[k][0]) && t.scores.value[k] == Decoded(entries[k][1])
  {
    var values := [qid] + seq(|entries|, k requires 0 <= k < |entries| => JArr(entries[k]));
    var docData := values[1..];
    assert Iterate(JArr(values)) == Some(values);
    var rows := IterateAll(docData);
    assert rows.Ok? by {
      forall k | 0 <= k < |docData| ensures Iterate(docData[k]).Some? {
        assert docData[k] == JArr(entries[k]);
      }
    }
    forall k | 0 <= k < |docData| ensures rows.value[k] == entries[k] {
      assert docData[k] == JArr(entries[k]);
    }
    ShortestLengthIsMin(rows.value);
  }

  /** Every tuple the reader yields has one score per doc id when scored, and
      `numDocs` equals the number of doc ids. */
  predicate WellShaped(t: ScoredDocTuple)
  {
    t.numDocs == |t.docIds| && (t.scores.Some? ==> |t.scores.value| == |t.docIds|)
  }

  function ParseLine(fileType: FileType, line: string, toFloat: string -> Option<real>, decode: string -> Option<Json>): Result<ScoredDocTuple>
  {
    match fileType
    case JsonLines => ParseJsonLine(line, decode)
    case TsvLines => ParseTsvLine(line, toFloat)
  }

  lemma ParseLineWellShaped(fileType: FileType, line: string, toFloat: string -> Option<real>, decode: string -> Option<Json>)
    ensures ParseLine(fileType, line, toFloat, decode).Ok? ==> WellShaped(ParseLine(fileType, line, toFloat, decode).value)
  {
  }

  /** The parser the reader applies to each line of a file of type
      `fileType`. */
  function LineParser(fileType: FileType, toFloat: string -> Option<real>, decode: string -> Option<Json>): string -> Result<ScoredDocTuple>
  {
    line => ParseLine(fileType, line, toFloat, decode)
  }

  /** The tuples the reader yields for `lines`, up to the first line that raises. */
  function ParseLines(parse: string -> Result<ScoredDocTuple>, lines: seq<string>): Yielded<ScoredDocTuple>
  {
    if |lines| == 0 then Yielded([], None)
    else match parse(lines[0])
      case Err(e) => Yielded([], Some(e))
      case Ok(t) => ParseLines(parse, lines[1..]).After([t])
  }

  /** The reader yields one tuple per line, each the parse of its line, until
      a line fails to parse; that line's exception ends the stream. */
  lemma {:induction false} ParseLinesPerLine(parse: string -> Result<ScoredDocTuple>, lines: seq<string>)
    ensures var y := ParseLines(parse, lines);
      && |y.items| <= |lines|
      && (y.failure.None? ==> |y.items| == |lines|)
      && (forall k :: 0 <= k < |y.items| ==> parse(lines[k]) == Ok(y.items[k]))
      && (y.failure.Some? ==> |y.items| < |lines| && parse(lines[|y.items|]) == Err(y.failure.value))
    decreases |lines|
  {
    if |lines| > 0 && parse(lines[0]).Ok? {
      ParseLinesPerLine(parse, lines[1..]);
      var y := ParseLines(parse, lines);
      var rest := ParseLines(parse, lines[1..]);
      assert y.items == [parse(lines[0]).value] + rest.items;
      forall k | 1 <= k < |y.items| ensures y.items[k] == rest.items[k - 1] && lines[k] == lines[1..][k - 1] { }
    }
  }

  /** `ScoredDocTuples.docpairs_iter`: the file type is decided before any
      line is read; then each line of the stream yields one tuple. */
  method DocpairsIter(fileName: string, lines: seq<string>, toFloat: string -> Option<real>, decode: string -> Option<Json>)
    returns (y: Yielded<ScoredDocTuple>)
    ensures DocpairsFileType(fileName).Err? ==> y == Yielded([], Some(DocpairsFileType(fileName).error))
    ensures DocpairsFileType(fileName).Ok? ==> y == ParseLines(LineParser(DocpairsFileType(fileName).value, toFloat, decode), lines)
    ensures forall k :: 0 <= k < |y.items| ==> WellShaped(y.items[k])
  {
    var fileType;
    match DocpairsFileType(fileName) {
      case Err(e) =>
        return Yielded([], Some(e));
      case Ok(t) =>
        fileType := t;
    }
    var parse := LineParser(fileType, toFloat, decode);
    y := ParseStream(parse, lines);
    ParseLinesPerLine(parse, lines);
    forall k | 0 <= k < |y.items| ensures WellShaped(y.items[k]) {
      ParseLineWellShaped(fileType, lines[k], toFloat, decode);
    }
  }

  /** The `for line in f` loop of `docpairs_iter`: each line is parsed and
      its tuple yielded; the first line that raises ends the stream. */
  method ParseStream(parse: string -> Result<ScoredDocTuple>, lines: seq<string>) returns (y: Yielded<ScoredDocTuple>)
    ensures y == ParseLines(parse, lines)
  {
    var items: seq<ScoredDocTuple> := [];
    var failure: Option<Error> := None;
    var i := 0;
    while i < |lines|
      invariant 0 <= i <= |lines|
      invariant ParseLines(parse, lines) == ParseLines(parse, lines[i..]).After(items)
    {
      assert lines[i..][0] == lines[i] && lines[i..][1..] == lines[i + 1..];
      match parse(lines[i]) {
        case Err(e) =>
          failure := Some(e);
          break;
        case Ok(t) =>
          items := items + [t];
      }
      i := i + 1;
    }
    if failure.None? {
      assert lines[i..] == [];
    }
    y := Yielded(items, failure);
  }
}
