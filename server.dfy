/** process_gateway_data of server.py: the text the gateway relays is split
    into lines, and each line of the form `/barn/topic/=payload` is reported
    as a (barn, topic, payload) triple. */
module Server {
  import opened Link

  /** Python's str.join with a one-character separator. */
  function Join(parts: seq<string>, sep: char): string
    requires |parts| >= 1
    decreases |parts|
  {
    if |parts| == 1 then parts[0] else parts[0] + [sep] + Join(parts[1..], sep)
  }

  /** Python's str.split with a one-character separator: the pieces between
      separators, at least one, none containing the separator, and joining
      them back gives the input. */
  function Split(s: string, sep: char): (parts: seq<string>)
    ensures |parts| >= 1
    ensures forall i :: 0 <= i < |parts| ==> sep !in parts[i]
    ensures Join(parts, sep) == s
    decreases |s|
  {
    if s == [] then [[]]
    else
      var rest := Split(s[1..], sep);
      if s[0] == sep then [[]] + rest
      else [[s[0]] + rest[0]] + rest[1..]
  }

  /** A character absent from the joined text is absent from every piece. */
  lemma {:induction false} JoinFree(parts: seq<string>, sep: char, c: char)
    requires |parts| >= 1
    requires c !in Join(parts, sep)
    ensures forall i :: 0 <= i < |parts| ==> c !in parts[i]
    decreases |parts|
  {
    if |parts| > 1 {
      JoinFree(parts[1..], sep, c);
      assert Join(parts, sep) == parts[0] + [sep] + Join(parts[1..], sep);
      forall i | 1 <= i < |parts| ensures c !in parts[i] {
        assert parts[i] == parts[1..][i - 1];
      }
    }
  }

  /** A piece with no separator splits to itself. */
  lemma {:induction false} SplitNoSep(w: string, sep: char)
    requires sep !in w
    ensures Split(w, sep) == [w]
    decreases |w|
  {
    if w != [] {
      SplitNoSep(w[1..], sep);
    }
  }

  /** Splitting `w + sep + t`, with no separator in `w`, gives `w` followed by
      the pieces of `t`. */
  lemma {:induction false} SplitAfterPiece(w: string, sep: char, t: string)
    requires sep !in w
    ensures Split(w + [sep] + t, sep) == [w] + Split(t, sep)
    decreases |w|
  {
    if w == [] {
      assert w + [sep] + t == [sep] + t;
      assert ([sep] + t)[1..] == t;
    } else {
      SplitAfterPiece(w[1..], sep, t);
      assert (w + [sep] + t)[1..] == w[1..] + [sep] + t;
      assert (w + [sep] + t)[0] == w[0];
      assert [w[0]] + w[1..] == w;
    }
  }

  /** split is the inverse of join on pieces that do not contain the
      separator. */
  lemma {:induction false} SplitJoin(parts: seq<string>, sep: char)
    requires |parts| >= 1
    requires forall i :: 0 <= i < |parts| ==> sep !in parts[i]
    ensures Split(Join(parts, sep), sep) == parts
    decreases |parts|
  {
    if |parts| == 1 {
      SplitNoSep(parts[0], sep);
    } else {
      SplitJoin(parts[1..], sep);
      SplitAfterPiece(parts[0], sep, Join(parts[1..], sep));
      assert [parts[0]] + parts[1..] == parts;
    }
  }

  /** A separator appended to the text adds one empty piece at the end. */
  lemma {:induction false} SplitTrailingSep(s: string, sep: char)
    ensures Split(s + [sep], sep) == Split(s, sep) + [[]]
    decreases |s|
  {
    if s == [] {
      var one: string := [sep];
      assert one[1..] == [];
      assert s + [sep] == one;
    } else {
      SplitTrailingSep(s[1..], sep);
      assert (s + [sep])[1..] == s[1..] + [sep];
      assert (s + [sep])[0] == s[0];
      var rest := Split(s[1..], sep);
      if s[0] != sep {
        assert (rest + [[]])[1..] == rest[1..] + [[]];
      }
    }
  }

  /** The Python exceptions the parser can raise. */
  datatype Error = IndexError | ValueError

  /** One printed report. */
  datatype Report = Report(barn: string, topic: string, payload: string)

  /** What happens to one line. */
  datatype LineResult = Skipped | Reported(report: Report) | Raised(error: Error)

  /** One line: indexing its first character raises IndexError when it is
      empty; a line not starting with '/' is skipped; the rest after the '/'
      must split on '/' into exactly three fields or unpacking raises
      ValueError; the payload is the piece after the first '=' of the third
      field, and IndexError is raised when there is none. */
  function ParseLine(line: string): (r: LineResult)
    ensures r == Raised(IndexError) <== line == []
    ensures r.Skipped? <==> line != [] && line[0] != '/'
    ensures r.Reported? ==>
              (line[0] == '/' &&
               '/' !in r.report.barn && '/' !in r.report.topic &&
               '/' !in r.report.payload && '=' !in r.report.payload)
  {
    if |line| == 0 then Raised(IndexError)
    else if line[0] != '/' then Skipped
    else
      var fields := Split(line[1..], '/');
      if |fields| != 3 then Raised(ValueError)
      else
        var pieces := Split(fields[2], '=');
        JoinFree(pieces, '=', '/');
        if |pieces| < 2 then Raised(IndexError)
        else Reported(Report(fields[0], fields[1], pieces[1]))
  }

  /** A '/'-prefixed line made of three '/'-free fields parses into those
      three fields. */
  lemma LineFields(barn: string, topic: string, third: string)
    requires '/' !in barn && '/' !in topic && '/' !in third
    ensures Split(("/" + barn + "/" + topic + "/" + third)[1..], '/') == [barn, topic, third]
  {
    var fields := [barn, topic, third];
    assert Join(fields, '/') == ("/" + barn + "/" + topic + "/" + third)[1..] by {
      assert Join(fields[2..], '/') == third;
      assert Join(fields[1..], '/') == topic + "/" + third;
    }
    SplitJoin(fields, '/');
  }

  /** The line whose three fields are given, and whose third field splits
      on '=' with `payload` as its second piece, reports those. */
  lemma ReportsFields(barn: string, topic: string, third: string, payload: string)
    requires '/' !in barn && '/' !in topic && '/' !in third
    requires |Split(third, '=')| >= 2 && Split(third, '=')[1] == payload
    ensures ParseLine("/" + barn + "/" + topic + "/" + third) == Reported(Report(barn, topic, payload))
  {
    LineFields(barn, topic, third);
  }

  /** A well-formed line `/barn/topic/=payload` is reported as exactly its
      three parts. */
  lemma WellFormedLine(barn: string, topic: string, payload: string)
    requires '/' !in barn && '/' !in topic && '/' !in payload && '=' !in payload
    ensures ParseLine("/" + barn + "/" + topic + "/=" + payload) == Reported(Report(barn, topic, payload))
  {
    var third := "=" + payload;
    SplitAfterPiece("", '=', payload);
    SplitNoSep(payload, '=');
    assert "" + ['='] + payload == third;
    ReportsFields(barn, topic, third, payload);
    assert "/" + barn + "/" + topic + "/" + third == "/" + barn + "/" + topic + "/=" + payload;
  }

  /** A third field with at least two '=' splits with the text between the
      first two as its second piece. */
  lemma SecondPieceBetweenEquals(before: string, payload: string, after: string)
    requires '=' !in before && '=' !in payload
    ensures |Split(before + "=" + payload + "=" + after, '=')| >= 2
    ensures Split(before + "=" + payload + "=" + after, '=')[1] == payload
  {
    SplitAfterPiece(payload, '=', after);
    SplitAfterPiece(before, '=', payload + ['='] + after);
    assert before + "=" + payload + "=" + after == before + ['='] + (payload + ['='] + after);
  }

  /** When the third field holds more than one '=', the payload reported is
      the text between the first and the second one. */
  lemma PayloadBetweenFirstTwoEquals(barn: string, topic: string, before: string, payload: string, after: string)
    requires '/' !in barn && '/' !in topic && '/' !in before && '/' !in payload && '/' !in after
    requires '=' !in before && '=' !in payload
    ensures ParseLine("/" + barn + "/" + topic + "/" + (before + "=" + payload + "=" + after)) ==
            Reported(Report(barn, topic, payload))
  {
    var third := before + "=" + payload + "=" + after;
    assert '/' !in third;
    SecondPieceBetweenEquals(before, payload, after);
    ReportsFields(barn, topic, third, payload);
  }

  /** A text splits into a single piece exactly when it holds no separator. */
  lemma SplitSingleIffNoSep(s: string, sep: char)
    ensures |Split(s, sep)| == 1 <==> sep !in s
  {
    if sep !in s {
      SplitNoSep(s, sep);
    }
  }

  /** A '/'-prefixed line raises ValueError exactly when the text after the
      '/' does not split on '/' into three fields. */
  lemma ValueErrorIffNotThreeFields(line: string)
    requires line != [] && line[0] == '/'
    ensures ParseLine(line) == Raised(ValueError) <==> |Split(line[1..], '/')| != 3
  {
  }

  /** A '/'-prefixed line with three fields raises IndexError exactly when
      its third field holds no '='. */
  lemma IndexErrorIffNoEquals(line: string)
    requires line != [] && line[0] == '/' && |Split(line[1..], '/')| == 3
    ensures ParseLine(line) == Raised(IndexError) <==> '=' !in Split(line[1..], '/')[2]
  {
    SplitSingleIffNoSep(Split(line[1..], '/')[2], '=');
  }

  /** With a single '=' in the third field, the payload reported is the text
      after it, whatever comes before it. */
  lemma PayloadAfterSingleEquals(barn: string, topic: string, before: string, payload: string)
    requires '/' !in barn && '/' !in topic && '/' !in before && '/' !in payload
    requires '=' !in before && '=' !in payload
    ensures ParseLine("/" + barn + "/" + topic + "/" + (before + "=" + payload)) ==
            Reported(Report(barn, topic, payload))
  {
    var third := before + "=" + payload;
    assert '/' !in third;
    SplitAfterPiece(before, '=', payload);
    SplitNoSep(payload, '=');
    assert third == before + ['='] + payload;
    ReportsFields(barn, topic, third, payload);
  }

  /** The line given as the example of the format. */
  lemma ExampleLine()
    ensures ParseLine("/1/lights/=on") == Reported(Report("1", "lights", "on"))
  {
    WellFormedLine("1", "lights", "on");
    assert "/" + "1" + "/" + "lights" + "/=" + "on" == "/1/lights/=on";
  }

  /** The outcome of a whole call: the reports printed, and the exception
      that ended it, if any. */
  datatype Run = Run(reports: seq<Report>, error: Option<Error>)

  /** The lines handled in order; the first exception ends the call and no
      later line is looked at. */
  function ProcessLines(lines: seq<string>): Run
    decreases |lines|
  {
    if lines == [] then Run([], None)
    else
      match ParseLine(lines[0])
      case Skipped => ProcessLines(lines[1..])
      case Reported(rep) =>
        var rest := ProcessLines(lines[1..]);
        Run([rep] + rest.reports, rest.error)
      case Raised(e) => Run([], Some(e))
  }

  /** The reports of the lines that are reported, in order; skipped lines
      and lines that raise contribute nothing. */
  function ReportsOf(lines: seq<string>): seq<Report>
    decreases |lines|
  {
    if lines == [] then []
    else
      var r := ParseLine(lines[0]);
      (if r.Reported? then [r.report] else []) + ReportsOf(lines[1..])
  }

  /** Lines none of which raises produce no exception, and the reports are
      exactly those of the reported lines, in order, with skipped lines
      dropped; there is at most one per line. */
  lemma {:induction false} NoErrorWhenNoLineRaises(lines: seq<string>)
    requires forall i :: 0 <= i < |lines| ==> !ParseLine(lines[i]).Raised?
    ensures ProcessLines(lines) == Run(ReportsOf(lines), None)
    ensures |ProcessLines(lines).reports| <= |lines|
    decreases |lines|
  {
    if lines != [] {
      NoErrorWhenNoLineRaises(lines[1..]);
    }
  }

  /** The run stops at the first line that raises: the result holds the
      reports of the lines before it and that line's exception. */
  lemma {:induction false} FirstErrorStops(lines: seq<string>, k: nat)
    requires k < |lines| && ParseLine(lines[k]).Raised?
    requires forall i :: 0 <= i < k ==> !ParseLine(lines[i]).Raised?
    ensures ProcessLines(lines) == Run(ReportsOf(lines[..k]), Some(ParseLine(lines[k]).error))
    decreases k
  {
    if k > 0 {
      FirstErrorStops(lines[1..], k - 1);
      assert lines[1..][..k - 1] == lines[..k][1..];
    }
  }

  /** When every line is well formed, each is reported, in order. */
  lemma {:induction false} AllLinesReportedInOrder(lines: seq<string>)
    requires forall i :: 0 <= i < |lines| ==> ParseLine(lines[i]).Reported?
    ensures ProcessLines(lines) == Run(seq(|lines|, i requires 0 <= i < |lines| => ParseLine(lines[i]).report), None)
    decreases |lines|
  {
    if lines != [] {
      AllLinesReportedInOrder(lines[1..]);
      var tail := seq(|lines| - 1, i requires 0 <= i < |lines| - 1 => ParseLine(lines[1..][i]).report);
      var all := seq(|lines|, i requires 0 <= i < |lines| => ParseLine(lines[i]).report);
      assert all == [ParseLine(lines[0]).report] + tail;
    }
  }

  /** A run whose last line is empty always ends in an exception: the empty
      line raises IndexError if no earlier line has raised. */
  lemma {:induction false} EmptyLastLineRaises(lines: seq<string>)
    requires |lines| >= 1 && lines[|lines| - 1] == []
    ensures ProcessLines(lines).error.Some?
    decreases |lines|
  {
    if |lines| > 1 {
      EmptyLastLineRaises(lines[1..]);
    }
  }

  /** Input that ends with a newline therefore always raises. */
  lemma TrailingNewlineRaises(text: string)
    ensures ProcessLines(Split(text + ['\n'], '\n')).error.Some?
  {
    SplitTrailingSep(text, '\n');
    var lines := Split(text, '\n') + [[]];
    EmptyLastLineRaises(lines);
  }

  /** process_gateway_data: the input is split on newlines, then each line
      is inspected in order, a '/'-prefixed line is rewritten in place
      without its '/', split into its fields and reported. An exception ends
      the loop; the reports made before it are kept in `reports`. */
  method ProcessGatewayData(text: string) returns (reports: seq<Report>, error: Option<Error>)
    ensures Run(reports, error) == ProcessLines(Split(text, '\n'))
  {
    var lines := Split(text, '\n');
    ghost var original := lines;
    reports := [];
    error := None;
    var i := 0;
    while i < |lines|
      invariant 0 <= i <= |lines| == |original|
      invariant lines[i..] == original[i..]
      invariant ProcessLines(original) ==
                  Run(reports + ProcessLines(original[i..]).reports, ProcessLines(original[i..]).error)
      decreases |lines| - i
    {
      assert original[i..][1..] == original[i + 1..];
      assert original[i..][0] == lines[i];
      if |lines[i]| == 0 {
        error := Some(IndexError);
        return;
      }
      if lines[i][0] != '/' {
        i := i + 1;
        continue;
      }
      lines := lines[i := lines[i][1..]];
      var fields := Split(lines[i], '/');
      if |fields| != 3 {
        error := Some(ValueError);
        return;
      }
      var barn, topic, payload := fields[0], fields[1], fields[2];
      var pieces := Split(payload, '=');
      if |pieces| < 2 {
        error := Some(IndexError);
        return;
      }
      payload := pieces[1];
      reports := reports + [Report(barn, topic, payload)];
      i := i + 1;
    }
    assert original[i..] == [];
  }
}
