/**
 Comparison with the standard: section 9.2.6, "Interpreting an event stream", of the
 WHATWG HTML Living Standard. On streams whose lines end in LF or CRLF and that have no
 byte order mark, the parser dispatches the standard's non-empty data if and only if every
 dispatched event has at most one data field and no white space around its value.
 */
module SseConformance {
  import opened Wrappers
  import opened SseStream
  import opened SseTexts
  import opened SseLaws

  // The standard.

  function FirstColon(s: string): (k: nat)
    ensures k <= |s|
    ensures k < |s| ==> s[k] == ':'
    ensures forall i :: 0 <= i < k ==> s[i] != ':'
  {
    if s == "" || s[0] == ':' then 0 else 1 + FirstColon(s[1..])
  }

  function FieldName(line: string): string {
    line[..FirstColon(line)]
  }

  function DropSpace(s: string): string {
    if s != "" && s[0] == ' ' then s[1..] else s
  }

  function FieldValue(line: string): string {
    var k := FirstColon(line);
    if k < |line| then DropSpace(line[k + 1..]) else ""
  }

  function ChopLast(s: string): string
    requires s != ""
  {
    s[..|s| - 1]
  }

  /** The data of the events the standard dispatches, `buffer` being the data buffer. */
  function Interpret(lines: seq<string>, buffer: string): seq<string> {
    if lines == [] then []
    else if lines[0] == "" then (if buffer == "" then [] else [ChopLast(buffer)]) + Interpret(lines[1..], "")
    else if FieldName(lines[0]) == "data" then Interpret(lines[1..], buffer + FieldValue(lines[0]) + "\n")
    else Interpret(lines[1..], buffer)
  }

  function FirstBreak(s: string): (k: nat)
    ensures k <= |s|
    ensures k < |s| ==> s[k] == '\n' || s[k] == '\r'
    ensures forall i :: 0 <= i < k ==> s[i] != '\n' && s[i] != '\r'
  {
    if s == "" || s[0] == '\n' || s[0] == '\r' then 0 else 1 + FirstBreak(s[1..])
  }

  /** Lines of the standard: CRLF, LF and CR all end a line. */
  function StandardLines(body: string): seq<string>
    decreases |body|
  {
    if body == "" then []
    else
      var k := FirstBreak(body);
      if k == |body| then [body]
      else if body[k] == '\r' && k + 1 < |body| && body[k + 1] == '\n'
      then [body[..k]] + StandardLines(body[k + 2..])
      else [body[..k]] + StandardLines(body[k + 1..])
  }

  function StripMark(body: string): string {
    if body != "" && body[0] as int == 0xFEFF then body[1..] else body
  }

  /** The non-empty data the standard dispatches for a stream. */
  function StandardData(body: string): seq<string> {
    NonEmpty(Interpret(StandardLines(StripMark(body)), ""))
  }

  // Where the parser agrees with it.

  /** At most one data field, its value free of white space at both ends. */
  predicate PlainValues(values: seq<string>) {
    |values| <= 1 && forall v :: v in values ==> Trimmed(v)
  }

  /** Every event that gets dispatched has plain values, `values` being those of the event under construction. */
  predicate Plain(lines: seq<string>, values: seq<string>) {
    if lines == [] then true
    else if lines[0] == "" then PlainValues(values) && Plain(lines[1..], [])
    else if FieldName(lines[0]) == "data" then Plain(lines[1..], values + [FieldValue(lines[0])])
    else Plain(lines[1..], values)
  }

  function Buffer(values: seq<string>): string {
    if values == [] then "" else values[0] + "\n" + Buffer(values[1..])
  }

  lemma {:induction false} BufferSnoc(values: seq<string>, v: string)
    ensures Buffer(values + [v]) == Buffer(values) + v + "\n"
  {
    if values == [] {
      assert values + [v] == [v];
    } else {
      assert (values + [v])[0] == values[0] && (values + [v])[1..] == values[1..] + [v];
      BufferSnoc(values[1..], v);
      assert values[0] + "\n" + (Buffer(values[1..]) + v + "\n") == values[0] + "\n" + Buffer(values[1..]) + v + "\n";
    }
  }

  /** A data line, as both sides read it. */
  lemma DataLine(line: string)
    ensures "data:" <= line ==> FieldName(line) == "data" && TrimSpace(line[5..]) == TrimSpace(FieldValue(line))
    ensures !("data:" <= line) && FieldName(line) == "data" ==> FieldValue(line) == ""
    ensures "event:" <= line ==> FieldName(line) != "data"
  {
    var k := FirstColon(line);
    if "data:" <= line {
      assert line[0] == 'd' && line[1] == 'a' && line[2] == 't' && line[3] == 'a' && line[4] == ':';
      assert k == 4;
      assert line[..4] == "data";
      var rest := line[5..];
      if rest != "" && rest[0] == ' ' {
        assert TrimLeft(rest) == TrimLeft(rest[1..]);
      }
    }
    if FieldName(line) == "data" && k < |line| {
      assert line[..5] == line[..4] + [line[4]];
      assert line[..5] == "data:";
    }
    if "event:" <= line {
      assert line[0] == 'e';
      assert FieldName(line) != "data" by {
        if k > 0 {
          assert FieldName(line)[0] == 'e' && "data"[0] == 'd';
        }
      }
    }
  }

  /** The event under construction holds what its values allow. */
  ghost predicate Tracks(current: Event, values: seq<string>) {
    && (|values| == 0 ==> current.data == "")
    && (|values| == 1 ==> current.data == TrimSpace(values[0]))
  }

  lemma TracksLine(current: Event, values: seq<string>, line: string)
    requires Tracks(current, values)
    ensures Tracks(Absorb(current, line), if FieldName(line) == "data" then values + [FieldValue(line)] else values)
  {
    DataLine(line);
  }

  /** The data of one finished event on both sides. */
  lemma DispatchAgrees(current: Event, values: seq<string>)
    requires Tracks(current, values) && PlainValues(values)
    ensures DataOf(if current.data != "" then [current] else [])
         == NonEmpty(if Buffer(values) == "" then [] else [ChopLast(Buffer(values))])
  {
    if |values| == 1 {
      TrimSpaceOfPadded(values[0]);
      assert Buffer(values) == values[0] + "\n" + "" == values[0] + "\n";
      assert ChopLast(Buffer(values)) == values[0];
    }
  }

  /** On plain lines the parser and the standard dispatch the same data. */
  lemma {:induction false} PlainAgrees(lines: seq<string>, current: Event, values: seq<string>)
    requires Tracks(current, values) && Plain(lines, values)
    ensures DataOf(Assemble(lines, current)) == NonEmpty(Interpret(lines, Buffer(values)))
    decreases |lines|
  {
    if lines == [] {
    } else if lines[0] == "" {
      DispatchAgrees(current, values);
      PlainAgrees(lines[1..], NO_EVENT, []);
      DataOfConcat(if current.data != "" then [current] else [], Assemble(lines[1..], NO_EVENT));
      NonEmptyConcat(if Buffer(values) == "" then [] else [ChopLast(Buffer(values))], Interpret(lines[1..], ""));
    } else {
      TracksLine(current, values, lines[0]);
      if FieldName(lines[0]) == "data" {
        BufferSnoc(values, FieldValue(lines[0]));
        PlainAgrees(lines[1..], Absorb(current, lines[0]), values + [FieldValue(lines[0])]);
      } else {
        PlainAgrees(lines[1..], Absorb(current, lines[0]), values);
      }
    }
  }

  // And only there: what the parser dispatches always fits on one line and is trimmed.

  predicate Tame(s: string) {
    OneLine(s) && Trimmed(s)
  }

  lemma {:induction false} TrimLeftTame(s: string)
    requires OneLine(s)
    ensures OneLine(TrimLeft(s)) && (TrimLeft(s) != "" ==> !IsSpace(TrimLeft(s)[0]))
  {
    if s != "" && IsSpace(s[0]) {
      TrimLeftTame(s[1..]);
    }
  }

  lemma {:induction false} TrimRightTame(s: string)
    requires OneLine(s) && (s != "" ==> !IsSpace(s[0]))
    ensures Tame(TrimRight(s))
  {
    if s != "" && IsSpace(s[|s| - 1]) {
      TrimRightTame(s[..|s| - 1]);
    }
  }

  lemma TrimSpaceTame(s: string)
    requires OneLine(s)
    ensures Tame(TrimSpace(s))
  {
    TrimLeftTame(s);
    TrimRightTame(TrimLeft(s));
  }

  lemma {:induction false} DispatchedTame(lines: seq<string>, current: Event)
    requires Tame(current.data) && forall l :: l in lines ==> OneLine(l)
    ensures forall e :: e in Assemble(lines, current) ==> Tame(e.data)
    decreases |lines|
  {
    if lines != [] {
      if lines[0] == "" {
        DispatchedTame(lines[1..], NO_EVENT);
      } else {
        assert OneLine(lines[0]);
        if "data:" <= lines[0] {
          assert forall c :: c in lines[0][5..] ==> c in lines[0];
          TrimSpaceTame(lines[0][5..]);
        }
        DispatchedTame(lines[1..], Absorb(current, lines[0]));
      }
    }
  }

  /** Values that are not plain make the standard dispatch something the parser cannot. */
  lemma WildValues(values: seq<string>)
    requires !PlainValues(values)
    ensures Buffer(values) != "" && ChopLast(Buffer(values)) != "" && !Tame(ChopLast(Buffer(values)))
  {
    if |values| == 1 {
      assert Buffer(values) == values[0] + "\n" + "" == values[0] + "\n";
      assert ChopLast(Buffer(values)) == values[0];
    } else {
      var b := Buffer(values);
      var tail := Buffer(values[1..]);
      assert b == values[0] + "\n" + tail;
      assert tail == values[1] + "\n" + Buffer(values[1..][1..]);
      assert b[|values[0]|] == '\n' && |values[0]| < |b| - 1;
      assert ChopLast(b)[|values[0]|] == '\n';
    }
  }

  lemma {:induction false} WildData(lines: seq<string>, values: seq<string>)
    requires !Plain(lines, values)
    ensures exists d :: d in NonEmpty(Interpret(lines, Buffer(values))) && !Tame(d)
    decreases |lines|
  {
    if lines[0] == "" {
      var first := if Buffer(values) == "" then [] else [ChopLast(Buffer(values))];
      var rest := Interpret(lines[1..], "");
      NonEmptyConcat(first, rest);
      if PlainValues(values) {
        WildData(lines[1..], []);
        var d :| d in NonEmpty(rest) && !Tame(d);
        assert d in NonEmpty(first) + NonEmpty(rest);
      } else {
        WildValues(values);
        assert NonEmpty(first) == [ChopLast(Buffer(values))] + NonEmpty(first[1..]);
        assert ChopLast(Buffer(values)) in NonEmpty(first) + NonEmpty(rest);
      }
    } else if FieldName(lines[0]) == "data" {
      BufferSnoc(values, FieldValue(lines[0]));
      WildData(lines[1..], values + [FieldValue(lines[0])]);
    } else {
      WildData(lines[1..], values);
    }
  }

  /** Line by line: the same non-empty data are dispatched if and only if the lines are plain. */
  lemma LinesConformIff(lines: seq<string>)
    requires forall l :: l in lines ==> OneLine(l)
    ensures DataOf(Assemble(lines, NO_EVENT)) == NonEmpty(Interpret(lines, "")) <==> Plain(lines, [])
  {
    if Plain(lines, []) {
      PlainAgrees(lines, NO_EVENT, []);
    } else {
      WildData(lines, []);
      var d :| d in NonEmpty(Interpret(lines, Buffer([]))) && !Tame(d);
      DispatchedTame(lines, NO_EVENT);
      assert d !in DataOf(Assemble(lines, NO_EVENT));
    }
  }

  // Streams whose lines end in LF or CRLF.

  predicate NoLoneCRAt(body: string, i: nat)
    requires i < |body|
  {
    body[i] == '\r' ==> i + 1 < |body| && body[i + 1] == '\n'
  }

  predicate NoLoneCR(body: string) {
    forall i :: 0 <= i < |body| ==> NoLoneCRAt(body, i)
  }

  lemma {:induction false} LinesAreOneLine(body: string)
    ensures forall l :: l in Lines(body) ==> OneLine(l)
    decreases |body|
  {
    if body != "" {
      var k := FirstNewline(body);
      if k < |body| {
        LinesAreOneLine(body[k + 1..]);
      }
    }
  }

  lemma SuffixNoLoneCR(body: string, k: nat)
    requires NoLoneCR(body) && k <= |body|
    ensures NoLoneCR(body[k..])
  {
    forall i | 0 <= i < |body| - k
      ensures NoLoneCRAt(body[k..], i)
    {
      assert NoLoneCRAt(body, k + i);
    }
  }

  lemma LineEndedByLF(body: string)
    requires FirstBreak(body) < |body| && body[FirstBreak(body)] == '\n'
    ensures FirstNewline(body) == FirstBreak(body) && DropCR(body[..FirstBreak(body)]) == body[..FirstBreak(body)]
  {
    FirstNewlineIs(body, FirstBreak(body));
  }

  lemma LineEndedByCRLF(body: string)
    requires FirstBreak(body) < |body| - 1 && body[FirstBreak(body)] == '\r' && body[FirstBreak(body) + 1] == '\n'
    ensures FirstNewline(body) == FirstBreak(body) + 1
    ensures DropCR(body[..FirstBreak(body) + 1]) == body[..FirstBreak(body)]
  {
    var b := FirstBreak(body);
    var line := body[..b + 1];
    FirstNewlineIs(body, b + 1);
    assert line[|line| - 1] == '\r' && line[..b] == body[..b];
  }

  /** The first line, ended in the same place by both. */
  lemma SameFirstLine(body: string) returns (line: string, rest: string)
    requires NoLoneCR(body) && FirstBreak(body) < |body|
    ensures |rest| < |body| && NoLoneCR(rest)
    ensures Lines(body) == [line] + Lines(rest) && StandardLines(body) == [line] + StandardLines(rest)
  {
    var b := FirstBreak(body);
    line := body[..b];
    if body[b] == '\n' {
      LineEndedByLF(body);
      SuffixNoLoneCR(body, b + 1);
      rest := body[b + 1..];
    } else {
      assert NoLoneCRAt(body, b);
      LineEndedByCRLF(body);
      SuffixNoLoneCR(body, b + 2);
      rest := body[b + 2..];
    }
  }

  lemma {:induction false} SameLines(body: string)
    requires NoLoneCR(body)
    ensures StandardLines(body) == Lines(body)
    decreases |body|
  {
    var b := FirstBreak(body);
    if b == |body| {
      FirstNewlineIs(body, b);
      assert DropCR(body) == body;
    } else {
      var line, rest := SameFirstLine(body);
      SameLines(rest);
    }
  }

  /** Conformance, exactly. */
  lemma ConformsIff(body: string)
    requires NoLoneCR(body) && StripMark(body) == body
    ensures Dispatched(body) == StandardData(body) <==> Plain(Lines(body), [])
  {
    SameLines(body);
    LinesAreOneLine(body);
    LinesConformIff(Lines(body));
  }

  /** Where it conforms, the result is what the standard's data amount to. */
  lemma ConformingResult(decode: Decoder, body: string, readError: bool)
    requires NoLoneCR(body) && StripMark(body) == body && Plain(Lines(body), [])
    ensures Parse(decode, body, readError) == Conclude(Fold(decode, StandardData(body), NOTHING), readError)
  {
    ConformsIff(body);
  }

  lemma InterpretOne()
    ensures Interpret(["data:x", ""], "") == ["x"]
  {
    var line := "data:x";
    assert FirstColon(line) == 4 by {
      assert line[4] == ':';
    }
    assert FieldName(line) == "data" && FieldValue(line) == "x";
    assert ["data:x", ""][1..] == [""];
    assert "" + "x" + "\n" == "x\n" && ChopLast("x\n") == "x";
    assert Interpret([""], "x\n") == ["x"] + Interpret([], "");
  }

  /** A lone CR ends a line for the standard only: the event goes missing. */
  lemma LoneCRDiffers()
    ensures Dispatched("data:x\r\r") == [] && StandardData("data:x\r\r") == ["x"]
  {
    var body := "data:x\r\r";
    FirstNewlineIs(body, 8);
    assert Lines(body) == [DropCR(body)] && DropCR(body) != "";
    assert Assemble(Lines(body), NO_EVENT) == [];
    assert FirstBreak(body) == 6 by {
      assert body[6] == '\r';
    }
    assert body[..6] == "data:x" && body[7..] == "\r";
    assert FirstBreak("\r") == 0 && "\r"[1..] == "" && "\r"[..0] == "";
    assert StandardLines("\r") == [""];
    assert StandardLines(body) == ["data:x", ""];
    InterpretOne();
  }

  const MARKED := "\U{FEFF}data:x"

  lemma MarkedLinesParsed()
    ensures Assemble([MARKED, ""], NO_EVENT) == []
  {
    assert MARKED[0] as int == 0xFEFF && "event:"[0] == 'e' && "data:"[0] == 'd';
    AssembleCons("", [], NO_EVENT);
    AssembleCons(MARKED, [""] + [], NO_EVENT);
    assert [MARKED] + ([""] + []) == [MARKED, ""];
  }

  lemma LinesOfOne(line: string)
    requires OneLine(line) && (line == "" || line[|line| - 1] != '\r')
    ensures Lines(Terminated(line) + "\n") == [line, ""]
  {
    LinesCons(line, "\n");
    LinesCons("", "");
    assert Terminated("") + "" == "\n";
  }

  lemma UnmarkedData()
    ensures StandardLines(Terminated("data:x") + "\n") == ["data:x", ""]
    ensures NonEmpty(Interpret(["data:x", ""], "")) == ["x"]
  {
    LinesOfOne("data:x");
    SameLines(Terminated("data:x") + "\n");
    InterpretOne();
    assert NonEmpty(["x"]) == ["x"] + NonEmpty(["x"][1..]);
  }

  /** A byte order mark is skipped by the standard only. */
  lemma ByteOrderMarkDiffers()
    ensures Dispatched(Terminated(MARKED) + "\n") == []
    ensures StandardData(Terminated(MARKED) + "\n") == ["x"]
  {
    var body := Terminated(MARKED) + "\n";
    assert MARKED[0] as int == 0xFEFF && MARKED[1..] == "data:x";
    LinesOfOne(MARKED);
    MarkedLinesParsed();
    assert StripMark(body) == Terminated("data:x") + "\n";
    UnmarkedData();
  }
}
