/** What the result of a stream depends on, and what it says. */
module SseLaws {
  import opened Wrappers
  import opened SseStream
  import opened SseTexts

  // The first terminal event decides.

  predicate IsTerminalState(state: string) {
    state == "completed" || state == "failed" || state == "canceled"
  }

  /** The decoded task an event reports, unless it reports an error or nothing. */
  function TaskOf(decode: Decoder, data: string): Option<TaskResult> {
    match decode(data)
    case None => None
    case Some(r) => if r.error.Some? then None else r.result
  }

  function ErrorOf(decode: Decoder, data: string): Option<RpcError> {
    match decode(data) case None => None case Some(r) => r.error
  }

  predicate EndsRun(decode: Decoder, data: string) {
    || ErrorOf(decode, data).Some?
    || (TaskOf(decode, data).Some? && IsTerminalState(TaskOf(decode, data).value.state))
  }

  function FirstEnd(decode: Decoder, data: seq<string>): (t: nat)
    ensures t <= |data|
    ensures forall i :: 0 <= i < t ==> !EndsRun(decode, data[i])
    ensures t < |data| ==> EndsRun(decode, data[t])
  {
    if data == [] || EndsRun(decode, data[0]) then 0 else 1 + FirstEnd(decode, data[1..])
  }

  // Closed forms, independent of the fold.

  function IdOf(task: TaskResult): string {
    if task.taskId != "" then task.taskId else task.id
  }

  function ReportedId(decode: Decoder, d: string): string {
    match TaskOf(decode, d) case None => "" case Some(task) => IdOf(task)
  }

  function ReportedTexts(decode: Decoder, d: string): seq<string> {
    match TaskOf(decode, d)
    case None => []
    case Some(task) => match task.artifact case None => [] case Some(parts) => Kept(parts)
  }

  /** The last non-empty task id reported. */
  function LastId(decode: Decoder, data: seq<string>): string {
    if data == [] then ""
    else
      var later := LastId(decode, data[1..]);
      if later != "" then later else ReportedId(decode, data[0])
  }

  /** All non-empty artifact texts reported, in order of arrival. */
  function ArtifactTexts(decode: Decoder, data: seq<string>): seq<string> {
    if data == [] then [] else ReportedTexts(decode, data[0]) + ArtifactTexts(decode, data[1..])
  }

  lemma {:induction false} LastIdSnoc(decode: Decoder, data: seq<string>, d: string)
    ensures LastId(decode, data + [d]) ==
            if ReportedId(decode, d) != "" then ReportedId(decode, d) else LastId(decode, data)
  {
    if data != [] {
      assert (data + [d])[0] == data[0] && (data + [d])[1..] == data[1..] + [d];
      LastIdSnoc(decode, data[1..], d);
    }
  }

  lemma {:induction false} ArtifactTextsSnoc(decode: Decoder, data: seq<string>, d: string)
    ensures ArtifactTexts(decode, data + [d]) == ArtifactTexts(decode, data) + ReportedTexts(decode, d)
  {
    if data != [] {
      assert (data + [d])[0] == data[0] && (data + [d])[1..] == data[1..] + [d];
      ArtifactTextsSnoc(decode, data[1..], d);
    }
  }

  /** The text of a task's message: its non-empty parts, one per line. */
  function MessageOf(task: TaskResult): string {
    if task.message.Some? then Glued(Kept(task.message.value)) else ""
  }

  lemma MessageTextIs(task: TaskResult)
    ensures MessageText(task) == MessageOf(task)
  {
    if task.message.Some? {
      NonEmptyIsKept(task.message.value);
      JoinIsGlued(Kept(task.message.value));
    }
  }

  lemma ArtifactIsReported(decode: Decoder, d: string)
    requires TaskOf(decode, d).Some? && TaskOf(decode, d).value.artifact.Some?
    ensures NonEmpty(TaskOf(decode, d).value.artifact.value) == ReportedTexts(decode, d)
  {
    NonEmptyIsKept(TaskOf(decode, d).value.artifact.value);
  }

  /** The gathered state with the id and the artifacts of one more datum. */
  function Noted(decode: Decoder, d: string, g: Gathered): Gathered {
    var id := ReportedId(decode, d);
    Gathered(if id != "" then g.result.(taskID := id) else g.result, g.artifactTexts + ReportedTexts(decode, d))
  }

  /** A datum is noted, and ends the run if it reports an error or a terminal state. */
  lemma ProcessIs(decode: Decoder, d: string, g: Gathered)
    ensures var noted := Noted(decode, d, g);
            Process(decode, d, g) ==
            match ErrorOf(decode, d)
            case Some(e) => noted.(result := noted.result.(status := StatusFailed, error := RpcErrorText(e)))
            case None =>
              if !EndsRun(decode, d) then noted
              else
                var task := TaskOf(decode, d).value;
                if task.state == "completed"
                then noted.(result := noted.result.(status := StatusCompleted, output := MessageText(task)))
                else noted.(result := noted.result.(status := StatusFailed, error := MessageText(task)))
  {
    assert g.artifactTexts + [] == g.artifactTexts;
    if TaskOf(decode, d).Some? && TaskOf(decode, d).value.artifact.Some? {
      ArtifactIsReported(decode, d);
    }
  }

  lemma OverIff(decode: Decoder, d: string, g: Gathered)
    requires !IsOver(g)
    ensures IsOver(Process(decode, d, g)) <==> EndsRun(decode, d)
  {
  }

  /** The gathered state after data none of which ends the run. */
  function After(decode: Decoder, data: seq<string>, g: Gathered): Gathered {
    if data == [] then g else After(decode, data[1..], Noted(decode, data[0], g))
  }

  lemma {:induction false} AfterArtifacts(decode: Decoder, data: seq<string>, g: Gathered)
    ensures After(decode, data, g).artifactTexts == g.artifactTexts + ArtifactTexts(decode, data)
    decreases |data|
  {
    if data != [] {
      AfterArtifacts(decode, data[1..], Noted(decode, data[0], g));
    }
  }

  lemma {:induction false} AfterResult(decode: Decoder, data: seq<string>, g: Gathered)
    ensures var id := LastId(decode, data);
            After(decode, data, g).result == if id != "" then g.result.(taskID := id) else g.result
    decreases |data|
  {
    if data != [] {
      AfterResult(decode, data[1..], Noted(decode, data[0], g));
    }
  }

  /** The gathered state once the data have been folded. */
  function Reached(decode: Decoder, data: seq<string>, g: Gathered): Gathered {
    var t := FirstEnd(decode, data);
    if t == |data| then After(decode, data, g) else Process(decode, data[t], After(decode, data[..t], g))
  }

  lemma ReachedSkipsHead(decode: Decoder, data: seq<string>, g: Gathered)
    requires data != [] && !EndsRun(decode, data[0])
    ensures Reached(decode, data, g) == Reached(decode, data[1..], Noted(decode, data[0], g))
  {
    var t := FirstEnd(decode, data[1..]);
    assert FirstEnd(decode, data) == t + 1;
    assert data[..t + 1][1..] == data[1..][..t];
    assert After(decode, data[..t + 1], g) == After(decode, data[1..][..t], Noted(decode, data[0], g));
  }

  /** The fold reaches the first datum that ends the run, with everything before it gathered. */
  lemma {:induction false} FoldReaches(decode: Decoder, data: seq<string>, g: Gathered)
    requires !IsOver(g)
    ensures Fold(decode, data, g) == Reached(decode, data, g)
    decreases |data|
  {
    if data != [] {
      OverIff(decode, data[0], g);
      if EndsRun(decode, data[0]) {
        assert After(decode, data[..0], g) == g;
      } else {
        ProcessIs(decode, data[0], g);
        FoldReaches(decode, data[1..], Noted(decode, data[0], g));
        ReachedSkipsHead(decode, data, g);
      }
    }
  }

  /** What a run that is over reports, `last` being the datum that ended it and `before` all data before that. */
  ghost predicate Reports(decode: Decoder, before: seq<string>, last: string, r: RunResult) {
    var artifacts := Glued(ArtifactTexts(decode, before + [last]));
    && r.taskID == LastId(decode, before + [last])
    && match ErrorOf(decode, last)
       case Some(e) => r.status == StatusFailed && IsRpcErrorText(e, r.error) && r.output == artifacts
       case None =>
         && TaskOf(decode, last).Some?
         && var task := TaskOf(decode, last).value;
         if task.state == "completed" then
           && r.status == StatusCompleted && r.error == ""
           && r.output == if MessageOf(task) != "" then MessageOf(task) else artifacts
         else
           r.status == StatusFailed && r.error == MessageOf(task) && r.output == artifacts
  }

  lemma EndReports(decode: Decoder, before: seq<string>, d: string)
    requires EndsRun(decode, d)
    ensures var g := Process(decode, d, After(decode, before, NOTHING));
            IsOver(g) && Reports(decode, before, d, Settle(g))
  {
    var g := After(decode, before, NOTHING);
    AfterResult(decode, before, NOTHING);
    AfterArtifacts(decode, before, NOTHING);
    assert NOTHING.artifactTexts + ArtifactTexts(decode, before) == ArtifactTexts(decode, before);
    ProcessIs(decode, d, g);
    LastIdSnoc(decode, before, d);
    ArtifactTextsSnoc(decode, before, d);
    JoinIsGlued(ArtifactTexts(decode, before + [d]));
    if ErrorOf(decode, d).Some? {
      RpcErrorTextIs(ErrorOf(decode, d).value);
    } else {
      MessageTextIs(TaskOf(decode, d).value);
    }
  }

  lemma ReachedReports(decode: Decoder, data: seq<string>)
    requires FirstEnd(decode, data) < |data|
    ensures var t := FirstEnd(decode, data);
            var g := Reached(decode, data, NOTHING);
            IsOver(g) && Reports(decode, data[..t], data[t], Settle(g))
  {
    var t := FirstEnd(decode, data);
    EndReports(decode, data[..t], data[t]);
  }

  /**
   The law of results. Let t be the first dispatched datum that ends the run. Without one the
   run has failed; with one, everything is said by the data up to t and nothing after it counts.
   */
  lemma ResultLaw(decode: Decoder, body: string, readError: bool)
    ensures var data := Dispatched(body);
            var t := FirstEnd(decode, data);
            var r := Parse(decode, body, readError);
            if t == |data| then
              r == if readError then Failure("reading SSE stream")
                   else Success(RunResult(LastId(decode, data), "", StatusFailed,
                                          "SSE stream ended without a terminal status"))
            else r.Success? && Reports(decode, data[..t], data[t], r.value)
  {
    var data := Dispatched(body);
    FoldReaches(decode, data, NOTHING);
    if FirstEnd(decode, data) < |data| {
      ReachedReports(decode, data);
    } else {
      AfterResult(decode, data, NOTHING);
    }
  }

  /** A completed result comes from a decoded event whose state is "completed". */
  lemma CompletedNeedsEvent(decode: Decoder, body: string, readError: bool)
    requires Parse(decode, body, readError).Success?
    requires Parse(decode, body, readError).value.status == StatusCompleted
    ensures exists d :: d in Dispatched(body) && TaskOf(decode, d).Some? && TaskOf(decode, d).value.state == "completed"
  {
    ResultLaw(decode, body, readError);
    var data := Dispatched(body);
    var t := FirstEnd(decode, data);
    if t < |data| {
      assert data[t] in data;
    }
  }

  // Bytes after the end do not matter.

  /** A stream that begins with a terminated line. */
  lemma FirstLine(body: string, line: string, rest: string)
    requires body == line + "\n" + rest && '\n' !in line
    ensures Lines(body) == [DropCR(line)] + Lines(rest)
  {
    assert body[|line|] == '\n';
    FirstNewlineIs(body, |line|);
    assert body[..|line|] == line && body[|line| + 1..] == rest;
  }

  lemma CutLine(a: string) returns (line: string, rest: string)
    requires a != "" && a[|a| - 1] == '\n'
    ensures a == line + "\n" + rest && '\n' !in line
    ensures rest != "" ==> rest[|rest| - 1] == '\n'
  {
    var k := FirstNewline(a);
    assert a[|a| - 1] == '\n';
    line, rest := a[..k], a[k + 1..];
  }

  lemma {:induction false} LinesConcat(a: string, b: string)
    requires a != "" && a[|a| - 1] == '\n'
    ensures Lines(a + b) == Lines(a) + Lines(b)
    decreases |a|
  {
    var line, rest := CutLine(a);
    assert Lines(a) == [DropCR(line)] + Lines(rest) by {
      FirstLine(a, line, rest);
    }
    assert Lines(a + b) == [DropCR(line)] + Lines(rest + b) by {
      Associate(line + "\n", rest, b);
      FirstLine(a + b, line, rest + b);
    }
    assert Lines(rest + b) == Lines(rest) + Lines(b) by {
      if rest == "" {
        assert rest + b == b && Lines(rest) == [];
      } else {
        LinesConcat(rest, b);
      }
    }
    Associate([DropCR(line)], Lines(rest), Lines(b));
  }

  lemma Associate<T>(a: seq<T>, b: seq<T>, c: seq<T>)
    ensures a + b + c == a + (b + c)
  {
  }

  /** The event under construction after some lines. */
  function EventAfter(lines: seq<string>, current: Event): Event {
    if lines == [] then current
    else EventAfter(lines[1..], if lines[0] == "" then NO_EVENT else Absorb(current, lines[0]))
  }

  lemma {:induction false} AssembleConcat(a: seq<string>, b: seq<string>, current: Event)
    ensures Assemble(a + b, current) == Assemble(a, current) + Assemble(b, EventAfter(a, current))
    decreases |a|
  {
    if a == [] {
      assert a + b == b;
    } else {
      assert (a + b)[0] == a[0] && (a + b)[1..] == a[1..] + b;
      AssembleConcat(a[1..], b, if a[0] == "" then NO_EVENT else Absorb(current, a[0]));
    }
  }

  lemma {:induction false} FoldStops(decode: Decoder, a: seq<string>, b: seq<string>, g: Gathered)
    requires IsOver(Fold(decode, a, g)) && !IsOver(g)
    ensures Fold(decode, a + b, g) == Fold(decode, a, g)
    decreases |a|
  {
    assert a != [];
    assert (a + b)[0] == a[0] && (a + b)[1..] == a[1..] + b;
    var g' := Process(decode, a[0], g);
    if !IsOver(g') {
      FoldStops(decode, a[1..], b, g');
    }
  }

  lemma DataOfConcat(a: seq<Event>, b: seq<Event>)
    ensures DataOf(a + b) == DataOf(a) + DataOf(b)
  {
  }

  /** What a stream of complete lines dispatches is dispatched first, whatever follows. */
  lemma DispatchedPrefix(body: string, suffix: string) returns (rest: seq<string>)
    requires body != "" && body[|body| - 1] == '\n'
    ensures Dispatched(body + suffix) == Dispatched(body) + rest
  {
    var later := Assemble(Lines(suffix), EventAfter(Lines(body), NO_EVENT));
    LinesConcat(body, suffix);
    AssembleConcat(Lines(body), Lines(suffix), NO_EVENT);
    DataOfConcat(Assemble(Lines(body), NO_EVENT), later);
    rest := DataOf(later);
  }

  lemma EndedIsOver(decode: Decoder, data: seq<string>)
    requires FirstEnd(decode, data) < |data|
    ensures IsOver(Fold(decode, data, NOTHING))
  {
    FoldReaches(decode, data, NOTHING);
    ReachedReports(decode, data);
  }

  /** Once complete lines have dispatched an event that ends the run, no suffix and no read error changes the result. */
  lemma SuffixIrrelevant(decode: Decoder, body: string, suffix: string, e: bool, e': bool)
    requires body != "" && body[|body| - 1] == '\n'
    requires FirstEnd(decode, Dispatched(body)) < |Dispatched(body)|
    ensures Parse(decode, body + suffix, e) == Parse(decode, body, e')
  {
    var rest := DispatchedPrefix(body, suffix);
    EndedIsOver(decode, Dispatched(body));
    FoldStops(decode, Dispatched(body), rest, NOTHING);
  }

  /** The data dispatched by the first lines are dispatched first by all of them. */
  lemma DispatchedByPrefix(body: string, count: nat) returns (rest: seq<string>)
    requires count <= |Lines(body)|
    ensures Dispatched(body) == DispatchedBy(body, count) + rest
  {
    var lines := Lines(body);
    var later := Assemble(lines[count..], EventAfter(lines[..count], NO_EVENT));
    assert lines == lines[..count] + lines[count..];
    AssembleConcat(lines[..count], lines[count..], NO_EVENT);
    DataOfConcat(Assemble(lines[..count], NO_EVENT), later);
    rest := DataOf(later);
  }

  /**
   Cancellation is reported exactly when it comes before the end of the stream and before an
   event that ends the run; otherwise it makes no difference.
   */
  lemma CancellationLaw(decode: Decoder, body: string, readError: bool, patience: nat)
    ensures var r := ParseWithin(decode, body, readError, patience);
            var cut := patience < |Lines(body)| &&
                       var data := DispatchedBy(body, patience); FirstEnd(decode, data) == |data|;
            && (r == Failure(CANCELLED) <==> cut)
            && (!cut ==> r == Parse(decode, body, readError))
  {
    if patience < |Lines(body)| {
      var data := DispatchedBy(body, patience);
      var rest := DispatchedByPrefix(body, patience);
      if FirstEnd(decode, data) < |data| {
        EndedIsOver(decode, data);
        FoldStops(decode, data, rest, NOTHING);
      } else {
        FoldReaches(decode, data, NOTHING);
        AfterResult(decode, data, NOTHING);
      }
    }
  }

  // Round trip.

  function Terminated(line: string): string {
    line + "\n"
  }

  function RenderEvent(e: Event): string {
    Terminated("event: " + e.event) + Terminated("data: " + e.data) + Terminated("")
  }

  function Render(events: seq<Event>): string {
    if events == [] then "" else RenderEvent(events[0]) + Render(events[1..])
  }

  predicate OneLine(s: string) {
    '\n' !in s
  }

  /** Events the stream format can carry. */
  predicate Sendable(e: Event) {
    OneLine(e.event) && Trimmed(e.event) && OneLine(e.data) && Trimmed(e.data) && e.data != ""
  }

  lemma TrimSpaceOfPadded(s: string)
    requires Trimmed(s)
    ensures TrimSpace(" " + s) == s && TrimSpace(s) == s
  {
    assert TrimLeft(s) == s && TrimRight(s) == s;
    var padded := " " + s;
    assert padded[0] == ' ' && padded[1..] == s;
    assert TrimLeft(padded) == TrimLeft(s);
  }

  /** One terminated line in front of a stream. */
  lemma LinesCons(line: string, rest: string)
    requires OneLine(line) && (line == "" || line[|line| - 1] != '\r')
    ensures Lines(Terminated(line) + rest) == [line] + Lines(rest)
  {
    var s := Terminated(line) + rest;
    FirstNewlineIs(s, |line|);
    assert s[..|line|] == line && s[|line| + 1..] == rest;
  }

  /** A field line read back: its content, whatever padding was rendered before it. */
  lemma FieldLine(prefix: string, content: string)
    requires OneLine(prefix) && OneLine(content) && Trimmed(content) && prefix != "" && prefix[|prefix| - 1] == ' '
    ensures var line := prefix + content;
            OneLine(line) && line != "" && line[|line| - 1] != '\r' && line[|prefix| - 1..] == " " + content
  {
    var line := prefix + content;
    if content == "" {
      assert line == prefix;
    } else {
      assert line[|line| - 1] == content[|content| - 1];
    }
  }

  lemma Regroup(a: string, b: string, c: string, d: string)
    ensures a + b + c + d == a + (b + (c + d))
  {
  }

  lemma LinesOfEvent(e: Event, rest: string)
    requires Sendable(e)
    ensures Lines(RenderEvent(e) + rest) == ["event: " + e.event] + (["data: " + e.data] + ([""] + Lines(rest)))
  {
    var l1, l2 := "event: " + e.event, "data: " + e.data;
    FieldLine("event: ", e.event);
    FieldLine("data: ", e.data);
    Regroup(Terminated(l1), Terminated(l2), Terminated(""), rest);
    LinesCons("", rest);
    LinesCons(l2, Terminated("") + rest);
    LinesCons(l1, Terminated(l2) + (Terminated("") + rest));
  }

  lemma AssembleCons(line: string, rest: seq<string>, current: Event)
    ensures Assemble([line] + rest, current) ==
            if line == "" then (if current.data != "" then [current] else []) + Assemble(rest, NO_EVENT)
            else Assemble(rest, Absorb(current, line))
  {
    assert ([line] + rest)[1..] == rest;
  }

  lemma AbsorbEvent(e: Event)
    requires Sendable(e)
    ensures Absorb(Absorb(NO_EVENT, "event: " + e.event), "data: " + e.data) == e
  {
    var l1, l2 := "event: " + e.event, "data: " + e.data;
    FieldLine("event: ", e.event);
    FieldLine("data: ", e.data);
    TrimSpaceOfPadded(e.event);
    TrimSpaceOfPadded(e.data);
    assert "event:" <= l1 && "data:" <= l2;
    assert l2[0] == 'd' && "event:"[0] == 'e';
  }

  lemma AssembleEvent(e: Event, rest: seq<string>)
    requires Sendable(e)
    ensures Assemble(["event: " + e.event] + (["data: " + e.data] + ([""] + rest)), NO_EVENT)
         == [e] + Assemble(rest, NO_EVENT)
  {
    var l1, l2 := "event: " + e.event, "data: " + e.data;
    AbsorbEvent(e);
    AssembleCons(l1, [l2] + ([""] + rest), NO_EVENT);
    AssembleCons(l2, [""] + rest, Absorb(NO_EVENT, l1));
    AssembleCons("", rest, e);
  }

  lemma ReadBackFirst(e: Event, rest: string)
    requires Sendable(e)
    ensures Assemble(Lines(RenderEvent(e) + rest), NO_EVENT) == [e] + Assemble(Lines(rest), NO_EVENT)
  {
    LinesOfEvent(e, rest);
    AssembleEvent(e, Lines(rest));
  }

  /** Round trip: any list of sendable events is read back from its rendering exactly. */
  lemma {:induction false} RoundTrip(events: seq<Event>)
    requires forall e :: e in events ==> Sendable(e)
    ensures Assemble(Lines(Render(events)), NO_EVENT) == events
    decreases |events|
  {
    if events != [] {
      ReadBackFirst(events[0], Render(events[1..]));
      RoundTrip(events[1..]);
    }
  }

  /** Parsing a rendered list of events is folding over its data. */
  lemma ParseRendered(decode: Decoder, events: seq<Event>, readError: bool)
    requires forall e :: e in events ==> Sendable(e)
    ensures Parse(decode, Render(events), readError) == Conclude(Fold(decode, DataOf(events), NOTHING), readError)
  {
    RoundTrip(events);
  }
}
