/**
 The interpreter of the agent's event stream. The stream is valid UTF-8 and a `char` is
 one code point; JSON decoding is an arbitrary function from event data to a response.
 */
module SseStream {
  import opened Wrappers

  /** A JSON-RPC response; of messages and artifacts only the texts of their parts matter. */
  datatype RpcError = RpcError(code: int, message: string)

  datatype TaskResult = TaskResult(
    id: string,
    taskId: string,
    state: string,
    message: Option<seq<string>>,
    artifact: Option<seq<string>>)

  datatype Response = Response(error: Option<RpcError>, result: Option<TaskResult>)

  type Decoder = string -> Option<Response>

  datatype RunStatus = StatusNone | StatusCompleted | StatusFailed

  datatype RunResult = RunResult(taskID: string, output: string, status: RunStatus, error: string)

  datatype Event = Event(event: string, data: string)

  const NO_EVENT := Event("", "")

  /** What the parser has gathered from the events processed so far. */
  datatype Gathered = Gathered(result: RunResult, artifactTexts: seq<string>)

  const NOTHING := Gathered(RunResult("", "", StatusNone, ""), [])

  // Lines, as bufio.Scanner delivers them.

  function FirstNewline(s: string): (k: nat)
    ensures k <= |s|
    ensures k < |s| ==> s[k] == '\n'
    ensures forall i :: 0 <= i < k ==> s[i] != '\n'
  {
    if s == "" || s[0] == '\n' then 0 else 1 + FirstNewline(s[1..])
  }

  function DropCR(line: string): string {
    if line != "" && line[|line| - 1] == '\r' then line[..|line| - 1] else line
  }

  function Lines(body: string): seq<string>
    decreases |body|
  {
    if body == "" then []
    else
      var k := FirstNewline(body);
      if k == |body| then [DropCR(body)] else [DropCR(body[..k])] + Lines(body[k + 1..])
  }

  // Trimming, as strings.TrimSpace does it.

  predicate IsSpace(c: char) {
    var v := c as int;
    || 0x09 <= v <= 0x0D || v == 0x20 || v == 0x85 || v == 0xA0 || v == 0x1680
    || 0x2000 <= v <= 0x200A || v == 0x2028 || v == 0x2029 || v == 0x202F || v == 0x205F || v == 0x3000
  }

  function TrimLeft(s: string): string {
    if s != "" && IsSpace(s[0]) then TrimLeft(s[1..]) else s
  }

  function TrimRight(s: string): string {
    if s != "" && IsSpace(s[|s| - 1]) then TrimRight(s[..|s| - 1]) else s
  }

  function TrimSpace(s: string): string {
    TrimRight(TrimLeft(s))
  }

  predicate Trimmed(s: string) {
    s != "" ==> !IsSpace(s[0]) && !IsSpace(s[|s| - 1])
  }

  // Events.

  function Absorb(current: Event, line: string): Event {
    if "event:" <= line then current.(event := TrimSpace(line[6..]))
    else if "data:" <= line then current.(data := TrimSpace(line[5..]))
    else current
  }

  /** The events dispatched by a sequence of lines: those with data, each when its blank line arrives. */
  function Assemble(lines: seq<string>, current: Event): seq<Event> {
    if lines == [] then []
    else if lines[0] == "" then
      (if current.data != "" then [current] else []) + Assemble(lines[1..], NO_EVENT)
    else Assemble(lines[1..], Absorb(current, lines[0]))
  }

  function Join(parts: seq<string>, separator: string): string {
    if parts == [] then ""
    else if |parts| == 1 then parts[0]
    else parts[0] + separator + Join(parts[1..], separator)
  }

  function NonEmpty(parts: seq<string>): seq<string> {
    if parts == [] then [] else (if parts[0] != "" then [parts[0]] else []) + NonEmpty(parts[1..])
  }

  lemma {:induction false} NonEmptyConcat(a: seq<string>, b: seq<string>)
    ensures NonEmpty(a + b) == NonEmpty(a) + NonEmpty(b)
  {
    if a == [] {
      assert a + b == b;
    } else {
      assert (a + b)[1..] == a[1..] + b;
      NonEmptyConcat(a[1..], b);
    }
  }

  function MessageText(task: TaskResult): string {
    match task.message
    case None => ""
    case Some(parts) => Join(NonEmpty(parts), "\n")
  }

  function Digits(n: nat): string {
    if n < 10 then [('0' as int + n) as char] else Digits(n / 10) + [('0' as int + n % 10) as char]
  }

  function Decimal(n: int): string {
    if n < 0 then "-" + Digits(-n) else Digits(n)
  }

  function RpcErrorText(e: RpcError): string {
    "A2A RPC error " + Decimal(e.code) + ": " + e.message
  }

  function Process(decode: Decoder, data: string, g: Gathered): Gathered {
    match decode(data)
    case None => g
    case Some(response) =>
      if response.error.Some? then
        g.(result := g.result.(status := StatusFailed, error := RpcErrorText(response.error.value)))
      else if response.result.None? then g
      else
        var task := response.result.value;
        var id := if task.taskId != "" then task.taskId else if task.id != "" then task.id else g.result.taskID;
        var texts := if task.artifact.Some? then NonEmpty(task.artifact.value) else [];
        var named := Gathered(g.result.(taskID := id), g.artifactTexts + texts);
        if task.state == "completed" then
          named.(result := named.result.(status := StatusCompleted, output := MessageText(task)))
        else if task.state == "failed" || task.state == "canceled" then
          named.(result := named.result.(status := StatusFailed, error := MessageText(task)))
        else named
  }

  predicate IsOver(g: Gathered) {
    g.result.status != StatusNone
  }

  function DataOf(events: seq<Event>): seq<string> {
    seq(|events|, i requires 0 <= i < |events| => events[i].data)
  }

  /** Processes event data in order, up to and including the first that ends the run. */
  function Fold(decode: Decoder, data: seq<string>, g: Gathered): Gathered {
    if data == [] then g
    else
      var g' := Process(decode, data[0], g);
      if IsOver(g') then g' else Fold(decode, data[1..], g')
  }

  /** The result of a run that is over: artifacts stand in for a missing message. */
  function Settle(g: Gathered): RunResult {
    if g.result.output == "" && |g.artifactTexts| > 0
    then g.result.(output := Join(g.artifactTexts, "\n"))
    else g.result
  }

  const UNFINISHED := "SSE stream ended without a terminal status"

  /** The outcome of a stream that ended, `readError` saying whether with an error. */
  function Conclude(g: Gathered, readError: bool): Result<RunResult> {
    if IsOver(g) then Success(Settle(g))
    else if readError then Failure("reading SSE stream")
    else Success(g.result.(status := StatusFailed, error := UNFINISHED))
  }

  /** The data dispatched by a stream. */
  function Dispatched(body: string): seq<string> {
    DataOf(Assemble(Lines(body), NO_EVENT))
  }

  function Parse(decode: Decoder, body: string, readError: bool): Result<RunResult> {
    Conclude(Fold(decode, Dispatched(body), NOTHING), readError)
  }

  const CANCELLED := "context cancelled"

  /** The data dispatched by the first lines of a stream. */
  function DispatchedBy(body: string, count: nat): seq<string>
    requires count <= |Lines(body)|
  {
    DataOf(Assemble(Lines(body)[..count], NO_EVENT))
  }

  /** The outcome when the context is cancelled once `patience` lines have been read, if there are more. */
  function ParseWithin(decode: Decoder, body: string, readError: bool, patience: nat): Result<RunResult> {
    if patience >= |Lines(body)| then Parse(decode, body, readError)
    else
      var g := Fold(decode, DispatchedBy(body, patience), NOTHING);
      if IsOver(g) then Success(Settle(g)) else Failure(CANCELLED)
  }

  // The parser as it is: one loop over the lines, results gathered in place.

  class Collector {
    var result: RunResult
    var artifactTexts: seq<string>

    constructor ()
      ensures State() == NOTHING
    {
      result := RunResult("", "", StatusNone, "");
      artifactTexts := [];
    }

    function State(): Gathered
      reads this
    {
      Gathered(result, artifactTexts)
    }

    method ProcessEvent(decode: Decoder, event: Event)
      modifies this
      ensures State() == Process(decode, event.data, old(State()))
    {
      var decoded := decode(event.data);
      if decoded.None? {
        return;
      }
      var response := decoded.value;
      if response.error.Some? {
        result := result.(status := StatusFailed, error := RpcErrorText(response.error.value));
        return;
      }
      if response.result.None? {
        return;
      }
      var task := response.result.value;
      if task.taskId != "" {
        result := result.(taskID := task.taskId);
      } else if task.id != "" {
        result := result.(taskID := task.id);
      }
      if task.artifact.Some? {
        CollectArtifact(task.artifact.value);
      }
      if task.state == "completed" {
        var text := ExtractText(task);
        result := result.(status := StatusCompleted, output := text);
      } else if task.state == "failed" || task.state == "canceled" {
        var text := ExtractText(task);
        result := result.(status := StatusFailed, error := text);
      }
    }

    method CollectArtifact(parts: seq<string>)
      modifies this`artifactTexts
      ensures artifactTexts == old(artifactTexts) + NonEmpty(parts)
    {
      for i := 0 to |parts|
        invariant artifactTexts == old(artifactTexts) + NonEmpty(parts[..i])
      {
        assert parts[..i + 1] == parts[..i] + [parts[i]];
        NonEmptyConcat(parts[..i], [parts[i]]);
        if parts[i] != "" {
          artifactTexts := artifactTexts + [parts[i]];
        }
      }
      assert parts[..|parts|] == parts;
    }
  }

  /** The non-empty parts of a task's message, joined by newlines. */
  method ExtractText(task: TaskResult) returns (text: string)
    ensures text == MessageText(task)
  {
    if task.message.None? {
      return "";
    }
    var all := task.message.value;
    var parts: seq<string> := [];
    for i := 0 to |all|
      invariant parts == NonEmpty(all[..i])
    {
      assert all[..i + 1] == all[..i] + [all[i]];
      NonEmptyConcat(all[..i], [all[i]]);
      if all[i] != "" {
        parts := parts + [all[i]];
      }
    }
    assert all[..|all|] == all;
    text := Join(parts, "\n");
  }

  method ParseSSEStream(decode: Decoder, body: string, readError: bool, patience: nat) returns (r: Result<RunResult>)
    ensures r == ParseWithin(decode, body, readError, patience)
  {
    var lines := Lines(body);
    var currentEvent := NO_EVENT;
    var collector := new Collector();
    ghost var seen := lines[..if patience < |lines| then patience else |lines|];
    assert lines[..|lines|] == lines;
    for i := 0 to |lines|
      invariant i <= |seen| && !IsOver(collector.State())
      invariant Fold(decode, DataOf(Assemble(seen[i..], currentEvent)), collector.State())
             == Fold(decode, DataOf(Assemble(seen, NO_EVENT)), NOTHING)
    {
      if i >= patience {
        return Failure(CANCELLED);
      }
      ghost var rest := seen[i..];
      assert rest[0] == lines[i] && rest[1..] == seen[i + 1..];
      if lines[i] == "" {
        ghost var later := Assemble(rest[1..], NO_EVENT);
        if currentEvent.data != "" {
          assert DataOf([currentEvent] + later)[1..] == DataOf(later);
          collector.ProcessEvent(decode, currentEvent);
          if collector.result.status == StatusCompleted || collector.result.status == StatusFailed {
            if collector.result.output == "" && |collector.artifactTexts| > 0 {
              collector.result := collector.result.(output := Join(collector.artifactTexts, "\n"));
            }
            return Success(collector.result);
          }
        } else {
          assert [] + later == later;
        }
        currentEvent := NO_EVENT;
        continue;
      }
      if "event:" <= lines[i] {
        currentEvent := currentEvent.(event := TrimSpace(lines[i][6..]));
      } else if "data:" <= lines[i] {
        currentEvent := currentEvent.(data := TrimSpace(lines[i][5..]));
      }
    }
    if readError {
      return Failure("reading SSE stream");
    }
    r := Success(collector.result.(status := StatusFailed, error := UNFINISHED));
  }
}
