/**
 * The two background workers of the chat client: OllamaWorker streams a
 * generated answer token by token, ModelDownloadWorker streams the progress
 * of a model pull. Both read the server's reply as newline-delimited JSON,
 * one record per line, and report through signals; here the HTTP reply is a
 * sequence of already classified lines and every emitted signal is appended
 * to a sequence of events.
 */
module Workers {
  import opened Wrappers

  /** One line of the streamed reply, as the worker loop sees it. */
  datatype Line =
    | Blank                      // an empty line: `if line:` skips it
    | Malformed(reason: string)  // json.loads, or reading a field of what it returned, raises
    | Fault(message: string)     // reading this line from the connection raises
    | Record(response: Option<string>, done: bool,
             status: Option<string>, total: Option<int>, completed: Option<int>)

  /** What requests.post(url, json=payload, stream=True) yields: a refusal or a stream of lines. */
  datatype Response = Refused(message: string) | Stream(lines: seq<Line>)

  /** The JSON values a request body is built from. */
  datatype Json =
    | JString(str: string)
    | JBool(flag: bool)
    | JInt(number: int)
    | JReal(fraction: real)
    | JObject(fields: map<string, Json>)

  /** A line after which the loop goes on to the next one. */
  predicate Continues(l: Line) {
    l.Blank? || (l.Record? && !l.done)
  }

  /**
   * The generation loop gets as far as the is_running check of iteration
   * `stopAt`: every earlier line let it go on, and line `stopAt` was fetched.
   */
  predicate StopLands(lines: seq<Line>, stopAt: nat)
    decreases |lines|
  {
    lines != [] && !lines[0].Fault? && (stopAt == 0 || (Continues(lines[0]) && StopLands(lines[1..], stopAt - 1)))
  }

  function Concat(parts: seq<string>): string {
    if parts == [] then "" else parts[0] + Concat(parts[1..])
  }

  // ---------------------------------------------------------------------------
  // Generation: OllamaWorker
  // ---------------------------------------------------------------------------

  /** The signals of OllamaWorker: token_received(str), finished(), error(str). */
  datatype GenerationEvent = Token(text: string) | Finished | Error(message: string)

  predicate IsTerminal(e: GenerationEvent) {
    e.Finished? || e.Error?
  }

  /** Zero or more tokens followed by exactly one terminal signal. */
  predicate Terminated(events: seq<GenerationEvent>) {
    && |events| >= 1
    && IsTerminal(events[|events| - 1])
    && forall i :: 0 <= i < |events| - 1 ==> events[i].Token?
  }

  function TokenOf(response: Option<string>): seq<GenerationEvent> {
    if response.Some? then [Token(response.value)] else []
  }

  /**
   * The signals one run of the generation loop emits over `lines`, when the
   * is_running check finds the flag set for the first `stopAt` iterations and
   * cleared from then on. A line is fetched before the flag is checked, so a
   * fault while fetching is reported even once stop() has landed.
   */
  function GenerationEvents(lines: seq<Line>, stopAt: nat): seq<GenerationEvent>
    decreases |lines|
  {
    if lines == [] then [Finished]
    else match lines[0]
      case Fault(message) => [Error(message)]
      case Blank =>
        if stopAt == 0 then [Finished] else GenerationEvents(lines[1..], stopAt - 1)
      case Malformed(reason) =>
        if stopAt == 0 then [Finished] else [Error(reason)]
      case Record(response, done, _, _, _) =>
        if stopAt == 0 then [Finished]
        else TokenOf(response) + (if done then [Finished] else GenerationEvents(lines[1..], stopAt - 1))
  }

  /** The signals of a whole run, a refused connection included. */
  function GenerationRun(response: Response, stopAt: nat): seq<GenerationEvent> {
    match response
    case Refused(message) => [Error(message)]
    case Stream(lines) => GenerationEvents(lines, stopAt)
  }

  /** How many lines the generation loop takes from the stream and looks into. */
  function Processed(lines: seq<Line>, stopAt: nat): (n: nat)
    ensures n <= |lines|
    decreases |lines|
  {
    if lines == [] || lines[0].Fault? || stopAt == 0 then 0
    else if lines[0].Malformed? || (lines[0].Record? && lines[0].done) then 1
    else 1 + Processed(lines[1..], stopAt - 1)
  }

  /** The `response` field of a line, as a sequence of zero or one strings. */
  function ResponseOf(l: Line): seq<string> {
    if l.Record? && l.response.Some? then [l.response.value] else []
  }

  /** The `response` fields of the records among `lines`, in order. */
  function Responses(lines: seq<Line>): seq<string> {
    if lines == [] then [] else ResponseOf(lines[0]) + Responses(lines[1..])
  }

  /** The texts of the token signals among `events`, in order. */
  function Tokens(events: seq<GenerationEvent>): seq<string> {
    if events == [] then []
    else (if events[0].Token? then [events[0].text] else []) + Tokens(events[1..])
  }

  function TokenEvents(texts: seq<string>): seq<GenerationEvent> {
    if texts == [] then [] else [Token(texts[0])] + TokenEvents(texts[1..])
  }

  /** The request body that OllamaWorker.run posts to /api/generate. */
  predicate IsGenerateBody(body: map<string, Json>, model: string, prompt: string, systemPrompt: string,
                           temperature: int, maxTokens: int)
  {
    && body.Keys == {"model", "prompt", "stream", "options"} + (if systemPrompt != "" then {"system"} else {})
    && body["model"] == JString(model)
    && body["prompt"] == JString(prompt)
    && body["stream"] == JBool(true)
    && body["options"] == JObject(map["temperature" := JReal(temperature as real / 10.0),
                                      "num_predict" := JInt(maxTokens)])
    && (systemPrompt != "" ==> body["system"] == JString(systemPrompt))
  }

  /** Builds the generate request body; `temperature` is in tenths (7 stands for 0.7). */
  method BuildGeneratePayload(model: string, prompt: string, systemPrompt: string, temperature: int, maxTokens: int)
    returns (payload: map<string, Json>)
    ensures IsGenerateBody(payload, model, prompt, systemPrompt, temperature, maxTokens)
    ensures "system" in payload <==> systemPrompt != ""
  {
    payload := map["model" := JString(model),
                   "prompt" := JString(prompt),
                   "stream" := JBool(true),
                   "options" := JObject(map["temperature" := JReal(temperature as real / 10.0),
                                            "num_predict" := JInt(maxTokens)])];
    if systemPrompt != "" {
      payload := payload["system" := JString(systemPrompt)];
    }
  }

  /** A worker thread that streams one answer from /api/generate. */
  class OllamaWorker {
    const model: string
    const prompt: string
    const systemPrompt: string
    const temperature: int  // in tenths
    const maxTokens: int
    var isRunning: bool
    var started: bool        // QThread.start() has been called
    var emitted: seq<GenerationEvent>

    constructor (model: string, prompt: string, systemPrompt: string, temperature: int, maxTokens: int)
      ensures this.model == model && this.prompt == prompt && this.systemPrompt == systemPrompt
      ensures this.temperature == temperature && this.maxTokens == maxTokens
      ensures isRunning && !started && emitted == []
    {
      this.model := model;
      this.prompt := prompt;
      this.systemPrompt := systemPrompt;
      this.temperature := temperature;
      this.maxTokens := maxTokens;
      isRunning := true;
      started := false;
      emitted := [];
    }

    /** QThread.start(): run() is scheduled on the worker thread. */
    method Start()
      modifies this`started
      ensures started
    {
      started := true;
    }

    method Stop()
      modifies this`isRunning
      ensures !isRunning
    {
      isRunning := false;
    }

    /**
     * The body of run(). `response` is what requests.post returns; `stopAt`
     * is the iteration at which a stop() from the UI thread lands (an index
     * at or past the end of the stream means it never does). Returns the
     * request body that was posted.
     */
    method Run(response: Response, stopAt: nat) returns (body: map<string, Json>)
      modifies this`isRunning, this`emitted
      ensures IsGenerateBody(body, model, prompt, systemPrompt, temperature, maxTokens)
      ensures emitted == old(emitted) + GenerationRun(response, if old(isRunning) then stopAt else 0)
      ensures isRunning == (old(isRunning) && !(response.Stream? && StopLands(response.lines, stopAt)))
    {
      body := BuildGeneratePayload(model, prompt, systemPrompt, temperature, maxTokens);
      if response.Refused? {
        emitted := emitted + [Error(response.message)];
      } else {
        ReadLines(response.lines, stopAt);
      }
    }

    /** The `for line in response.iter_lines()` loop of run(), then the finished signal. */
    method ReadLines(lines: seq<Line>, stopAt: nat)
      modifies this`isRunning, this`emitted
      ensures emitted == old(emitted) + GenerationEvents(lines, if old(isRunning) then stopAt else 0)
      ensures isRunning == (old(isRunning) && !StopLands(lines, stopAt))
    {
      var pending := lines;  // what iter_lines() has yet to yield
      ghost var effective: nat := if isRunning then stopAt else 0;
      var i := 0;  // iterations begun
      while pending != []
        invariant i <= effective
        invariant isRunning == old(isRunning)
        invariant !isRunning ==> i == 0
        invariant old(isRunning) ==> StopLands(lines, stopAt) == StopLands(pending, stopAt - i)
        invariant old(emitted) + GenerationEvents(lines, effective) == emitted + GenerationEvents(pending, effective - i)
        decreases |pending|
      {
        var line, rest := pending[0], pending[1..];
        pending := rest;
        if line.Fault? {
          emitted := emitted + [Error(line.message)];
          return;
        }
        if i == stopAt {
          Stop();
        }
        if !isRunning {
          break;
        }
        if line.Malformed? {
          emitted := emitted + [Error(line.reason)];
          return;
        }
        if line.Record? {
          if line.response.Some? {
            emitted := emitted + [Token(line.response.value)];
          }
          if line.done {
            break;
          }
        }
        i := i + 1;
      }
      emitted := emitted + [Finished];
    }
  }

  // ---------------------------------------------------------------------------
  // Properties of the generation loop
  // ---------------------------------------------------------------------------

  /** Every run emits tokens only, then exactly one of finished or error, as its last signal. */
  lemma {:induction false} GenerationTerminatesOnce(lines: seq<Line>, stopAt: nat)
    ensures Terminated(GenerationEvents(lines, stopAt))
    decreases |lines|
  {
    if lines != [] && !lines[0].Fault? && stopAt > 0 {
      match lines[0]
      case Blank =>
        GenerationTerminatesOnce(lines[1..], stopAt - 1);
      case Malformed(_) =>
      case Record(response, done, _, _, _) =>
        var rest := if done then [Finished] else GenerationEvents(lines[1..], stopAt - 1);
        if !done {
          GenerationTerminatesOnce(lines[1..], stopAt - 1);
        }
        assert GenerationEvents(lines, stopAt) == TokenOf(response) + rest;
        TokensThenTerminated(TokenOf(response), rest);
    }
  }

  lemma TokensThenTerminated(tokens: seq<GenerationEvent>, rest: seq<GenerationEvent>)
    requires forall i :: 0 <= i < |tokens| ==> tokens[i].Token?
    requires Terminated(rest)
    ensures Terminated(tokens + rest)
  {
    var all := tokens + rest;
    assert all[|all| - 1] == rest[|rest| - 1];
    forall i | 0 <= i < |all| - 1
      ensures all[i].Token?
    {
      if i < |tokens| {
        assert all[i] == tokens[i];
      } else {
        assert all[i] == rest[i - |tokens|];
      }
    }
  }

  lemma GenerationRunTerminatesOnce(response: Response, stopAt: nat)
    ensures Terminated(GenerationRun(response, stopAt))
  {
    if response.Stream? {
      GenerationTerminatesOnce(response.lines, stopAt);
    }
  }

  lemma {:induction false} TokensOfConcat(a: seq<GenerationEvent>, b: seq<GenerationEvent>)
    ensures Tokens(a + b) == Tokens(a) + Tokens(b)
    decreases |a|
  {
    if a == [] {
      assert a + b == b;
    } else {
      var head := if a[0].Token? then [a[0].text] else [];
      assert (a + b)[0] == a[0] && (a + b)[1..] == a[1..] + b;
      assert Tokens(a + b) == head + Tokens(a[1..] + b);
      TokensOfConcat(a[1..], b);
      assert Tokens(a) == head + Tokens(a[1..]);
    }
  }

  lemma {:induction false} ResponsesOfConcat(a: seq<Line>, b: seq<Line>)
    ensures Responses(a + b) == Responses(a) + Responses(b)
    decreases |a|
  {
    if a == [] {
      assert a + b == b;
    } else {
      var head := ResponseOf(a[0]);
      assert (a + b)[0] == a[0] && (a + b)[1..] == a[1..] + b;
      assert Responses(a + b) == head + Responses(a[1..] + b);
      ResponsesOfConcat(a[1..], b);
      assert Responses(a) == head + Responses(a[1..]);
    }
  }

  lemma {:induction false} ConcatOfConcat(a: seq<string>, b: seq<string>)
    ensures Concat(a + b) == Concat(a) + Concat(b)
    decreases |a|
  {
    if a == [] {
      assert a + b == b;
    } else {
      assert (a + b)[0] == a[0] && (a + b)[1..] == a[1..] + b;
      ConcatOfConcat(a[1..], b);
    }
  }

  lemma {:induction false} TokenEventsOfConcat(a: seq<string>, b: seq<string>)
    ensures TokenEvents(a + b) == TokenEvents(a) + TokenEvents(b)
    decreases |a|
  {
    if a == [] {
      assert a + b == b;
    } else {
      assert (a + b)[0] == a[0] && (a + b)[1..] == a[1..] + b;
      TokenEventsOfConcat(a[1..], b);
    }
  }

  /**
   * The tokens of a run are exactly the `response` fields of the lines it
   * processed, in stream order; so their concatenation is the concatenation
   * of those fields.
   */
  lemma {:induction false} TokensAreResponses(lines: seq<Line>, stopAt: nat)
    ensures Tokens(GenerationEvents(lines, stopAt)) == Responses(lines[..Processed(lines, stopAt)])
    ensures Concat(Tokens(GenerationEvents(lines, stopAt))) == Concat(Responses(lines[..Processed(lines, stopAt)]))
    decreases |lines|
  {
    var n := Processed(lines, stopAt);
    if lines == [] || lines[0].Fault? || stopAt == 0 {
      assert lines[..n] == [];
      var e := GenerationEvents(lines, stopAt);
      assert |e| == 1 && !e[0].Token?;
      assert Tokens(e) == Tokens(e[1..]);
    } else {
      var l, rest := lines[0], lines[1..];
      var head := ResponseOf(l);
      var taken := [l] + rest[..n - 1];
      assert lines[..n] == taken;
      assert taken[0] == l && taken[1..] == rest[..n - 1];
      assert Responses(taken) == head + Responses(rest[..n - 1]);
      var tokens := if l.Record? then TokenOf(l.response) else [];
      assert Tokens(tokens) == head by {
        if tokens != [] {
          assert Tokens(tokens) == [tokens[0].text] + Tokens(tokens[1..]);
        }
      }
      if Continues(l) {
        var after := GenerationEvents(rest, stopAt - 1);
        assert GenerationEvents(lines, stopAt) == tokens + after;
        TokensOfConcat(tokens, after);
        TokensAreResponses(rest, stopAt - 1);
      } else if l.Malformed? {
        assert rest[..n - 1] == [];
        var e := GenerationEvents(lines, stopAt);
        assert e == [Error(l.reason)] && Tokens(e) == Tokens(e[1..]);
      } else {
        assert rest[..n - 1] == [];
        assert GenerationEvents(lines, stopAt) == tokens + [Finished];
        TokensOfConcat(tokens, [Finished]);
        assert Tokens([Finished]) == Tokens([Finished][1..]);
      }
    }
  }

  /** A line whose `done` is true ends the run: nothing after it is read. */
  lemma {:induction false} DoneEndsStream(before: seq<Line>, last: Line, after1: seq<Line>, after2: seq<Line>, stopAt: nat)
    requires last.Record? && last.done
    ensures GenerationEvents(before + [last] + after1, stopAt) == GenerationEvents(before + [last] + after2, stopAt)
    decreases |before|
  {
    var s1, s2 := before + [last] + after1, before + [last] + after2;
    if before == [] {
      assert s1[0] == s2[0] == last;
    } else {
      assert s1[0] == s2[0] == before[0];
      assert s1[1..] == before[1..] + [last] + after1;
      assert s2[1..] == before[1..] + [last] + after2;
      if stopAt > 0 {
        DoneEndsStream(before[1..], last, after1, after2, stopAt - 1);
      }
    }
  }

  /** Once stop() has landed before line k, the run behaves as if the stream ended at k. */
  lemma {:induction false} StopActsAsEndOfStream(lines: seq<Line>, k: nat)
    requires k < |lines| && !lines[k].Fault?
    ensures GenerationEvents(lines, k) == GenerationEvents(lines[..k], k)
    decreases k
  {
    if k == 0 {
      assert lines[..0] == [];
    } else {
      assert lines[..k][0] == lines[0] && lines[..k][1..] == lines[1..][..k - 1];
      StopActsAsEndOfStream(lines[1..], k - 1);
    }
  }

  /**
   * A run that stop() reaches ends with finished, an ordinary end, after the
   * tokens of the lines before it: there is no separate cancelled signal.
   */
  lemma {:induction false} StoppedRunFinishes(lines: seq<Line>, k: nat)
    requires k < |lines| && StopLands(lines, k)
    ensures GenerationEvents(lines, k) == TokenEvents(Responses(lines[..k])) + [Finished]
    decreases k
  {
    if k == 0 {
      assert lines[..0] == [];
    } else {
      var before := lines[1..][..k - 1];
      var first := ResponseOf(lines[0]);
      calc {
        GenerationEvents(lines, k);
        { ContinuingLine(lines, k); }
        TokenEvents(first) + GenerationEvents(lines[1..], k - 1);
        { StoppedRunFinishes(lines[1..], k - 1); }
        TokenEvents(first) + (TokenEvents(Responses(before)) + [Finished]);
        (TokenEvents(first) + TokenEvents(Responses(before))) + [Finished];
        { TokenEventsOfConcat(first, Responses(before)); }
        TokenEvents(first + Responses(before)) + [Finished];
        { ResponsesOfPrefix(lines, k); }
        TokenEvents(Responses(lines[..k])) + [Finished];
      }
    }
  }

  /** A line the loop goes on after emits its response as a token and hands over to the next line. */
  lemma ContinuingLine(lines: seq<Line>, k: nat)
    requires lines != [] && k > 0 && Continues(lines[0])
    ensures GenerationEvents(lines, k) == TokenEvents(ResponseOf(lines[0])) + GenerationEvents(lines[1..], k - 1)
  {
  }

  /** A line whose `done` is true emits its response as a token, then finished. */
  lemma DoneLine(lines: seq<Line>, k: nat)
    requires lines != [] && k > 0 && lines[0].Record? && lines[0].done
    ensures GenerationEvents(lines, k) == TokenEvents(ResponseOf(lines[0])) + [Finished]
  {
  }

  lemma ResponsesOfPrefix(lines: seq<Line>, n: nat)
    requires 0 < n <= |lines|
    ensures Responses(lines[..n]) == ResponseOf(lines[0]) + Responses(lines[1..][..n - 1])
  {
    assert lines[..n][0] == lines[0] && lines[..n][1..] == lines[1..][..n - 1];
  }

  /** A stop() that would land past the last line has no effect. */
  lemma {:induction false} LateStopIsNoStop(lines: seq<Line>, stopAt: nat)
    requires stopAt >= |lines|
    ensures GenerationEvents(lines, stopAt) == GenerationEvents(lines, |lines|)
    decreases |lines|
  {
    if lines != [] {
      LateStopIsNoStop(lines[1..], stopAt - 1);
    }
  }

  /** A blank line is skipped: it takes one is_running check and has no other effect. */
  lemma {:induction false} BlankLinesAreSkipped(before: seq<Line>, after: seq<Line>, stopAt: nat)
    requires stopAt > |before|
    ensures GenerationEvents(before + [Blank] + after, stopAt) == GenerationEvents(before + after, stopAt - 1)
    decreases |before|
  {
    var s1, s2 := before + [Blank] + after, before + after;
    if before == [] {
      assert s1[0] == Blank && s1[1..] == after && s2 == after;
    } else {
      assert s1[0] == s2[0] == before[0];
      assert s1[1..] == before[1..] + [Blank] + after;
      assert s2[1..] == before[1..] + after;
      BlankLinesAreSkipped(before[1..], after, stopAt - 1);
    }
  }

  /**
   * A well-formed stream read to its end, or to a line whose `done` is true:
   * the `response` fields as tokens, then finished, and no error.
   */
  lemma {:induction false} CompleteGeneration(before: seq<Line>, tail: seq<Line>, stopAt: nat)
    requires forall j :: 0 <= j < |before| ==> Continues(before[j])
    requires tail == [] || (|tail| == 1 && tail[0].Record? && tail[0].done)
    requires stopAt >= |before| + |tail|
    ensures GenerationEvents(before + tail, stopAt) == TokenEvents(Responses(before + tail)) + [Finished]
    decreases |before|
  {
    var s := before + tail;
    if before == [] {
      assert s == tail;
      if tail != [] {
        DoneLine(tail, stopAt);
        assert Responses(tail) == ResponseOf(tail[0]) + Responses([]);
      }
    } else {
      var text := TokenEvents(ResponseOf(s[0]));
      assert s[1..] == before[1..] + tail;
      calc {
        GenerationEvents(s, stopAt);
        { ContinuingLine(s, stopAt); }
        text + GenerationEvents(s[1..], stopAt - 1);
        { CompleteGeneration(before[1..], tail, stopAt - 1); }
        text + (TokenEvents(Responses(s[1..])) + [Finished]);
        (text + TokenEvents(Responses(s[1..]))) + [Finished];
        { TokenEventsOfConcat(ResponseOf(s[0]), Responses(s[1..])); }
        TokenEvents(ResponseOf(s[0]) + Responses(s[1..])) + [Finished];
        TokenEvents(Responses(s)) + [Finished];
      }
    }
  }

  /**
   * A malformed line that is processed, or a fault while fetching a line,
   * ends the run with error and without finished; the tokens emitted before
   * it stay emitted.
   */
  lemma {:induction false} BrokenLineFails(before: seq<Line>, broken: Line, after: seq<Line>, stopAt: nat)
    requires forall j :: 0 <= j < |before| ==> Continues(before[j])
    requires (broken.Malformed? && stopAt > |before|) || (broken.Fault? && stopAt >= |before|)
    ensures GenerationEvents(before + [broken] + after, stopAt)
            == TokenEvents(Responses(before)) + [Error(if broken.Fault? then broken.message else broken.reason)]
    decreases |before|
  {
    var s := before + [broken] + after;
    var failure := [Error(if broken.Fault? then broken.message else broken.reason)];
    if before == [] {
      assert s[0] == broken;
    } else {
      var text := TokenEvents(ResponseOf(before[0]));
      assert s[0] == before[0] && s[1..] == before[1..] + [broken] + after;
      calc {
        GenerationEvents(s, stopAt);
        { ContinuingLine(s, stopAt); }
        text + GenerationEvents(s[1..], stopAt - 1);
        { BrokenLineFails(before[1..], broken, after, stopAt - 1); }
        text + (TokenEvents(Responses(before[1..])) + failure);
        (text + TokenEvents(Responses(before[1..]))) + failure;
        { TokenEventsOfConcat(ResponseOf(before[0]), Responses(before[1..])); }
        TokenEvents(ResponseOf(before[0]) + Responses(before[1..])) + failure;
        TokenEvents(Responses(before)) + failure;
      }
    }
  }

  /** The three-line stream of a short answer: "Hel", "lo", then done. */
  lemma HelloScenario()
    ensures GenerationEvents([Record(Some("Hel"), false, None, None, None),
                              Record(Some("lo"), false, None, None, None),
                              Record(None, true, None, None, None)], 3)
            == [Token("Hel"), Token("lo"), Finished]
  {
  }

  // ---------------------------------------------------------------------------
  // Download: ModelDownloadWorker
  // ---------------------------------------------------------------------------

  /** A progress message: the status text alone, or the status with a percentage. */
  datatype Progress = StatusOnly(status: string) | WithPercent(status: string, percent: real)

  /** The signals of ModelDownloadWorker: progress(str), finished(), error(str). */
  datatype DownloadEvent = Progressed(report: Progress) | DownloadFinished | DownloadFailed(message: string)

  /** `completed / total * 100` when total is positive, else 0. */
  function Percent(total: int, completed: int): (p: real)
    ensures total > 0 ==> p * (total as real) == (completed as real) * 100.0
    ensures total <= 0 ==> p == 0.0
    ensures total > 0 && 0 <= completed <= total ==> 0.0 <= p <= 100.0
  {
    if total > 0 then (completed as real) / (total as real) * 100.0 else 0.0
  }

  /** The progress message of one record. */
  function ReportOf(status: Option<string>, total: Option<int>, completed: Option<int>): Progress {
    var text := status.GetOr("");
    if total.Some? && completed.Some? then WithPercent(text, Percent(total.value, completed.value))
    else StatusOnly(text)
  }

  /** The signals one run of the download loop emits; `stopAt` as for GenerationEvents. */
  function DownloadEvents(lines: seq<Line>, stopAt: nat): seq<DownloadEvent>
    decreases |lines|
  {
    if lines == [] then [DownloadFinished]
    else match lines[0]
      case Fault(message) => [DownloadFailed(message)]
      case Blank =>
        if stopAt == 0 then [DownloadFinished] else DownloadEvents(lines[1..], stopAt - 1)
      case Malformed(reason) =>
        if stopAt == 0 then [DownloadFinished] else [DownloadFailed(reason)]
      case Record(_, _, status, total, completed) =>
        if stopAt == 0 then [DownloadFinished]
        else [Progressed(ReportOf(status, total, completed))] + DownloadEvents(lines[1..], stopAt - 1)
  }

  function DownloadRun(response: Response, stopAt: nat): seq<DownloadEvent> {
    match response
    case Refused(message) => [DownloadFailed(message)]
    case Stream(lines) => DownloadEvents(lines, stopAt)
  }

  /** The progress messages of the records among `lines`, in order. */
  function Reports(lines: seq<Line>): seq<DownloadEvent> {
    if lines == [] then []
    else (if lines[0].Record? then [Progressed(ReportOf(lines[0].status, lines[0].total, lines[0].completed))] else [])
         + Reports(lines[1..])
  }

  /** A line after which the download loop goes on: the loop never stops on `done`. */
  predicate DownloadContinues(l: Line) {
    l.Blank? || l.Record?
  }

  /** The download loop gets as far as the is_running check of iteration `stopAt`. */
  predicate DownloadStopLands(lines: seq<Line>, stopAt: nat)
    decreases |lines|
  {
    lines != [] && !lines[0].Fault? && (stopAt == 0 || (DownloadContinues(lines[0]) && DownloadStopLands(lines[1..], stopAt - 1)))
  }

  /** A worker thread that pulls one model through /api/pull. */
  class ModelDownloadWorker {
    const modelName: string
    var isRunning: bool
    var started: bool        // QThread.start() has been called
    var emitted: seq<DownloadEvent>

    constructor (modelName: string)
      ensures this.modelName == modelName && isRunning && !started && emitted == []
    {
      this.modelName := modelName;
      isRunning := true;
      started := false;
      emitted := [];
    }

    /** QThread.start(): run() is scheduled on the worker thread. */
    method Start()
      modifies this`started
      ensures started
    {
      started := true;
    }

    method Stop()
      modifies this`isRunning
      ensures !isRunning
    {
      isRunning := false;
    }

    /** The body of run(); `response` and `stopAt` as for OllamaWorker.Run. */
    method Run(response: Response, stopAt: nat) returns (body: map<string, Json>)
      modifies this`isRunning, this`emitted
      ensures body == map["name" := JString(modelName), "stream" := JBool(true)]
      ensures emitted == old(emitted) + DownloadRun(response, if old(isRunning) then stopAt else 0)
      ensures isRunning == (old(isRunning) && !(response.Stream? && DownloadStopLands(response.lines, stopAt)))
    {
      body := map["name" := JString(modelName), "stream" := JBool(true)];
      if response.Refused? {
        emitted := emitted + [DownloadFailed(response.message)];
      } else {
        ReadProgress(response.lines, stopAt);
      }
    }

    /** The `for line in response.iter_lines()` loop of run(), then the finished signal. */
    method ReadProgress(lines: seq<Line>, stopAt: nat)
      modifies this`isRunning, this`emitted
      ensures emitted == old(emitted) + DownloadEvents(lines, if old(isRunning) then stopAt else 0)
      ensures isRunning == (old(isRunning) && !DownloadStopLands(lines, stopAt))
    {
      var pending := lines;  // what iter_lines() has yet to yield
      ghost var effective: nat := if isRunning then stopAt else 0;
      var i := 0;  // iterations begun
      while pending != []
        invariant i <= effective
        invariant isRunning == old(isRunning)
        invariant !isRunning ==> i == 0
        invariant old(isRunning) ==> DownloadStopLands(lines, stopAt) == DownloadStopLands(pending, stopAt - i)
        invariant old(emitted) + DownloadEvents(lines, effective) == emitted + DownloadEvents(pending, effective - i)
        decreases |pending|
      {
        var line, rest := pending[0], pending[1..];
        pending := rest;
        if line.Fault? {
          emitted := emitted + [DownloadFailed(line.message)];
          return;
        }
        if i == stopAt {
          Stop();
        }
        if !isRunning {
          break;
        }
        if line.Malformed? {
          emitted := emitted + [DownloadFailed(line.reason)];
          return;
        }
        if line.Record? {
          var report := ReportOf(line.status, line.total, line.completed);
          emitted := emitted + [Progressed(report)];
        }
        i := i + 1;
      }
      emitted := emitted + [DownloadFinished];
    }
  }

  // ---------------------------------------------------------------------------
  // Properties of the download loop
  // ---------------------------------------------------------------------------

  predicate DownloadTerminated(events: seq<DownloadEvent>) {
    && |events| >= 1
    && !events[|events| - 1].Progressed?
    && forall i :: 0 <= i < |events| - 1 ==> events[i].Progressed?
  }

  /** Every download run emits progress messages, then exactly one of finished or error. */
  lemma {:induction false} DownloadTerminatesOnce(lines: seq<Line>, stopAt: nat)
    ensures DownloadTerminated(DownloadEvents(lines, stopAt))
    decreases |lines|
  {
    if lines != [] && !lines[0].Fault? && stopAt > 0 && !lines[0].Malformed? {
      DownloadTerminatesOnce(lines[1..], stopAt - 1);
    }
  }

  /** A percentage is only reported for a record carrying both `total` and `completed`. */
  lemma ProgressMessageRules(status: Option<string>, total: Option<int>, completed: Option<int>)
    ensures ReportOf(status, total, completed).status == (if status.Some? then status.value else "")
    ensures ReportOf(status, total, completed).WithPercent? <==> total.Some? && completed.Some?
    ensures ReportOf(status, total, completed).WithPercent? && total.value > 0 ==>
              ReportOf(status, total, completed).percent * (total.value as real) == (completed.value as real) * 100.0
    ensures ReportOf(status, total, completed).WithPercent? && total.value <= 0 ==>
              ReportOf(status, total, completed).percent == 0.0
  {
  }

  /** The download loop does not stop on `done`: the flag has no effect on its signals. */
  lemma {:induction false} DownloadIgnoresDone(before: seq<Line>, r: Line, after: seq<Line>, stopAt: nat)
    requires r.Record?
    ensures DownloadEvents(before + [r.(done := true)] + after, stopAt)
            == DownloadEvents(before + [r.(done := false)] + after, stopAt)
    decreases |before|
  {
    var s1, s2 := before + [r.(done := true)] + after, before + [r.(done := false)] + after;
    if before == [] {
      assert s1[1..] == s2[1..] == after;
    } else {
      assert s1[0] == s2[0] == before[0];
      assert s1[1..] == before[1..] + [r.(done := true)] + after;
      assert s2[1..] == before[1..] + [r.(done := false)] + after;
      if stopAt > 0 {
        DownloadIgnoresDone(before[1..], r, after, stopAt - 1);
      }
    }
  }

  /**
   * A download stream without broken lines, read to its end: one progress
   * message per record, blank lines skipped, then finished.
   */
  lemma {:induction false} CompleteDownload(lines: seq<Line>, stopAt: nat)
    requires forall j :: 0 <= j < |lines| ==> DownloadContinues(lines[j])
    requires stopAt >= |lines|
    ensures DownloadEvents(lines, stopAt) == Reports(lines) + [DownloadFinished]
    decreases |lines|
  {
    if lines != [] {
      var head := if lines[0].Record? then [Progressed(ReportOf(lines[0].status, lines[0].total, lines[0].completed))] else [];
      assert DownloadEvents(lines, stopAt) == head + DownloadEvents(lines[1..], stopAt - 1);
      CompleteDownload(lines[1..], stopAt - 1);
    }
  }

  /** A broken line ends the download with error; the progress already reported stays. */
  lemma {:induction false} BrokenDownloadFails(before: seq<Line>, broken: Line, after: seq<Line>, stopAt: nat)
    requires forall j :: 0 <= j < |before| ==> DownloadContinues(before[j])
    requires (broken.Malformed? && stopAt > |before|) || (broken.Fault? && stopAt >= |before|)
    ensures DownloadEvents(before + [broken] + after, stopAt)
            == Reports(before) + [DownloadFailed(if broken.Fault? then broken.message else broken.reason)]
    decreases |before|
  {
    var s := before + [broken] + after;
    if before == [] {
      assert s[0] == broken;
    } else {
      assert s[0] == before[0] && s[1..] == before[1..] + [broken] + after;
      BrokenDownloadFails(before[1..], broken, after, stopAt - 1);
    }
  }

  /** Once stop() has landed before line k, the download behaves as if the stream ended at k. */
  lemma {:induction false} DownloadStopActsAsEndOfStream(lines: seq<Line>, k: nat)
    requires k < |lines| && !lines[k].Fault?
    ensures DownloadEvents(lines, k) == DownloadEvents(lines[..k], k)
    decreases k
  {
    if k == 0 {
      assert lines[..0] == [];
    } else {
      assert lines[..k][0] == lines[0] && lines[..k][1..] == lines[1..][..k - 1];
      DownloadStopActsAsEndOfStream(lines[1..], k - 1);
    }
  }

  /** completed = 50 of total = 200 is 25 percent; total = 0 reports 0. */
  lemma PercentExamples()
    ensures Percent(200, 50) == 25.0
    ensures Percent(0, 50) == 0.0
  {
  }
}
