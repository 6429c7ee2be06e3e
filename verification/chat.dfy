// The conversation state shared by both versions of MCPClient: tool descriptors, transcript
// turns, the tool specification handed to the model, and one query's exchange with the
// model and the tool server once their answers are fixed.

module Chat {
  import opened Text

  datatype Option<+T> = None | Some(value: T)

  datatype Result<+T, +E> = Success(value: T) | Failure(error: E)

  /** A tool as the MCP server lists it. The input schema is JSON, kept as opaque text. */
  datatype Tool = Tool(name: string, description: string, inputSchema: string)

  /** One entry of the `tools` argument of a completion request; its "type" is always "function". */
  datatype FunctionSpec = FunctionSpec(name: string, description: string, parameters: string)

  /** A tool call the model asks for; `arguments` is the raw JSON text it produced. */
  datatype ToolCall = ToolCall(id: string, name: string, arguments: string)

  /**
   * One entry of `messages`.
   * System keeps only the tools section substituted into the fixed system prompt.
   * Assistant's `toolCalls` is empty exactly when the message has no "tool_calls" key:
   * the key is only added for a non-empty list of calls.
   */
  datatype Turn =
    | System(tools: string)
    | User(content: string)
    | Assistant(content: string, toolCalls: seq<ToolCall>)
    | ToolResult(callId: string, name: string, content: string)

  /** The model's message: its content (None when the API sends null) and its tool calls. */
  datatype Reply = Reply(content: Option<string>, toolCalls: seq<ToolCall>)

  /** What one completion call yields: a message, or the text of the exception it raised. */
  datatype ModelOutcome = Replied(reply: Reply) | ModelFailed(error: string)

  /**
   * What dispatching one tool call yields. Failure covers both an argument string that is
   * not JSON and an exception from `call_tool`; `content` is `str(result.content)`.
   */
  datatype ToolOutcome = ToolOk(content: string) | ToolFailed(error: string)

  /** The tool server seen from the client: the outcome of the i-th dispatch of a query. */
  type ToolOracle = (nat, ToolCall) -> ToolOutcome

  /**
   * A completion request: the transcript sent and, when present, the tool list offered
   * (always with tool choice "auto"); None means the call carries no tools at all.
   */
  datatype ModelRequest = ModelRequest(transcript: seq<Turn>, tools: Option<seq<FunctionSpec>>)

  /** The effect of one query: the new transcript, the returned text and the requests made. */
  datatype Exchange = Exchange(transcript: seq<Turn>, answer: string, requests: seq<ModelRequest>)

  /** Why `connect_to_server` fails: not a .py/.js path (ValueError), or the server side failed. */
  datatype ConnectError = NotAScript | ServerFailed(message: string)

  // ---------------------------------------------------------------------------------------
  // Launching the server

  /** The command that runs a server script: chosen by the path's extension. */
  function Launcher(path: string): (r: Option<string>)
    ensures r == Some("python") <==> EndsWith(path, ".py")
    ensures r == Some("node") <==> EndsWith(path, ".js")
    ensures r == None <==> !EndsWith(path, ".py") && !EndsWith(path, ".js")
  {
    if EndsWith(path, ".py") then Some("python")
    else if EndsWith(path, ".js") then Some("node")
    else None
  }

  /** Any file name with a .py or .js extension is accepted, with the matching launcher. */
  lemma {:induction false} LauncherOfScript(stem: string)
    ensures Launcher(stem + ".py") == Some("python")
    ensures Launcher(stem + ".js") == Some("node")
  {
    assert (stem + ".py")[|stem|..] == ".py";
    assert (stem + ".js")[|stem|..] == ".js";
  }

  // ---------------------------------------------------------------------------------------
  // The catalogue, rendered for the system prompt and for the completion API

  /** "name: description", one tool's line in the prompt. */
  function Entry(tool: Tool): string
  {
    tool.name + ": " + tool.description
  }

  function Entries(tools: seq<Tool>): (r: seq<string>)
    ensures |r| == |tools| && forall k :: 0 <= k < |tools| ==> r[k] == Entry(tools[k])
  {
    if tools == [] then [] else [Entry(tools[0])] + Entries(tools[1..])
  }

  /** The tools section of the system prompt: the entries joined by a newline and a dash. */
  function ToolsDescription(tools: seq<Tool>): string
  {
    Join("\n- ", Entries(tools))
  }

  /**
   * Tool `i`'s entry appears between the description of the tools before it and the
   * description of the tools after it: every tool is listed, in catalogue order.
   */
  lemma {:induction false} ToolsDescriptionAt(tools: seq<Tool>, i: nat)
    requires i < |tools|
    ensures ToolsDescription(tools) ==
      (if i == 0 then "" else ToolsDescription(tools[..i]) + "\n- ")
      + Entry(tools[i])
      + (if i == |tools| - 1 then "" else "\n- " + ToolsDescription(tools[i + 1..]))
  {
    var es := Entries(tools);
    JoinAt("\n- ", es, i);
    assert es[..i] == Entries(tools[..i]);
    assert es[i + 1..] == Entries(tools[i + 1..]);
  }

  /** The `tools` argument of the first completion call: one spec per tool, in order. */
  function ToolSpecs(tools: seq<Tool>): (r: seq<FunctionSpec>)
    ensures |r| == |tools|
    ensures forall k :: 0 <= k < |tools| ==>
      r[k].name == tools[k].name && r[k].description == tools[k].description
      && r[k].parameters == tools[k].inputSchema
  {
    if tools == [] then []
    else [FunctionSpec(tools[0].name, tools[0].description, tools[0].inputSchema)] + ToolSpecs(tools[1..])
  }

  /** Reading the tools back out of a spec list. */
  function ToolsOfSpecs(specs: seq<FunctionSpec>): seq<Tool>
  {
    if specs == [] then []
    else [Tool(specs[0].name, specs[0].description, specs[0].parameters)] + ToolsOfSpecs(specs[1..])
  }

  /** The spec list loses nothing: the catalogue can be read back from it. */
  lemma {:induction false} ToolSpecsRoundTrip(tools: seq<Tool>)
    ensures ToolsOfSpecs(ToolSpecs(tools)) == tools
  {
    if tools != [] {
      var specs := ToolSpecs(tools);
      assert specs[1..] == ToolSpecs(tools[1..]);
      ToolSpecsRoundTrip(tools[1..]);
    }
  }

  // ---------------------------------------------------------------------------------------
  // Tool dispatch

  /** `content or ""` */
  function ContentOr(content: Option<string>): string
  {
    if content.Some? then content.value else ""
  }

  function ResultNote(name: string, content: string): string
  {
    "\n[Tool " + name + " result: " + content + "]\n"
  }

  function ErrorNote(name: string, error: string): string
  {
    "\n[Error: Error executing tool " + name + ": " + error + "]\n"
  }

  /** The output note for one dispatched call. */
  function NoteFor(call: ToolCall, outcome: ToolOutcome): string
  {
    match outcome
    case ToolOk(content) => ResultNote(call.name, content)
    case ToolFailed(error) => ErrorNote(call.name, error)
  }

  /** The transcript turns for one dispatched call: one Tool turn on success, none on failure. */
  function TurnFor(call: ToolCall, outcome: ToolOutcome): seq<Turn>
  {
    match outcome
    case ToolOk(content) => [ToolResult(call.id, call.name, content)]
    case ToolFailed(_) => []
  }

  /** The outcomes of dispatching `calls` in request order: the i-th dispatch runs call i. */
  function Outcomes(calls: seq<ToolCall>, tool: ToolOracle): (r: seq<ToolOutcome>)
    ensures |r| == |calls|
    ensures forall k :: 0 <= k < |calls| ==> r[k] == tool(k, calls[k])
  {
    if calls == [] then [] else
      Outcomes(calls[..|calls| - 1], tool) + [tool(|calls| - 1, calls[|calls| - 1])]
  }

  /** The Tool turns appended while dispatching `calls`. */
  function ToolTurns(calls: seq<ToolCall>, outcomes: seq<ToolOutcome>): (r: seq<Turn>)
    requires |calls| == |outcomes|
    ensures |r| <= |calls|
    ensures forall k :: 0 <= k < |r| ==> r[k].ToolResult?
  {
    if calls == [] then [] else
      ToolTurns(calls[..|calls| - 1], outcomes[..|calls| - 1])
      + TurnFor(calls[|calls| - 1], outcomes[|calls| - 1])
  }

  /** The notes added to the output while dispatching `calls`: one per call, in order. */
  function Notes(calls: seq<ToolCall>, outcomes: seq<ToolOutcome>): (r: seq<string>)
    requires |calls| == |outcomes|
    ensures |r| == |calls|
    ensures forall k :: 0 <= k < |calls| ==> r[k] == NoteFor(calls[k], outcomes[k]) && r[k] != ""
  {
    if calls == [] then [] else
      Notes(calls[..|calls| - 1], outcomes[..|calls| - 1])
      + [NoteFor(calls[|calls| - 1], outcomes[|calls| - 1])]
  }

  /** The positions of the successful outcomes, in increasing order. */
  function SuccessIndices(outcomes: seq<ToolOutcome>): (r: seq<nat>)
    ensures forall j :: 0 <= j < |r| ==> r[j] < |outcomes| && outcomes[r[j]].ToolOk?
    ensures forall j, k :: 0 <= j < k < |r| ==> r[j] < r[k]
    ensures forall i :: 0 <= i < |outcomes| && outcomes[i].ToolOk? ==> i in r
  {
    if outcomes == [] then []
    else
      var n := |outcomes| - 1;
      SuccessIndices(outcomes[..n]) + (if outcomes[n].ToolOk? then [n] else [])
  }

  /**
   * The Tool turns answer exactly the successful calls, in request order: turn j carries
   * the id, the name and the result of the j-th successful call.
   */
  lemma {:induction false} ToolTurnsFollowSuccesses(calls: seq<ToolCall>, outcomes: seq<ToolOutcome>)
    requires |calls| == |outcomes|
    ensures |ToolTurns(calls, outcomes)| == |SuccessIndices(outcomes)|
    ensures forall j :: 0 <= j < |SuccessIndices(outcomes)| ==>
      var i := SuccessIndices(outcomes)[j];
      ToolTurns(calls, outcomes)[j] == ToolResult(calls[i].id, calls[i].name, outcomes[i].content)
  {
    if calls != [] {
      var n := |calls| - 1;
      ToolTurnsFollowSuccesses(calls[..n], outcomes[..n]);
      var turns := ToolTurns(calls[..n], outcomes[..n]);
      var before := SuccessIndices(outcomes[..n]);
      var all := SuccessIndices(outcomes);
      assert all == before + (if outcomes[n].ToolOk? then [n] else []);
      assert ToolTurns(calls, outcomes) == turns + TurnFor(calls[n], outcomes[n]);
      forall j | 0 <= j < |all|
        ensures ToolTurns(calls, outcomes)[j] == ToolResult(calls[all[j]].id, calls[all[j]].name, outcomes[all[j]].content)
      {
        if j < |before| {
          assert all[j] == before[j];
          assert calls[..n][before[j]] == calls[before[j]];
          assert outcomes[..n][before[j]] == outcomes[before[j]];
        }
      }
    }
  }

  /** Every dispatch that fails leaves the transcript alone. */
  lemma {:induction false} FailedCallsAddNoTurns(calls: seq<ToolCall>, outcomes: seq<ToolOutcome>)
    requires |calls| == |outcomes|
    requires forall k :: 0 <= k < |outcomes| ==> outcomes[k].ToolFailed?
    ensures ToolTurns(calls, outcomes) == []
  {
    if calls != [] {
      FailedCallsAddNoTurns(calls[..|calls| - 1], outcomes[..|calls| - 1]);
    }
  }

  /** Dispatching one more call extends the outcomes, the turns and the notes by that call's own. */
  lemma {:induction false} DispatchStep(calls: seq<ToolCall>, tool: ToolOracle, i: nat)
    requires i < |calls|
    ensures Outcomes(calls[..i + 1], tool) == Outcomes(calls[..i], tool) + [tool(i, calls[i])]
    ensures ToolTurns(calls[..i + 1], Outcomes(calls[..i + 1], tool))
            == ToolTurns(calls[..i], Outcomes(calls[..i], tool)) + TurnFor(calls[i], tool(i, calls[i]))
    ensures Notes(calls[..i + 1], Outcomes(calls[..i + 1], tool))
            == Notes(calls[..i], Outcomes(calls[..i], tool)) + [NoteFor(calls[i], tool(i, calls[i]))]
  {
    var longer := calls[..i + 1];
    assert longer[..i] == calls[..i] && longer[i] == calls[i];
    var outcomes := Outcomes(longer, tool);
    assert outcomes == Outcomes(calls[..i], tool) + [tool(i, calls[i])];
    assert outcomes[..i] == Outcomes(calls[..i], tool);
  }

  /**
   * The loop over the model's tool calls: each call in request order goes to the tool
   * server; a success adds a Tool turn and a result note, a failure adds only an error
   * note, and the loop always goes on to the next call.
   */
  method Dispatch(calls: seq<ToolCall>, tool: ToolOracle) returns (turns: seq<Turn>, notes: seq<string>)
    ensures turns == ToolTurns(calls, Outcomes(calls, tool))
    ensures notes == Notes(calls, Outcomes(calls, tool))
  {
    turns, notes := [], [];
    var i := 0;
    while i < |calls|
      invariant 0 <= i <= |calls|
      invariant turns == ToolTurns(calls[..i], Outcomes(calls[..i], tool))
      invariant notes == Notes(calls[..i], Outcomes(calls[..i], tool))
    {
      var call := calls[i];
      var outcome := tool(i, call);
      match outcome {
        case ToolOk(content) =>
          turns := turns + [ToolResult(call.id, call.name, content)];
          notes := notes + [ResultNote(call.name, content)];
        case ToolFailed(error) =>
          notes := notes + [ErrorNote(call.name, error)];
      }
      DispatchStep(calls, tool, i);
      i := i + 1;
    }
    assert calls[..i] == calls;
  }

  // ---------------------------------------------------------------------------------------
  // The returned text

  /** `[content] if content else []` */
  function Lead(content: Option<string>): seq<string>
  {
    if ContentOr(content) == "" then [] else [ContentOr(content)]
  }

  /** `"\n".join(filter(None, final_text))` for the first content, the notes and the final content. */
  function Answer(first: Option<string>, notes: seq<string>, final: Option<string>): string
  {
    Join("\n", NonEmpty(Lead(first) + notes + [ContentOr(final)]))
  }

  /** The text returned when a completion call raises. */
  function QueryError(error: string): string
  {
    "Error processing query: " + error
  }

  /**
   * The answer after tool use: the first content when non-empty, then one note per call,
   * then the final content when non-empty, separated by newlines; with both contents
   * present it reads first content, newline, notes, newline, final content.
   */
  lemma {:induction false} AnswerLayout(first: Option<string>, calls: seq<ToolCall>, outcomes: seq<ToolOutcome>, final: Option<string>)
    requires |calls| == |outcomes|
    ensures Answer(first, Notes(calls, outcomes), final) == Join("\n", Lead(first) + Notes(calls, outcomes) + Lead(final))
    ensures calls != [] && ContentOr(first) != "" && ContentOr(final) != "" ==>
      Answer(first, Notes(calls, outcomes), final)
      == ContentOr(first) + "\n" + Join("\n", Notes(calls, outcomes)) + "\n" + ContentOr(final)
  {
    var notes := Notes(calls, outcomes);
    var last := [ContentOr(final)];
    NonEmptyAppend(Lead(first) + notes, last);
    NonEmptyAppend(Lead(first), notes);
    NonEmptyKeepsAll(Lead(first));
    NonEmptyKeepsAll(notes);
    assert NonEmpty(last) == Lead(final) by {
      assert last[1..] == [];
    }
    if calls != [] && ContentOr(first) != "" && ContentOr(final) != "" {
      JoinAppend("\n", Lead(first), notes);
      JoinAppend("\n", Lead(first) + notes, Lead(final));
    }
  }

  // ---------------------------------------------------------------------------------------
  // One query

  /**
   * What `process_query` does once the catalogue refresh (if any) is done: `history` is the
   * transcript at that point and `specs` the tool list offered to the model. The user turn is
   * appended first; a failing completion call ends the query with an error text and appends
   * nothing more; without tool calls the assistant turn's content is returned; otherwise the
   * calls are dispatched and a second completion call, offered no tools, gives the final
   * assistant turn.
   */
  function Converse(history: seq<Turn>, query: string, specs: seq<FunctionSpec>,
                    first: ModelOutcome, tool: ToolOracle, second: ModelOutcome): (x: Exchange)
    ensures history + [User(query)] <= x.transcript
    ensures 1 <= |x.requests| <= 2
    ensures x.requests[0] == ModelRequest(history + [User(query)], Some(specs))
    ensures |x.requests| == 2 ==> x.requests[1].tools == None && x.requests[1].transcript <= x.transcript
    ensures first.ModelFailed? ==>
      x.transcript == history + [User(query)] && x.answer == QueryError(first.error) && |x.requests| == 1
    ensures first.Replied? && first.reply.toolCalls == [] ==>
      x.transcript == history + [User(query), Assistant(ContentOr(first.reply.content), [])]
      && x.answer == ContentOr(first.reply.content) && |x.requests| == 1
  {
    var asked := history + [User(query)];
    var request := ModelRequest(asked, Some(specs));
    match first
    case ModelFailed(error) => Exchange(asked, QueryError(error), [request])
    case Replied(message) =>
      var answered := asked + [Assistant(ContentOr(message.content), message.toolCalls)];
      if message.toolCalls == [] then
        Exchange(answered, ContentOr(message.content), [request])
      else
        var outcomes := Outcomes(message.toolCalls, tool);
        var withResults := answered + ToolTurns(message.toolCalls, outcomes);
        var followUp := ModelRequest(withResults, None);
        match second
        case ModelFailed(error) => Exchange(withResults, QueryError(error), [request, followUp])
        case Replied(finalMessage) =>
          Exchange(withResults + [Assistant(ContentOr(finalMessage.content), [])],
                   Answer(message.content, Notes(message.toolCalls, outcomes), finalMessage.content),
                   [request, followUp])
  }

  /**
   * A query whose model asks for tools: the user turn, the assistant turn with the calls,
   * the Tool turns of the dispatch (one per successful call in request order, by
   * ToolTurnsFollowSuccesses), then (unless the second completion call fails) one final
   * assistant turn without calls; the second request sees every Tool turn; the answer lays
   * out the first content, the notes and the final content.
   */
  lemma {:induction false} ConverseWithTools(history: seq<Turn>, query: string, specs: seq<FunctionSpec>,
                                             reply: Reply, tool: ToolOracle, second: ModelOutcome)
    requires reply.toolCalls != []
    ensures var x := Converse(history, query, specs, Replied(reply), tool, second);
      var outcomes := Outcomes(reply.toolCalls, tool);
      var withResults := history + [User(query), Assistant(ContentOr(reply.content), reply.toolCalls)]
                         + ToolTurns(reply.toolCalls, outcomes);
      && |x.requests| == 2
      && x.requests[1] == ModelRequest(withResults, None)
      && (second.ModelFailed? ==> x.transcript == withResults && x.answer == QueryError(second.error))
      && (second.Replied? ==>
            x.transcript == withResults + [Assistant(ContentOr(second.reply.content), [])]
            && x.answer == Join("\n", Lead(reply.content) + Notes(reply.toolCalls, outcomes) + Lead(second.reply.content)))
  {
    var x := Converse(history, query, specs, Replied(reply), tool, second);
    var outcomes := Outcomes(reply.toolCalls, tool);
    var turns := ToolTurns(reply.toolCalls, outcomes);
    var asked := history + [User(query)];
    var withResults := asked + [Assistant(ContentOr(reply.content), reply.toolCalls)] + turns;
    assert history + [User(query), Assistant(ContentOr(reply.content), reply.toolCalls)] + turns == withResults;
    assert x.requests == [ModelRequest(asked, Some(specs)), ModelRequest(withResults, None)];
    if second.Replied? {
      AnswerLayout(reply.content, reply.toolCalls, outcomes, second.reply.content);
    }
  }

  // ---------------------------------------------------------------------------------------
  // The transcript invariant

  /** The calls of the assistant turn that a Tool turn appended after `prefix` would answer. */
  function OpenCalls(prefix: seq<Turn>): seq<ToolCall>
  {
    if prefix == [] then []
    else match prefix[|prefix| - 1]
      case ToolResult(_, _, _) => OpenCalls(prefix[..|prefix| - 1])
      case Assistant(_, calls) => calls
      case _ => []
  }

  /** A Tool turn carries the id and the name of one of `calls`; other turns answer nothing. */
  predicate Answers(calls: seq<ToolCall>, t: Turn)
  {
    t.ToolResult? ==> exists c :: c in calls && c.id == t.callId && c.name == t.name
  }

  /**
   * Turn 0 is the only System turn, and every Tool turn follows, after nothing but other
   * Tool turns, an assistant turn that requested a call with its id and name.
   */
  predicate WellFormed(messages: seq<Turn>)
  {
    && messages != []
    && messages[0].System?
    && (forall i :: 0 < i < |messages| ==> !messages[i].System?)
    && (forall i :: 0 <= i < |messages| ==> AnsweredAt(messages, i))
  }

  /** The turn at position `i` answers the calls open before it. */
  predicate AnsweredAt(messages: seq<Turn>, i: nat)
    requires i < |messages|
  {
    Answers(OpenCalls(messages[..i]), messages[i])
  }

  /** The transcript right after connecting is well formed. */
  lemma SeededIsWellFormed(tools: string)
    ensures WellFormed([System(tools)])
  {
    assert [System(tools)][..0] == [];
  }

  lemma {:induction false} AppendKeepsWellFormed(messages: seq<Turn>, t: Turn)
    requires WellFormed(messages)
    requires !t.System? && Answers(OpenCalls(messages), t)
    ensures WellFormed(messages + [t])
    ensures t.ToolResult? ==> OpenCalls(messages + [t]) == OpenCalls(messages)
  {
    var m := messages + [t];
    assert m[..|messages|] == messages;
    assert AnsweredAt(m, |messages|);
    forall i | 0 <= i < |messages|
      ensures AnsweredAt(m, i)
    {
      assert m[..i] == messages[..i];
      assert AnsweredAt(messages, i);
    }
  }

  /** Tool turns for calls among the open ones keep the transcript well formed and those calls open. */
  lemma {:induction false} ToolTurnsKeepWellFormed(messages: seq<Turn>, calls: seq<ToolCall>, outcomes: seq<ToolOutcome>)
    requires WellFormed(messages)
    requires |calls| == |outcomes|
    requires forall c :: c in calls ==> c in OpenCalls(messages)
    ensures WellFormed(messages + ToolTurns(calls, outcomes))
    ensures OpenCalls(messages + ToolTurns(calls, outcomes)) == OpenCalls(messages)
  {
    if calls == [] {
      assert messages + ToolTurns(calls, outcomes) == messages;
    } else {
      var n := |calls| - 1;
      assert forall c :: c in calls[..n] ==> c in calls;
      ToolTurnsKeepWellFormed(messages, calls[..n], outcomes[..n]);
      var before := messages + ToolTurns(calls[..n], outcomes[..n]);
      var added := TurnFor(calls[n], outcomes[n]);
      assert ToolTurns(calls, outcomes) == ToolTurns(calls[..n], outcomes[..n]) + added;
      assert messages + ToolTurns(calls, outcomes) == before + added;
      if outcomes[n].ToolOk? {
        var t := ToolResult(calls[n].id, calls[n].name, outcomes[n].content);
        assert added == [t];
        assert calls[n] in OpenCalls(before);
        assert Answers(OpenCalls(before), t);
        AppendKeepsWellFormed(before, t);
      } else {
        assert before + added == before;
      }
    }
  }

  /** One query keeps the transcript well formed, whatever the model and the tools answer. */
  lemma {:induction false} ConverseKeepsWellFormed(history: seq<Turn>, query: string, specs: seq<FunctionSpec>,
                                                   first: ModelOutcome, tool: ToolOracle, second: ModelOutcome)
    requires WellFormed(history)
    ensures WellFormed(Converse(history, query, specs, first, tool, second).transcript)
  {
    var asked := history + [User(query)];
    AppendKeepsWellFormed(history, User(query));
    if first.Replied? {
      var message := first.reply;
      var answered := asked + [Assistant(ContentOr(message.content), message.toolCalls)];
      AppendKeepsWellFormed(asked, Assistant(ContentOr(message.content), message.toolCalls));
      if message.toolCalls != [] {
        var calls := message.toolCalls;
        var outcomes := Outcomes(calls, tool);
        assert answered[..|answered| - 1] == asked;
        ToolTurnsKeepWellFormed(answered, calls, outcomes);
        var withResults := answered + ToolTurns(calls, outcomes);
        if second.Replied? {
          AppendKeepsWellFormed(withResults, Assistant(ContentOr(second.reply.content), []));
        }
      }
    }
  }

  /** Which System turn sits at position 0 makes no difference to the open calls. */
  lemma {:induction false} OpenCallsIgnoreTurnZero(messages: seq<Turn>, tools: string, i: nat)
    requires messages != [] && messages[0].System?
    requires i <= |messages|
    ensures OpenCalls(messages[0 := System(tools)][..i]) == OpenCalls(messages[..i])
  {
    var m := messages[0 := System(tools)];
    if i > 1 {
      assert m[..i][..i - 1] == m[..i - 1];
      assert messages[..i][..i - 1] == messages[..i - 1];
      OpenCallsIgnoreTurnZero(messages, tools, i - 1);
    } else if i == 1 {
      assert m[..1][..0] == [] && messages[..1][..0] == [];
    }
  }

  /** Rewriting the system turn keeps the transcript well formed. */
  lemma {:induction false} ReplaceSystemKeepsWellFormed(messages: seq<Turn>, tools: string)
    requires WellFormed(messages)
    ensures WellFormed(messages[0 := System(tools)])
  {
    var m := messages[0 := System(tools)];
    forall i | 0 <= i < |m|
      ensures AnsweredAt(m, i)
    {
      assert AnsweredAt(messages, i);
      OpenCallsIgnoreTurnZero(messages, tools, i);
    }
  }
}
