// MCPClient as first written (client.py): the catalogue is fetched once, at connect time,
// and every query appends to the transcript.

module Client {
  import opened Text
  import opened Chat

  class McpClient {
    /** The conversation history sent with every completion call. */
    var messages: seq<Turn>
    /** The catalogue listed by the server at connect time. */
    var tools: seq<Tool>

    /** Connected: the transcript starts with the system turn and stays well formed. */
    ghost predicate Valid()
      reads this
    {
      WellFormed(messages)
    }

    constructor ()
      ensures messages == [] && tools == []
    {
      messages := [];
      tools := [];
    }

    /**
     * Connects to the server script at `path`. `server` is what starting it with the chosen
     * launcher, the handshake and the tool listing produce. A path that is neither .py nor .js,
     * or a server that fails, leaves the client as it was; otherwise the catalogue is stored
     * and the transcript becomes the single system turn built from it.
     */
    method ConnectToServer(path: string, server: Result<seq<Tool>, string>) returns (r: Result<string, ConnectError>)
      modifies this
      ensures Launcher(path).None? ==> r == Failure(NotAScript) && unchanged(this)
      ensures Launcher(path).Some? && server.Failure? ==>
        r == Failure(ServerFailed(server.error)) && unchanged(this)
      ensures Launcher(path).Some? && server.Success? ==>
        && r == Success(Launcher(path).value)
        && tools == server.value
        && messages == [System(ToolsDescription(server.value))]
        && Valid()
    {
      var command := Launcher(path);
      if command.None? {
        return Failure(NotAScript);
      }
      if server.Failure? {
        return Failure(ServerFailed(server.error));
      }
      tools := server.value;
      messages := [System(ToolsDescription(tools))];
      SeededIsWellFormed(ToolsDescription(tools));
      r := Success(command.value);
    }

    /**
     * Answers one query. `first` and `second` are the outcomes of the two completion calls and
     * `tool` the tool server's answers. The user turn is appended before anything else; the
     * rest of the transcript, the answer and the requests sent are those of Converse. Nothing
     * stops a call before connecting; a connected client stays well formed.
     */
    method ProcessQuery(query: string, first: ModelOutcome, tool: ToolOracle, second: ModelOutcome)
      returns (answer: string, requests: seq<ModelRequest>)
      modifies this
      ensures old(Valid()) ==> Valid()
      ensures tools == old(tools)
      ensures old(messages) + [User(query)] <= messages
      ensures Exchange(messages, answer, requests) == Converse(old(messages), query, ToolSpecs(tools), first, tool, second)
    {
      ghost var history := messages;
      ghost var x := Converse(history, query, ToolSpecs(tools), first, tool, second);
      messages := messages + [User(query)];
      var availableTools := ToolSpecs(tools);
      var request := ModelRequest(messages, Some(availableTools));
      requests := [request];
      match first {
        case ModelFailed(error) =>
          answer := QueryError(error);
          assert messages == x.transcript && answer == x.answer && requests == x.requests;
        case Replied(message) =>
          messages := messages + [Assistant(ContentOr(message.content), message.toolCalls)];
          if message.toolCalls == [] {
            answer := ContentOr(message.content);
            assert messages == x.transcript && answer == x.answer && requests == x.requests;
          } else {
            var finalText := Lead(message.content);
            var toolTurns, notes := Dispatch(message.toolCalls, tool);
            messages := messages + toolTurns;
            finalText := finalText + notes;
            requests := [request, ModelRequest(messages, None)];
            match second {
              case ModelFailed(error) =>
                answer := QueryError(error);
                assert messages == x.transcript && answer == x.answer && requests == x.requests;
              case Replied(finalMessage) =>
                messages := messages + [Assistant(ContentOr(finalMessage.content), [])];
                finalText := finalText + [ContentOr(finalMessage.content)];
                answer := Join("\n", NonEmpty(finalText));
                assert messages == x.transcript && answer == x.answer && requests == x.requests;
            }
          }
      }
      if WellFormed(history) {
        ConverseKeepsWellFormed(history, query, ToolSpecs(tools), first, tool, second);
      }
    }
  }
}
