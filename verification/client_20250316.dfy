// MCPClient with a notification listener (client_20250316.py): the server may announce that
// its tool list changed; the listener re-lists the tools and marks the catalogue dirty, and
// the next query rebuilds the system turn from the new catalogue before anything else.

module Client20250316 {
  import opened Text
  import opened Chat

  /** Server notifications the listener tells apart. */
  datatype Notification =
    | ToolListChanged
    | ResourceUpdated(uri: string)
    | ResourceListChanged
    | PromptListChanged
    | Progress(token: string, progress: string, total: string)
    | Cancelled(requestId: string)
    | LoggingMessage(level: string, message: string)
    | OtherNotification(raw: string)

  /** Server requests the listener tells apart; none of them is answered. */
  datatype ServerRequest = CreateMessage | ListRoots | Ping | OtherRequest(raw: string)

  /** One item of the session's incoming stream. */
  datatype Incoming =
    | StreamError(text: string)
    | Notice(notification: Notification)
    | Request(request: ServerRequest)
    | OtherMessage(raw: string)

  class McpClient {
    /** The conversation history sent with every completion call. */
    var messages: seq<Turn>
    /** The latest catalogue listed by the server. */
    var tools: seq<Tool>
    /** Set when the catalogue changed after the system turn was last built. */
    var toolsUpdated: bool

    /**
     * Connected: the transcript is well formed, and unless the catalogue is marked dirty,
     * the system turn lists exactly the current catalogue.
     */
    ghost predicate Valid()
      reads this
    {
      WellFormed(messages) && (toolsUpdated || messages[0] == System(ToolsDescription(tools)))
    }

    constructor ()
      ensures messages == [] && tools == [] && !toolsUpdated
    {
      messages := [];
      tools := [];
      toolsUpdated := false;
    }

    /**
     * Connects to the server script at `path`, as in the first version; the listener is
     * started before the tools are listed, so the dirty flag is left as the listener set it.
     */
    method ConnectToServer(path: string, server: Result<seq<Tool>, string>) returns (r: Result<string, ConnectError>)
      modifies this
      ensures Launcher(path).None? ==> r == Failure(NotAScript) && unchanged(this)
      ensures Launcher(path).Some? && server.Failure? ==>
        r == Failure(ServerFailed(server.error)) && unchanged(this)
      ensures Launcher(path).Some? && server.Success? ==>
        && r == Success(Launcher(path).value)
        && tools == server.value
        && messages == [System(ToolsDescription(server.value))]
        && toolsUpdated == old(toolsUpdated)
        && Valid()
    {
      var command := Launcher(path);
      if command.None? {
        return Failure(NotAScript);
      }
      if server.Failure? {
        return Failure(ServerFailed(server.error));
      }
      tools := server.value;
      messages := [System(ToolsDescription(tools))];
      SeededIsWellFormed(ToolsDescription(tools));
      r := Success(command.value);
    }

    /**
     * The listener's reaction to one incoming item. `relisted` is the outcome of listing the
     * tools again, consulted only for a tool-list-changed notification: on success the
     * catalogue is replaced wholesale and marked dirty; on failure the listener stops. Every
     * other item changes nothing and the listener goes on.
     */
    method HandleMessage(message: Incoming, relisted: Result<seq<Tool>, string>) returns (listening: bool)
      modifies this
      ensures message == Notice(ToolListChanged) && relisted.Success? ==>
        tools == relisted.value && toolsUpdated && messages == old(messages) && listening
      ensures message == Notice(ToolListChanged) && relisted.Failure? ==>
        unchanged(this) && !listening
      ensures message != Notice(ToolListChanged) ==> unchanged(this) && listening
      ensures old(Valid()) ==> Valid()
    {
      match message {
        case Notice(ToolListChanged) =>
          match relisted {
            case Success(listed) =>
              tools := listed;
              toolsUpdated := true;
              listening := true;
            case Failure(_) =>
              listening := false;
          }
        case _ =>
          listening := true;
      }
    }

    /**
     * The check at the start of a query: a dirty catalogue rewrites the system turn in place
     * and clears the flag; a clean one leaves the transcript untouched, so a second refresh
     * with no notification in between changes nothing. Either way the system turn then lists
     * the current catalogue.
     */
    method RefreshSystemTurn()
      requires Valid()
      modifies this
      ensures Valid() && !toolsUpdated && tools == old(tools)
      ensures messages[0] == System(ToolsDescription(tools))
      ensures old(toolsUpdated) ==> messages == old(messages)[0 := System(ToolsDescription(tools))]
      ensures !old(toolsUpdated) ==> messages == old(messages)
    {
      if toolsUpdated {
        ReplaceSystemKeepsWellFormed(messages, ToolsDescription(tools));
        messages := messages[0 := System(ToolsDescription(tools))];
        toolsUpdated := false;
      }
    }

    /**
     * Answers one query: the refresh, then the user turn, then the exchange of Converse with
     * the current catalogue offered to the first completion call.
     */
    method ProcessQuery(query: string, first: ModelOutcome, tool: ToolOracle, second: ModelOutcome)
      returns (answer: string, requests: seq<ModelRequest>)
      requires Valid()
      modifies this
      ensures Valid() && tools == old(tools) && !toolsUpdated
      ensures messages[0] == System(ToolsDescription(tools))
      ensures var refreshed := if old(toolsUpdated) then old(messages)[0 := System(ToolsDescription(tools))]
                               else old(messages);
        && refreshed + [User(query)] <= messages
        && Exchange(messages, answer, requests) == Converse(refreshed, query, ToolSpecs(tools), first, tool, second)
    {
      RefreshSystemTurn();
      ghost var history := messages;
      assert history == if old(toolsUpdated) then old(messages)[0 := System(ToolsDescription(tools))] else old(messages);
      ghost var x := Converse(history, query, ToolSpecs(tools), first, tool, second);
      messages := messages + [User(query)];
      var availableTools := ToolSpecs(tools);
      var request := ModelRequest(messages, Some(availableTools));
      requests := [request];
      match first {
        case ModelFailed(error) =>
          answer := QueryError(error);
          assert messages == x.transcript && answer == x.answer && requests == x.requests;
        case Replied(message) =>
          messages := messages + [Assistant(ContentOr(message.content), message.toolCalls)];
          if message.toolCalls == [] {
            answer := ContentOr(message.content);
            assert messages == x.transcript && answer == x.answer && requests == x.requests;
          } else {
            var finalText := Lead(message.content);
            var toolTurns, notes := Dispatch(message.toolCalls, tool);
            messages := messages + toolTurns;
            finalText := finalText + notes;
            requests := [request, ModelRequest(messages, None)];
            match second {
              case ModelFailed(error) =>
                answer := QueryError(error);
                assert messages == x.transcript && answer == x.answer && requests == x.requests;
              case Replied(finalMessage) =>
                messages := messages + [Assistant(ContentOr(finalMessage.content), [])];
                finalText := finalText + [ContentOr(finalMessage.content)];
                answer := Join("\n", NonEmpty(finalText));
                assert messages == x.transcript && answer == x.answer && requests == x.requests;
            }
          }
      }
      ConverseKeepsWellFormed(history, query, ToolSpecs(tools), first, tool, second);
      assert messages[0] == history[0];
    }
  }
}
