// Whole sessions of the listening client, derived from the method contracts alone: a plain
// greeting, a successful and a failing tool call, a catalogue change between two queries,
// and an empty query whose completion call fails.

module Scenarios {
  import opened Text
  import opened Chat
  import opened Client20250316

  /** Connects a fresh client to "server.py" whose tool listing is `tools`. */
  method Connected(tools: seq<Tool>) returns (client: McpClient)
    ensures fresh(client) && client.Valid()
    ensures client.tools == tools && client.messages == [System(ToolsDescription(tools))]
    ensures !client.toolsUpdated
  {
    client := new McpClient();
    LauncherOfScript("server");
    assert "server" + ".py" == "server.py";
    var r := client.ConnectToServer("server.py", Success(tools));
  }

  /** No tools, no tool calls: the answer is the model's text and no Tool turn appears. */
  method Greeting()
  {
    var client := Connected([]);
    var first := Replied(Reply(Some("Hi there!"), []));
    var answer, requests := client.ProcessQuery("hello", first, (i, c) => ToolFailed("unused"), first);
    assert answer == "Hi there!";
    assert client.messages == [System(ToolsDescription([])), User("hello"), Assistant("Hi there!", [])];
    assert |requests| == 1 && requests[0] == ModelRequest([System(ToolsDescription([])), User("hello")], Some([]));
  }

  const weather := Tool("get_weather", "Current weather for a city", "{\"type\": \"object\"}")
  const paris := ToolCall("c1", "get_weather", "{\"city\": \"Paris\"}")

  /** One successful tool call: one Tool turn with the call's id, and its note before the final text. */
  method WeatherLookup()
  {
    var client := Connected([weather]);
    var history := client.messages;
    var query := "what's the weather in Paris?";
    var reply := Reply(None, [paris]);
    var lookup: ToolOracle := (i, c) => ToolOk("22C, sunny");
    var second := Replied(Reply(Some("It's 22C and sunny in Paris."), []));
    var answer, requests := client.ProcessQuery(query, Replied(reply), lookup, second);
    ConverseWithTools(history, query, ToolSpecs([weather]), reply, lookup, second);
    var outcomes := Outcomes([paris], lookup);
    assert outcomes == [ToolOk("22C, sunny")];
    assert ToolTurns([paris], outcomes) == [ToolResult("c1", "get_weather", "22C, sunny")];
    assert Notes([paris], outcomes) == [ResultNote("get_weather", "22C, sunny")];
    var withResult := history + [User(query), Assistant("", [paris]), ToolResult("c1", "get_weather", "22C, sunny")];
    assert client.messages == withResult + [Assistant("It's 22C and sunny in Paris.", [])];
    assert requests[1] == ModelRequest(withResult, None);
    var parts := [ResultNote("get_weather", "22C, sunny"), "It's 22C and sunny in Paris."];
    assert Lead(reply.content) + Notes([paris], outcomes) + Lead(second.reply.content) == parts;
    assert parts[1..] == ["It's 22C and sunny in Paris."];
    AnswerLayout(reply.content, [paris], outcomes, second.reply.content);
    assert answer == Join("\n", parts);
    assert answer == ResultNote("get_weather", "22C, sunny") + "\n" + "It's 22C and sunny in Paris.";
  }

  /** The same call failing: no Tool turn, an error note, and the second completion call still made. */
  method WeatherLookupFails()
  {
    var client := Connected([weather]);
    var history := client.messages;
    var query := "what's the weather in Paris?";
    var reply := Reply(None, [paris]);
    var lookup: ToolOracle := (i, c) => ToolFailed("timeout");
    var second := Replied(Reply(Some("Sorry, no weather."), []));
    var answer, requests := client.ProcessQuery(query, Replied(reply), lookup, second);
    ConverseWithTools(history, query, ToolSpecs([weather]), reply, lookup, second);
    var outcomes := Outcomes([paris], lookup);
    assert outcomes == [ToolFailed("timeout")];
    assert ToolTurns([paris], outcomes) == [];
    assert Notes([paris], outcomes) == [ErrorNote("get_weather", "timeout")];
    var withResult := history + [User(query), Assistant("", [paris])];
    assert client.messages == withResult + [Assistant("Sorry, no weather.", [])];
    assert requests[1] == ModelRequest(withResult, None);
    var parts := [ErrorNote("get_weather", "timeout"), "Sorry, no weather."];
    assert Lead(reply.content) + Notes([paris], outcomes) + Lead(second.reply.content) == parts;
    assert parts[1..] == ["Sorry, no weather."];
    AnswerLayout(reply.content, [paris], outcomes, second.reply.content);
    assert answer == Join("\n", parts);
    assert Join("\n", parts) == parts[0] + "\n" + parts[1];
    assert answer == ErrorNote("get_weather", "timeout") + "\n" + "Sorry, no weather.";
  }

  /** A tool-list change between two queries: the next query's system turn lists the new catalogue. */
  method CatalogueChange()
  {
    var toolA := Tool("a", "first tool", "{}");
    var toolB := Tool("b", "second tool", "{}");
    var client := Connected([toolA]);
    var listening := client.HandleMessage(Notice(ToolListChanged), Success([toolA, toolB]));
    assert listening && client.toolsUpdated && client.tools == [toolA, toolB];
    var reply := Replied(Reply(Some("ok"), []));
    var answer, requests := client.ProcessQuery("which tools?", reply, (i, c) => ToolFailed("unused"), reply);
    assert !client.toolsUpdated;
    assert client.messages[0] == System(ToolsDescription([toolA, toolB]));
    assert ToolsDescription([toolA, toolB]) == Entry(toolA) + "\n- " + Entry(toolB) by {
      ToolsDescriptionAt([toolA, toolB], 0);
      assert [toolA, toolB][1..] == [toolB];
      assert Entries([toolB]) == [Entry(toolB)];
    }
    assert requests[0].transcript[0] == client.messages[0];
  }

  /** An empty query is still appended and sent; a failing completion call only adds the error text. */
  method EmptyQueryModelDown()
  {
    var client := Connected([weather]);
    var history := client.messages;
    var down := ModelFailed("connection refused");
    var answer, requests := client.ProcessQuery("", down, (i, c) => ToolFailed("unused"), down);
    assert answer == "Error processing query: connection refused";
    assert client.messages == history + [User("")];
    assert |requests| == 1;
  }
}
