# MCP client conversation model

A Dafny model of `MCPClient`, the command-line chat client that connects a DeepSeek
(OpenAI-compatible) chat model to the tools of an MCP server. Two versions of the client
are modelled:

- `client.py`: the tool catalogue is listed once, at connect time, and rendered into the
  system turn of the transcript;
- `client_20250316.py`: a listener reacts to the server's notifications. When the tool list
  changes it lists the tools again and marks the catalogue dirty, and the next query rewrites
  the system turn in place before anything else.

What is modelled is the conversation state: the transcript (`messages`), the catalogue
(`tools`), the dirty flag (`tools_updated`), and what one query does to them. The completion
calls and the tool server are not run; their answers are inputs (`ModelOutcome`,
`ToolOracle`). Each query's effect is specified by the pure function `Chat.Converse`, and
both `process_query` methods are proved to match it.

Modules:

- `Text` (`text.dfy`): the Python string operations the client relies on, with their own
  lemmas: `str.join`, `filter(None, ...)`, `str.strip()`, and `str.lower()` on ASCII.
- `Chat` (`chat.dfy`): the entities (tools, tool calls, transcript turns, requests), the
  launcher choice, the catalogue rendering, tool dispatch, the answer text and `Converse`.
  It also holds the transcript invariant `WellFormed`: turn 0 is the only system turn, and
  every tool turn answers a call requested by the assistant turn before it.
- `Client` (`client.dfy`): the first `MCPClient` as a class whose methods update
  `messages` and `tools`.
- `Client20250316` (`client_20250316.dfy`): the listening `MCPClient`, with `tools_updated`,
  the listener's reaction to one incoming item, and the refresh at the start of a query.
- `ChatLoop` (`chat_loop.dfy`): `chat_loop`. A line is read, stripped and compared with
  "quit" case-insensitively; any other line goes to `process_query`. Both versions of the
  client have the same loop.
- `Scenarios` (`scenarios.dfy`): concrete sessions of the listening client, derived from the
  method contracts alone.

## Model

| member | source | states |
|---|---|---|
| Chat.Launcher | client_20250316.py:45-50 | a path ending in .py runs with "python", one ending in .js with "node", and any other path is refused; each case holds exactly when its extension condition holds |
| Chat.LauncherOfScript | client.py:39-44 | every file name with a .py or .js extension is accepted, with the matching launcher |
| Chat.ToolsDescriptionAt | client_20250316.py:78 | the tools section lists every tool as "name: description" in catalogue order, separated by a newline and a dash |
| Chat.ToolSpecs | client_20250316.py:201-208 | the tool list offered to the model has one function spec per tool, in order, carrying that tool's name, description and input schema |
| Chat.ToolSpecsRoundTrip | client.py:79-86 | the spec list loses nothing: the catalogue can be read back from it |
| Chat.Outcomes | client_20250316.py:252-259 | the i-th dispatch of a query sends the i-th tool call, one dispatch per call |
| Chat.Notes | client_20250316.py:269-272 | every call adds exactly one non-empty note to the answer, in request order: a result note on success, an error note naming the tool on failure |
| Chat.ToolTurnsFollowSuccesses | client_20250316.py:252-267 | the tool turns answer exactly the successful calls, in request order; turn j carries the id, the name and the result of the j-th successful call |
| Chat.FailedCallsAddNoTurns | client_20250316.py:270-273 | a failed dispatch adds no tool turn, so calls that all fail leave the transcript alone |
| Chat.DispatchStep | client_20250316.py:252-273 | one more iteration of the dispatch loop extends the outcomes, the tool turns and the notes by that call's own |
| Chat.Dispatch | client_20250316.py:252-273 | the dispatch loop computes the tool turns and the notes of the whole call list; a failure never stops the loop |
| Chat.AnswerLayout | client_20250316.py:249-290 | the answer joins, with newlines, the first content (if non-empty), every note and the final content (if non-empty); with both contents present it reads first content, newline, notes, newline, final content |
| Chat.Converse | client_20250316.py:193-294 | the user turn is always appended first, and the first request sees exactly the transcript up to it, with the catalogue offered. A failing first call returns the error text and appends nothing more. A reply without tool calls adds one assistant turn and returns its content. At most two requests are made, and the second offers no tools |
| Chat.ConverseWithTools | client_20250316.py:230-290 | with tool calls: the assistant turn with the calls, then the dispatch's tool turns, then, unless the second call fails, one assistant turn without calls. The second request sees every tool turn. The answer is the layout of AnswerLayout, or the error text if the second call fails |
| Chat.SeededIsWellFormed | client_20250316.py:79-82 | the transcript right after connecting satisfies the transcript invariant |
| Chat.AppendKeepsWellFormed | client_20250316.py:242 | appending a non-system turn that answers a currently open call keeps the invariant; a tool turn leaves the open calls as they were |
| Chat.ToolTurnsKeepWellFormed | client_20250316.py:262-267 | tool turns for calls of the preceding assistant turn keep the invariant and leave those calls open for the next tool turn |
| Chat.ConverseKeepsWellFormed | client_20250316.py:193-294 | every query keeps the transcript invariant, whatever the model and the tools answer |
| Chat.OpenCallsIgnoreTurnZero | client_20250316.py:183-186 | which system turn sits at position 0 does not change which calls are open anywhere in the transcript |
| Chat.ReplaceSystemKeepsWellFormed | client_20250316.py:180-187 | rewriting the system turn in place keeps the transcript invariant |
| Text.JoinAppend | client_20250316.py:290 | joining two non-empty lists puts exactly one separator between their joins |
| Text.JoinAt | client_20250316.py:78 | each part of a join sits between the join of the parts before it and the join of the parts after it |
| Text.NonEmpty | client_20250316.py:290 | `filter(None, ...)` keeps exactly the non-empty strings and never lengthens the list |
| Text.NonEmptyAppend | client_20250316.py:290 | filtering distributes over concatenation |
| Text.NonEmptyKeepsAll | client_20250316.py:290 | a list without empty strings passes the filter unchanged |
| Text.TrimStart | client_20250316.py:303 | `lstrip()` returns a suffix that starts with a non-space character, or is empty, and removes only whitespace |
| Text.TrimEnd | client_20250316.py:303 | `rstrip()` returns a prefix that ends with a non-space character, or is empty, and removes only whitespace |
| Text.TrimStartPadded | client_20250316.py:303 | leading whitespace in front of a word that does not start with whitespace is exactly what `lstrip()` removes |
| Text.TrimEndPadded | client_20250316.py:303 | trailing whitespace after a word that does not end with whitespace is exactly what `rstrip()` removes |
| Text.Lower | client_20250316.py:305 | lower-casing keeps the length and maps each character on its own |
| ChatLoop.QuitShape | client_20250316.py:303-307 | a line the loop stops on is whitespace, then "quit" in some mix of cases, then whitespace |
| ChatLoop.QuitPadded | client_20250316.py:303-307 | conversely, every such line stops the loop |
| ChatLoop.ExitsAt | client_20250316.py:301-307 | a read on which the loop body exits ends the session, whatever was read before it |
| ChatLoop.QuitExits | client_20250316.py:303-307 | typing "quit" ends the session, in the loop as written and in the corrected loop |
| ChatLoop.SubmitsInOrder | client_20250316.py:301-310 | while no read exits, every read is handed to process_query as one query, in order, and the loop keeps going |
| ChatLoop.EndOfInputNeverExits | client_20250316.py:301-313 | as written, end of input is caught as an ordinary error and read again: however often it is read, the loop neither stops nor submits anything |
| ChatLoop.EndOfInputExits | client_20250316.py:301-313 | with end of input ending the loop, reaching it ends the session |
| ChatLoop.Loop | client_20250316.py:296-313 | the loop, over lines given in advance and with its body as a parameter, returns the queries handed to process_query and whether it stopped, as Run with that body: with StepAsWritten it is the loop as written (end of input is caught and read again), with NextStep the corrected loop |
| Client.McpClient.constructor | client.py:25-31 | a new client has an empty transcript and no tools |
| Client.McpClient.ConnectToServer | client.py:33-66 | a path that is neither .py nor .js raises and changes nothing, and so does a failing server. Otherwise the catalogue is stored, the transcript becomes the single system turn built from it, and the client satisfies the invariant |
| Client.McpClient.ProcessQuery | client.py:70-163 | the transcript only grows, starting with the user turn; transcript, answer and requests are those of Converse with the stored catalogue; the catalogue is unchanged and the transcript invariant is kept |
| Client20250316.McpClient.constructor | client_20250316.py:25-37 | a new client has an empty transcript, no tools and a clean catalogue |
| Client20250316.McpClient.ConnectToServer | client_20250316.py:39-84 | as in the first version, and the dirty flag is left as the listener set it |
| Client20250316.McpClient.HandleMessage | client_20250316.py:86-175 | a tool-list-changed notification replaces the catalogue with the new listing and marks it dirty, leaving the transcript alone. A failed listing stops the listener without changes. Every other item changes nothing, and the listener goes on. The client invariant is kept |
| Client20250316.McpClient.RefreshSystemTurn | client_20250316.py:179-188 | a dirty catalogue rewrites the system turn in place and clears the flag, while a clean one leaves the transcript untouched; afterwards the system turn lists the current catalogue |
| Client20250316.McpClient.ProcessQuery | client_20250316.py:177-294 | the refresh comes first; the rest is Converse on the refreshed transcript with the current catalogue. Afterwards the flag is clear, the system turn lists the current catalogue and the invariant is kept |

## Left out

- Concurrency: the listener runs as an asyncio task beside the chat loop. The model takes one listener step (`HandleMessage`) at a time between queries, so a notification that arrives while a query is running is not interleaved with it.
- The listener's `async for` loop itself: only the reaction to one incoming item is modelled, and whether the listener is still listening is returned.
- A failed re-listing in the listener: an error item on the stream is skipped and the listener goes on (`continue`, client_20250316.py:92-94), but an exception from `list_tools` reaches the outer `except Exception` (client_20250316.py:174-175) and ends the `async for`. The model follows the code: `HandleMessage` returns `listening == false` in that case.
- The fixed prose of the system prompt: the system turn keeps only the tools section that is substituted into it; the rest of the text is the same constant for every catalogue.
- JSON: `json.loads` of the tool arguments and the rendering of `result.content` are folded into the `ToolOracle` outcome. A decode failure is a `ToolFailed` outcome with the exception's text.
- The OpenAI client, the MCP session, the stdio transport and the exit stack: their results are inputs. The model name is the same constant in both completion calls and is not carried. `tool_choice="auto"` goes only with the first request, the one that offers tools; `Some(specs)` in a `ModelRequest` stands for both the `tools` and the `tool_choice` arguments, and `None` for a call that passes neither.
- Any other exception inside `process_query` (a response without choices, for instance) is folded into `ModelFailed` for the call that produced it.
- Printing and logging, `cleanup`, and `main` with its argument check.
- Client20250316.McpClient.ProcessQuery: requires a connected client. Before `connect_to_server` the listener is not running and the flag is clear, so such a query behaves as in the first version, which is modelled without that precondition.
- ChatLoop.Loop: the lines are given in advance and the queries are returned rather than passed to `process_query` one by one. Combining it with ProcessQuery is left to the reader of the two contracts.
- Text.Lower: lower-cases ASCII letters only. For the comparison with "quit" this is exact, because no other character lower-cases to one of those four letters alone.

## Findings

| source | as written | input that shows it | evidently intended | confidence | as-written member | corrected member |
|---|---|---|---|---|---|---|
| client_20250316.py:301-313 (and client.py:170-181) | `input()` at end of input raises EOFError, which the loop's `except Exception` catches; the loop then prints the error and reads again | Ctrl-D on a terminal never ends the session (one error per press, then the next read waits); a closed stdin, or a piped file that ends without a "quit" line, makes the loop print errors forever and never reach cleanup | end of input ends the chat loop, as "quit" does | not executed | ChatLoop.EndOfInputNeverExits | ChatLoop.EndOfInputExits |
