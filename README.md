# chatbox-cli in Dafny

This is a model of the two command-line chat clients of chatbox-cli, with proofs about them. Each client posts the conversation to an OpenAI-style
`chat/completions` endpoint and streams the answer back as server-sent
events. Each event line carries an optional `reasoning_content` delta and
an optional `content` delta. The client prints both, wrapping the reasoning in
`<think>` markers, and keeps each list of deltas.

- `src/t5.py` is the full client. It has a `QueryProcessor` that decodes the stream; a
  conversation memory that grows by a system message (on the first turn), a
  user message and an assistant message; and `@file` attachments. It also has a
  Markdown transcript appended to a per-day history file, and slash commands
  that reset the memory, list or switch models, and list or switch agents.
- `main.py` is a minimal client. Its chunk loop is the same decoder written
  inline, and it appends a fixed-format record per answer to `response.md`.

## Layout

| file | module | what it holds |
|---|---|---|
| `wrappers.dfy` | `Wrappers` | `Option`, `Result` |
| `pystr.dfy` | `PyStr` | the Python `str` operations the clients use: `strip` (the `isspace` set), `startswith`, `replace`, `split` on one character, `join`, ASCII `lower`, decimal rendering |
| `delta.dfy` | `Delta` | one event line: what `json.loads` makes of it, the thinking tag, the two delta lists and the printed output; the decoder invariant and its proofs |
| `messages.dfy` | `Messages` | messages, `remove_reasoning`, the system prompt, `prepare_query` with attachments |
| `transcript.dfy` | `Transcript` | the buffer `dump_messages` builds and the text it writes |
| `catalog.dfy` | `Catalog` | model and agent entries, `get_models`, `get_agents`, first-match lookup |
| `t5.dfy` | `T5` | the chunk loop on values; the command interpreter on values; the classes `QueryProcessor` (its fields `_full_response`, `_reasoning_contents`, `_answer_contents`, `_thinking_tag`, `_messages`) and `Session` (the global `MEMORY` and `runtime_config`, over the static `CONFIG`) |
| `simplechat.dfy` | `SimpleChat` | `process_query` and `chat_loop` of `main.py` |

Each method is proved against a function on values. The decoder loop
`ParseChunk` is proved against `ParsedChunk`/`RunLines`, the chunk loop
`DoQuery` against `RunChunks`, and the command interpreter
`HandleSystemCommand` against `CommandEffect`. The properties the clients
promise are then lemmas about those functions.

Inputs the program reads from the outside are parameters:
- the stream of response chunks is a `seq<string>`;
- `json.loads` and the `choices[0].delta` lookup are a function `decode: string -> LineValue`, where `LineValue = Malformed(error) | NoChoices | Delta(reasoning?, content?)`;
- the contents of attachment and prompt files are `map<string, string>`;
- `datetime.now()` is a `Clock` of the three strings the code formats.

Outputs are traces:
- the decoder's prints are a `seq<Printed>`;
- the chat loop's prints are the session's `console`;
- the history-file appends and renames are `FileOp` values in the session's `fileOps`, not performed.

### Behaviour of the code worth knowing

- A stripped chunk that does not start with `data:` does not assign `pure_chunk`.
  - In `src/t5.py` every such chunk raises, a whitespace-only chunk included, and the exception ends the chat loop with status 1 (`T5.WhitespaceChunkRaises`, `T5.RunChunksRaised`).
  - In `main.py` such a chunk raises only when no `data:` chunk came before it (`SimpleChat.FirstNonDataChunkRaises`). After a `data:` chunk it decodes the previous payload a second time (`SimpleChat.NonDataChunkReplays`).
- `[DONE]` is skipped like an empty line and does not end the stream (`Delta.SkippedLineTransparent`). Of the chunks received, only an empty one ends the loop early (`T5.StopsAtFirstEmpty`); otherwise the loop runs to the end of the stream or until a chunk raises (`T5.RunChunksRaised`, `SimpleChat.ReadChunksRaised`).
- Each chunk is split into lines on its own, so decoding depends on where the chunk boundaries fall. When an event is split across two chunks, the second half does not start with `data:`.
  - In `src/t5.py` that second chunk raises (`T5.RunChunksRaised`, `T5.SplitEventRaises`).
  - In `main.py` it decodes the first half's payload a second time (`SimpleChat.NonDataChunkReplays`, `SimpleChat.SplitEventReplays`).
- `dump_messages` appends the whole memory, rendered, on every turn, so the history file repeats earlier turns (`Transcript.RenderExtends`).
- `get_models` prints a model's short name after `id=`.
- Commands are matched after the whole line is lowercased, so a model or agent whose configured name has a capital letter can never be selected (`T5.ParseCommand`).
- The two clients' transcripts differ (`SimpleChat.RecordShape`, `SimpleChat.RenderExchange`):
  - `src/t5.py` writes the role as stored (`## user`) and `main.py` writes `## User`;
  - `main.py` follows the think block with one newline and ends each record with a blank line.
- `main.py` sends an empty line as a query; `src/t5.py` prompts again.

## Model

| member | source | states |
|---|---|---|
| PyStr.StripMeaning | src/t5.py:110 | `strip()` returns a contiguous slice of its input; only whitespace is cut off on either side, and the result neither starts nor ends with whitespace |
| PyStr.TrimStartMeaning | src/t5.py:110 | the leading-whitespace half of `strip()`: the result is a suffix of the input, what was dropped is all whitespace, and the result does not start with whitespace |
| PyStr.TrimEndMeaning | src/t5.py:110 | the trailing half: a prefix of the input, the dropped part is all whitespace, and the result does not end with whitespace |
| PyStr.StripAllSpace | src/t5.py:110 | a whitespace-only chunk strips to the empty string |
| PyStr.TrimStartAllSpace | src/t5.py:110 | a whitespace-only string loses everything to the leading trim |
| PyStr.RemoveAll | src/t5.py:114 | `replace(pat, "")` never makes a string longer |
| PyStr.RemoveAllNoOccurrence | src/t5.py:114 | removing a pattern that does not occur leaves the string as it is |
| PyStr.EventPayload | src/t5.py:114 | `data: ` followed by a payload with no further `data: ` becomes exactly that payload |
| PyStr.RemoveAllPrefix | src/t5.py:114 | removal passes unchanged over a prefix at which no occurrence of the pattern starts |
| PyStr.EventsPayloads | src/t5.py:114-116 | a chunk holding several `data: ` events separated by blank lines becomes their payloads separated by blank lines, so the line loop sees each payload, an empty line, then the next |
| PyStr.Find | src/t5.py:304 | the index of the first occurrence of a character, or the length when there is none |
| PyStr.Split | src/t5.py:116 | `split(c)` yields at least one piece, and no piece contains `c` |
| PyStr.JoinSplit | src/t5.py:116 | joining the pieces of `split(c)` with `c` gives back the input, so no character is lost or reordered |
| PyStr.Lower | src/t5.py:250 | `lower()` keeps the length and lowercases each character in place |
| PyStr.ConcatAppend | src/t5.py:177-178 | `"".join` of two lists in a row is the join of the first followed by the join of the second |
| Delta.StepLine | src/t5.py:116-142 | an empty or `[DONE]` line, or a document without choices, changes nothing; a line that fails to parse prints its error and leaves both lists and the tag as they were |
| Delta.StepLineEffect | src/t5.py:120-142 | one line appends exactly its truthy reasoning delta to the reasoning list and its truthy content delta to the answer list, and prints, markers aside, its error or its reasoning text before its answer text |
| Delta.OnReasoningEffect | src/t5.py:128-133 | the open marker is printed exactly when the reasoning delta is truthy and the tag is still `""`; the unmarked output and the reasoning list grow by the delta exactly when it is truthy; the answer list is untouched |
| Delta.OnAnswerEffect | src/t5.py:135-140 | the close marker is printed exactly when the answer delta is truthy and the tag is `THINK_START`; the unmarked output and the answer list grow by the delta exactly when it is truthy; the reasoning list is untouched |
| Delta.ReasoningPrintSplits | src/t5.py:128-133 | the reasoning half prints the open marker exactly when the delta is truthy and the tag is `""` |
| Delta.AnswerPrintSplits | src/t5.py:135-140 | the answer half prints the close marker exactly when the delta is truthy and the tag is `THINK_START` |
| Delta.OnReasoningWellformed | src/t5.py:128-133 | the reasoning half keeps the decoder invariant (markers match the tag, tag `""` exactly while no reasoning, only non-empty deltas stored) |
| Delta.OnAnswerWellformed | src/t5.py:135-140 | the answer half keeps the decoder invariant |
| Delta.StepLineWellformed | src/t5.py:116-142 | one line keeps the decoder invariant |
| Delta.RunLinesWellformed | src/t5.py:116-142 | any sequence of lines keeps the decoder invariant |
| Delta.MarkersAtMostOnce | src/t5.py:128-139 | a turn prints no marker, only the open marker, or the open marker and later the close marker: each at most once, and the close never without the open |
| Delta.TagMonotone | src/t5.py:130-139 | the thinking tag only moves forward, `""` to `THINK_START` to `THINK_END` |
| Delta.NoReasoningNoMarkers | src/t5.py:128-139 | the tag stays `""` exactly when no reasoning delta arrived, and then neither marker is printed |
| Delta.RunLinesAppend | src/t5.py:116 | decoding two runs of lines one after the other is decoding their concatenation |
| Delta.SkippedLineTransparent | src/t5.py:117-118 | an empty or `[DONE]` line does not stop the loop: the lines after it are decoded as if it were absent |
| Delta.DeltasInOrder | src/t5.py:125-136 | the lists grow by exactly the truthy reasoning deltas and the truthy content deltas of the lines, in arrival order |
| Delta.OutputInOrder | src/t5.py:128-142 | markers aside, the output is each line's error or its reasoning then answer text, line after line |
| Messages.RemoveReasoning | src/t5.py:86-95 | the result has the same length and order, and its i-th entry has exactly the i-th message's role and content |
| Messages.SystemPrompt | src/t5.py:50-56 | the system prompt is the line naming the active model, then the date line and the language line, a blank line, and the agent's prompt |
| Messages.PrepareQuery | src/t5.py:303-323 | `prepare_query` returns the user message `Prepared` describes, or the missing-file error |
| Messages.PreparedIsUser | src/t5.py:303-323 | whatever `prepare_query` returns is a user message without reasoning |
| Messages.PlainQuery | src/t5.py:304-310 | a line with no space, or whose first word does not start with `@`, becomes a plain user message with the line as its content |
| Messages.AttachmentQuery | src/t5.py:303-323 | `@f1,...,fn rest` becomes exactly two text blocks: the attachments, numbered from 1 in order and joined by blank lines, then everything after the first space |
| Messages.AttachmentMissing | src/t5.py:312-315 | when an attachment is unreadable, the query fails with the first unreadable name |
| Messages.ReadFileContents | src/t5.py:297-300 | the attachment loop gives exactly the numbered attachment texts, or the first unreadable name, as `ReadAttachments` describes |
| Messages.ReadAttachmentsPresent | src/t5.py:297-300 | readable files give one attachment text per name, in order, with consecutive indexes |
| Messages.ReadAttachmentsMissing | src/t5.py:314-315 | reading stops at the first unreadable name and reports it |
| Messages.FirstMissing | src/t5.py:314-315 | the first name that is not a readable file: all before it are readable |
| Transcript.MessageEntries | src/t5.py:219 | each message's block starts with `## ` and the role |
| Transcript.MessageEntriesShape | src/t5.py:219-229 | a message contributes its heading, a think entry exactly when its reasoning is non-empty, then its content entries |
| Transcript.TextItemsAppend | src/t5.py:226-229 | list content is filtered item by item: each further item adds its text exactly when its type is `text` |
| Transcript.TextItemsFilter | src/t5.py:226-229 | list content contributes only its `text` items: none when no item is text, every item's text in order when all are |
| Transcript.EntriesLayout | src/t5.py:218-234 | message i's entries sit after those of the messages before it and before those of the messages after it |
| Transcript.EntriesAppend | src/t5.py:218-234 | the entries of two memories in a row are the entries of each, in order |
| Transcript.EntriesNonEmpty | src/t5.py:218-219 | every message contributes at least one entry |
| Transcript.RenderBuffer | src/t5.py:216-234 | the buffer loop builds exactly the entries of the whole memory |
| Transcript.AppendMessage | src/t5.py:219-234 | one iteration appends exactly that message's entries |
| Transcript.RenderExtends | src/t5.py:236 | the text for a longer memory is the text for the earlier memory, a blank line, then the new messages' text |
| Catalog.GetModels | src/t5.py:64-72 | the header line, then one line per configured model, joined by newlines |
| Catalog.GetAgents | src/t5.py:75-83 | the header line, then one line per configured agent, joined by newlines |
| Catalog.ModelLinesAt | src/t5.py:68-70 | one line per model, in configuration order |
| Catalog.AgentLinesAt | src/t5.py:79-81 | one line per agent, in configuration order |
| Catalog.ModelLinesMarked | src/t5.py:69-70 | each model line starts with its id and name and ends with the current tag exactly when it is the active model |
| Catalog.AgentLinesMarked | src/t5.py:80-81 | each agent line starts with its name twice and ends with the current tag exactly when it is the active agent |
| Catalog.FirstModelNamed | src/t5.py:268-269 | the first model with the given name, or none has it |
| Catalog.FirstAgentNamed | src/t5.py:280-281 | the first agent with the given name, or none has it |
| T5.RunChunksLog | src/t5.py:110-111 | the raw log is each examined chunk stripped and followed by a newline, including a chunk that then raises |
| T5.RunChunksRaised | src/t5.py:113-116 | the loop raises exactly when the last examined chunk is not a `data:` chunk |
| T5.RunChunksDecoded | src/t5.py:113-118 | the decoder state is that of the lines of the examined `data:` chunks, in order |
| T5.StopsAtFirstEmpty | src/t5.py:166-168 | nothing after the first empty chunk is read |
| T5.SplitEventRaises | src/t5.py:113-116 | an event split across a `data:` chunk and a chunk without `data:` raises after the first half is decoded |
| T5.WhitespaceChunkRaises | src/t5.py:110-116 | a whitespace-only chunk logs an empty line, changes nothing else and raises |
| T5.AssistantMessageOfTurn | src/t5.py:174-180 | the assistant message holds the stripped join of the turn's answer deltas and the unstripped join of its reasoning deltas, present even when empty |
| T5.ConversationGrows | src/t5.py:190-194 | a turn on a settled memory adds the system message only when memory was empty, then the query; that open turn is not settled, and the answer settles it again |
| T5.ParseCommand | src/t5.py:250-283 | a model or agent name taken from a command is never `list`, has no space and is lowercase |
| T5.CommandCaseInsensitive | src/t5.py:250 | a line and its lowercase form select the same command |
| T5.CommandWithoutArgument | src/t5.py:263-277 | `/m` or `/a` with no argument lists the models or agents |
| T5.PlainTextIsNoCommand | src/t5.py:250-294 | a line not starting with `/` matches no command branch |
| T5.QuitOnlyOnSlashQ | src/t5.py:252-253 | the interpreter exits exactly when the lowercased line is `/q` |
| T5.FallThroughKeepsConversation | src/t5.py:262-294 | a command handed on as a query changes neither memory, model, system prompt, history file nor files, and only `/m <name>`, `/a <name>` and unknown commands are handed on |
| T5.CommandKeepsShape | src/t5.py:255-294 | every command keeps memory as it was or empties it, so memory stays settled |
| T5.ModelSwitch | src/t5.py:267-272 | a successful `/m <name>` activates the id of the first model with that name and changes nothing but the model and the console |
| T5.QueryProcessor.constructor | src/t5.py:99-100 | a new processor has an empty log, empty lists, tag `""`, no output and no messages |
| T5.QueryProcessor.ResetState | src/t5.py:102-107 | resetting empties the log, both lists and the messages and clears the tag |
| T5.QueryProcessor.ParseChunk | src/t5.py:109-142 | `_parse_chunk` leaves the fields as `ParsedChunk` describes, and keeps the decoder invariant |
| T5.QueryProcessor.ParseLine | src/t5.py:116-142 | one line moves the fields as `StepLine` describes |
| T5.QueryProcessor.TakeReasoning | src/t5.py:128-133 | the reasoning half moves the fields as `OnReasoning` describes |
| T5.QueryProcessor.TakeAnswer | src/t5.py:135-140 | the answer half moves the fields as `OnAnswer` describes |
| T5.QueryProcessor.DoQuery | src/t5.py:144-170 | the query joins the pending messages, memory grows by them before the request is built, the request carries the configured URL, key and model and memory without reasoning, and decoding follows `RunChunks` |
| T5.QueryProcessor.RecordHistory | src/t5.py:172-180 | memory gains exactly the assistant message of the decoded state |
| T5.QueryProcessor.Handle | src/t5.py:187-198 | a system message is added only when memory is empty; memory grows by 3 on the first turn and by 2 afterwards; nothing is recorded when decoding raised |
| T5.Session.constructor | src/t5.py:32-43 | the chat loop starts with empty memory, the default agent and no history file |
| T5.Session.DumpMessages | src/t5.py:208-236 | the history file is chosen only when none is active, and the whole memory, rendered, is appended to it |
| T5.Session.CutHistory | src/t5.py:239-244 | an active history file is renamed to a timestamped name and forgotten; with none, nothing happens |
| T5.Session.HandleSystemCommand | src/t5.py:247-294 | the interpreter's outcome and new state are those `CommandEffect` assigns to the parsed command |
| T5.Session.SelectModel | src/t5.py:267-272 | the first model with the name becomes active and the line is consumed; if none matches, nothing changes and the line falls through |
| T5.Session.SelectAgent | src/t5.py:279-292 | the first agent with the name becomes active with its inline or file prompt; a missing prompt file raises; an agent with no prompt falls through; if none matches, nothing changes |
| T5.SendKeeps | src/t5.py:345-353 | sending keeps the model, agent and system prompt and prints the decoder's output first; it is answered exactly when decoding does not raise, and then memory holds the assistant message and the whole memory is appended to the (possibly new) history file; on a raise the query stays in memory and no file is touched |
| T5.SendSettles | src/t5.py:345-353 | on a settled memory and a user message, memory keeps its shape, is settled exactly when the turn is answered, and an answer adds 3 messages on the first turn and 2 after |
| T5.AskKeeps | src/t5.py:345-353 | asking keeps the model, agent and system prompt, is answered exactly when the attachments are readable and decoding does not raise, and only an error leaves memory unsettled |
| T5.CommandTouches | src/t5.py:247-294 | only `/m <name>` can change the model and only `/a <name>` the system prompt |
| T5.TurnKeepsConversation | src/t5.py:326-353 | a line is answered exactly when it is non-empty, not a command or one the interpreter hands on, its attachments are readable and decoding does not raise; only `/m <name>` changes the model, only `/a <name>` the system prompt; memory keeps its shape and stays settled unless an error ends the loop |
| T5.Session.Turn | src/t5.py:326-353 | the outcome and the whole new session state are those `TurnEffect` gives for the stripped line, which `T5.TurnKeepsConversation` characterises |
| T5.Session.Ask | src/t5.py:345-353 | touching only memory, console, history file and file operations, the outcome and new state are those `AskEffect` gives: a missing attachment prints the error and exits 1, otherwise the message is sent; `T5.AskKeeps` characterises it |
| T5.Session.Respond | src/t5.py:345 | handling a prepared query leaves decoder state and memory as the chunk loop and `handle` describe, and prints the decoder's output |
| T5.Session.Send | src/t5.py:345-353 | touching only memory, console, history file and file operations, the outcome and new state are those `SendEffect` gives, which `T5.SendKeeps` and `T5.SendSettles` characterise |
| SimpleChat.RequestFor | main.py:26-41 | the request always goes to the fixed endpoint and model, streamed, with the fixed system message and the query |
| SimpleChat.ProcessQuery | main.py:18-85 | `process_query` returns the raw log and the two delta lists `ReadChunks` describes, with `pure_chunk` kept across chunks; `ReadChunksRaised`, `ReadChunksLog`, `ReadChunksDecoded`, `ReadChunksWellformed` and `ReadStopsAtFirstEmpty` characterise it on any stream |
| SimpleChat.ReadOneChunk | main.py:44-83 | one pass of the chunk loop logs the stripped chunk, remembers a `data:` payload, raises while no payload is bound, and otherwise decodes the payload's lines, as `ReadChunk` describes |
| SimpleChat.ReadChunksRaised | main.py:51-54 | the loop raises exactly when its first chunk is read with no payload bound and is not a `data:` chunk; after any `data:` chunk it never raises |
| SimpleChat.ReadChunksLog | main.py:43-49 | the raw log is each examined chunk, stripped, plus a newline, up to the first empty chunk, the chunk that raises included |
| SimpleChat.ReadChunksDecoded | main.py:51-83 | the decoder state is the line loop run over each examined chunk's own payload lines, or the previous payload's lines for a chunk without `data:`, in order |
| SimpleChat.ReadChunksWellformed | main.py:43-83 | on any stream the decoder keeps its invariant: at most one open and one close marker, a tag that only moves forward, only truthy deltas stored |
| SimpleChat.ReadStopsAtFirstEmpty | main.py:44-45 | nothing after the first empty chunk is read |
| SimpleChat.SplitEventReplays | main.py:51-54 | an event split across a `data:` chunk and a chunk without `data:` is decoded twice from its first half by `main.py`, and raises in `src/t5.py` |
| SimpleChat.DecodeLines | main.py:54-83 | the inline line loop decodes as `RunLines` does |
| SimpleChat.NonDataChunkReplays | main.py:51-54 | after a `data:` chunk, a chunk without `data:` decodes the previous payload again and its answer deltas are stored twice |
| SimpleChat.FirstNonDataChunkRaises | main.py:51-54 | before any `data:` chunk, a chunk without `data:` is logged and raises with the decoder unchanged |
| SimpleChat.AgreesWithT5OnDataChunks | main.py:43-83 | on a stream of `data:` chunks both clients produce the same raw log, deltas and output, and neither raises |
| SimpleChat.RecordShape | main.py:100-109 | a record is the `## User` heading and the query, the `## Assistant` heading, the think block only when reasoning is non-empty, the unstripped answer and a blank line |
| SimpleChat.RenderExchange | src/t5.py:218-236 | for one user and assistant pair, `dump_messages` writes the lowercase headings, the query, the think entry only for non-empty reasoning, and the answer, separated by blank lines |
| SimpleChat.ChatLoop | main.py:88-113 | `chat_loop`'s requests, records and reason for stopping are those `Conversation` describes |
| SimpleChat.QuitEndsConversation | main.py:96-97 | nothing typed after `/q` or `/quit`, in any case, is sent or recorded |
| SimpleChat.EveryLineAnswered | main.py:92-109 | when input runs out, every line was sent as its own request, in order, and the record stored for it is the answer to that line from its own chunk stream; none was a quit line |

## Left out

- HTTP, `httpx` and `async`/`await`: the response is a given sequence of chunk strings, and a request is a value; timeouts, network errors and the `Content-Type` header are not modelled.
- `json.loads` and the `choices[0]["delta"]` lookup: a line is classified by the `decode` parameter. A document whose `choices[0]` has no `delta` key counts as `Malformed`, like any other exception.
- Terminal input (`prompt_toolkit`, `input`): the lines typed are parameters. Screen clearing and the start-up banners of both clients are not modelled.
- The printed text of exceptions (`T5.Describe`) approximates Python's messages; only where an error line appears is modelled.
- The file system: reading attachments and prompt files is a lookup in a map; appends and renames are recorded as `FileOp` values; `_ensure_history_dir` and `mkdir` are not modelled.
- `datetime.now()`: the three formatted strings are a `Clock` parameter.
- `main()` (config loading with `tomllib`, the `-C` switch, `chdir`): the `Session` constructor takes the settings, the first model's id and the first agent's prompt.
- `temperature` and `top_p`: floating-point values passed through to the request and never computed with; they are not in `T5.Request`.
- `_start_auto_drive`: a stub that always returns `False`, so the branch after it never runs.
- `__main__.py`: path set-up for a module that is not part of this model.
- PyStr.Lower: `str.lower()` is modelled for ASCII letters only; `str.strip()` uses the ASCII and Unicode whitespace characters that `isspace` accepts, without Unicode normalisation.
- Message content that is neither a string nor a list, and list items without a `type` key: the datatypes exclude them, so the "unknown message content" print of `dump_messages` is not modelled.
- An agent entry holding both `prompt` and `prompt_file` is modelled as having only `prompt`, which is the key the code prefers.
- PyStr.RemoveAll: its contract bounds only the length; its meaning is stated by `PyStr.RemoveAllNoOccurrence`, `PyStr.RemoveAllPrefix`, `PyStr.EventPayload` and, for a chunk of several events, `PyStr.EventsPayloads`.
- T5.ParseCommand: its contract states only what a command's argument looks like; which line selects which command is stated by `T5.CommandCaseInsensitive`, `T5.CommandWithoutArgument`, `T5.PlainTextIsNoCommand` and `T5.QuitOnlyOnSlashQ`.
