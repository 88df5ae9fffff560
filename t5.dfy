/** src/t5.py: the streamed-response decoder (`QueryProcessor`) and the
    session state it updates. The module-level `MEMORY` and
    `runtime_config` of the source are the fields of a `Session` object;
    the static `CONFIG` is its constant fields. */
module T5 {
  import opened Wrappers
  import opened PyStr
  import opened Delta
  import opened Messages
  import opened Transcript
  import opened Catalog

  /** `datetime.now()` formatted three ways: `%Y-%m-%d` for the system
      prompt, `%Y%m%d` for the day's history file, `%Y%m%d-%H%M%S` for a
      cut history file. */
  datatype Clock = Clock(date: string, day: string, stamp: string)

  /** The exceptions that end the chat loop. */
  datatype Fault = MissingFile(path: string) | UnboundPureChunk

  function Describe(f: Fault): string {
    match f
    case MissingFile(p) => "[Errno 2] No such file or directory: '" + p + "'"
    case UnboundPureChunk => "cannot access local variable 'pure_chunk' where it is not associated with a value"
  }

  /** The request `_do_query` posts (temperature and top_p are not modelled). */
  datatype Request = Request(url: string, authorization: string, messages: seq<WireMessage>, model: string, stream: bool)

  /** A file-system operation the session performs, recorded instead of run. */
  datatype FileOp = Append(path: string, text: string) | Rename(source: string, target: string)

  /** `Path.joinpath` on a POSIX path. */
  function JoinPath(dir: string, name: string): string {
    dir + "/" + name
  }

  function HistoryPath(dir: string, day: string): string {
    JoinPath(dir, "history-" + day + ".md")
  }

  // ---------------------------------------------------------------------
  // `_parse_chunk` and the chunk loop of `_do_query`, on values

  predicate IsDataChunk(chunk: string) {
    StartsWith(Strip(chunk), "data:")
  }

  /** The lines `_parse_chunk` iterates over for a `data:` chunk. */
  function ChunkLines(chunk: string): seq<string> {
    PayloadLines(Strip(chunk))
  }

  /** `_full_response` and the decoder state. */
  datatype Stream = Stream(full: string, decoded: Decoded)

  /** The state after some chunks, and whether the last one raised. */
  datatype Streamed = Streamed(stream: Stream, raised: bool)

  /** `_parse_chunk`: the stripped chunk and a newline go to the raw log
      first; a chunk that does not start with `data:` then raises (its
      `pure_chunk` is unbound) before any line is looked at. */
  function ParsedChunk(s: Stream, chunk: string, decode: string -> LineValue): Streamed {
    var full := s.full + Strip(chunk) + "\n";
    if IsDataChunk(chunk) then Streamed(Stream(full, RunLines(s.decoded, ChunkLines(chunk), decode)), false)
    else Streamed(Stream(full, s.decoded), true)
  }

  /** The chunk loop: stops at the first empty chunk or at the first chunk
      that raises. */
  function RunChunks(s: Stream, chunks: seq<string>, decode: string -> LineValue): Streamed
    decreases |chunks|
  {
    if chunks == [] || chunks[0] == "" then Streamed(s, false)
    else
      var r := ParsedChunk(s, chunks[0], decode);
      if r.raised then r else RunChunks(r.stream, chunks[1..], decode)
  }

  /** How many chunks reach `_parse_chunk`: up to the first empty one,
      and including the first one that is not a `data:` chunk. */
  function Examined(chunks: seq<string>): (n: nat)
    ensures n <= |chunks|
  {
    if chunks == [] || chunks[0] == "" then 0
    else if !IsDataChunk(chunks[0]) then 1
    else 1 + Examined(chunks[1..])
  }

  /** The raw log of some chunks: each stripped, each followed by a newline. */
  function RawLog(chunks: seq<string>): string {
    if chunks == [] then "" else Strip(chunks[0]) + "\n" + RawLog(chunks[1..])
  }

  /** The lines of the `data:` chunks among `chunks`, in order. */
  function DataLines(chunks: seq<string>): seq<string> {
    if chunks == [] then []
    else (if IsDataChunk(chunks[0]) then ChunkLines(chunks[0]) else []) + DataLines(chunks[1..])
  }

  /** The assistant message `_record_history` appends: the answer deltas
      joined and stripped, the reasoning deltas joined and not stripped,
      always present even when empty. */
  function AssistantMessage(d: Decoded): Message {
    Message(Assistant, Text(Strip(Concat(d.answers))), Some(Concat(d.reasoning)))
  }

  /** The system message `handle` adds when memory is empty. */
  function SystemMessage(model: string, date: string, agentPrompt: string): Message {
    Message(System, Text(SystemPrompt(model, date, agentPrompt)), None)
  }

  /** Memory holds at most one system message, and only first, followed by
      user and assistant messages in alternation. */
  predicate ConversationShape(ms: seq<Message>) {
    ms == [] || (ms[0].role == System && forall i :: 1 <= i < |ms| ==> ms[i].role == (if i % 2 == 1 then User else Assistant))
  }

  /** Every turn is complete: memory is empty or ends with an answer. */
  predicate Settled(ms: seq<Message>) {
    ConversationShape(ms) && (ms == [] || |ms| % 2 == 1)
  }

  // ---------------------------------------------------------------------
  // Properties of the chunk loop

  /** One `data:` chunk that is not empty: it is decoded and the loop goes
      on with the rest. */
  lemma DataChunkStep(s: Stream, chunks: seq<string>, decode: string -> LineValue)
    requires chunks != [] && chunks[0] != "" && IsDataChunk(chunks[0])
    ensures RunChunks(s, chunks, decode) == RunChunks(ParsedChunk(s, chunks[0], decode).stream, chunks[1..], decode)
    ensures Examined(chunks) == 1 + Examined(chunks[1..])
    ensures chunks[..Examined(chunks)] == [chunks[0]] + chunks[1..][..Examined(chunks[1..])]
  {
    var m := Examined(chunks[1..]);
    assert chunks[..m + 1] == [chunks[0]] + chunks[1..][..m];
  }

  /** The raw log holds exactly the examined chunks, stripped, one per line. */
  lemma {:induction false} RunChunksLog(s: Stream, chunks: seq<string>, decode: string -> LineValue)
    ensures RunChunks(s, chunks, decode).stream.full == s.full + RawLog(chunks[..Examined(chunks)])
    decreases |chunks|
  {
    if chunks == [] || chunks[0] == "" {
      assert chunks[..0] == [];
    } else if !IsDataChunk(chunks[0]) {
      assert chunks[..1][1..] == [];
    } else {
      RunChunksLog(ParsedChunk(s, chunks[0], decode).stream, chunks[1..], decode);
      DataChunkLog(s, chunks, decode);
    }
  }

  /** The induction step of `RunChunksLog`: a `data:` chunk adds its line to
      the log before the rest is read. */
  lemma DataChunkLog(s: Stream, chunks: seq<string>, decode: string -> LineValue)
    requires chunks != [] && chunks[0] != "" && IsDataChunk(chunks[0])
    requires var next := ParsedChunk(s, chunks[0], decode).stream;
      RunChunks(next, chunks[1..], decode).stream.full == next.full + RawLog(chunks[1..][..Examined(chunks[1..])])
    ensures RunChunks(s, chunks, decode).stream.full == s.full + RawLog(chunks[..Examined(chunks)])
  {
    DataChunkStep(s, chunks, decode);
    var prefix := chunks[1..][..Examined(chunks[1..])];
    RawLogCons(chunks[0], prefix);
    AppendAssoc(s.full, Strip(chunks[0]) + "\n", RawLog(prefix));
  }

  lemma RawLogCons(c: string, cs: seq<string>)
    ensures RawLog([c] + cs) == Strip(c) + "\n" + RawLog(cs)
  {
    assert ([c] + cs)[1..] == cs;
  }

  /** The loop raised exactly when the last examined chunk is not a
      `data:` chunk. */
  lemma {:induction false} RunChunksRaised(s: Stream, chunks: seq<string>, decode: string -> LineValue)
    ensures var n := Examined(chunks);
      RunChunks(s, chunks, decode).raised == (n > 0 && !IsDataChunk(chunks[n - 1]))
    decreases |chunks|
  {
    if chunks != [] && chunks[0] != "" && IsDataChunk(chunks[0]) {
      DataChunkStep(s, chunks, decode);
      var rest := chunks[1..];
      RunChunksRaised(ParsedChunk(s, chunks[0], decode).stream, rest, decode);
      var m := Examined(rest);
      if m > 0 {
        assert chunks[m] == rest[m - 1];
      }
    }
  }

  /** The decoder ran over the lines of the examined `data:` chunks, in
      order, as one stream of lines. */
  lemma {:induction false} RunChunksDecoded(s: Stream, chunks: seq<string>, decode: string -> LineValue)
    ensures RunChunks(s, chunks, decode).stream.decoded == RunLines(s.decoded, DataLines(chunks[..Examined(chunks)]), decode)
    decreases |chunks|
  {
    if chunks == [] || chunks[0] == "" {
      assert chunks[..0] == [];
    } else if !IsDataChunk(chunks[0]) {
      assert chunks[..1][1..] == [];
    } else {
      var c := chunks[0];
      DataChunkStep(s, chunks, decode);
      var rest := chunks[1..];
      RunChunksDecoded(ParsedChunk(s, c, decode).stream, rest, decode);
      var prefix := rest[..Examined(rest)];
      assert ([c] + prefix)[1..] == prefix;
      assert DataLines([c] + prefix) == ChunkLines(c) + DataLines(prefix);
      RunLinesAppend(s.decoded, ChunkLines(c), DataLines(prefix), decode);
    }
  }

  /** The loop stops at the first empty chunk: whatever follows it is never
      read. */
  lemma {:induction false} StopsAtFirstEmpty(s: Stream, a: seq<string>, b: seq<string>, decode: string -> LineValue)
    ensures RunChunks(s, a + [""] + b, decode) == RunChunks(s, a, decode)
    decreases |a|
  {
    if a != [] && a[0] != "" {
      var p := ParsedChunk(s, a[0], decode);
      assert (a + [""] + b)[0] == a[0];
      assert (a + [""] + b)[1..] == a[1..] + [""] + b;
      if !p.raised {
        StopsAtFirstEmpty(p.stream, a[1..], b, decode);
      }
    } else if a != [] {
      assert (a + [""] + b)[0] == a[0];
    }
  }

  /** A whitespace-only chunk is not a `data:` chunk: it is logged as an
      empty line and raises. */
  lemma WhitespaceChunkRaises(s: Stream, chunk: string, decode: string -> LineValue)
    requires AllSpace(chunk)
    ensures ParsedChunk(s, chunk, decode) == Streamed(Stream(s.full + "\n", s.decoded), true)
  {
    StripAllSpace(chunk);
  }

  /** An event split across two chunks: the second half does not start
      with `data:`, so it raises after the first half was decoded. */
  lemma SplitEventRaises(first: string, second: string, decode: string -> LineValue)
    requires first != "" && IsDataChunk(first) && second != "" && !IsDataChunk(second)
    ensures var r := RunChunks(Stream("", Initial), [first, second], decode);
      r.raised && r.stream.decoded == RunLines(Initial, ChunkLines(first), decode)
  {
    assert [first, second][1..] == [second];
  }

  /** The assistant message of a fresh turn holds the stripped join of its
      answer deltas and the unstripped join of its reasoning deltas. */
  lemma AssistantMessageOfTurn(lines: seq<string>, decode: string -> LineValue)
    ensures AssistantMessage(RunLines(Initial, lines, decode))
      == Message(Assistant, Text(Strip(Concat(AnswerDeltas(lines, decode)))), Some(Concat(ReasoningDeltas(lines, decode))))
  {
    DeltasInOrder(Initial, lines, decode);
    var d := RunLines(Initial, lines, decode);
    assert d.answers == AnswerDeltas(lines, decode);
    assert d.reasoning == ReasoningDeltas(lines, decode);
  }

  /** A turn keeps the conversation's shape: the system message only on
      the first turn, then the user message; the assistant message closes
      the turn. */
  lemma ConversationGrows(ms: seq<Message>, sys: Message, query: Message, answer: Message)
    requires Settled(ms) && sys.role == System && query.role == User && answer.role == Assistant
    ensures var open := ms + (if ms == [] then [sys] else []) + [query];
      ConversationShape(open) && !Settled(open) && Settled(open + [answer])
  {
    var open := ms + (if ms == [] then [sys] else []) + [query];
    assert |open| % 2 == 0;
    assert forall i :: 0 <= i < |ms| ==> open[i] == ms[i];
    assert (open + [answer])[..|open|] == open;
  }

  // ---------------------------------------------------------------------
  // Commands

  /** What `handle_system_command` recognises in a line. */
  datatype Command = QuitCommand | ResetCommand | ListModels | UseModel(name: string) | ListAgents | UseAgent(name: string) | Unknown

  /** The `cmd_line.split(" ")[1:]` arguments. */
  function Args(cmd: string): seq<string> {
    Split(cmd, ' ')[1..]
  }

  /** The branch `handle_system_command` takes, tested on the lowercased line
      in the source's order. */
  function ParseCommand(query: string): (c: Command)
    ensures c.UseModel? ==> c.name != "list" && ' ' !in c.name && c.name == Lower(c.name)
    ensures c.UseAgent? ==> c.name != "list" && ' ' !in c.name && c.name == Lower(c.name)
  {
    var cmd := Lower(query);
    if cmd == "/q" then QuitCommand
    else if cmd == "/r" || cmd == "/c" then ResetCommand
    else if StartsWith(cmd, "/m") then
      var args := Args(cmd);
      LowerSplit(cmd);
      if |args| == 0 || args[0] == "list" then ListModels else UseModel(args[0])
    else if StartsWith(cmd, "/a") then
      var args := Args(cmd);
      LowerSplit(cmd);
      if |args| == 0 || args[0] == "list" then ListAgents else UseAgent(args[0])
    else Unknown
  }

  lemma LowerIdempotent(s: string)
    ensures Lower(Lower(s)) == Lower(s)
  {
  }

  /** Every piece of a lowercased line is itself lowercase. */
  lemma LowerSplit(cmd: string)
    requires cmd == Lower(cmd)
    ensures forall i :: 0 <= i < |Split(cmd, ' ')| ==> Split(cmd, ' ')[i] == Lower(Split(cmd, ' ')[i])
    decreases |cmd|
  {
    var k := Find(cmd, ' ');
    if k < |cmd| {
      var rest := cmd[k + 1..];
      assert rest == Lower(rest);
      LowerSplit(rest);
      assert cmd[..k] == Lower(cmd[..k]);
    }
  }

  /** Commands are case-insensitive: a line and its lowercase form select
      the same branch with the same argument. */
  lemma CommandCaseInsensitive(query: string)
    ensures ParseCommand(Lower(query)) == ParseCommand(query)
  {
    LowerIdempotent(query);
  }

  /** `/m` or `/a` with no argument, or with `list`, lists; a line that
      needs no `/` prefix is never a command. */
  lemma CommandWithoutArgument(query: string)
    requires ' ' !in Lower(query)
    ensures StartsWith(Lower(query), "/m") ==> ParseCommand(query) == ListModels
    ensures StartsWith(Lower(query), "/a") ==> ParseCommand(query) == ListAgents
  {
    var cmd := Lower(query);
    assert Find(cmd, ' ') == |cmd|;
  }

  lemma PlainTextIsNoCommand(query: string)
    requires query == [] || query[0] != '/'
    ensures ParseCommand(query) == Unknown
  {
    var cmd := Lower(query);
    if cmd != [] {
      assert cmd[0] == LowerChar(query[0]);
    }
  }

  /** What the command interpreter tells the chat loop: the line was
      handled (`True`), it is to be sent as a query (`False`), `exit(0)`,
      or an exception. */
  datatype CommandOutcome = Consumed | FallThrough | Quit | Raised(fault: Fault)

  /** What one pass of the chat loop ended with. */
  datatype TurnOutcome = Prompted | CommandDone | Answered | Exit(code: int)

  const RESET_NOTICE := "[System] 清空记忆体\n"
  const EMPTY_NOTICE := "[System] 请输入请求\n"
  const RULE := "----\n\n"

  /** What `print(f"[System] {text}")` puts on the console. */
  function SystemLine(text: string): string {
    "[System] " + text + "\n"
  }

  function UsingModel(id: string): string {
    "[System] using model " + id + "\n"
  }

  function UsingAgent(name: string): string {
    "[System] using agent " + name + "\n"
  }

  function NoPromptNotice(name: string): string {
    "[System] error, no 'prompt' or 'prompt_file' in agent config  " + name + "\n"
  }

  /** The line the chat loop prints for an exception before it exits. */
  function ErrorNotice(f: Fault): string {
    "\n[System] Error: " + Describe(f) + "\n"
  }

  /** The two lines printed after an answer. */
  const TURN_RULE := "\n----\n"

  function MemorySizeNotice(size: nat): string {
    "[System] Memory size is " + NatToString(size) + "\n\n"
  }

  /** The static configuration: `CONFIG`, the history directory and the
      directory prompt files are looked up in. */
  datatype Settings = Settings(
    models: seq<ModelEntry>, agents: seq<AgentEntry>, endpoint: string, apiKey: string,
    historyDir: string, scriptDir: string)

  /** The mutable part of the session, as one value: `MEMORY`,
      `runtime_config`, the console and the file operations so far. */
  datatype Runtime = Runtime(
    memory: seq<Message>, model: string, agentName: string, systemPrompt: string,
    historyFile: string, console: seq<string>, fileOps: seq<FileOp>)

  /** The rename `cut_history` performs, if there is an active file. */
  function CutOps(historyFile: string, historyDir: string, clock: Clock): seq<FileOp> {
    if historyFile != "" then [Rename(historyFile, HistoryPath(historyDir, clock.stamp))] else []
  }

  /** A command's outcome and the state it leaves. */
  datatype Effect = Effect(outcome: CommandOutcome, after: Runtime)

  /** `select_agent`: an agent was found; its prompt, read from a file when
      it has only a prompt file, becomes the system prompt. */
  function AgentEffect(agent: AgentEntry, rt: Runtime, settings: Settings, promptFiles: map<string, string>): Effect {
    var picked := rt.(agentName := agent.name, console := rt.console + [UsingAgent(agent.name)]);
    match agent.prompt
    case Inline(text) => Effect(Consumed, picked.(systemPrompt := text))
    case PromptFile(file) =>
      var path := JoinPath(settings.scriptDir, file);
      if path in promptFiles then Effect(Consumed, picked.(systemPrompt := promptFiles[path]))
      else Effect(Raised(MissingFile(path)), picked)
    case NoPrompt =>
      Effect(FallThrough, picked.(console := picked.console + [NoPromptNotice(agent.name)]))
  }

  /** `handle_system_command` on values: what each command does to the
      session. */
  function CommandEffect(c: Command, rt: Runtime, settings: Settings, promptFiles: map<string, string>, clock: Clock): Effect {
    match c
    case QuitCommand => Effect(Quit, rt)
    case ResetCommand =>
      Effect(Consumed, rt.(memory := [], historyFile := "", console := rt.console + [RESET_NOTICE],
                           fileOps := rt.fileOps + CutOps(rt.historyFile, settings.historyDir, clock)))
    case ListModels =>
      Effect(Consumed, rt.(console := rt.console + [SystemLine(Join([MODELS_HEADER] + ModelLines(settings.models, rt.model), "\n"))]))
    case UseModel(name) =>
      (match FirstModelNamed(settings.models, name)
       case Some(i) =>
         var id := settings.models[i].id;
         Effect(Consumed, rt.(model := id, console := rt.console + [UsingModel(id)]))
       case None => Effect(FallThrough, rt))
    case ListAgents =>
      Effect(Consumed, rt.(console := rt.console + [SystemLine(Join([AGENTS_HEADER] + AgentLines(settings.agents, rt.agentName), "\n"))]))
    case UseAgent(name) =>
      (match FirstAgentNamed(settings.agents, name)
       case Some(i) => AgentEffect(settings.agents[i], rt, settings, promptFiles)
       case None => Effect(FallThrough, rt))
    case Unknown => Effect(FallThrough, rt)
  }

  /** Only `/q` quits, in any letter case. */
  lemma QuitOnlyOnSlashQ(query: string, rt: Runtime, settings: Settings, promptFiles: map<string, string>, clock: Clock)
    ensures CommandEffect(ParseCommand(query), rt, settings, promptFiles, clock).outcome == Quit <==> Lower(query) == "/q"
  {
    var e := CommandEffect(ParseCommand(query), rt, settings, promptFiles, clock);
    if ParseCommand(query).UseAgent? {
      match FirstAgentNamed(settings.agents, ParseCommand(query).name)
      case Some(i) =>
        assert e == AgentEffect(settings.agents[i], rt, settings, promptFiles);
      case None =>
    }
  }

  /** A command that is handed on as a query changes neither the memory,
      the model, the system prompt nor the history file; at most the agent
      name and the console. Only `/m <name>`, `/a <name>` and unknown
      commands are handed on. */
  lemma FallThroughKeepsConversation(c: Command, rt: Runtime, settings: Settings, promptFiles: map<string, string>, clock: Clock)
    requires CommandEffect(c, rt, settings, promptFiles, clock).outcome == FallThrough
    ensures var after := CommandEffect(c, rt, settings, promptFiles, clock).after;
      after.memory == rt.memory && after.model == rt.model && after.systemPrompt == rt.systemPrompt
      && after.historyFile == rt.historyFile && after.fileOps == rt.fileOps
    ensures c.UseModel? || c.UseAgent? || c.Unknown?
  {
    if c.UseAgent? {
      match FirstAgentNamed(settings.agents, c.name)
      case Some(i) =>
        assert CommandEffect(c, rt, settings, promptFiles, clock) == AgentEffect(settings.agents[i], rt, settings, promptFiles);
        AgentEffectKeeps(settings.agents[i], rt, settings, promptFiles);
      case None =>
    }
  }

  /** Picking an agent touches neither memory, model, history file nor
      files, and keeps the system prompt when it hands the line on. */
  lemma AgentEffectKeeps(agent: AgentEntry, rt: Runtime, settings: Settings, promptFiles: map<string, string>)
    ensures var e := AgentEffect(agent, rt, settings, promptFiles);
      && e.after.memory == rt.memory && e.after.model == rt.model
      && e.after.historyFile == rt.historyFile && e.after.fileOps == rt.fileOps
      && (e.outcome == FallThrough ==> e.after.systemPrompt == rt.systemPrompt)
  {
    var picked := rt.(agentName := agent.name, console := rt.console + [UsingAgent(agent.name)]);
    assert picked.memory == rt.memory && picked.model == rt.model && picked.systemPrompt == rt.systemPrompt;
    assert picked.historyFile == rt.historyFile && picked.fileOps == rt.fileOps;
  }

  /** Every command keeps the conversation's shape: memory is either kept
      or cleared. */
  lemma CommandKeepsShape(c: Command, rt: Runtime, settings: Settings, promptFiles: map<string, string>, clock: Clock)
    requires Settled(rt.memory)
    ensures var after := CommandEffect(c, rt, settings, promptFiles, clock).after;
      Settled(after.memory) && (after.memory == rt.memory || after.memory == [])
  {
    if c.UseAgent? {
      match FirstAgentNamed(settings.agents, c.name)
      case Some(i) =>
        assert CommandEffect(c, rt, settings, promptFiles, clock) == AgentEffect(settings.agents[i], rt, settings, promptFiles);
        AgentEffectKeeps(settings.agents[i], rt, settings, promptFiles);
      case None =>
    }
  }

  /** `/m <name>` picks the first model with that name, and leaves
      everything but the model and the console alone. */
  lemma ModelSwitch(name: string, rt: Runtime, settings: Settings, promptFiles: map<string, string>, clock: Clock)
    requires CommandEffect(UseModel(name), rt, settings, promptFiles, clock).outcome == Consumed
    ensures exists i ::
      && 0 <= i < |settings.models| && settings.models[i].name == name
      && (forall j :: 0 <= j < i ==> settings.models[j].name != name)
      && CommandEffect(UseModel(name), rt, settings, promptFiles, clock).after
         == rt.(model := settings.models[i].id, console := rt.console + [UsingModel(settings.models[i].id)])
  {
    var i := FirstModelNamed(settings.models, name).value;
    assert settings.models[i].name == name;
  }

  // ---------------------------------------------------------------------
  // One pass of the chat loop, on values

  /** What one pass of the chat loop ended with, and the state it leaves. */
  datatype Turned = Turned(outcome: TurnOutcome, after: Runtime)

  /** The memory `handle` leaves before the answer is recorded: the system
      message when memory was empty, then the query. */
  function Opened(rt: Runtime, message: Message, clock: Clock): seq<Message> {
    rt.memory + (if rt.memory == [] then [SystemMessage(rt.model, clock.date, rt.systemPrompt)] else []) + [message]
  }

  /** `QueryProcessor().handle(message)`, `dump_messages()` and the two
      closing prints. Decoding that raises prints the error and exits with
      status 1, leaving the query unanswered in memory. */
  function SendEffect(message: Message, rt: Runtime, settings: Settings, chunks: seq<string>,
                      decode: string -> LineValue, clock: Clock): Turned {
    var r := RunChunks(Stream("", Initial), chunks, decode);
    var printed := rt.console + [Stdout(r.stream.decoded.out)];
    if r.raised then
      Turned(Exit(1), rt.(memory := Opened(rt, message, clock), console := printed + [ErrorNotice(UnboundPureChunk)]))
    else
      var memory := Opened(rt, message, clock) + [AssistantMessage(r.stream.decoded)];
      var file := if rt.historyFile == "" then HistoryPath(settings.historyDir, clock.day) else rt.historyFile;
      Turned(Answered, rt.(memory := memory, historyFile := file,
                          console := printed + [TURN_RULE, MemorySizeNotice(|memory|)],
                          fileOps := rt.fileOps + [Append(file, Render(memory))]))
  }

  /** The query branch of `chat_loop`: `prepare_query`, whose missing
      attachment is an exception, then the message sent. */
  function AskEffect(query: string, rt: Runtime, settings: Settings, chunks: seq<string>,
                     decode: string -> LineValue, files: map<string, string>, clock: Clock): Turned {
    match Prepared(query, files)
    case Failure(e) => Turned(Exit(1), rt.(console := rt.console + [ErrorNotice(MissingFile(e.path))]))
    case Success(message) => SendEffect(message, rt, settings, chunks, decode, clock)
  }

  /** One pass of `chat_loop` on a typed line: an empty line prompts again,
      a line starting with `/` goes to the command interpreter and is sent
      only when the interpreter hands it on. */
  function TurnEffect(line: string, rt: Runtime, settings: Settings, chunks: seq<string>, decode: string -> LineValue,
                      files: map<string, string>, promptFiles: map<string, string>, clock: Clock): Turned {
    var q := Strip(line);
    if q == "" then Turned(Prompted, rt.(console := rt.console + [EMPTY_NOTICE, RULE]))
    else if StartsWith(q, "/") then
      var e := CommandEffect(ParseCommand(q), rt, settings, promptFiles, clock);
      match e.outcome
      case Quit => Turned(Exit(0), e.after)
      case Consumed => Turned(CommandDone, e.after.(console := e.after.console + [RULE]))
      case Raised(f) => Turned(Exit(1), e.after.(console := e.after.console + [ErrorNotice(f)]))
      case FallThrough => AskEffect(q, e.after, settings, chunks, decode, files, clock)
    else AskEffect(q, rt, settings, chunks, decode, files, clock)
  }

  /** Sending a message changes neither the model, the agent nor the
      system prompt, and prints the decoder's output first. It is answered
      exactly when decoding does not raise: then memory holds the
      assistant message and is appended to the history file; otherwise the
      query stays unanswered and no file is touched. */
  lemma SendKeeps(message: Message, rt: Runtime, settings: Settings, chunks: seq<string>,
                  decode: string -> LineValue, clock: Clock)
    ensures var t := SendEffect(message, rt, settings, chunks, decode, clock);
      var r := RunChunks(Stream("", Initial), chunks, decode);
      && t.after.model == rt.model && t.after.agentName == rt.agentName && t.after.systemPrompt == rt.systemPrompt
      && |t.after.console| > |rt.console| && t.after.console[..|rt.console| + 1] == rt.console + [Stdout(r.stream.decoded.out)]
      && (t.outcome == Answered <==> !r.raised)
      && (t.outcome == Answered || t.outcome == Exit(1))
      && (t.outcome == Answered ==>
            && t.after.memory == Opened(rt, message, clock) + [AssistantMessage(r.stream.decoded)]
            && t.after.historyFile != ""
            && t.after.fileOps == rt.fileOps + [Append(t.after.historyFile, Render(t.after.memory))])
      && (t.outcome == Exit(1) ==>
            t.after.memory == Opened(rt, message, clock) && t.after.historyFile == rt.historyFile && t.after.fileOps == rt.fileOps)
  {
    var t := SendEffect(message, rt, settings, chunks, decode, clock);
    var r := RunChunks(Stream("", Initial), chunks, decode);
    var printed := rt.console + [Stdout(r.stream.decoded.out)];
    assert t.after.console[..|rt.console| + 1] == printed;
  }

  /** A turn that is answered keeps the conversation settled and adds the
      system message (first turn only), the query and the answer; a turn
      whose decoding raises leaves the query unanswered. */
  lemma SendSettles(message: Message, rt: Runtime, settings: Settings, chunks: seq<string>,
                    decode: string -> LineValue, clock: Clock)
    requires Settled(rt.memory) && message.role == User
    ensures var t := SendEffect(message, rt, settings, chunks, decode, clock);
      && ConversationShape(t.after.memory)
      && (t.outcome == Answered <==> Settled(t.after.memory))
      && (t.outcome == Answered ==> |t.after.memory| == |rt.memory| + (if rt.memory == [] then 3 else 2))
  {
    var r := RunChunks(Stream("", Initial), chunks, decode);
    var sys := SystemMessage(rt.model, clock.date, rt.systemPrompt);
    var answer := AssistantMessage(r.stream.decoded);
    SendKeeps(message, rt, settings, chunks, decode, clock);
    ConversationGrows(rt.memory, sys, message, answer);
    assert Opened(rt, message, clock) == rt.memory + (if rt.memory == [] then [sys] else []) + [message];
  }

  /** Asking changes neither the model, the agent nor the system prompt;
      it is answered exactly when the attachments can be read and decoding
      does not raise, and only an error leaves the conversation unsettled. */
  lemma AskKeeps(query: string, rt: Runtime, settings: Settings, chunks: seq<string>, decode: string -> LineValue,
                 files: map<string, string>, clock: Clock)
    requires Settled(rt.memory)
    ensures var t := AskEffect(query, rt, settings, chunks, decode, files, clock);
      && t.after.model == rt.model && t.after.agentName == rt.agentName && t.after.systemPrompt == rt.systemPrompt
      && (t.outcome == Answered <==> Prepared(query, files).Success? && !RunChunks(Stream("", Initial), chunks, decode).raised)
      && ConversationShape(t.after.memory)
      && (t.outcome != Exit(1) ==> Settled(t.after.memory))
  {
    match Prepared(query, files)
    case Success(m) =>
      PreparedIsUser(query, files);
      SendKeeps(m, rt, settings, chunks, decode, clock);
      SendSettles(m, rt, settings, chunks, decode, clock);
    case Failure(_) =>
  }

  /** Only `/m <name>` can change the model, and only `/a <name>` the
      system prompt. */
  lemma CommandTouches(c: Command, rt: Runtime, settings: Settings, promptFiles: map<string, string>, clock: Clock)
    ensures var after := CommandEffect(c, rt, settings, promptFiles, clock).after;
      (after.model != rt.model ==> c.UseModel?) && (after.systemPrompt != rt.systemPrompt ==> c.UseAgent?)
  {
    if c.UseAgent? {
      match FirstAgentNamed(settings.agents, c.name)
      case Some(i) =>
        assert CommandEffect(c, rt, settings, promptFiles, clock) == AgentEffect(settings.agents[i], rt, settings, promptFiles);
        AgentEffectKeeps(settings.agents[i], rt, settings, promptFiles);
      case None =>
    }
  }

  /** A line is answered exactly when it is not empty, is not a command or
      is one the interpreter hands on, its attachments can be read, and
      decoding does not raise. Only `/m <name>` can change the model and
      only `/a <name>` the system prompt, and a turn that no error ends
      leaves the conversation settled. */
  lemma TurnKeepsConversation(line: string, rt: Runtime, settings: Settings, chunks: seq<string>, decode: string -> LineValue,
                              files: map<string, string>, promptFiles: map<string, string>, clock: Clock)
    requires Settled(rt.memory)
    ensures var q := Strip(line);
      var t := TurnEffect(line, rt, settings, chunks, decode, files, promptFiles, clock);
      && (t.outcome == Answered
          <==> && q != ""
               && (!StartsWith(q, "/") || CommandEffect(ParseCommand(q), rt, settings, promptFiles, clock).outcome == FallThrough)
               && Prepared(q, files).Success? && !RunChunks(Stream("", Initial), chunks, decode).raised)
      && (t.after.model != rt.model ==> q != "" && StartsWith(q, "/") && ParseCommand(q).UseModel?)
      && (t.after.systemPrompt != rt.systemPrompt ==> q != "" && StartsWith(q, "/") && ParseCommand(q).UseAgent?)
      && ConversationShape(t.after.memory)
      && (t.outcome != Exit(1) ==> Settled(t.after.memory))
  {
    var q := Strip(line);
    if q != "" && StartsWith(q, "/") {
      var c := ParseCommand(q);
      var e := CommandEffect(c, rt, settings, promptFiles, clock);
      CommandKeepsShape(c, rt, settings, promptFiles, clock);
      CommandTouches(c, rt, settings, promptFiles, clock);
      if e.outcome == FallThrough {
        FallThroughKeepsConversation(c, rt, settings, promptFiles, clock);
        AskKeeps(q, e.after, settings, chunks, decode, files, clock);
      }
    } else if q != "" {
      AskKeeps(q, rt, settings, chunks, decode, files, clock);
    }
  }

  // ---------------------------------------------------------------------
  // The decoder object

  class QueryProcessor {
    var fullResponse: string
    var reasoningContents: seq<string>
    var answerContents: seq<string>
    var thinkingTag: ThinkTag
    /** What the decoder has printed, in order. */
    var output: seq<Printed>
    var messages: seq<Message>

    function State(): Decoded
      reads this
    {
      Decoded(reasoningContents, answerContents, thinkingTag, output)
    }

    ghost predicate Valid()
      reads this
    {
      Wellformed(State())
    }

    /** `__init__`. */
    constructor ()
      ensures Valid()
      ensures fullResponse == "" && State() == Initial && messages == []
    {
      new;
      ResetState();
    }

    /** `_reset_state`. */
    method ResetState()
      modifies this
      ensures Valid()
      ensures fullResponse == "" && State() == Initial && messages == []
    {
      fullResponse := "";
      reasoningContents := [];
      answerContents := [];
      thinkingTag := Unset;
      output := [];
      messages := [];
    }

    /** `_parse_chunk`. */
    method ParseChunk(chunk: string, decode: string -> LineValue) returns (raised: bool)
      requires Valid()
      modifies this
      ensures Valid()
      ensures Streamed(Stream(fullResponse, State()), raised) == ParsedChunk(Stream(old(fullResponse), old(State())), chunk, decode)
      ensures messages == old(messages)
    {
      var striped := Strip(chunk);
      fullResponse := fullResponse + striped + "\n";
      if !StartsWith(striped, "data:") {
        return true;
      }
      var pureChunk := RemoveAll(striped, "data: ");
      var lines := Split(pureChunk, '\n');
      ghost var start := State();
      for i := 0 to |lines|
        invariant State() == RunLines(start, lines[..i], decode)
        invariant Valid()
        invariant fullResponse == old(fullResponse) + striped + "\n" && messages == old(messages)
      {
        assert lines[..i + 1][..i] == lines[..i];
        StepLineWellformed(State(), lines[i], decode);
        ParseLine(lines[i], decode);
      }
      assert lines[..|lines|] == lines;
      raised := false;
    }

    /** One iteration of `_parse_chunk`'s line loop. */
    method ParseLine(line: string, decode: string -> LineValue)
      modifies this`reasoningContents, this`answerContents, this`thinkingTag, this`output
      ensures State() == StepLine(old(State()), line, decode)
    {
      if line == "" || line == "[DONE]" {
        return;
      }
      match decode(line) {
        case Malformed(e) =>
          output := output + [LineError(e)];
        case NoChoices =>
        case Delta(reasoningContent, answerContent) =>
          TakeReasoning(reasoningContent);
          TakeAnswer(answerContent);
      }
    }

    /** The reasoning half of one delta. */
    method TakeReasoning(reasoningContent: Option<string>)
      modifies this`reasoningContents, this`thinkingTag, this`output
      ensures State() == OnReasoning(old(State()), reasoningContent)
    {
      if reasoningContent.Some? && reasoningContent.value != "" {
        reasoningContents := reasoningContents + [reasoningContent.value];
        if |reasoningContents| > 0 && thinkingTag == Unset {
          output := output + [OpenMarker];
          thinkingTag := ThinkStart;
        }
        output := output + [ReasoningText(reasoningContent.value)];
      }
    }

    /** The answer half of one delta. */
    method TakeAnswer(answerContent: Option<string>)
      modifies this`answerContents, this`thinkingTag, this`output
      ensures State() == OnAnswer(old(State()), answerContent)
    {
      if answerContent.Some? && answerContent.value != "" {
        answerContents := answerContents + [answerContent.value];
        if |answerContents| > 0 && thinkingTag == ThinkStart {
          output := output + [CloseMarker];
          thinkingTag := ThinkEnd;
        }
        output := output + [AnswerText(answerContent.value)];
      }
    }

    /** `_do_query`: the new messages join memory before the request is
        built, then the response chunks are decoded until an empty chunk. */
    method DoQuery(query: Message, chunks: seq<string>, decode: string -> LineValue, session: Session)
      returns (request: Request, raised: bool)
      requires Valid()
      modifies this, session`memory
      ensures Valid()
      ensures messages == old(messages) + [query]
      ensures session.memory == old(session.memory) + messages
      ensures request.url == session.settings.endpoint + "/v1/chat/completions"
      ensures request.authorization == "Bearer " + session.settings.apiKey
      ensures request.model == session.model && request.stream
      ensures |request.messages| == |session.memory|
      ensures forall i :: 0 <= i < |session.memory| ==>
        request.messages[i] == WireMessage(session.memory[i].role, session.memory[i].content)
      ensures Streamed(Stream(fullResponse, State()), raised)
        == RunChunks(Stream(old(fullResponse), old(State())), chunks, decode)
    {
      messages := messages + [query];
      session.memory := session.memory + messages;
      var wire := RemoveReasoning(session.memory);
      request := Request(session.settings.endpoint + "/v1/chat/completions", "Bearer " + session.settings.apiKey, wire, session.model, true);
      raised := false;
      var i := 0;
      while i < |chunks|
        invariant 0 <= i <= |chunks|
        invariant Valid()
        invariant messages == old(messages) + [query]
        invariant session.memory == old(session.memory) + messages
        invariant RunChunks(Stream(old(fullResponse), old(State())), chunks, decode)
          == RunChunks(Stream(fullResponse, State()), chunks[i..], decode)
      {
        var chunk := chunks[i];
        if chunk == "" {
          break;
        }
        assert chunks[i..][1..] == chunks[i + 1..];
        raised := ParseChunk(chunk, decode);
        if raised {
          return;
        }
        i := i + 1;
      }
    }

    /** `_record_history`. */
    method RecordHistory(session: Session)
      modifies session`memory
      ensures session.memory == old(session.memory) + [AssistantMessage(State())]
    {
      session.memory := session.memory + [Message(Assistant, Text(Strip(Concat(answerContents))), Some(Concat(reasoningContents)))];
    }

    /** `handle`: a system message first when memory is empty, then the
        query, then (unless decoding raised) the assistant message. */
    method Handle(query: Message, chunks: seq<string>, decode: string -> LineValue, session: Session, clock: Clock)
      returns (request: Request, raised: bool)
      requires Valid()
      modifies this, session`memory
      ensures Valid()
      ensures messages == old(messages)
        + (if old(session.memory) == [] then [SystemMessage(session.model, clock.date, session.systemPrompt)] else [])
        + [query]
      ensures Streamed(Stream(fullResponse, State()), raised)
        == RunChunks(Stream(old(fullResponse), old(State())), chunks, decode)
      ensures session.memory == old(session.memory) + messages + (if raised then [] else [AssistantMessage(State())])
      ensures old(messages) == [] && !raised ==>
        |session.memory| == |old(session.memory)| + (if old(session.memory) == [] then 3 else 2)
      ensures |request.messages| == |old(session.memory)| + |messages|
    {
      if |session.memory| == 0 {
        messages := messages + [Message(System, Text(SystemPrompt(session.model, clock.date, session.systemPrompt)), None)];
      }
      request, raised := DoQuery(query, chunks, decode, session);
      if raised {
        return;
      }
      RecordHistory(session);
    }
  }

  // ---------------------------------------------------------------------
  // The session: memory, runtime configuration, static configuration

  class Session {
    const settings: Settings

    var memory: seq<Message>
    var model: string
    var agentName: string
    var systemPrompt: string
    var historyFile: string
    /** Lines printed by the chat loop and the commands, in order. */
    var console: seq<string>
    /** Transcript appends and renames, in order. */
    var fileOps: seq<FileOp>

    function Now(): Runtime
      reads this
    {
      Runtime(memory, model, agentName, systemPrompt, historyFile, console, fileOps)
    }

    /** The state `main` leaves before the chat loop starts, with the first
        model and the first agent's prompt as parameters. */
    constructor (settings: Settings, model: string, systemPrompt: string)
      ensures this.settings == settings
      ensures Now() == Runtime([], model, "default", systemPrompt, "", [], [])
    {
      this.settings := settings;
      this.memory := [];
      this.model := model;
      this.agentName := "default";
      this.systemPrompt := systemPrompt;
      this.historyFile := "";
      this.console := [];
      this.fileOps := [];
    }

    /** `dump_messages`: picks the day's history file the first time, then
        appends the whole memory, rendered. */
    method DumpMessages(clock: Clock)
      modifies this`historyFile, this`fileOps
      ensures historyFile == if old(historyFile) == "" then HistoryPath(settings.historyDir, clock.day) else old(historyFile)
      ensures historyFile != ""
      ensures fileOps == old(fileOps) + [Append(historyFile, Render(memory))]
    {
      if historyFile == "" {
        historyFile := JoinPath(settings.historyDir, "history-" + clock.day + ".md");
      }
      var buf := RenderBuffer(memory);
      fileOps := fileOps + [Append(historyFile, Join(buf, "\n\n"))];
    }

    /** `cut_history`: renames the active history file, if there is one, and
        forgets it. */
    method CutHistory(clock: Clock)
      modifies this`historyFile, this`fileOps
      ensures historyFile == ""
      ensures fileOps == old(fileOps) + CutOps(old(historyFile), settings.historyDir, clock)
    {
      if historyFile != "" {
        var savedFile := JoinPath(settings.historyDir, "history-" + clock.stamp + ".md");
        fileOps := fileOps + [Rename(historyFile, savedFile)];
        historyFile := "";
      }
    }

    /** `handle_system_command`. */
    method HandleSystemCommand(query: string, promptFiles: map<string, string>, clock: Clock)
      returns (outcome: CommandOutcome)
      modifies this
      ensures Effect(outcome, Now()) == CommandEffect(ParseCommand(query), old(Now()), settings, promptFiles, clock)
    {
      var cmdLine := Lower(query);
      if cmdLine == "/q" {
        return Quit;
      }
      if cmdLine == "/r" || cmdLine == "/c" {
        memory := [];
        console := console + [RESET_NOTICE];
        CutHistory(clock);
        return Consumed;
      }
      if StartsWith(cmdLine, "/m") {
        var args := Split(cmdLine, ' ')[1..];
        if |args| == 0 || args[0] == "list" {
          var listing := GetModels(settings.models, model);
          console := console + [SystemLine(listing)];
          return Consumed;
        }
        outcome := SelectModel(args[0]);
        return;
      }
      if StartsWith(cmdLine, "/a") {
        var args := Split(cmdLine, ' ')[1..];
        if |args| == 0 || args[0] == "list" {
          var listing := GetAgents(settings.agents, agentName);
          console := console + [SystemLine(listing)];
          return Consumed;
        }
        outcome := SelectAgent(args[0], promptFiles);
        return;
      }
      return FallThrough;
    }

    /** The model loop of `handle_system_command`. */
    method SelectModel(modelName: string) returns (outcome: CommandOutcome)
      modifies this`model, this`console
      ensures outcome == (if FirstModelNamed(settings.models, modelName).Some? then Consumed else FallThrough)
      ensures FirstModelNamed(settings.models, modelName).Some? ==>
        var id := settings.models[FirstModelNamed(settings.models, modelName).value].id;
        model == id && console == old(console) + [UsingModel(id)]
      ensures FirstModelNamed(settings.models, modelName).None? ==> model == old(model) && console == old(console)
    {
      var models := settings.models;
      var i := 0;
      while i < |models|
        invariant 0 <= i <= |models|
        invariant forall j :: 0 <= j < i ==> models[j].name != modelName
      {
        if models[i].name == modelName {
          assert FirstModelNamed(models, modelName) == Some(i);
          model := models[i].id;
          console := console + [UsingModel(models[i].id)];
          return Consumed;
        }
        i := i + 1;
      }
      return FallThrough;
    }

    /** The agent loop of `handle_system_command`. */
    method SelectAgent(agentWanted: string, promptFiles: map<string, string>) returns (outcome: CommandOutcome)
      modifies this`agentName, this`systemPrompt, this`console
      ensures match FirstAgentNamed(settings.agents, agentWanted)
        case Some(i) => Effect(outcome, Now()) == AgentEffect(settings.agents[i], old(Now()), settings, promptFiles)
        case None => outcome == FallThrough && Now() == old(Now())
    {
      var agents := settings.agents;
      var i := 0;
      while i < |agents|
        invariant 0 <= i <= |agents|
        invariant forall j :: 0 <= j < i ==> agents[j].name != agentWanted
      {
        var x := agents[i];
        if x.name == agentWanted {
          assert FirstAgentNamed(agents, agentWanted) == Some(i);
          agentName := x.name;
          console := console + [UsingAgent(x.name)];
          match x.prompt {
            case Inline(text) =>
              systemPrompt := text;
            case PromptFile(file) =>
              var path := JoinPath(settings.scriptDir, file);
              if path !in promptFiles {
                return Raised(MissingFile(path));
              }
              systemPrompt := promptFiles[path];
            case NoPrompt =>
              console := console + [NoPromptNotice(x.name)];
              return FallThrough;
          }
          return Consumed;
        }
        i := i + 1;
      }
      assert FirstAgentNamed(agents, agentWanted) == None;
      return FallThrough;
    }

    /** One pass of `chat_loop`: an empty line prompts again; a line
        starting with `/` goes to the command interpreter and is sent as a
        query only when the interpreter returns `False`. An exception prints
        an error and exits with status 1. */
    method Turn(line: string, chunks: seq<string>, decode: string -> LineValue,
                files: map<string, string>, promptFiles: map<string, string>, clock: Clock)
      returns (outcome: TurnOutcome)
      modifies this
      ensures Turned(outcome, Now()) == TurnEffect(line, old(Now()), settings, chunks, decode, files, promptFiles, clock)
    {
      var query := Strip(line);
      if query == "" {
        console := console + [EMPTY_NOTICE, RULE];
        return Prompted;
      }
      if StartsWith(query, "/") {
        var parsed := HandleSystemCommand(query, promptFiles, clock);
        match parsed {
          case Quit =>
            return Exit(0);
          case Raised(fault) =>
            console := console + [ErrorNotice(fault)];
            return Exit(1);
          case Consumed =>
            console := console + [RULE];
            return CommandDone;
          case FallThrough =>
        }
      }
      outcome := Ask(query, chunks, decode, files, clock);
    }

    /** The query branch of `chat_loop`: `prepare_query`, then the query
        handled; a missing attachment is an exception. */
    method Ask(query: string, chunks: seq<string>, decode: string -> LineValue,
               files: map<string, string>, clock: Clock)
      returns (outcome: TurnOutcome)
      modifies this`memory, this`console, this`historyFile, this`fileOps
      ensures Turned(outcome, Now()) == AskEffect(query, old(Now()), settings, chunks, decode, files, clock)
    {
      var prepared := PrepareQuery(query, files);
      if prepared.Failure? {
        console := console + [ErrorNotice(MissingFile(prepared.error.path))];
        return Exit(1);
      }
      outcome := Send(prepared.value, chunks, decode, clock);
    }

    /** `QueryProcessor().handle(...)` on this session: the decoded stream,
        whether it raised, and the memory it leaves. */
    method Respond(message: Message, chunks: seq<string>, decode: string -> LineValue, clock: Clock)
      returns (decoded: Decoded, raised: bool)
      modifies this`memory, this`console
      ensures var r := RunChunks(Stream("", Initial), chunks, decode);
        decoded == r.stream.decoded && raised == r.raised
      ensures memory == old(memory)
        + (if old(memory) == [] then [SystemMessage(model, clock.date, systemPrompt)] else [])
        + [message] + (if raised then [] else [AssistantMessage(decoded)])
      ensures console == old(console) + [Stdout(decoded.out)]
    {
      ghost var before := memory;
      ghost var system := if memory == [] then [SystemMessage(model, clock.date, systemPrompt)] else [];
      var processor := new QueryProcessor();
      var request;
      request, raised := processor.Handle(message, chunks, decode, this, clock);
      decoded := processor.State();
      assert processor.messages == system + [message];
      AppendAssoc(before, system, [message]);
      console := console + [Stdout(processor.output)];
    }

    /** `QueryProcessor().handle(...)`, `dump_messages` and the memory size,
        for a prepared message. */
    method Send(message: Message, chunks: seq<string>, decode: string -> LineValue, clock: Clock)
      returns (outcome: TurnOutcome)
      modifies this`memory, this`console, this`historyFile, this`fileOps
      ensures Turned(outcome, Now()) == SendEffect(message, old(Now()), settings, chunks, decode, clock)
    {
      ghost var before := Now();
      var decoded, raised := Respond(message, chunks, decode, clock);
      ghost var printed := before.console + [Stdout(decoded.out)];
      if raised {
        assert Now() == before.(memory := Opened(before, message, clock), console := printed);
        console := console + [ErrorNotice(UnboundPureChunk)];
        return Exit(1);
      }
      DumpMessages(clock);
      assert Now() == before.(memory := memory, historyFile := historyFile, console := printed, fileOps := fileOps);
      console := console + [TURN_RULE, MemorySizeNotice(|memory|)];
      return Answered;
    }
  }
}
