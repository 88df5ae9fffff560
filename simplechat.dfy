/** main.py: the minimal client. Its decoding loop is the one of
    src/t5.py, with two differences that matter: `pure_chunk` lives across
    chunks, so a chunk that does not start with `data:` decodes the previous
    payload again (and raises only when there was none), and the chat loop
    sends every line that is not `/quit` or `/q`, an empty one included. */
module SimpleChat {
  import opened Wrappers
  import opened PyStr
  import opened Delta
  import opened Messages
  import opened Transcript
  import T5

  const ENDPOINT := "http://localhost:10000/chat/completions"
  const MODEL := "THUDM/GLM-Z1-9B-0414"
  const API_KEY := "sk-3412"
  const SYSTEM_TEXT := "answer in 中文"

  /** The fixed two-message request `process_query` posts. */
  function RequestFor(query: string): (r: T5.Request)
    ensures r.url == ENDPOINT && r.model == MODEL && r.stream
    ensures r.messages == [WireMessage(System, Text(SYSTEM_TEXT)), WireMessage(User, Text(query))]
  {
    T5.Request(ENDPOINT, "Bearer " + API_KEY, [WireMessage(System, Text(SYSTEM_TEXT)), WireMessage(User, Text(query))], MODEL, true)
  }

  /** The raw log, the last payload (`pure_chunk`, unbound until the first
      `data:` chunk) and the decoder state. */
  datatype Reader = Reader(full: string, pure: Option<string>, decoded: Decoded)

  datatype Read = Read(reader: Reader, raised: bool)

  /** One chunk: logged, its payload remembered when it is a `data:` chunk,
      then the remembered payload's lines decoded. */
  function ReadChunk(r: Reader, chunk: string, decode: string -> LineValue): Read {
    var striped := Strip(chunk);
    var full := r.full + striped + "\n";
    var pure := if StartsWith(striped, "data:") then Some(RemoveAll(striped, "data: ")) else r.pure;
    match pure
    case None => Read(Reader(full, None, r.decoded), true)
    case Some(p) => Read(Reader(full, pure, RunLines(r.decoded, Split(p, '\n'), decode)), false)
  }

  /** The chunk loop: stops at the first empty chunk or the first raise. */
  function ReadChunks(r: Reader, chunks: seq<string>, decode: string -> LineValue): Read
    decreases |chunks|
  {
    if chunks == [] || chunks[0] == "" then Read(r, false)
    else
      var x := ReadChunk(r, chunks[0], decode);
      if x.raised then x else ReadChunks(x.reader, chunks[1..], decode)
  }

  /** A chunk without `data:` after a `data:` chunk decodes the previous
      payload a second time: its deltas are stored and printed twice. */
  lemma NonDataChunkReplays(r: Reader, chunk: string, decode: string -> LineValue)
    requires r.pure.Some? && !T5.IsDataChunk(chunk)
    ensures var x := ReadChunk(r, chunk, decode);
      !x.raised && x.reader.pure == r.pure
      && x.reader.decoded == RunLines(r.decoded, Split(r.pure.value, '\n'), decode)
      && x.reader.decoded.answers == r.decoded.answers + AnswerDeltas(Split(r.pure.value, '\n'), decode)
  {
    DeltasInOrder(r.decoded, Split(r.pure.value, '\n'), decode);
  }

  /** Before any `data:` chunk, a chunk without `data:` raises (the
      payload variable is unbound) and leaves the decoder as it was. */
  lemma FirstNonDataChunkRaises(r: Reader, chunk: string, decode: string -> LineValue)
    requires r.pure.None? && !T5.IsDataChunk(chunk)
    ensures ReadChunk(r, chunk, decode) == Read(Reader(r.full + Strip(chunk) + "\n", None, r.decoded), true)
  {
  }

  /** On a stream of `data:` chunks the two clients decode alike: same raw
      log, same deltas, same output, and neither raises. */
  lemma {:induction false} AgreesWithT5OnDataChunks(r: Reader, chunks: seq<string>, decode: string -> LineValue)
    requires forall i :: 0 <= i < |chunks| ==> chunks[i] == "" || T5.IsDataChunk(chunks[i])
    ensures var x := ReadChunks(r, chunks, decode);
      var y := T5.RunChunks(T5.Stream(r.full, r.decoded), chunks, decode);
      !x.raised && !y.raised && x.reader.full == y.stream.full && x.reader.decoded == y.stream.decoded
    decreases |chunks|
  {
    if chunks != [] && chunks[0] != "" {
      var x := ReadChunk(r, chunks[0], decode);
      assert forall i :: 0 <= i < |chunks[1..]| ==> chunks[1..][i] == chunks[i + 1];
      AgreesWithT5OnDataChunks(x.reader, chunks[1..], decode);
    }
  }

  /** How many chunks the loop of `process_query` reads: up to the first
      empty one, but only the first one when it is not a `data:` chunk and
      no payload is bound yet (`bound` says whether one is). */
  function Examined(bound: bool, chunks: seq<string>): (n: nat)
    ensures n <= |chunks|
    decreases |chunks|
  {
    if chunks == [] || chunks[0] == "" then 0
    else if !bound && !T5.IsDataChunk(chunks[0]) then 1
    else 1 + Examined(true, chunks[1..])
  }

  /** The lines the loop decodes for some chunks: a `data:` chunk's own
      payload lines, and for any other chunk the lines of the last payload
      seen, if there is one. */
  function ReplayLines(pure: Option<string>, chunks: seq<string>): seq<string>
    decreases |chunks|
  {
    if chunks == [] then []
    else
      var p := if T5.IsDataChunk(chunks[0]) then Some(RemoveAll(Strip(chunks[0]), "data: ")) else pure;
      (if p.Some? then Split(p.value, '\n') else []) + ReplayLines(p, chunks[1..])
  }

  /** The loop raises only on its first chunk, when that chunk is not a
      `data:` chunk and no payload is bound: once a `data:` chunk has been
      read it never raises. */
  lemma {:induction false} ReadChunksRaised(r: Reader, chunks: seq<string>, decode: string -> LineValue)
    ensures ReadChunks(r, chunks, decode).raised
      <==> r.pure.None? && chunks != [] && chunks[0] != "" && !T5.IsDataChunk(chunks[0])
    decreases |chunks|
  {
    if chunks != [] && chunks[0] != "" {
      var x := ReadChunk(r, chunks[0], decode);
      if !x.raised {
        ReadChunksRaised(x.reader, chunks[1..], decode);
      }
    }
  }

  /** One chunk that does not raise: it is read and the loop goes on with
      the rest, with a payload bound. */
  lemma ReadChunkStep(r: Reader, chunks: seq<string>, decode: string -> LineValue)
    requires chunks != [] && chunks[0] != "" && !ReadChunk(r, chunks[0], decode).raised
    ensures var x := ReadChunk(r, chunks[0], decode);
      && x.reader.pure.Some?
      && ReadChunks(r, chunks, decode) == ReadChunks(x.reader, chunks[1..], decode)
      && Examined(r.pure.Some?, chunks) == 1 + Examined(true, chunks[1..])
      && chunks[..Examined(r.pure.Some?, chunks)] == [chunks[0]] + chunks[1..][..Examined(true, chunks[1..])]
  {
    var m := Examined(true, chunks[1..]);
    assert chunks[..m + 1] == [chunks[0]] + chunks[1..][..m];
  }

  /** The raw log holds exactly the examined chunks, stripped, one per
      line, the chunk that raises included. */
  lemma {:induction false} ReadChunksLog(r: Reader, chunks: seq<string>, decode: string -> LineValue)
    ensures ReadChunks(r, chunks, decode).reader.full == r.full + T5.RawLog(chunks[..Examined(r.pure.Some?, chunks)])
    decreases |chunks|
  {
    if chunks == [] || chunks[0] == "" {
      assert chunks[..0] == [];
    } else if ReadChunk(r, chunks[0], decode).raised {
      assert chunks[..1][1..] == [];
    } else {
      ReadChunksLog(ReadChunk(r, chunks[0], decode).reader, chunks[1..], decode);
      ReadChunkLog(r, chunks, decode);
    }
  }

  /** The induction step of `ReadChunksLog`: a chunk that does not raise
      adds its line to the log before the rest is read. */
  lemma ReadChunkLog(r: Reader, chunks: seq<string>, decode: string -> LineValue)
    requires chunks != [] && chunks[0] != "" && !ReadChunk(r, chunks[0], decode).raised
    requires var next := ReadChunk(r, chunks[0], decode).reader;
      ReadChunks(next, chunks[1..], decode).reader.full == next.full + T5.RawLog(chunks[1..][..Examined(true, chunks[1..])])
    ensures ReadChunks(r, chunks, decode).reader.full == r.full + T5.RawLog(chunks[..Examined(r.pure.Some?, chunks)])
  {
    ReadChunkStep(r, chunks, decode);
    var next := ReadChunk(r, chunks[0], decode).reader;
    var line := Strip(chunks[0]) + "\n";
    assert next.full == r.full + Strip(chunks[0]) + "\n";
    AppendAssoc(r.full, Strip(chunks[0]), "\n");
    var prefix := chunks[1..][..Examined(true, chunks[1..])];
    T5.RawLogCons(chunks[0], prefix);
    AppendAssoc(r.full, line, T5.RawLog(prefix));
  }

  /** The decoder ran over the replayed lines of the examined chunks, in
      order, as one stream of lines. */
  lemma {:induction false} ReadChunksDecoded(r: Reader, chunks: seq<string>, decode: string -> LineValue)
    ensures ReadChunks(r, chunks, decode).reader.decoded
      == RunLines(r.decoded, ReplayLines(r.pure, chunks[..Examined(r.pure.Some?, chunks)]), decode)
    decreases |chunks|
  {
    if chunks == [] || chunks[0] == "" {
      assert chunks[..0] == [];
    } else if ReadChunk(r, chunks[0], decode).raised {
      assert chunks[..1][1..] == [];
      assert ReplayLines(r.pure, chunks[..1]) == [];
    } else {
      var c := chunks[0];
      var x := ReadChunk(r, c, decode);
      ReadChunkStep(r, chunks, decode);
      ReadChunksDecoded(x.reader, chunks[1..], decode);
      var prefix := chunks[1..][..Examined(true, chunks[1..])];
      assert ([c] + prefix)[1..] == prefix;
      var lines := Split(x.reader.pure.value, '\n');
      assert ReplayLines(r.pure, [c] + prefix) == lines + ReplayLines(x.reader.pure, prefix);
      RunLinesAppend(r.decoded, lines, ReplayLines(x.reader.pure, prefix), decode);
    }
  }

  /** Whatever the chunks, the decoder keeps its invariant: at most one
      open and one close marker, a tag that only moves forward, only truthy
      deltas stored. */
  lemma {:induction false} ReadChunksWellformed(r: Reader, chunks: seq<string>, decode: string -> LineValue)
    requires Wellformed(r.decoded)
    ensures Wellformed(ReadChunks(r, chunks, decode).reader.decoded)
    decreases |chunks|
  {
    if chunks != [] && chunks[0] != "" {
      var x := ReadChunk(r, chunks[0], decode);
      if !x.raised {
        RunLinesWellformed(r.decoded, Split(x.reader.pure.value, '\n'), decode);
        ReadChunksWellformed(x.reader, chunks[1..], decode);
      }
    }
  }

  /** The loop stops at the first empty chunk: whatever follows it is never
      read. */
  lemma {:induction false} ReadStopsAtFirstEmpty(r: Reader, a: seq<string>, b: seq<string>, decode: string -> LineValue)
    ensures ReadChunks(r, a + [""] + b, decode) == ReadChunks(r, a, decode)
    decreases |a|
  {
    if a != [] && a[0] != "" {
      var x := ReadChunk(r, a[0], decode);
      assert (a + [""] + b)[0] == a[0];
      assert (a + [""] + b)[1..] == a[1..] + [""] + b;
      if !x.raised {
        ReadStopsAtFirstEmpty(x.reader, a[1..], b, decode);
      }
    } else if a != [] {
      assert (a + [""] + b)[0] == a[0];
    }
  }

  /** An event split across two chunks: its second half does not start
      with `data:`, so `main.py` decodes the first half's payload twice
      where `src/t5.py` raises. */
  lemma SplitEventReplays(first: string, second: string, decode: string -> LineValue)
    requires first != "" && T5.IsDataChunk(first) && second != "" && !T5.IsDataChunk(second)
    ensures var x := ReadChunks(Reader("", None, Initial), [first, second], decode);
      var lines := T5.ChunkLines(first);
      !x.raised && x.reader.decoded == RunLines(RunLines(Initial, lines, decode), lines, decode)
    ensures T5.RunChunks(T5.Stream("", Initial), [first, second], decode).raised
  {
    var r0 := Reader("", None, Initial);
    var lines := T5.ChunkLines(first);
    var x := ReadChunk(r0, first, decode);
    assert lines == Split(x.reader.pure.value, '\n');
    var y := ReadChunk(x.reader, second, decode);
    assert y.reader.decoded == RunLines(x.reader.decoded, lines, decode);
    assert !x.raised && !y.raised;
    assert [first, second][1..] == [second];
    assert ReadChunks(r0, [first, second], decode) == ReadChunks(x.reader, [second], decode);
    assert [second][1..] == [];
    assert ReadChunks(x.reader, [second], decode) == ReadChunks(y.reader, [], decode);
    T5.SplitEventRaises(first, second, decode);
  }

  /** `process_query`: the request, the raw log, both delta lists, what was
      printed, and whether the loop raised. */
  method ProcessQuery(query: string, chunks: seq<string>, decode: string -> LineValue)
    returns (request: T5.Request, fullResponse: string, reasoningContents: seq<string>,
             answerContents: seq<string>, output: seq<Printed>, raised: bool)
    ensures request == RequestFor(query)
    ensures var x := ReadChunks(Reader("", None, Initial), chunks, decode);
      raised == x.raised && fullResponse == x.reader.full
      && Decoded(reasoningContents, answerContents, x.reader.decoded.tag, output) == x.reader.decoded
  {
    request := RequestFor(query);
    fullResponse, reasoningContents, answerContents, output := "", [], [], [];
    var thinkingTag := Unset;
    var pureChunk: Option<string> := None;
    raised := false;
    var i := 0;
    while i < |chunks|
      invariant 0 <= i <= |chunks|
      invariant ReadChunks(Reader("", None, Initial), chunks, decode)
        == ReadChunks(Reader(fullResponse, pureChunk, Decoded(reasoningContents, answerContents, thinkingTag, output)), chunks[i..], decode)
      invariant !raised
    {
      var chunk := chunks[i];
      if chunk == "" {
        break;
      }
      assert chunks[i..][1..] == chunks[i + 1..];
      var x := ReadOneChunk(Reader(fullResponse, pureChunk, Decoded(reasoningContents, answerContents, thinkingTag, output)), chunk, decode);
      fullResponse, pureChunk := x.reader.full, x.reader.pure;
      reasoningContents, answerContents := x.reader.decoded.reasoning, x.reader.decoded.answers;
      thinkingTag, output := x.reader.decoded.tag, x.reader.decoded.out;
      if x.raised {
        raised := true;
        return;
      }
      i := i + 1;
    }
  }

  /** One pass of the chunk loop of `process_query`. */
  method ReadOneChunk(r: Reader, chunk: string, decode: string -> LineValue) returns (x: Read)
    ensures x == ReadChunk(r, chunk, decode)
  {
    var striped := Strip(chunk);
    var full := r.full + striped + "\n";
    var pure := r.pure;
    if StartsWith(striped, "data:") {
      pure := Some(RemoveAll(striped, "data: "));
    }
    if pure.None? {
      return Read(Reader(full, None, r.decoded), true);
    }
    var d := DecodeLines(r.decoded, Split(pure.value, '\n'), decode);
    x := Read(Reader(full, pure, d), false);
  }

  /** The per-line loop of `process_query`, on the decoder's four
      variables. */
  method DecodeLines(start: Decoded, lines: seq<string>, decode: string -> LineValue) returns (d: Decoded)
    ensures d == RunLines(start, lines, decode)
  {
    d := start;
    for i := 0 to |lines|
      invariant d == RunLines(start, lines[..i], decode)
    {
      assert lines[..i + 1][..i] == lines[..i];
      var line := lines[i];
      if line == "" || line == "[DONE]" {
        continue;
      }
      match decode(line) {
        case Malformed(e) =>
          d := d.(out := d.out + [LineError(e)]);
        case NoChoices =>
        case Delta(reasoningContent, answerContent) =>
          ghost var before := d;
          if reasoningContent.Some? && reasoningContent.value != "" {
            d := d.(reasoning := d.reasoning + [reasoningContent.value]);
            if |d.reasoning| > 0 && d.tag == Unset {
              d := d.(out := d.out + [OpenMarker], tag := ThinkStart);
              AppendAssoc(before.out, [OpenMarker], [ReasoningText(reasoningContent.value)]);
            }
            d := d.(out := d.out + [ReasoningText(reasoningContent.value)]);
          }
          assert d == OnReasoning(before, reasoningContent);
          ghost var middle := d;
          if answerContent.Some? && answerContent.value != "" {
            d := d.(answers := d.answers + [answerContent.value]);
            if |d.answers| > 0 && d.tag == ThinkStart {
              d := d.(out := d.out + [CloseMarker], tag := ThinkEnd);
              AppendAssoc(middle.out, [CloseMarker], [AnswerText(answerContent.value)]);
            }
            d := d.(out := d.out + [AnswerText(answerContent.value)]);
          }
          assert d == OnAnswer(middle, answerContent);
      }
    }
    assert lines[..|lines|] == lines;
  }

  /** The block `chat_loop` appends to `response.md` for one answered query;
      the think block only when some reasoning arrived. */
  function Record(query: string, reasoningContents: seq<string>, answerContents: seq<string>): string {
    "## User\n\n" + query + "\n\n## Assistant\n\n" + ThinkBlock(Concat(reasoningContents)) + (Concat(answerContents) + "\n\n")
  }

  /** The think block of a record: the markers around the reasoning and a
      newline, or nothing when no reasoning arrived. */
  function ThinkBlock(reasoning: string): string {
    if |reasoning| > 0 then THINK_START + reasoning + THINK_END + "\n" else ""
  }

  /** A record opens with the query under a `## User` heading and the
      `## Assistant` heading, and closes with the unstripped answer and a
      blank line; between them sits the think block exactly when some
      reasoning arrived. */
  lemma RecordShape(query: string, reasoningContents: seq<string>, answerContents: seq<string>)
    ensures var r := Record(query, reasoningContents, answerContents);
      var head := "## User\n\n" + query + "\n\n## Assistant\n\n";
      var tail := Concat(answerContents) + "\n\n";
      && StartsWith(r, head) && EndsWith(r, tail) && |r| >= |head| + |tail|
      && r[|head|..|r| - |tail|]
         == (if Concat(reasoningContents) == "" then "" else THINK_START + Concat(reasoningContents) + THINK_END + "\n")
  {
    var head := "## User\n\n" + query + "\n\n## Assistant\n\n";
    Sandwich(head, ThinkBlock(Concat(reasoningContents)), Concat(answerContents) + "\n\n");
  }

  lemma Sandwich(head: string, mid: string, tail: string)
    ensures var r := head + mid + tail;
      StartsWith(r, head) && EndsWith(r, tail) && |r| >= |head| + |tail| && r[|head|..|r| - |tail|] == mid
  {
    var r := head + mid + tail;
    assert r[..|head|] == head;
    assert r[|r| - |tail|..] == tail;
    assert r[|head|..|r| - |tail|] == mid;
  }

  /** What src/t5.py's `dump_messages` writes for one question and its
      answer, to set beside `Record`: the headings are lower-case there and
      capitalised here, the think block is followed by a blank line there
      and by one newline here, and only here a blank line ends the record. */
  lemma RenderExchange(query: string, reasoning: string, answer: string)
    ensures var m := [Message(User, Text(query), None), Message(Assistant, Text(answer), Some(reasoning))];
      var sep := "\n\n";
      Render(m) == "## user" + sep + query + sep + "## assistant" + sep
        + (if reasoning == "" then "" else THINK_START + reasoning + THINK_END + sep) + answer
  {
    var sep := "\n\n";
    var m := [Message(User, Text(query), None), Message(Assistant, Text(answer), Some(reasoning))];
    ExchangeEntries(m[0], m[1]);
    if reasoning == "" {
      assert Entries(m) == ["## user", query, "## assistant", answer];
      JoinFour("## user", query, "## assistant", answer, sep);
    } else {
      var t := THINK_START + reasoning + THINK_END;
      var e := ["## user", query, "## assistant", t, answer];
      assert Entries(m) == e;
      JoinFour(query, "## assistant", t, answer, sep);
      assert e[1..] == [query, "## assistant", t, answer];
      assert Join(e, sep) == "## user" + sep + Join(e[1..], sep);
    }
  }

  lemma JoinFour(a: string, b: string, c: string, d: string, sep: string)
    ensures Join([a, b, c, d], sep) == a + sep + b + sep + c + sep + d
  {
    assert [a, b, c, d][1..] == [b, c, d];
    assert [b, c, d][1..] == [c, d];
    assert [c, d][1..] == [d];
    assert Join([d], sep) == d;
    assert Join([c, d], sep) == c + sep + d;
    assert Join([b, c, d], sep) == b + sep + c + sep + d;
  }

  /** The entries of a user message and its answer. */
  lemma ExchangeEntries(u: Message, a: Message)
    requires u == Message(User, u.content, None) && u.content.Text?
    requires a.role == Assistant && a.content.Text? && a.reasoning.Some?
    ensures Entries([u, a]) == ["## user", u.content.text, "## assistant"]
      + (if a.reasoning.value == "" then [] else [THINK_START + a.reasoning.value + THINK_END]) + [a.content.text]
  {
    assert [u, a] == [u] + [a];
    EntriesAppend([u], [a]);
    assert Entries([u]) == MessageEntries(u) by {
      assert [u][..0] == [];
    }
    assert Entries([a]) == MessageEntries(a) by {
      assert [a][..0] == [];
    }
    assert "## " + RoleName(User) == "## user";
    assert "## " + RoleName(Assistant) == "## assistant";
  }

  /** `/quit` or `/q`, in any letter case. */
  predicate IsQuit(query: string) {
    Lower(query) == "/quit" || Lower(query) == "/q"
  }

  datatype StopReason = QuitTyped | EndOfInput | Failed

  /** The requests sent, the records appended and why the loop stopped. */
  datatype Chat = Chat(requests: seq<T5.Request>, records: seq<string>, stop: StopReason)

  /** The record `chat_loop` appends for one query answered by `chunks`, or
      nothing when `process_query` raised. */
  function Answer(query: string, chunks: seq<string>, decode: string -> LineValue): Option<string> {
    var x := ReadChunks(Reader("", None, Initial), chunks, decode);
    if x.raised then None else Some(Record(query, x.reader.decoded.reasoning, x.reader.decoded.answers))
  }

  /** `chat_loop` over the typed lines; `respond(k)` is the chunk stream of
      the `k`-th line. A raise inside `process_query` ends the loop after
      its request was sent and before anything is recorded. */
  function Conversation(inputs: seq<string>, k: nat, respond: nat -> seq<string>, decode: string -> LineValue): Chat
    decreases |inputs|
  {
    if inputs == [] then Chat([], [], EndOfInput)
    else
      var query := Strip(inputs[0]);
      if IsQuit(query) then Chat([], [], QuitTyped)
      else match Answer(query, respond(k), decode)
        case None => Chat([RequestFor(query)], [], Failed)
        case Some(record) =>
          var rest := Conversation(inputs[1..], k + 1, respond, decode);
          Chat([RequestFor(query)] + rest.requests, [record] + rest.records, rest.stop)
  }

  /** `c` after the requests and records already made. */
  function After(requests: seq<T5.Request>, records: seq<string>, c: Chat): Chat {
    Chat(requests + c.requests, records + c.records, c.stop)
  }

  /** One answered line: its request and record come first, then the rest
      of the conversation. */
  lemma ConversationAnswered(inputs: seq<string>, k: nat, respond: nat -> seq<string>, decode: string -> LineValue,
                             requests: seq<T5.Request>, records: seq<string>)
    requires inputs != [] && !IsQuit(Strip(inputs[0])) && Answer(Strip(inputs[0]), respond(k), decode).Some?
    ensures After(requests, records, Conversation(inputs, k, respond, decode))
      == After(requests + [RequestFor(Strip(inputs[0]))], records + [Answer(Strip(inputs[0]), respond(k), decode).value],
               Conversation(inputs[1..], k + 1, respond, decode))
  {
  }

  /** `chat_loop`. */
  method ChatLoop(inputs: seq<string>, respond: nat -> seq<string>, decode: string -> LineValue)
    returns (requests: seq<T5.Request>, records: seq<string>, stop: StopReason)
    ensures Chat(requests, records, stop) == Conversation(inputs, 0, respond, decode)
  {
    requests, records := [], [];
    var i := 0;
    while i < |inputs|
      invariant 0 <= i <= |inputs|
      invariant Conversation(inputs, 0, respond, decode) == After(requests, records, Conversation(inputs[i..], i, respond, decode))
    {
      var query := Strip(inputs[i]);
      if Lower(query) == "/quit" || Lower(query) == "/q" {
        return requests, records, QuitTyped;
      }
      var request, _, reasoningContents, answerContents, _, raised := ProcessQuery(query, respond(i), decode);
      ghost var answer := Answer(query, respond(i), decode);
      requests := requests + [request];
      if raised {
        assert answer.None?;
        return requests, records, Failed;
      }
      var record := Record(query, reasoningContents, answerContents);
      assert answer == Some(record);
      ConversationAnswered(inputs[i..], i, respond, decode, requests[..|requests| - 1], records);
      assert inputs[i..][1..] == inputs[i + 1..];
      records := records + [record];
      i := i + 1;
    }
    assert inputs[i..] == [];
    return requests, records, EndOfInput;
  }

  /** Nothing after a quit line is read. */
  lemma {:induction false} QuitEndsConversation(a: seq<string>, quit: string, b: seq<string>, k: nat,
                                                respond: nat -> seq<string>, decode: string -> LineValue)
    requires IsQuit(Strip(quit))
    ensures Conversation(a + [quit] + b, k, respond, decode) == Conversation(a + [quit], k, respond, decode)
    decreases |a|
  {
    var xs, ys := a + [quit] + b, a + [quit];
    assert xs[0] == ys[0];
    if a != [] {
      assert xs[1..] == a[1..] + [quit] + b;
      assert ys[1..] == a[1..] + [quit];
      QuitEndsConversation(a[1..], quit, b, k + 1, respond, decode);
    }
  }

  /** A conversation that ran to the end of its input continues, after its
      first line, as the conversation of the remaining lines. */
  lemma ConversationRest(inputs: seq<string>, k: nat, respond: nat -> seq<string>, decode: string -> LineValue)
    requires Conversation(inputs, k, respond, decode).stop == EndOfInput
    requires inputs != []
    ensures var c, rest := Conversation(inputs, k, respond, decode), Conversation(inputs[1..], k + 1, respond, decode);
      && rest.stop == EndOfInput
      && |c.requests| == |rest.requests| + 1 && c.requests[1..] == rest.requests
      && |c.records| == |rest.records| + 1 && c.records[1..] == rest.records
  {
  }

  /** The first record of a conversation that ran to the end of its input
      is the answer to its first line. */
  lemma ConversationFirst(inputs: seq<string>, k: nat, respond: nat -> seq<string>, decode: string -> LineValue)
    requires Conversation(inputs, k, respond, decode).stop == EndOfInput
    requires inputs != []
    ensures var c := Conversation(inputs, k, respond, decode);
      0 < |c.records| && Answer(Strip(inputs[0]), respond(k), decode) == Some(c.records[0])
  {
  }

  /** The query and the chunk stream of the `j`-th of `inputs` when the
      first of them is the `k`-th line typed. */
  function LineAt(inputs: seq<string>, k: nat, respond: nat -> seq<string>, j: nat): (string, seq<string>)
    requires j < |inputs|
    decreases j
  {
    if j == 0 then (Strip(inputs[0]), respond(k))
    else LineAt(inputs[1..], k + 1, respond, j - 1)
  }

  /** `LineAt` picks the `j`-th line, stripped, and the `(k + j)`-th stream. */
  lemma {:induction false} LineAtIndex(inputs: seq<string>, k: nat, respond: nat -> seq<string>, j: nat)
    requires j < |inputs|
    ensures LineAt(inputs, k, respond, j) == (Strip(inputs[j]), respond(k + j))
    decreases j
  {
    if j > 0 {
      LineAtIndex(inputs[1..], k + 1, respond, j - 1);
      assert inputs[1..][j - 1] == inputs[j];
      assert respond((k + 1) + (j - 1)) == respond(k + j);
    }
  }

  /** The answer to the `j`-th of `inputs` when the first of them is the
      `k`-th line typed. */
  function AnswerAt(inputs: seq<string>, k: nat, respond: nat -> seq<string>, decode: string -> LineValue, j: nat): Option<string>
    requires j < |inputs|
    decreases j
  {
    if j == 0 then Answer(Strip(inputs[0]), respond(k), decode)
    else AnswerAt(inputs[1..], k + 1, respond, decode, j - 1)
  }

  /** `AnswerAt` answers the line `LineAt` picks. */
  lemma {:induction false} AnswerAtLine(inputs: seq<string>, k: nat, respond: nat -> seq<string>, decode: string -> LineValue, j: nat)
    requires j < |inputs|
    ensures var line := LineAt(inputs, k, respond, j);
      AnswerAt(inputs, k, respond, decode, j) == Answer(line.0, line.1, decode)
    decreases j
  {
    if j > 0 {
      AnswerAtLine(inputs[1..], k + 1, respond, decode, j - 1);
    }
  }

  /** The record stored for the `j`-th line of a conversation that ran to
      the end of its input is the answer to that line. */
  lemma {:induction false} LineRecorded(inputs: seq<string>, k: nat, respond: nat -> seq<string>, decode: string -> LineValue, j: nat)
    requires Conversation(inputs, k, respond, decode).stop == EndOfInput
    requires j < |inputs|
    ensures var c := Conversation(inputs, k, respond, decode);
      j < |c.records| && AnswerAt(inputs, k, respond, decode, j) == Some(c.records[j])
    decreases j, 1
  {
    if j == 0 {
      ConversationFirst(inputs, k, respond, decode);
    } else {
      LineRecordedStep(inputs, k, respond, decode, j);
    }
  }

  /** The step of `LineRecorded`: the `j`-th record is the `(j - 1)`-th of
      the rest of the conversation, which answers the `(j - 1)`-th of the
      remaining lines. */
  lemma LineRecordedStep(inputs: seq<string>, k: nat, respond: nat -> seq<string>, decode: string -> LineValue, j: nat)
    requires Conversation(inputs, k, respond, decode).stop == EndOfInput
    requires 0 < j < |inputs|
    ensures var c := Conversation(inputs, k, respond, decode);
      j < |c.records| && AnswerAt(inputs, k, respond, decode, j) == Some(c.records[j])
    decreases j, 0
  {
    ConversationRest(inputs, k, respond, decode);
    LineRecorded(inputs[1..], k + 1, respond, decode, j - 1);
    var c, rest := Conversation(inputs, k, respond, decode), Conversation(inputs[1..], k + 1, respond, decode);
    assert c.records[j] == rest.records[j - 1];
  }

  /** The `j`-th line of a conversation that ran to the end of its input
      was not a quit line and was sent as its own request. */
  lemma {:induction false} LineSent(inputs: seq<string>, k: nat, respond: nat -> seq<string>, decode: string -> LineValue, j: nat)
    requires Conversation(inputs, k, respond, decode).stop == EndOfInput
    requires j < |inputs|
    ensures var c := Conversation(inputs, k, respond, decode);
      !IsQuit(Strip(inputs[j])) && j < |c.requests| && c.requests[j] == RequestFor(Strip(inputs[j]))
    decreases j
  {
    if j > 0 {
      var c, rest := Conversation(inputs, k, respond, decode), Conversation(inputs[1..], k + 1, respond, decode);
      ConversationRest(inputs, k, respond, decode);
      LineSent(inputs[1..], k + 1, respond, decode, j - 1);
      assert inputs[1..][j - 1] == inputs[j];
      assert c.requests[j] == rest.requests[j - 1];
    }
  }

  /** When the input runs out, there is one request and one record per
      line. */
  lemma {:induction false} AnsweredLengths(inputs: seq<string>, k: nat, respond: nat -> seq<string>, decode: string -> LineValue)
    requires Conversation(inputs, k, respond, decode).stop == EndOfInput
    ensures var c := Conversation(inputs, k, respond, decode);
      |c.requests| == |inputs| && |c.records| == |inputs|
    decreases |inputs|
  {
    if inputs != [] {
      AnsweredLengths(inputs[1..], k + 1, respond, decode);
    }
  }

  /** A conversation that ends because input runs out sent every line as
      its own request, in order, and recorded the answer to each; none of
      the lines was a quit line. */
  lemma EveryLineAnswered(inputs: seq<string>, k: nat, respond: nat -> seq<string>, decode: string -> LineValue)
    requires Conversation(inputs, k, respond, decode).stop == EndOfInput
    ensures var c := Conversation(inputs, k, respond, decode);
      |c.requests| == |inputs| && |c.records| == |inputs|
      && forall j :: 0 <= j < |inputs| ==>
           && !IsQuit(Strip(inputs[j])) && c.requests[j] == RequestFor(Strip(inputs[j]))
           && Answer(Strip(inputs[j]), respond(k + j), decode) == Some(c.records[j])
  {
    AnsweredLengths(inputs, k, respond, decode);
    var c := Conversation(inputs, k, respond, decode);
    forall j | 0 <= j < |inputs|
      ensures !IsQuit(Strip(inputs[j])) && c.requests[j] == RequestFor(Strip(inputs[j]))
      ensures Answer(Strip(inputs[j]), respond(k + j), decode) == Some(c.records[j])
    {
      LineSent(inputs, k, respond, decode, j);
      LineRecorded(inputs, k, respond, decode, j);
      AnswerAtLine(inputs, k, respond, decode, j);
      LineAtIndex(inputs, k, respond, j);
    }
  }
}
