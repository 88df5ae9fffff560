/** Conversation messages as src/t5.py builds them: the `{role, content,
    reasoning_content}` records kept in memory, the `{role, content}`
    records sent on the wire, the user message `prepare_query` builds from
    an input line, and the system prompt. */
module Messages {
  import opened Wrappers
  import opened PyStr

  datatype Role = System | User | Assistant

  /** The `role` string. */
  function RoleName(r: Role): string {
    match r
    case System => "system"
    case User => "user"
    case Assistant => "assistant"
  }

  /** One `{"type": ..., "text": ...}` item of a list content. */
  datatype Block = Block(kind: string, text: string)

  /** A message's `content`: a string, or a list of typed items. */
  datatype Content = Text(text: string) | Blocks(blocks: seq<Block>)

  /** A memory entry; `reasoning` is the `reasoning_content` key, present
      only on assistant messages. */
  datatype Message = Message(role: Role, content: Content, reasoning: Option<string>)

  /** A message as sent to the endpoint: no reasoning field. */
  datatype WireMessage = WireMessage(role: Role, content: Content)

  /** The exception an unreadable attachment raises. */
  datatype QueryError = FileNotFound(path: string)

  /** `remove_reasoning`: the same messages, in the same order, each keeping
      exactly its role and content. */
  method RemoveReasoning(messages: seq<Message>) returns (result: seq<WireMessage>)
    ensures |result| == |messages|
    ensures forall i :: 0 <= i < |messages| ==>
      result[i].role == messages[i].role && result[i].content == messages[i].content
  {
    result := [];
    for i := 0 to |messages|
      invariant |result| == i
      invariant forall j :: 0 <= j < i ==>
        result[j].role == messages[j].role && result[j].content == messages[j].content
    {
      result := result + [WireMessage(messages[i].role, messages[i].content)];
    }
  }

  /** `get_base_system_prompt`, with the current date as a parameter. */
  function BaseSystemPrompt(model: string, date: string): string {
    "Current model: " + model + "\nCurrent date: " + date + "\nUsing language: 简体中文"
  }

  /** `get_system_prompt`: the base prompt naming the active model and the
      date, a blank line, then the active agent's prompt. */
  function SystemPrompt(model: string, date: string, agentPrompt: string): (r: string)
    ensures StartsWith(r, "Current model: " + model + "\n")
    ensures EndsWith(r, "\n\n" + agentPrompt)
    ensures var head := "Current model: " + model + "\n";
      r[|head|..] == "Current date: " + date + "\nUsing language: 简体中文\n\n" + agentPrompt
  {
    var head := "Current model: " + model + "\n";
    var tail := "Current date: " + date + "\nUsing language: 简体中文\n\n" + agentPrompt;
    var r := BaseSystemPrompt(model, date) + "\n\n" + agentPrompt;
    assert r == head + tail;
    assert r[..|head|] == head;
    assert r[|head|..] == tail;
    assert r[|r| - |"\n\n" + agentPrompt|..] == "\n\n" + agentPrompt;
    r
  }

  /** The text `_read_file_content` wraps one attachment in. */
  function AttachmentText(path: string, index: nat, content: string): string {
    "<ATTACHMENT_FILE>\n<FILE_INDEX>File " + NatToString(index) + "</FILE_INDEX>\n<FILE_NAME>" + path
      + "</FILE_NAME>\n<FILE_CONTENT>\n" + content + "\n</FILE_CONTENT>\n</ATTACHMENT_FILE>"
  }

  /** The user message for a line that attaches nothing. */
  function Plain(query: string): Message {
    Message(User, Text(query), None)
  }

  /** The index of the first name that is not a readable file, or `|names|`. */
  function FirstMissing(names: seq<string>, files: map<string, string>): (k: nat)
    ensures k <= |names|
    ensures forall j :: 0 <= j < k ==> names[j] in files
    ensures k < |names| ==> names[k] !in files
  {
    if names == [] then 0 else if names[0] !in files then 0 else 1 + FirstMissing(names[1..], files)
  }

  /** Reading the attachments in order, numbered from `index`; the first
      unreadable one raises. */
  function ReadAttachments(names: seq<string>, files: map<string, string>, index: nat): Result<seq<string>, QueryError> {
    if names == [] then Success([])
    else if names[0] !in files then Failure(FileNotFound(names[0]))
    else match ReadAttachments(names[1..], files, index + 1)
      case Failure(e) => Failure(e)
      case Success(rest) => Success([AttachmentText(names[0], index, files[names[0]])] + rest)
  }

  /** `prepare_query` on values: `files` maps each readable path to its
      contents. */
  function Prepared(query: string, files: map<string, string>): Result<Message, QueryError> {
    var k := Find(query, ' ');
    if k == |query| || !StartsWith(query[..k], "@") then Success(Plain(query))
    else WithAttachments(Split(query[1..k], ','), query[k + 1..], files)
  }

  /** The two-block user message for attached `names` and the text after
      them, or the error of the first unreadable name. */
  function WithAttachments(names: seq<string>, mainQuery: string, files: map<string, string>): Result<Message, QueryError> {
    match ReadAttachments(names, files, 1)
    case Failure(e) => Failure(e)
    case Success(texts) =>
      Success(Message(User, Blocks([Block("text", Join(texts, "\n\n")), Block("text", mainQuery)]), None))
  }

  /** Whatever `prepare_query` returns is a user message without reasoning. */
  lemma PreparedIsUser(query: string, files: map<string, string>)
    requires Prepared(query, files).Success?
    ensures Prepared(query, files).value.role == User && Prepared(query, files).value.reasoning == None
  {
  }

  /** `prepare_query`: a plain message unless the first word names
      attachments, which are then read in order. */
  method PrepareQuery(query: string, files: map<string, string>) returns (r: Result<Message, QueryError>)
    ensures r == Prepared(query, files)
  {
    var k := Find(query, ' ');
    if k == |query| {
      return Success(Plain(query));
    }
    var first, mainQuery := query[..k], query[k + 1..];
    if !StartsWith(first, "@") {
      return Success(Plain(query));
    }
    var names := Split(first[1..], ',');
    assert first[1..] == query[1..k];
    var contents := ReadFileContents(names, files);
    match contents {
      case Failure(e) => r := Failure(e);
      case Success(texts) =>
        r := Success(Message(User, Blocks([Block("text", Join(texts, "\n\n")), Block("text", mainQuery)]), None));
    }
  }

  /** The loop of `prepare_query`: one `_read_file_content` per attached
      name, numbered from 1; the first unreadable name raises. */
  method ReadFileContents(names: seq<string>, files: map<string, string>) returns (r: Result<seq<string>, QueryError>)
    ensures r == ReadAttachments(names, files, 1)
  {
    var contents: seq<string> := [];
    for i := 0 to |names|
      invariant |contents| == i
      invariant forall j :: 0 <= j < i ==> names[j] in files
      invariant forall j :: 0 <= j < i ==> contents[j] == AttachmentText(names[j], j + 1, files[names[j]])
    {
      if names[i] !in files {
        assert FirstMissing(names, files) == i;
        ReadAttachmentsMissing(names, files, 1);
        return Failure(FileNotFound(names[i]));
      }
      contents := contents + [AttachmentText(names[i], i + 1, files[names[i]])];
    }
    ReadAttachmentsPresent(names, files, 1);
    assert contents == ReadAttachments(names, files, 1).value;
    return Success(contents);
  }

  // ---------------------------------------------------------------------
  // Properties

  /** When every attached name is readable, there is one attachment text per
      name, in order, numbered consecutively from `index`. */
  lemma {:induction false} ReadAttachmentsPresent(names: seq<string>, files: map<string, string>, index: nat)
    requires forall j :: 0 <= j < |names| ==> names[j] in files
    ensures ReadAttachments(names, files, index).Success?
    ensures |ReadAttachments(names, files, index).value| == |names|
    ensures forall j :: 0 <= j < |names| ==>
      ReadAttachments(names, files, index).value[j] == AttachmentText(names[j], index + j, files[names[j]])
    decreases |names|
  {
    if names != [] {
      ReadAttachmentsPresent(names[1..], files, index + 1);
      var tail := ReadAttachments(names[1..], files, index + 1).value;
      var all := ReadAttachments(names, files, index).value;
      assert all == [AttachmentText(names[0], index, files[names[0]])] + tail;
      forall j | 0 <= j < |names|
        ensures all[j] == AttachmentText(names[j], index + j, files[names[j]])
      {
        if j > 0 {
          assert all[j] == tail[j - 1];
          assert names[1..][j - 1] == names[j];
        }
      }
    }
  }

  /** Otherwise the first unreadable name is the one reported. */
  lemma {:induction false} ReadAttachmentsMissing(names: seq<string>, files: map<string, string>, index: nat)
    requires FirstMissing(names, files) < |names|
    ensures ReadAttachments(names, files, index) == Failure(FileNotFound(names[FirstMissing(names, files)]))
    decreases |names|
  {
    if names[0] in files {
      ReadAttachmentsMissing(names[1..], files, index + 1);
    }
  }

  /** A line without a space, or whose first word does not start with `@`,
      is sent as it is. */
  lemma PlainQuery(query: string, files: map<string, string>)
    requires ' ' !in query || query[0] != '@'
    ensures Prepared(query, files) == Success(Plain(query))
  {
    var k := Find(query, ' ');
    if k < |query| {
      assert query[k] in query;
      if k == 0 {
        assert query[0] == ' ';
      }
    }
  }

  /** The first space of `query` is at `k`. */
  lemma FirstSpace(query: string, k: nat)
    requires k < |query| && query[k] == ' ' && ' ' !in query[..k]
    ensures Find(query, ' ') == k
  {
  }

  /** `@f1,f2 rest` with every file readable becomes exactly two text
      blocks: the attachments, numbered from 1 and separated by blank
      lines, then the text after the first space. */
  lemma AttachmentQuery(query: string, files: map<string, string>, k: nat, names: seq<string>)
    requires k < |query| && query[k] == ' ' && ' ' !in query[..k]
    requires query[0] == '@'
    requires names == Split(query[1..k], ',')
    requires forall j :: 0 <= j < |names| ==> names[j] in files
    ensures exists texts: seq<string> ::
      && |texts| == |names|
      && (forall j :: 0 <= j < |names| ==> texts[j] == AttachmentText(names[j], 1 + j, files[names[j]]))
      && Prepared(query, files) == Success(Message(User, Blocks([Block("text", Join(texts, "\n\n")), Block("text", query[k + 1..])]), None))
  {
    FirstSpace(query, k);
    assert query[..k][0] == '@';
    ReadAttachmentsPresent(names, files, 1);
    var texts := ReadAttachments(names, files, 1).value;
    assert Prepared(query, files) == Success(Message(User, Blocks([Block("text", Join(texts, "\n\n")), Block("text", query[k + 1..])]), None));
  }

  /** An attached name that cannot be read raises before any message is
      built, naming the first such file. */
  lemma AttachmentMissing(query: string, files: map<string, string>, k: nat, names: seq<string>)
    requires k < |query| && query[k] == ' ' && ' ' !in query[..k]
    requires query[0] == '@'
    requires names == Split(query[1..k], ',')
    requires FirstMissing(names, files) < |names|
    ensures Prepared(query, files) == Failure(FileNotFound(names[FirstMissing(names, files)]))
  {
    FirstSpace(query, k);
    assert query[..k][0] == '@';
    ReadAttachmentsMissing(names, files, 1);
  }
}
