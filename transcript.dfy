/** The transcript text `dump_messages` (src/t5.py) builds from memory:
    one `## {role}` entry per message, the reasoning wrapped in the think
    markers when there is some, then the content, all joined by blank
    lines. */
module Transcript {
  import opened Wrappers
  import opened PyStr
  import opened Delta
  import opened Messages

  /** The `text` of the items of a list content whose `type` is `"text"`,
      in order; other items are skipped. */
  function TextItems(blocks: seq<Block>): seq<string> {
    if blocks == [] then []
    else TextItems(blocks[..|blocks| - 1]) + (if blocks[|blocks| - 1].kind == "text" then [blocks[|blocks| - 1].text] else [])
  }

  function ContentEntries(c: Content): seq<string> {
    match c
    case Text(s) => [s]
    case Blocks(bs) => TextItems(bs)
  }

  predicate HasReasoning(m: Message) {
    m.reasoning.Some? && m.reasoning.value != ""
  }

  /** The entries one message contributes. */
  function MessageEntries(m: Message): (r: seq<string>)
    ensures |r| >= 1 && r[0] == "## " + RoleName(m.role)
  {
    ["## " + RoleName(m.role)]
      + (if HasReasoning(m) then [THINK_START + m.reasoning.value + THINK_END] else [])
      + ContentEntries(m.content)
  }

  /** The entries of `f` applied to each element, in order. */
  function FlatMap<T>(xs: seq<T>, f: T -> seq<string>): seq<string> {
    if xs == [] then [] else FlatMap(xs[..|xs| - 1], f) + f(xs[|xs| - 1])
  }

  /** The entries of the whole memory, message after message. */
  function Entries(ms: seq<Message>): seq<string> {
    FlatMap(ms, MessageEntries)
  }

  /** What `dump_messages` writes: the entries joined by blank lines. */
  function Render(ms: seq<Message>): string {
    Join(Entries(ms), "\n\n")
  }

  /** The `buf` loop of `dump_messages`, message by message. */
  method RenderBuffer(memory: seq<Message>) returns (buf: seq<string>)
    ensures buf == Entries(memory)
  {
    buf := [];
    for i := 0 to |memory|
      invariant buf == Entries(memory[..i])
    {
      buf := AppendMessage(buf, memory[i]);
      EntriesStep(memory, i);
    }
    assert memory[..|memory|] == memory;
  }

  /** One iteration of that loop: the header, the think entry when there is
      reasoning, then the content string or each `"text"` item. */
  method AppendMessage(buf: seq<string>, msg: Message) returns (buf': seq<string>)
    ensures buf' == buf + MessageEntries(msg)
  {
    buf' := buf + ["## " + RoleName(msg.role)];
    if msg.reasoning.Some? && msg.reasoning.value != "" {
      buf' := buf' + [THINK_START + msg.reasoning.value + THINK_END];
    }
    ghost var head := buf';
    match msg.content {
      case Text(s) =>
        buf' := buf' + [s];
      case Blocks(items) =>
        for j := 0 to |items|
          invariant buf' == head + TextItems(items[..j])
        {
          TextItemsStep(items, j);
          if items[j].kind == "text" {
            buf' := buf' + [items[j].text];
          }
        }
        assert items[..|items|] == items;
    }
  }

  lemma TextItemsStep(items: seq<Block>, j: nat)
    requires j < |items|
    ensures TextItems(items[..j + 1]) == TextItems(items[..j]) + (if items[j].kind == "text" then [items[j].text] else [])
  {
    assert items[..j + 1][..j] == items[..j];
  }

  lemma EntriesStep(ms: seq<Message>, i: nat)
    requires i < |ms|
    ensures Entries(ms[..i + 1]) == Entries(ms[..i]) + MessageEntries(ms[i])
  {
    assert ms[..i + 1][..i] == ms[..i];
  }

  // ---------------------------------------------------------------------
  // Properties

  lemma {:induction false} FlatMapAppend<T>(a: seq<T>, b: seq<T>, f: T -> seq<string>)
    ensures FlatMap(a + b, f) == FlatMap(a, f) + FlatMap(b, f)
    decreases |b|
  {
    if b == [] {
      assert a + b == a;
    } else {
      FlatMapAppend(a, b[..|b| - 1], f);
      assert (a + b)[..|a + b| - 1] == a + b[..|b| - 1];
      AppendAssoc(FlatMap(a, f), FlatMap(b[..|b| - 1], f), f(b[|b| - 1]));
    }
  }

  lemma EntriesAppend(a: seq<Message>, b: seq<Message>)
    ensures Entries(a + b) == Entries(a) + Entries(b)
  {
    FlatMapAppend(a, b, MessageEntries);
  }

  /** The entries of message `i` sit, in order, between those of the
      messages before it and those of the messages after it. */
  lemma EntriesLayout(ms: seq<Message>, i: nat)
    requires i < |ms|
    ensures Entries(ms) == Entries(ms[..i]) + MessageEntries(ms[i]) + Entries(ms[i + 1..])
  {
    assert ms == ms[..i] + [ms[i]] + ms[i + 1..];
    EntriesAppend(ms[..i] + [ms[i]], ms[i + 1..]);
    EntriesAppend(ms[..i], [ms[i]]);
    assert [ms[i]][..0] == [];
    assert Entries([ms[i]]) == MessageEntries(ms[i]);
  }

  /** A message's think entry is there exactly when its reasoning is a
      non-empty string, and after it comes the content verbatim. */
  lemma MessageEntriesShape(m: Message)
    ensures HasReasoning(m) ==> |MessageEntries(m)| >= 2 && MessageEntries(m)[1] == THINK_START + m.reasoning.value + THINK_END
    ensures var skip := if HasReasoning(m) then 2 else 1;
      |MessageEntries(m)| >= skip && MessageEntries(m)[skip..] == ContentEntries(m.content)
  {
  }

  /** Items whose type is not `"text"` are left out of the transcript and
      `"text"` items are kept in order. */
  lemma {:induction false} TextItemsFilter(blocks: seq<Block>)
    ensures (forall i :: 0 <= i < |blocks| ==> blocks[i].kind != "text") ==> TextItems(blocks) == []
    ensures (forall i :: 0 <= i < |blocks| ==> blocks[i].kind == "text") ==>
      |TextItems(blocks)| == |blocks| && forall i :: 0 <= i < |blocks| ==> TextItems(blocks)[i] == blocks[i].text
    decreases |blocks|
  {
    if blocks != [] {
      TextItemsFilter(blocks[..|blocks| - 1]);
    }
  }

  /** List content is filtered item by item: appending an item adds its
      text exactly when its type is `"text"`, whatever came before. */
  lemma TextItemsAppend(blocks: seq<Block>, b: Block)
    ensures TextItems(blocks + [b]) == TextItems(blocks) + (if b.kind == "text" then [b.text] else [])
  {
    assert (blocks + [b])[..|blocks|] == blocks;
  }

  lemma {:induction false} JoinAppend(a: seq<string>, b: seq<string>, sep: string)
    requires a != [] && b != []
    ensures Join(a + b, sep) == Join(a, sep) + sep + Join(b, sep)
    decreases |a|
  {
    if |a| == 1 {
      assert (a + b)[1..] == b;
    } else {
      JoinAppend(a[1..], b, sep);
      assert (a + b)[1..] == a[1..] + b;
    }
  }

  /** Rendering grown memory repeats the previous rendering, a blank line,
      and then the new messages: each dump writes the whole memory again. */
  lemma RenderExtends(ms: seq<Message>, more: seq<Message>)
    requires ms != [] && more != []
    ensures Render(ms + more) == Render(ms) + "\n\n" + Render(more)
  {
    EntriesAppend(ms, more);
    EntriesNonEmpty(ms);
    EntriesNonEmpty(more);
    JoinAppend(Entries(ms), Entries(more), "\n\n");
  }

  lemma EntriesNonEmpty(ms: seq<Message>)
    requires ms != []
    ensures |Entries(ms)| >= |ms|
  {
    if |ms| > 1 {
      EntriesNonEmpty(ms[..|ms| - 1]);
    }
  }
}
