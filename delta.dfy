/** One streamed event line: its classification into a reasoning delta and
    an answer delta, and the three-valued thinking tag that decides when the
    open and close markers are printed. `QueryProcessor._parse_chunk`
    (src/t5.py) and `process_query` (main.py) run the same per-line code;
    both use this module. */
module Delta {
  import opened Wrappers
  import opened PyStr

  const THINK_START := "<think>\n"
  const THINK_END := "</think>\n"

  /** `thinking_tag`: `""`, then `THINK_START`, then `THINK_END`. */
  datatype ThinkTag = Unset | ThinkStart | ThinkEnd

  function Rank(t: ThinkTag): nat {
    match t
    case Unset => 0
    case ThinkStart => 1
    case ThinkEnd => 2
  }

  /** What `json.loads` and the `choices[0].delta` lookup make of one line:
      an exception (caught per line), a document without a non-empty
      `choices` list, or the two optional delta fields. */
  datatype LineValue =
    | Malformed(error: string)
    | NoChoices
    | Delta(reasoning: Option<string>, content: Option<string>)

  /** Python truthiness of an optional string: present and non-empty. */
  predicate Truthy(v: Option<string>) {
    v.Some? && v.value != ""
  }

  /** One `print` the decoder makes, in order. */
  datatype Printed =
    | OpenMarker
    | CloseMarker
    | ReasoningText(text: string)
    | AnswerText(text: string)
    | LineError(message: string)

  predicate IsMarker(p: Printed) {
    p.OpenMarker? || p.CloseMarker?
  }

  /** The characters one print puts on the terminal. */
  function Show(p: Printed): string {
    match p
    case OpenMarker => THINK_START
    case CloseMarker => THINK_END
    case ReasoningText(t) => t
    case AnswerText(t) => t
    case LineError(m) => "\nError: " + m + "\n"
  }

  /** Everything the decoder printed, as terminal text. */
  function Stdout(out: seq<Printed>): string {
    if out == [] then "" else Stdout(out[..|out| - 1]) + Show(out[|out| - 1])
  }

  /** The decoder state one turn accumulates: `reasoning_contents`,
      `answer_contents`, `thinking_tag`, and the printed output. */
  datatype Decoded = Decoded(reasoning: seq<string>, answers: seq<string>, tag: ThinkTag, out: seq<Printed>)

  /** The state a turn starts from. */
  const Initial: Decoded := Decoded([], [], Unset, [])

  /** Lines that are skipped without stopping the loop. */
  predicate Skipped(line: string) {
    line == "" || line == "[DONE]"
  }

  /** The reasoning half of a delta: appended, printed, and the tag moved
      from `""` to `THINK_START` on the first one. */
  function OnReasoning(d: Decoded, r: Option<string>): Decoded {
    if !Truthy(r) then d
    else if d.tag == Unset then
      d.(reasoning := d.reasoning + [r.value], tag := ThinkStart, out := d.out + [OpenMarker, ReasoningText(r.value)])
    else
      d.(reasoning := d.reasoning + [r.value], out := d.out + [ReasoningText(r.value)])
  }

  /** The answer half of a delta: appended, printed, and the tag moved from
      `THINK_START` to `THINK_END` on the first one after reasoning. */
  function OnAnswer(d: Decoded, c: Option<string>): Decoded {
    if !Truthy(c) then d
    else if d.tag == ThinkStart then
      d.(answers := d.answers + [c.value], tag := ThinkEnd, out := d.out + [CloseMarker, AnswerText(c.value)])
    else
      d.(answers := d.answers + [c.value], out := d.out + [AnswerText(c.value)])
  }

  /** One iteration of the per-line loop. A skipped line and a document
      without choices change nothing; a failing line prints its error and
      leaves both lists and the tag as they were. */
  function StepLine(d: Decoded, line: string, decode: string -> LineValue): (d': Decoded)
    ensures Skipped(line) ==> d' == d
    ensures !Skipped(line) && decode(line).Malformed? ==>
      d'.reasoning == d.reasoning && d'.answers == d.answers && d'.tag == d.tag
      && d'.out == d.out + [LineError(decode(line).error)]
    ensures !Skipped(line) && decode(line).NoChoices? ==> d' == d
  {
    if Skipped(line) then d
    else match decode(line)
      case Malformed(e) => d.(out := d.out + [LineError(e)])
      case NoChoices => d
      case Delta(r, c) => OnAnswer(OnReasoning(d, r), c)
  }

  /** The per-line loop over `lines`, in order. */
  function RunLines(d: Decoded, lines: seq<string>, decode: string -> LineValue): Decoded
    decreases |lines|
  {
    if lines == [] then d
    else StepLine(RunLines(d, lines[..|lines| - 1], decode), lines[|lines| - 1], decode)
  }

  /** The lines of one `data:` chunk: every `"data: "` removed, then split
      on newlines. */
  function PayloadLines(striped: string): seq<string> {
    Split(RemoveAll(striped, "data: "), '\n')
  }

  // ---------------------------------------------------------------------
  // Reference definitions: what the lists and the output should hold,
  // stated line by line without the tag.

  function ReasoningOf(line: string, decode: string -> LineValue): seq<string> {
    if Skipped(line) then []
    else match decode(line)
      case Delta(r, _) => if Truthy(r) then [r.value] else []
      case _ => []
  }

  function AnswerOf(line: string, decode: string -> LineValue): seq<string> {
    if Skipped(line) then []
    else match decode(line)
      case Delta(_, c) => if Truthy(c) then [c.value] else []
      case _ => []
  }

  /** The truthy reasoning deltas of `lines`, in arrival order. */
  function ReasoningDeltas(lines: seq<string>, decode: string -> LineValue): seq<string>
    decreases |lines|
  {
    if lines == [] then []
    else ReasoningDeltas(lines[..|lines| - 1], decode) + ReasoningOf(lines[|lines| - 1], decode)
  }

  /** The truthy answer deltas of `lines`, in arrival order. */
  function AnswerDeltas(lines: seq<string>, decode: string -> LineValue): seq<string>
    decreases |lines|
  {
    if lines == [] then []
    else AnswerDeltas(lines[..|lines| - 1], decode) + AnswerOf(lines[|lines| - 1], decode)
  }

  /** What one line prints apart from the markers: its error, or its
      reasoning text and then its answer text. */
  function TextsOf(line: string, decode: string -> LineValue): seq<Printed> {
    if Skipped(line) then []
    else match decode(line)
      case Malformed(e) => [LineError(e)]
      case NoChoices => []
      case Delta(r, c) =>
        (if Truthy(r) then [ReasoningText(r.value)] else []) + (if Truthy(c) then [AnswerText(c.value)] else [])
  }

  function LineTexts(lines: seq<string>, decode: string -> LineValue): seq<Printed>
    decreases |lines|
  {
    if lines == [] then []
    else LineTexts(lines[..|lines| - 1], decode) + TextsOf(lines[|lines| - 1], decode)
  }

  /** The printed items that are not markers. */
  function Unmarked(out: seq<Printed>): seq<Printed> {
    if out == [] then []
    else Unmarked(out[..|out| - 1]) + (if IsMarker(out[|out| - 1]) then [] else [out[|out| - 1]])
  }

  /** The markers among the printed items, in order. */
  function Markers(out: seq<Printed>): seq<Printed> {
    if out == [] then []
    else Markers(out[..|out| - 1]) + (if IsMarker(out[|out| - 1]) then [out[|out| - 1]] else [])
  }

  /** The markers a tag value accounts for. */
  function MarkersFor(t: ThinkTag): seq<Printed> {
    match t
    case Unset => []
    case ThinkStart => [OpenMarker]
    case ThinkEnd => [OpenMarker, CloseMarker]
  }

  predicate AllTruthy(xs: seq<string>) {
    forall i :: 0 <= i < |xs| ==> xs[i] != ""
  }

  /** The invariant of a turn's decoder state: the markers printed so far
      are those the tag accounts for (so at most one open marker, at most one
      close marker, and the close after the open); the tag is `""` exactly
      while no reasoning has arrived; `THINK_END` means an answer arrived;
      only non-empty deltas are stored. */
  predicate Wellformed(d: Decoded) {
    && Markers(d.out) == MarkersFor(d.tag)
    && (d.tag == Unset <==> d.reasoning == [])
    && (d.tag == ThinkEnd ==> d.answers != [])
    && AllTruthy(d.reasoning)
    && AllTruthy(d.answers)
  }

  // ---------------------------------------------------------------------
  // Properties

  lemma MarkersAppend(a: seq<Printed>, b: seq<Printed>)
    ensures Markers(a + b) == Markers(a) + Markers(b)
    decreases |b|
  {
    if b != [] {
      MarkersAppend(a, b[..|b| - 1]);
      assert (a + b)[..|a + b| - 1] == a + b[..|b| - 1];
      AppendAssoc(Markers(a), Markers(b[..|b| - 1]), if IsMarker(b[|b| - 1]) then [b[|b| - 1]] else []);
    } else {
      assert a + b == a;
    }
  }

  lemma UnmarkedAppend(a: seq<Printed>, b: seq<Printed>)
    ensures Unmarked(a + b) == Unmarked(a) + Unmarked(b)
    decreases |b|
  {
    if b != [] {
      UnmarkedAppend(a, b[..|b| - 1]);
      assert (a + b)[..|a + b| - 1] == a + b[..|b| - 1];
      AppendAssoc(Unmarked(a), Unmarked(b[..|b| - 1]), if IsMarker(b[|b| - 1]) then [] else [b[|b| - 1]]);
    } else {
      assert a + b == a;
    }
  }

  /** How the markers and the other items of a one- or two-item print
      split up. */
  lemma SplitOne(x: Printed)
    ensures Markers([x]) == (if IsMarker(x) then [x] else [])
    ensures Unmarked([x]) == (if IsMarker(x) then [] else [x])
  {
    assert [x][..0] == [];
  }

  lemma SplitTwo(x: Printed, y: Printed)
    ensures Markers([x, y]) == Markers([x]) + Markers([y])
    ensures Unmarked([x, y]) == Unmarked([x]) + Unmarked([y])
  {
    MarkersAppend([x], [y]);
    UnmarkedAppend([x], [y]);
    assert [x] + [y] == [x, y];
  }

  /** What the reasoning half of a line appends to the output. */
  function ReasoningPrint(t: ThinkTag, r: Option<string>): seq<Printed> {
    if !Truthy(r) then [] else if t == Unset then [OpenMarker, ReasoningText(r.value)] else [ReasoningText(r.value)]
  }

  /** What the answer half of a line appends to the output. */
  function AnswerPrint(t: ThinkTag, c: Option<string>): seq<Printed> {
    if !Truthy(c) then [] else if t == ThinkStart then [CloseMarker, AnswerText(c.value)] else [AnswerText(c.value)]
  }

  lemma ReasoningPrintSplits(t: ThinkTag, r: Option<string>)
    ensures Markers(ReasoningPrint(t, r)) == (if Truthy(r) && t == Unset then [OpenMarker] else [])
    ensures Unmarked(ReasoningPrint(t, r)) == (if Truthy(r) then [ReasoningText(r.value)] else [])
  {
    if Truthy(r) {
      SplitOne(ReasoningText(r.value));
      if t == Unset {
        SplitOne(OpenMarker);
        SplitTwo(OpenMarker, ReasoningText(r.value));
      }
    }
  }

  lemma AnswerPrintSplits(t: ThinkTag, c: Option<string>)
    ensures Markers(AnswerPrint(t, c)) == (if Truthy(c) && t == ThinkStart then [CloseMarker] else [])
    ensures Unmarked(AnswerPrint(t, c)) == (if Truthy(c) then [AnswerText(c.value)] else [])
  {
    if Truthy(c) {
      SplitOne(AnswerText(c.value));
      if t == ThinkStart {
        SplitOne(CloseMarker);
        SplitTwo(CloseMarker, AnswerText(c.value));
      }
    }
  }

  lemma OnReasoningPrints(d: Decoded, r: Option<string>)
    ensures OnReasoning(d, r).out == d.out + ReasoningPrint(d.tag, r)
    ensures OnReasoning(d, r).reasoning == d.reasoning + (if Truthy(r) then [r.value] else [])
    ensures OnReasoning(d, r).answers == d.answers
  {
  }

  lemma OnAnswerPrints(d: Decoded, c: Option<string>)
    ensures OnAnswer(d, c).out == d.out + AnswerPrint(d.tag, c)
    ensures OnAnswer(d, c).answers == d.answers + (if Truthy(c) then [c.value] else [])
    ensures OnAnswer(d, c).reasoning == d.reasoning
  {
  }

  /** The reasoning half of a line prints the open marker exactly when its
      delta is truthy and the tag is still `""`, and otherwise only the
      delta's own text, when truthy; only a truthy delta is stored. */
  lemma OnReasoningEffect(d: Decoded, r: Option<string>)
    ensures var d' := OnReasoning(d, r);
      && Markers(d'.out) == Markers(d.out) + (if Truthy(r) && d.tag == Unset then [OpenMarker] else [])
      && Unmarked(d'.out) == Unmarked(d.out) + (if Truthy(r) then [ReasoningText(r.value)] else [])
      && d'.reasoning == d.reasoning + (if Truthy(r) then [r.value] else [])
      && d'.answers == d.answers
  {
    OnReasoningPrints(d, r);
    ReasoningPrintSplits(d.tag, r);
    MarkersAppend(d.out, ReasoningPrint(d.tag, r));
    UnmarkedAppend(d.out, ReasoningPrint(d.tag, r));
  }

  /** The answer half of a line prints the close marker exactly when its
      delta is truthy and the tag is `THINK_START`, and otherwise only the
      delta's own text, when truthy; only a truthy delta is stored. */
  lemma OnAnswerEffect(d: Decoded, c: Option<string>)
    ensures var d' := OnAnswer(d, c);
      && Markers(d'.out) == Markers(d.out) + (if Truthy(c) && d.tag == ThinkStart then [CloseMarker] else [])
      && Unmarked(d'.out) == Unmarked(d.out) + (if Truthy(c) then [AnswerText(c.value)] else [])
      && d'.answers == d.answers + (if Truthy(c) then [c.value] else [])
      && d'.reasoning == d.reasoning
  {
    OnAnswerPrints(d, c);
    AnswerPrintSplits(d.tag, c);
    MarkersAppend(d.out, AnswerPrint(d.tag, c));
    UnmarkedAppend(d.out, AnswerPrint(d.tag, c));
  }

  /** What one line appends to the output. */
  function Added(d: Decoded, line: string, decode: string -> LineValue): seq<Printed> {
    if Skipped(line) then []
    else match decode(line)
      case Malformed(e) => [LineError(e)]
      case NoChoices => []
      case Delta(r, c) => ReasoningPrint(d.tag, r) + AnswerPrint(OnReasoning(d, r).tag, c)
  }

  /** What one line appends to the lists and to the output. */
  lemma StepLineEffect(d: Decoded, line: string, decode: string -> LineValue)
    ensures StepLine(d, line, decode).reasoning == d.reasoning + ReasoningOf(line, decode)
    ensures StepLine(d, line, decode).answers == d.answers + AnswerOf(line, decode)
    ensures StepLine(d, line, decode).out == d.out + Added(d, line, decode)
    ensures Unmarked(Added(d, line, decode)) == TextsOf(line, decode)
  {
    if !Skipped(line) {
      match decode(line)
      case Malformed(e) =>
        SplitOne(LineError(e));
      case NoChoices =>
      case Delta(r, c) =>
        OnReasoningPrints(d, r);
        var d1 := OnReasoning(d, r);
        OnAnswerPrints(d1, c);
        ReasoningPrintSplits(d.tag, r);
        AnswerPrintSplits(d1.tag, c);
        UnmarkedAppend(ReasoningPrint(d.tag, r), AnswerPrint(d1.tag, c));
        AppendAssoc(d.out, ReasoningPrint(d.tag, r), AnswerPrint(d1.tag, c));
    }
  }

  lemma OnReasoningWellformed(d: Decoded, r: Option<string>)
    requires Wellformed(d)
    ensures Wellformed(OnReasoning(d, r))
  {
    if Truthy(r) {
      var d' := OnReasoning(d, r);
      OnReasoningPrints(d, r);
      ReasoningPrintSplits(d.tag, r);
      MarkersAppend(d.out, ReasoningPrint(d.tag, r));
      AllTruthyAppend(d.reasoning, r.value);
      assert Markers(d'.out) == MarkersFor(d'.tag);
    }
  }

  lemma AllTruthyAppend(xs: seq<string>, x: string)
    requires AllTruthy(xs) && x != ""
    ensures AllTruthy(xs + [x])
  {
  }

  lemma OnAnswerWellformed(d: Decoded, c: Option<string>)
    requires Wellformed(d)
    ensures Wellformed(OnAnswer(d, c))
  {
    if Truthy(c) {
      var d' := OnAnswer(d, c);
      OnAnswerPrints(d, c);
      AnswerPrintSplits(d.tag, c);
      MarkersAppend(d.out, AnswerPrint(d.tag, c));
      AllTruthyAppend(d.answers, c.value);
      assert d'.reasoning == d.reasoning;
      if d.tag == ThinkStart {
        assert d'.tag == ThinkEnd;
        assert Markers(d'.out) == [OpenMarker] + [CloseMarker];
      } else {
        assert d'.tag == d.tag;
        assert Markers(d'.out) == Markers(d.out);
      }
    }
  }

  /** One line keeps the decoder invariant. */
  lemma StepLineWellformed(d: Decoded, line: string, decode: string -> LineValue)
    requires Wellformed(d)
    ensures Wellformed(StepLine(d, line, decode))
  {
    if !Skipped(line) {
      match decode(line)
      case Malformed(e) =>
        SplitOne(LineError(e));
        MarkersAppend(d.out, [LineError(e)]);
      case NoChoices =>
      case Delta(r, c) =>
        OnReasoningWellformed(d, r);
        OnAnswerWellformed(OnReasoning(d, r), c);
    }
  }

  /** Any sequence of lines keeps the decoder invariant. */
  lemma {:induction false} RunLinesWellformed(d: Decoded, lines: seq<string>, decode: string -> LineValue)
    requires Wellformed(d)
    ensures Wellformed(RunLines(d, lines, decode))
    decreases |lines|
  {
    if lines != [] {
      RunLinesWellformed(d, lines[..|lines| - 1], decode);
      StepLineWellformed(RunLines(d, lines[..|lines| - 1], decode), lines[|lines| - 1], decode);
    }
  }

  /** A turn prints at most one open marker and at most one close marker,
      and never a close marker without an open marker before it. */
  lemma MarkersAtMostOnce(lines: seq<string>, decode: string -> LineValue)
    ensures var m := Markers(RunLines(Initial, lines, decode).out);
      m == [] || m == [OpenMarker] || m == [OpenMarker, CloseMarker]
  {
    RunLinesWellformed(Initial, lines, decode);
  }

  /** The tag only moves forward: `""`, `THINK_START`, `THINK_END`. */
  lemma {:induction false} TagMonotone(d: Decoded, lines: seq<string>, decode: string -> LineValue)
    ensures Rank(d.tag) <= Rank(RunLines(d, lines, decode).tag)
    decreases |lines|
  {
    if lines != [] {
      TagMonotone(d, lines[..|lines| - 1], decode);
    }
  }

  /** Running two pieces of input one after the other is running their
      concatenation. */
  lemma {:induction false} RunLinesAppend(d: Decoded, a: seq<string>, b: seq<string>, decode: string -> LineValue)
    ensures RunLines(d, a + b, decode) == RunLines(RunLines(d, a, decode), b, decode)
    decreases |b|
  {
    if b == [] {
      assert a + b == a;
    } else {
      RunLinesAppend(d, a, b[..|b| - 1], decode);
      assert (a + b)[..|a + b| - 1] == a + b[..|b| - 1];
    }
  }

  /** `[DONE]` and empty lines do not stop the loop: the lines after them are
      processed as if the skipped line were absent. */
  lemma SkippedLineTransparent(d: Decoded, a: seq<string>, line: string, b: seq<string>, decode: string -> LineValue)
    requires Skipped(line)
    ensures RunLines(d, a + [line] + b, decode) == RunLines(d, a + b, decode)
  {
    RunLinesAppend(d, a + [line], b, decode);
    RunLinesAppend(d, a, b, decode);
    assert (a + [line])[..|a + [line]| - 1] == a;
  }

  /** Exactly the truthy reasoning deltas are stored, in arrival order; the
      same for the answer deltas. */
  lemma {:induction false} DeltasInOrder(d: Decoded, lines: seq<string>, decode: string -> LineValue)
    ensures RunLines(d, lines, decode).reasoning == d.reasoning + ReasoningDeltas(lines, decode)
    ensures RunLines(d, lines, decode).answers == d.answers + AnswerDeltas(lines, decode)
    decreases |lines|
  {
    if lines != [] {
      var init := lines[..|lines| - 1];
      DeltasInOrder(d, init, decode);
      StepLineEffect(RunLines(d, init, decode), lines[|lines| - 1], decode);
    }
  }

  /** Apart from the two markers, the output is every line's error or its
      reasoning and then its answer text, line after line. */
  lemma {:induction false} OutputInOrder(d: Decoded, lines: seq<string>, decode: string -> LineValue)
    ensures Unmarked(RunLines(d, lines, decode).out) == Unmarked(d.out) + LineTexts(lines, decode)
    decreases |lines|
  {
    if lines != [] {
      var init := lines[..|lines| - 1];
      var line := lines[|lines| - 1];
      OutputInOrder(d, init, decode);
      var p := RunLines(d, init, decode);
      StepLineEffect(p, line, decode);
      var added := Added(p, line, decode);
      UnmarkedAppend(p.out, added);
    }
  }

  /** From the start of a turn, the tag is still `""` exactly when no
      reasoning delta has arrived, so a turn without reasoning prints
      neither marker. */
  lemma NoReasoningNoMarkers(lines: seq<string>, decode: string -> LineValue)
    ensures RunLines(Initial, lines, decode).tag == Unset <==> ReasoningDeltas(lines, decode) == []
    ensures ReasoningDeltas(lines, decode) == [] ==> Markers(RunLines(Initial, lines, decode).out) == []
  {
    RunLinesWellformed(Initial, lines, decode);
    DeltasInOrder(Initial, lines, decode);
  }
}
