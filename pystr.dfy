/** The Python `str` operations the client relies on, written out so that
    their edge cases are explicit: `strip()`, `startswith`, `replace`,
    `split`, `join`, `lower()` and `str(int)`. */
module PyStr {

  /** `str.isspace()` for one character: the characters `str.strip()` removes. */
  predicate IsSpace(c: char) {
    ('\U{9}' <= c <= '\U{D}') || ('\U{1C}' <= c <= '\U{20}') || c == '\U{85}' || c == '\U{A0}'
    || c == '\U{1680}' || ('\U{2000}' <= c <= '\U{200A}') || c == '\U{2028}' || c == '\U{2029}'
    || c == '\U{202F}' || c == '\U{205F}' || c == '\U{3000}'
  }

  predicate AllSpace(s: string) {
    forall i :: 0 <= i < |s| ==> IsSpace(s[i])
  }

  function TrimStart(s: string): string {
    if s != [] && IsSpace(s[0]) then TrimStart(s[1..]) else s
  }

  function TrimEnd(s: string): string {
    if s != [] && IsSpace(s[|s| - 1]) then TrimEnd(s[..|s| - 1]) else s
  }

  /** `s.strip()`: `s` without its leading and trailing whitespace. */
  function Strip(s: string): string {
    TrimEnd(TrimStart(s))
  }

  predicate StartsWith(s: string, prefix: string) {
    |prefix| <= |s| && s[..|prefix|] == prefix
  }

  predicate EndsWith(s: string, suffix: string) {
    |suffix| <= |s| && s[|s| - |suffix|..] == suffix
  }

  /** `pat` occurs in `s` starting at index `i`. */
  predicate OccursAt(s: string, pat: string, i: nat) {
    i + |pat| <= |s| && s[i..i + |pat|] == pat
  }

  /** `s.replace(pat, "")`: every occurrence of `pat`, found left to right
      without overlap, is removed. */
  function RemoveAll(s: string, pat: string): (r: string)
    requires pat != []
    ensures |r| <= |s|
    decreases |s|
  {
    if |s| < |pat| then s
    else if s[..|pat|] == pat then RemoveAll(s[|pat|..], pat)
    else [s[0]] + RemoveAll(s[1..], pat)
  }

  /** The index of the first `c` in `s`, or `|s|` when there is none. */
  function Find(s: string, c: char): (k: nat)
    ensures k <= |s|
    ensures k < |s| ==> s[k] == c
    ensures forall i :: 0 <= i < k ==> s[i] != c
  {
    if s == [] then 0 else if s[0] == c then 0 else 1 + Find(s[1..], c)
  }

  /** `s.split(c)` for a one-character separator: never empty, and no piece
      contains the separator. */
  function Split(s: string, c: char): (parts: seq<string>)
    ensures |parts| >= 1
    ensures forall i :: 0 <= i < |parts| ==> c !in parts[i]
    decreases |s|
  {
    var k := Find(s, c);
    if k == |s| then [s] else [s[..k]] + Split(s[k + 1..], c)
  }

  /** `sep.join(parts)`. */
  function Join(parts: seq<string>, sep: string): string {
    if |parts| == 0 then ""
    else if |parts| == 1 then parts[0]
    else parts[0] + sep + Join(parts[1..], sep)
  }

  /** `"".join(parts)`. */
  function Concat(parts: seq<string>): string {
    if parts == [] then "" else Concat(parts[..|parts| - 1]) + parts[|parts| - 1]
  }

  function LowerChar(c: char): char {
    if 'A' <= c <= 'Z' then (c as int - 'A' as int + 'a' as int) as char else c
  }

  /** `s.lower()`, restricted to the ASCII letters. */
  function Lower(s: string): (r: string)
    ensures |r| == |s|
    ensures forall i :: 0 <= i < |s| ==> r[i] == LowerChar(s[i])
  {
    seq(|s|, i requires 0 <= i < |s| => LowerChar(s[i]))
  }

  function DigitChar(d: nat): char
    requires d < 10
  {
    "0123456789"[d]
  }

  /** `str(n)` for a natural number: its decimal digits. */
  function NatToString(n: nat): (r: string)
    ensures |r| >= 1
  {
    if n < 10 then [DigitChar(n)] else NatToString(n / 10) + [DigitChar(n % 10)]
  }

  // ---------------------------------------------------------------------
  // Properties

  /** Splitting on a separator and joining with it again gives back the
      original text: `sep.join(s.split(sep)) == s`. */
  lemma {:induction false} JoinSplit(s: string, c: char)
    ensures Join(Split(s, c), [c]) == s
    decreases |s|
  {
    var k := Find(s, c);
    if k < |s| {
      JoinSplitStep(s, c);
      JoinSplit(s[k + 1..], c);
      CutAt(s, k);
    } else {
      assert Split(s, c) == [s];
    }
  }

  /** Joining the pieces of a text with a separator in it: the first piece,
      the separator, then the join of the rest's pieces. */
  lemma JoinSplitStep(s: string, c: char)
    requires Find(s, c) < |s|
    ensures Join(Split(s, c), [c]) == s[..Find(s, c)] + [c] + Join(Split(s[Find(s, c) + 1..], c), [c])
  {
    var k := Find(s, c);
    assert Split(s, c) == [s[..k]] + Split(s[k + 1..], c);
    JoinCons(s[..k], Split(s[k + 1..], c), [c]);
  }

  lemma CutAt(s: string, k: nat)
    requires k < |s|
    ensures s == s[..k] + [s[k]] + s[k + 1..]
  {
  }

  /** Sequence append regrouped, for the proofs whose two sides group a
      three-part append differently. */
  lemma AppendAssoc<T>(a: seq<T>, b: seq<T>, c: seq<T>)
    ensures a + b + c == a + (b + c)
  {
  }

  lemma JoinCons(p: string, tail: seq<string>, sep: string)
    requires |tail| >= 1
    ensures Join([p] + tail, sep) == p + sep + Join(tail, sep)
  {
    assert ([p] + tail)[1..] == tail;
  }

  /** Concatenation distributes over sequence append. */
  lemma {:induction false} ConcatAppend(a: seq<string>, b: seq<string>)
    ensures Concat(a + b) == Concat(a) + Concat(b)
    decreases |b|
  {
    if b == [] {
      assert a + b == a;
    } else {
      var b' := b[..|b| - 1];
      ConcatAppend(a, b');
      assert (a + b)[..|a + b| - 1] == a + b';
      AppendAssoc(Concat(a), Concat(b'), b[|b| - 1]);
    }
  }

  /** Text holding no occurrence of the pattern is left alone by `replace`. */
  lemma {:induction false} RemoveAllNoOccurrence(s: string, pat: string)
    requires pat != []
    requires forall i :: 0 <= i <= |s| - |pat| ==> !OccursAt(s, pat, i)
    ensures RemoveAll(s, pat) == s
    decreases |s|
  {
    if |s| >= |pat| {
      assert !OccursAt(s, pat, 0);
      assert s[0..|pat|] == s[..|pat|];
      forall i | 0 <= i <= |s[1..]| - |pat|
        ensures !OccursAt(s[1..], pat, i)
      {
        assert !OccursAt(s, pat, i + 1);
        assert s[1..][i..i + |pat|] == s[i + 1..i + 1 + |pat|];
      }
      RemoveAllNoOccurrence(s[1..], pat);
      assert s == [s[0]] + s[1..];
    }
  }

  /** An event line `"data: " + payload` whose payload does not itself hold
      the prefix yields exactly the payload. */
  lemma EventPayload(payload: string)
    requires forall i :: 0 <= i <= |payload| - 6 ==> !OccursAt(payload, "data: ", i)
    ensures RemoveAll("data: " + payload, "data: ") == payload
  {
    var s := "data: " + payload;
    assert s[..6] == "data: ";
    assert s[6..] == payload;
    RemoveAllNoOccurrence(payload, "data: ");
  }

  /** `pat` occurs nowhere in `s`. */
  predicate Free(s: string, pat: string) {
    forall i :: 0 <= i <= |s| - |pat| ==> !OccursAt(s, pat, i)
  }

  /** Removal passes over a prefix in which no occurrence starts, even one
      reaching into what follows. */
  lemma {:induction false} RemoveAllPrefix(x: string, y: string, pat: string)
    requires pat != []
    requires forall i :: 0 <= i < |x| ==> !OccursAt(x + y, pat, i)
    ensures RemoveAll(x + y, pat) == x + RemoveAll(y, pat)
    decreases |x|
  {
    var s := x + y;
    if x == [] {
      assert s == y;
    } else if |s| < |pat| {
      assert RemoveAll(y, pat) == y;
    } else {
      assert !OccursAt(s, pat, 0);
      assert s[0..|pat|] == s[..|pat|];
      assert s[1..] == x[1..] + y;
      forall i | 0 <= i < |x[1..]|
        ensures !OccursAt(x[1..] + y, pat, i)
      {
        OccursShift(s, pat, i);
      }
      calc {
        RemoveAll(s, pat);
        [s[0]] + RemoveAll(s[1..], pat);
        { RemoveAllPrefix(x[1..], y, pat); }
        [x[0]] + (x[1..] + RemoveAll(y, pat));
        { AppendAssoc([x[0]], x[1..], RemoveAll(y, pat)); assert [x[0]] + x[1..] == x; }
        x + RemoveAll(y, pat);
      }
    }
  }

  lemma OccursShift(s: string, pat: string, i: nat)
    requires s != []
    ensures OccursAt(s[1..], pat, i) == OccursAt(s, pat, i + 1)
  {
    if i + 1 + |pat| <= |s| {
      assert s[1..][i..i + |pat|] == s[i + 1..i + 1 + |pat|];
    }
  }

  /** A chunk carrying several events: `"data: " + p` for each payload,
      separated by blank lines. */
  function Events(payloads: seq<string>): string {
    if |payloads| == 0 then ""
    else if |payloads| == 1 then "data: " + payloads[0]
    else "data: " + payloads[0] + "\n\n" + Events(payloads[1..])
  }

  /** Removing `"data: "` from a chunk of several events leaves their
      payloads separated by blank lines, as long as no payload holds the
      prefix itself. */
  lemma {:induction false} EventsPayloads(payloads: seq<string>)
    requires forall k :: 0 <= k < |payloads| ==> Free(payloads[k], "data: ")
    ensures RemoveAll(Events(payloads), "data: ") == Join(payloads, "\n\n")
    decreases |payloads|
  {
    if |payloads| == 1 {
      EventPayload(payloads[0]);
    } else if |payloads| > 1 {
      var p := payloads[0];
      var rest := Events(payloads[1..]);
      var x := p + "\n\n";
      var s := "data: " + p + "\n\n" + rest;
      assert s[..6] == "data: ";
      assert s[6..] == x + rest;
      forall i | 0 <= i < |x|
        ensures !OccursAt(x + rest, "data: ", i)
      {
        if i + 6 <= |p| {
          assert (x + rest)[i..i + 6] == p[i..i + 6];
          assert !OccursAt(p, "data: ", i);
        } else if i + 6 <= |x + rest| {
          var j := if i < |p| then |p| else i;
          assert (x + rest)[j] == '\n';
          assert (x + rest)[i..i + 6][j - i] == (x + rest)[j];
        }
      }
      RemoveAllPrefix(x, rest, "data: ");
      assert forall k :: 0 <= k < |payloads[1..]| ==> payloads[1..][k] == payloads[k + 1];
      EventsPayloads(payloads[1..]);
      AppendAssoc(p, "\n\n", Join(payloads[1..], "\n\n"));
    }
  }

  /** A whitespace-only text strips to the empty string. */
  lemma {:induction false} StripAllSpace(s: string)
    requires AllSpace(s)
    ensures Strip(s) == ""
  {
    TrimStartAllSpace(s);
  }

  lemma {:induction false} TrimStartAllSpace(s: string)
    requires AllSpace(s)
    ensures TrimStart(s) == ""
    decreases |s|
  {
    if s != [] {
      TrimStartAllSpace(s[1..]);
    }
  }

  /** `lstrip()` drops a whitespace prefix and stops at the first other
      character. */
  lemma {:induction false} TrimStartMeaning(s: string)
    ensures var r := TrimStart(s);
      |r| <= |s| && r == s[|s| - |r|..] && AllSpace(s[..|s| - |r|]) && (r == [] || !IsSpace(r[0]))
    decreases |s|
  {
    if s != [] && IsSpace(s[0]) {
      TrimStartMeaning(s[1..]);
      var r := TrimStart(s);
      assert s[..|s| - |r|] == [s[0]] + s[1..][..|s| - 1 - |r|];
    }
  }

  /** `rstrip()` drops a whitespace suffix and stops at the last other
      character. */
  lemma {:induction false} TrimEndMeaning(s: string)
    ensures var r := TrimEnd(s);
      |r| <= |s| && r == s[..|r|] && AllSpace(s[|r|..]) && (r == [] || !IsSpace(r[|r| - 1]))
    decreases |s|
  {
    if s != [] && IsSpace(s[|s| - 1]) {
      var init := s[..|s| - 1];
      TrimEndMeaning(init);
      var r := TrimEnd(s);
      assert s[|r|..] == init[|r|..] + [s[|s| - 1]];
    }
  }

  /** `strip()` keeps a contiguous middle part of `s`: what it drops on
      either side is whitespace, and what it keeps neither starts nor ends
      with whitespace. */
  lemma StripMeaning(s: string)
    ensures exists i, j :: 0 <= i <= j <= |s| && Strip(s) == s[i..j] && AllSpace(s[..i]) && AllSpace(s[j..])
    ensures Strip(s) == [] || (!IsSpace(Strip(s)[0]) && !IsSpace(Strip(s)[|Strip(s)| - 1]))
  {
    TrimStartMeaning(s);
    var t := TrimStart(s);
    TrimEndMeaning(t);
    var r := TrimEnd(t);
    var i := |s| - |t|;
    var j := i + |r|;
    assert s[i..j] == t[..|r|];
    assert s[j..] == t[|r|..];
    if r != [] {
      assert r[0] == t[0];
    }
  }
}
