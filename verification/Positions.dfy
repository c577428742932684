/** Source positions (analysis/src/lib.rs, src/opentide/analysis.py): byte offsets, LSP positions in
    UTF-16 units, and 1-based lines and columns in code points. */
module Positions {
  import opened Options

  /** A Unicode scalar value; a text is what a Rust `&str` or a Python `str` of them holds. */
  type CodePoint = c: int | 0 <= c < 0xD800 || 0xE000 <= c < 0x110000 witness 0

  type Text = seq<CodePoint>

  const NEWLINE: CodePoint := 10
  const RETURN: CodePoint := 13

  /** Bytes in UTF-8 (section 3 of RFC 3629). */
  function Utf8(c: CodePoint): nat {
    if c < 0x80 then 1 else if c < 0x800 then 2 else if c < 0x10000 then 3 else 4
  }

  /** Code units in UTF-16 (section 2.1 of RFC 2781). */
  function Utf16(c: CodePoint): nat { if c < 0x10000 then 1 else 2 }

  /** The byte offset of the boundary before code point `i`. */
  function Bytes(text: Text, i: nat): nat
    requires i <= |text|
  {
    if i == 0 then 0 else Bytes(text, i - 1) + Utf8(text[i - 1])
  }

  /** The UTF-16 units of the first `i` code points. */
  function Units(text: Text, i: nat): nat
    requires i <= |text|
  {
    if i == 0 then 0 else Units(text, i - 1) + Utf16(text[i - 1])
  }

  // ---------- Lines ----------

  /** Where the lines of the first `n` code points start. */
  function Starts(text: Text, n: nat): (starts: seq<nat>)
    requires n <= |text|
    ensures starts != [] && starts[0] == 0
  {
    if n == 0 then [0]
    else Starts(text, n - 1) + if text[n - 1] == NEWLINE then [n] else []
  }

  /** Starts lie in order, each just after a newline, with no newline between. */
  lemma {:induction false} StartsInOrder(text: Text, n: nat, k: nat)
    requires n <= |text| && k < |Starts(text, n)|
    ensures Starts(text, n)[k] <= n
    ensures k + 1 < |Starts(text, n)| ==>
              Starts(text, n)[k] < Starts(text, n)[k + 1] <= n && text[Starts(text, n)[k + 1] - 1] == NEWLINE
  {
    if n > 0 {
      if k < |Starts(text, n - 1)| { StartsInOrder(text, n - 1, k); }
    }
  }

  /** Code point `i` is on the line that the newlines before it count. */
  lemma {:induction false} OnItsLine(text: Text, i: nat, n: nat)
    requires i <= n <= |text|
    ensures var k := |Starts(text, i)| - 1;
            && Starts(text, i) <= Starts(text, n) && Starts(text, n)[k] <= i
            && (k + 1 < |Starts(text, n)| ==> i < Starts(text, n)[k + 1])
    decreases n
  {
    if i < n {
      OnItsLine(text, i, n - 1);
    } else {
      StartsInOrder(text, n, |Starts(text, n)| - 1);
    }
  }

  function LineCount(text: Text): (n: nat)
    ensures n > 0
  {
    |Starts(text, |text|)|
  }

  function LineStart(text: Text, k: nat): (s: nat)
    requires k < LineCount(text)
    ensures s <= |text|
  {
    StartsInOrder(text, |text|, k);
    Starts(text, |text|)[k]
  }

  /** The end of line `k`, before its newline. */
  function LineStop(text: Text, k: nat): (e: nat)
    requires k < LineCount(text)
    ensures LineStart(text, k) <= e <= |text|
  {
    StartsInOrder(text, |text|, k);
    if k + 1 < LineCount(text) then
      LineStart(text, k + 1) - 1
    else |text|
  }

  function LineText(text: Text, k: nat): Text
    requires k < LineCount(text)
  {
    assert LineStart(text, k) <= LineStop(text, k) <= |text|;
    text[LineStart(text, k)..LineStop(text, k)]
  }

  // ---------- What the conversions mean ----------

  /** The fewest code points of a line that reach `utf16` units, or all of them. */
  function Points(content: Text, utf16: nat, from: nat): (m: nat)
    requires from <= |content|
    ensures from <= m <= |content|
    ensures m == |content| || Units(content, m) >= utf16
    ensures forall j :: from <= j < m ==> Units(content, j) < utf16
    decreases |content| - from
  {
    if from == |content| || Units(content, from) >= utf16 then from else Points(content, utf16, from + 1)
  }

  function Least(a: nat, b: nat): nat { if a < b then a else b }
  function Less1(a: nat): nat { if a == 0 then 0 else a - 1 }

  function PositionOf(text: Text, line: nat, utf16: nat): (nat, nat) {
    var k := Least(line, LineCount(text) - 1);
    (k + 1, Points(LineText(text, k), utf16, 0) + 1)
  }

  function OffsetOf(text: Text, line: nat, column: nat): nat {
    var k := Least(Less1(line), LineCount(text) - 1);
    Bytes(text, Least(LineStart(text, k) + Less1(column), LineStop(text, k)))
  }

  // ---------- Byte offsets and code points ----------

  lemma {:induction false} BytesGrow(text: Text, i: nat, j: nat)
    requires i < j <= |text|
    ensures Bytes(text, i) < Bytes(text, j)
  {
    if i + 1 < j { BytesGrow(text, i, j - 1); }
  }

  /** The code point that starts at byte `b`. */
  function IndexAt(text: Text, b: nat, from: nat): (i: nat)
    requires from <= |text|
    ensures from <= i <= |text|
    decreases |text| - from
  {
    if from == |text| || Bytes(text, from) >= b then from else IndexAt(text, b, from + 1)
  }

  lemma {:induction false} IndexAtBoundary(text: Text, j: nat, from: nat)
    requires from <= j <= |text|
    ensures IndexAt(text, Bytes(text, j), from) == j
    decreases j - from
  {
    if from < j {
      BytesGrow(text, from, j);
      IndexAtBoundary(text, j, from + 1);
    }
  }

  /** `&text[from..to]`, by byte offsets. */
  function Slice(text: Text, from: nat, to: nat): Text
    requires IndexAt(text, from, 0) <= IndexAt(text, to, 0)
  {
    text[IndexAt(text, from, 0)..IndexAt(text, to, 0)]
  }

  lemma {:induction false} SumOfSlice(text: Text, s: nat, i: nat)
    requires s + i <= |text|
    ensures Bytes(text[s..], i) == Bytes(text, s + i) - Bytes(text, s)
    ensures Units(text[s..], i) == Units(text, s + i) - Units(text, s)
  {
    if i > 0 { SumOfSlice(text, s, i - 1); }
  }

  lemma {:induction false} SumOfPrefix(text: Text, e: nat, i: nat)
    requires i <= e <= |text|
    ensures Bytes(text[..e], i) == Bytes(text, i) && Units(text[..e], i) == Units(text, i)
  {
    if i > 0 { SumOfPrefix(text, e, i - 1); }
  }

  /** `LineStarts`: the byte offsets where the lines start. */
  ghost predicate IsLineStarts(starts: seq<nat>, text: Text) {
    |starts| == LineCount(text) && forall k :: 0 <= k < |starts| ==> starts[k] == Bytes(text, LineStart(text, k))
  }

  /** `LineStarts::new`. */
  method NewLineStarts(text: Text) returns (starts: seq<nat>)
    ensures IsLineStarts(starts, text)
  {
    starts := [0];
    var i, at := 0, 0;
    while i < |text|
      invariant i <= |text| && at == Bytes(text, i) && |starts| == |Starts(text, i)|
      invariant forall k :: 0 <= k < |starts| ==>
                  Starts(text, i)[k] <= i && starts[k] == Bytes(text, Starts(text, i)[k])
    {
      if text[i] == NEWLINE { starts := starts + [at + 1]; }
      at := at + Utf8(text[i]);
      i := i + 1;
    }
  }

  /** Both conversions slice the same line out of the text. */
  method LineAt(starts: seq<nat>, text: Text, k: nat) returns (start: nat, end: nat, content: Text)
    requires IsLineStarts(starts, text) && k < |starts|
    ensures start == Bytes(text, LineStart(text, k)) && end == Bytes(text, LineStop(text, k))
    ensures content == LineText(text, k)
  {
    start := starts[k];
    var size := Bytes(text, |text|);
    StartsInOrder(text, |text|, k);
    var e := LineStop(text, k);
    end := if k + 1 < |starts| then starts[k + 1] - 1 else size;
    assert e < |text| ==> Bytes(text, e + 1) == Bytes(text, e) + Utf8(text[e]);
    IndexAtBoundary(text, LineStart(text, k), 0);
    IndexAtBoundary(text, e, 0);
    content := Slice(text, start, end);
  }

  /** The loop of `position`. */
  method CountPoints(content: Text, utf16: nat) returns (points: nat)
    ensures points == Points(content, utf16, 0)
  {
    var units := 0;
    points := 0;
    while points < |content| && units < utf16
      invariant points <= |content| && units == Units(content, points)
      invariant Points(content, utf16, points) == Points(content, utf16, 0)
    {
      units := units + Utf16(content[points]);
      points := points + 1;
    }
  }

  /** `LineStarts::position`. */
  method Position(starts: seq<nat>, text: Text, line: nat, utf16: nat) returns (at: (nat, nat))
    requires IsLineStarts(starts, text)
    ensures at == PositionOf(text, line, utf16)
  {
    var index := Least(line, |starts| - 1);
    var _, _, content := LineAt(starts, text, index);
    var points := CountPoints(content, utf16);
    at := (index + 1, points + 1);
  }

  /** `LineStarts::offset`. */
  method Offset(starts: seq<nat>, text: Text, line: nat, column: nat) returns (b: nat)
    requires IsLineStarts(starts, text)
    ensures b == OffsetOf(text, line, column)
  {
    var index := Least(Less1(line), |starts| - 1);
    var start, end, content := LineAt(starts, text, index);
    var nth := Less1(column);
    var s := LineStart(text, index);
    if nth < |content| {
      SumOfSlice(text, s, nth);
      assert content == text[s..][..|content|];
      SumOfPrefix(text[s..], |content|, nth);
      b := start + Bytes(content, nth);
    } else {
      b := end;
    }
  }

  // ---------- Round trips, order and clamping ----------

  lemma {:induction false} UnitsGrow(text: Text, i: nat, j: nat)
    requires i < j <= |text|
    ensures Units(text, i) < Units(text, j)
  {
    if i + 1 < j { UnitsGrow(text, i, j - 1); }
  }

  lemma {:induction false} PointsIs(content: Text, utf16: nat, from: nat, m: nat)
    requires from <= m <= |content| && (m == |content| || Units(content, m) >= utf16)
    requires forall j :: from <= j < m ==> Units(content, j) < utf16
    ensures Points(content, utf16, from) == m
    decreases m - from
  {
    if from < m { PointsIs(content, utf16, from + 1, m); }
  }

  /** The LSP position of the boundary before code point `i`: its line, and the UTF-16 units since
      the line's start. */
  function LspOf(text: Text, i: nat): (nat, nat)
    requires i <= |text|
  {
    OnItsLine(text, i, |text|);
    var k := |Starts(text, i)| - 1;
    assert LineStart(text, k) <= i;
    UnitsOrdered(text, LineStart(text, k), i);
    (k, Units(text, i) - Units(text, LineStart(text, k)))
  }

  lemma UnitsOrdered(text: Text, i: nat, j: nat)
    requires i <= j <= |text|
    ensures Units(text, i) <= Units(text, j)
  {
    if i < j { UnitsGrow(text, i, j); }
  }

  /** The 1-based line and column, in code points, of the same boundary. */
  function LineColumn(text: Text, i: nat): (at: (nat, nat))
    requires i <= |text|
    ensures 1 <= at.0 <= LineCount(text)
  {
    OnItsLine(text, i, |text|);
    (|Starts(text, i)|, i - LineStart(text, |Starts(text, i)| - 1) + 1)
  }

  lemma OnLine(text: Text, i: nat)
    requires i <= |text|
    ensures var k := |Starts(text, i)| - 1;
            k < LineCount(text) && LineStart(text, k) <= i <= LineStop(text, k)
  {
    hide Bytes, Units;
    OnItsLine(text, i, |text|);
  }

  lemma PositionOnLine(text: Text, k: nat, i: nat)
    requires k < LineCount(text) && LineStart(text, k) <= i <= LineStop(text, k)
    ensures Units(text, LineStart(text, k)) <= Units(text, i)
    ensures PositionOf(text, k, Units(text, i) - Units(text, LineStart(text, k))) == (k + 1, i - LineStart(text, k) + 1)
  {
    hide Units, Points, LineStart, LineStop, LineCount;
    PointsOnLine(text, LineStart(text, k), LineStop(text, k), i);
  }

  lemma OffsetOnLine(text: Text, k: nat, i: nat)
    requires k < LineCount(text) && LineStart(text, k) <= i <= LineStop(text, k)
    ensures OffsetOf(text, k + 1, i - LineStart(text, k) + 1) == Bytes(text, i)
  {
    hide Bytes, LineStart, LineStop, LineCount;
  }

  /** From a boundary's LSP position to its line and column, and from those to its byte offset. */
  lemma BoundaryRoundTrip(text: Text, i: nat)
    requires i <= |text|
    ensures PositionOf(text, LspOf(text, i).0, LspOf(text, i).1) == LineColumn(text, i)
    ensures OffsetOf(text, LineColumn(text, i).0, LineColumn(text, i).1) == Bytes(text, i)
  {
    hide Units, Points, Bytes, Starts, LineStart, LineStop, LineCount, PositionOf, OffsetOf;
    OnLine(text, i);
    var k := |Starts(text, i)| - 1;
    PositionOnLine(text, k, i);
    OffsetOnLine(text, k, i);
  }

  lemma UnitsInside(text: Text, s: nat, e: nat, j: nat)
    requires s <= s + j <= e <= |text|
    ensures Units(text[s..e], j) == Units(text, s + j) - Units(text, s)
  {
    hide Units;
    SumOfSlice(text, s, j);
    SumOfPrefix(text[s..], e - s, j);
    assert text[s..e] == text[s..][..e - s];
  }

  lemma PointsOnLine(text: Text, s: nat, e: nat, i: nat)
    requires s <= i <= e <= |text|
    ensures Units(text, s) <= Units(text, i)
    ensures Points(text[s..e], Units(text, i) - Units(text, s), 0) == i - s
  {
    hide Units, Points;
    UnitsOrdered(text, s, i);
    var content, n := text[s..e], Units(text, i) - Units(text, s);
    UnitsInside(text, s, e, i - s);
    forall j | 0 <= j < i - s ensures Units(content, j) < n {
      UnitsInside(text, s, e, j);
      UnitsGrow(text, s + j, i);
    }
    PointsIs(content, n, 0, i - s);
  }

  predicate Before(a: (nat, nat), b: (nat, nat)) { a.0 < b.0 || (a.0 == b.0 && a.1 < b.1) }
  predicate NotAfter(a: (nat, nat), b: (nat, nat)) { a == b || Before(a, b) }

  lemma {:induction false} PointsGrow(content: Text, u: nat, v: nat, from: nat)
    requires u <= v && from <= |content|
    ensures Points(content, u, from) <= Points(content, v, from)
    decreases |content| - from
  {
    if from < |content| && Units(content, from) < u { PointsGrow(content, u, v, from + 1); }
  }

  /** No code point of the content starts in `[u, v)`, counted in UTF-16 units. */
  ghost predicate NoneStartsIn(content: Text, u: nat, v: nat) {
    forall j | 0 <= j < |content| :: !(u <= Units(content, j) < v)
  }

  /** Asking for fewer units reaches as far exactly when no code point starts in between. */
  lemma {:induction false} SamePointsIff(content: Text, u: nat, v: nat, from: nat)
    requires u < v && from <= |content| && forall j | 0 <= j < from :: Units(content, j) < u
    ensures Points(content, v, from) <= Points(content, u, from) <==> NoneStartsIn(content, u, v)
    decreases |content| - from
  {
    hide Units;
    if from == |content| { return; }
    if Units(content, from) < u {
      SamePointsIff(content, u, v, from + 1);
    } else if NoneStartsIn(content, u, v) {
      assert Units(content, from) >= v;
    } else {
      var j :| 0 <= j < |content| && u <= Units(content, j) < v;
      assert from <= j;
      UnitsOrdered(content, from, j);
    }
  }

  /** Conversion keeps the order of positions, exactly unless the later one is past the last line,
      the earlier one on or past it, and a code point of the last line starts between the later
      character and the earlier: the line is clamped but the character kept. */
  lemma OrderKeptIff(text: Text, p: (nat, nat), q: (nat, nat))
    requires NotAfter(p, q)
    ensures NotAfter(PositionOf(text, p.0, p.1), PositionOf(text, q.0, q.1))
            <==> || q.0 < LineCount(text)
                 || p.0 < LineCount(text) - 1
                 || p.1 <= q.1
                 || NoneStartsIn(LineText(text, LineCount(text) - 1), q.1, p.1)
  {
    hide Points, LineText, LineCount, NoneStartsIn;
    var last := LineText(text, LineCount(text) - 1);
    if p.0 == q.0 {
      PointsGrow(LineText(text, Least(p.0, LineCount(text) - 1)), p.1, q.1, 0);
    } else if p.1 <= q.1 {
      PointsGrow(last, p.1, q.1, 0);
    } else {
      SamePointsIff(last, q.1, p.1, 0);
    }
  }

  /** Two positions out of order after conversion: the end of a one-line text, and the line after it. */
  lemma PastTheEndComesBack()
    ensures var text: Text := [97, 98];
            Before((0, 2), (1, 0)) && Before(PositionOf(text, 1, 0), PositionOf(text, 0, 2))
  {
    var text: Text := [97, 98];
    assert Starts(text, 1) == [0] && Starts(text, 2) == [0];
    assert LineText(text, 0) == text;
    PointsIs(text, 2, 0, 2);
    PointsIs(text, 0, 0, 0);
  }

  /** A position never leaves the text: past the end of its line it is that end, past the last line
      it is on the last line. */
  lemma Clamped(text: Text, line: nat, utf16: nat)
    ensures var (l, c) := PositionOf(text, line, utf16);
            && 1 <= l <= LineCount(text) && 1 <= c <= |LineText(text, l - 1)| + 1
            && (line >= LineCount(text) ==> l == LineCount(text))
            && (utf16 > Units(LineText(text, l - 1), |LineText(text, l - 1)|) ==> c == |LineText(text, l - 1)| + 1)
  {
    var k := Least(line, LineCount(text) - 1);
    var m := Points(LineText(text, k), utf16, 0);
    UnitsOrdered(LineText(text, k), m, |LineText(text, k)|);
  }

  /** The way back clamps too: line and column 0 are the first, a line past the last is the last, and
      a column past the end of its line is that end. */
  lemma OffsetMeans(text: Text, line: nat, column: nat)
    ensures exists k, i ::
      && 0 <= k < LineCount(text) && LineStart(text, k) <= i <= LineStop(text, k)
      && OffsetOf(text, line, column) == Bytes(text, i)
      && k == (if line == 0 then 0 else if line > LineCount(text) then LineCount(text) - 1 else line - 1)
      && (column <= 1 ==> i == LineStart(text, k))
      && (column > 1 && LineStart(text, k) + column - 1 <= LineStop(text, k) ==> i == LineStart(text, k) + column - 1)
      && (column > 1 && LineStart(text, k) + column - 1 > LineStop(text, k) ==> i == LineStop(text, k))
  {
    var k := if line == 0 then 0 else if line > LineCount(text) then LineCount(text) - 1 else line - 1;
    var i := Least(LineStart(text, k) + Less1(column), LineStop(text, k));
    assert LineStart(text, k) <= i <= LineStop(text, k) && OffsetOf(text, line, column) == Bytes(text, i);
    hide Bytes, LineStart, LineStop, LineCount;
  }

  /** A position between the two halves of a surrogate pair is rounded up to the boundary after it. */
  lemma MidSurrogateRoundsUp(text: Text, line: nat, j: nat)
    requires line < LineCount(text) && j < |LineText(text, line)| && LineText(text, line)[j] >= 0x10000
    ensures PositionOf(text, line, Units(LineText(text, line), j) + 1) == (line + 1, j + 2)
  {
    hide Units, Points, LineText, LineCount, Utf16;
    assert Least(line, LineCount(text) - 1) == line;
    MidSurrogate(LineText(text, line), j);
  }

  lemma MidSurrogate(content: Text, j: nat)
    requires j < |content| && content[j] >= 0x10000
    ensures Points(content, Units(content, j) + 1, 0) == j + 1
  {
    assert Units(content, j + 1) == Units(content, j) + 2;
    hide Units, Points;
    forall i | 0 <= i <= j ensures Units(content, i) < Units(content, j) + 1 { UnitsOrdered(content, i, j); }
    PointsIs(content, Units(content, j) + 1, 0, j + 1);
  }

  // ---------- Spans ----------

  datatype Span = Span(start: (nat, nat), end: (nat, nat))

  /** `LineStarts::convert`, of the LSP range from `from` to `to`. */
  function Convert(text: Text, from: (nat, nat), to: (nat, nat)): Span {
    var start, end := PositionOf(text, from.0, from.1), PositionOf(text, to.0, to.1);
    if NotAfter(end, start) then Span(start, (start.0, start.1 + 1)) else Span(start, end)
  }

  predicate IsReturn(content: Text) { content != [] && content[|content| - 1] == RETURN }

  /** `_span_end`: a span whose last character is a newline ends on that newline's line. */
  function SpanEnd(span: Span, text: Option<Text>): (nat, nat) {
    var (line, column) := span.start;
    var (endLine, endColumn) := span.end;
    if endColumn != 1 || endLine <= line then span.end
    else
      var last := endLine - 1;
      if text.Some? && 0 < last <= LineCount(text.value) then
        var content := LineText(text.value, last - 1);
        var length := if IsReturn(content) then |content| - 1 else |content|;
        (last, if last == line && length + 1 < column + 1 then column + 1 else length + 1)
      else if last == line then (line, column + 1)
      else span.end
  }

  /** A converted span is never empty, nor is it after its end is moved back, whatever the range. */
  lemma NeverEmpty(text: Text, from: (nat, nat), to: (nat, nat), shown: Option<Text>)
    ensures var span := Convert(text, from, to);
            Before(span.start, span.end) && Before(span.start, SpanEnd(span, shown))
  {
  }

  lemma LineColumnGrows(text: Text, i: nat, j: nat)
    requires i < j <= |text|
    ensures Before(LineColumn(text, i), LineColumn(text, j))
  {
    OnItsLine(text, i, |text|);
    OnItsLine(text, j, |text|);
    OnItsLine(text, i, j);
  }

  /** A span between two boundaries converts to their lines and columns. */
  lemma SpanConvertsExactly(text: Text, i: nat, j: nat)
    requires i < j <= |text|
    ensures Convert(text, LspOf(text, i), LspOf(text, j)) == Span(LineColumn(text, i), LineColumn(text, j))
  {
    BoundaryRoundTrip(text, i);
    BoundaryRoundTrip(text, j);
    LineColumnGrows(text, i, j);
  }

  /** Any other span keeps its end, whatever text is shown. */
  lemma OtherEndsStay(text: Text, i: nat, j: nat, shown: Option<Text>)
    requires i < j <= |text| && text[j - 1] != 10
    ensures SpanEnd(Convert(text, LspOf(text, i), LspOf(text, j)), shown) == LineColumn(text, j)
  {
    hide PositionOf, Points, LspOf, Convert, LineText, LineStop, Units, Bytes;
    assert Starts(text, j) == Starts(text, j - 1);
    SpanConvertsExactly(text, i, j);
    OnItsLine(text, j - 1, |text|);
  }

  /** Where the text is not at hand, a span that ends with a newline keeps its end, unless it starts
      on the newline's line: then it is one column long. */
  lemma EndsWithoutTheText(text: Text, i: nat, j: nat)
    requires i < j <= |text| && text[j - 1] == NEWLINE
    ensures var (line, column) := LineColumn(text, i);
      SpanEnd(Convert(text, LspOf(text, i), LspOf(text, j)), None)
      == if LineColumn(text, j - 1).0 == line then (line, column + 1) else LineColumn(text, j)
  {
    hide PositionOf, Points, LspOf, Convert, LineText, LineStop, Units, Bytes;
    assert Starts(text, j) == Starts(text, j - 1) + [j];
    SpanConvertsExactly(text, i, j);
    OnItsLine(text, j, |text|);
    OnItsLine(text, j - 1, |text|);
    OnItsLine(text, i, j - 1);
  }

  /** A span whose last character is a newline, and that starts before it, ends after that line's
      last character, a carriage return not counted: on the line that holds the newline. */
  lemma EndsOnTheNewlinesLine(text: Text, i: nat, j: nat)
    requires i < j <= |text| && text[j - 1] == 10
    ensures var span := Convert(text, LspOf(text, i), LspOf(text, j));
            var end := SpanEnd(span, Some(text));
            var content := LineText(text, LineColumn(text, j - 1).0 - 1);
            var length := if content != [] && content[|content| - 1] == 13 then |content| - 1 else |content|;
            && end.0 == LineColumn(text, j - 1).0
            && (end.1 == length + 1 || (end.0 == span.start.0 && end.1 == span.start.1 + 1 > length + 1))
  {
    hide PositionOf, Points, LspOf, Convert, LineText, LineStop, Units, Bytes;
    assert Starts(text, j) == Starts(text, j - 1) + [j];
    SpanConvertsExactly(text, i, j);
    OnItsLine(text, j, |text|);
    OnItsLine(text, j - 1, |text|);
    OnItsLine(text, i, j - 1);
  }
}
