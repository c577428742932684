/** The quoted scalars completion reads from the top of an object file (src/opentide/cli/completion.py). */
module QuotedScalars {
  import opened Options

  /** A code point, surrogates included, as in a Python string. */
  type Point = c: nat | c < 0x110000

  type Text = seq<Point>

  const QUOTE: Point := 0x27
  const DOUBLE: Point := 0x22
  const BACKSLASH: Point := 0x5C

  // ---------- Single quotes ----------

  /** `text.replace("''", "'")`. */
  function Halved(s: Text): Text {
    if |s| < 2 then s
    else if s[0] == QUOTE && s[1] == QUOTE then [QUOTE] + Halved(s[2..])
    else [s[0]] + Halved(s[1..])
  }

  /** Where the scan from `i` finds the closing quote; the end of the text without one. */
  function SingleEnd(v: Text, i: nat): (end: nat)
    requires i <= |v|
    ensures i <= end <= |v|
    decreases |v| - i
  {
    if i == |v| then i
    else if v[i] != QUOTE then SingleEnd(v, i + 1)
    else if i + 1 < |v| && v[i + 1] == QUOTE then SingleEnd(v, i + 2)
    else i
  }

  function SingleText(v: Text): Text
    requires v != []
  {
    Halved(v[1..SingleEnd(v, 1)])
  }

  /** `_single_quoted`. */
  method SingleQuoted(value: Text) returns (text: Text)
    requires value != [] && value[0] == QUOTE
    ensures text == SingleText(value)
    ensures forall s, tail :: value == Single(s) + tail && !Extends(tail) ==> text == s
  {
    forall s, tail | value == Single(s) + tail ensures SingleText(value) == s <==> !Extends(tail) {
      SingleRoundTripIff(s, tail);
    }
    var index := 1;
    while index < |value|
      invariant 1 <= index <= |value| && SingleEnd(value, 1) == SingleEnd(value, index)
    {
      if value[index] == QUOTE {
        if index + 1 == |value| || value[index + 1] != QUOTE {
          return Halved(value[1..index]);
        }
        index := index + 1;
      }
      index := index + 1;
    }
    text := Halved(value[1..]);
    assert value[1..] == value[1..|value|];
  }

  /** A quote as the pair it is written as, any other character as itself. */
  function Pair(c: Point): Text { if c == QUOTE then [QUOTE, QUOTE] else [c] }

  /** YAML 1.2.2, section 7.3.2: inside single quotes a quote is written twice. */
  function Doubled(s: Text): Text {
    if s == [] then [] else Pair(s[0]) + Doubled(s[1..])
  }

  function Single(s: Text): Text { [QUOTE] + Doubled(s) + [QUOTE] }

  /** A tail that would make the closing quote the first of a pair. */
  predicate Extends(tail: Text) { tail != [] && tail[0] == QUOTE }

  lemma {:induction false} HalvedDoubled(s: Text, rest: Text)
    ensures Halved(Doubled(s) + rest) == s + Halved(rest)
    decreases |s|
  {
    if s == [] {
      assert Doubled(s) + rest == rest;
      return;
    }
    var d := Doubled(s[1..]);
    assert Doubled(s) == Pair(s[0]) + d;
    hide *;
    HalvedDoubled(s[1..], rest);
    HalvedOne(s[0], d + rest);
    Joins(Pair(s[0]), d, rest);
    Joins([s[0]], s[1..], Halved(rest));
    FirstAndRest(s);
  }

  lemma Joins(a: Text, b: Text, c: Text)
    ensures a + b + c == a + (b + c)
  {
  }

  lemma FirstAndRest(s: Text)
    requires s != []
    ensures [s[0]] + s[1..] == s
  {
  }

  lemma HalvedOne(c: Point, rest: Text)
    ensures Halved(Pair(c) + rest) == [c] + Halved(rest)
  {
    if c == QUOTE {
      assert ([QUOTE, QUOTE] + rest)[2..] == rest;
    } else {
      assert ([c] + rest)[1..] == rest;
    }
  }

  lemma {:induction false} ScanDoubled(v: Text, i: nat, s: Text)
    requires i + |Doubled(s)| <= |v| && v[i..i + |Doubled(s)|] == Doubled(s)
    ensures SingleEnd(v, i) == SingleEnd(v, i + |Doubled(s)|)
    decreases |s|
  {
    if s != [] {
      var d, n := Doubled(s), if s[0] == QUOTE then 2 else 1;
      assert d[n..] == Doubled(s[1..]);
      assert v[i] == d[0] && (n == 2 ==> v[i + 1] == d[1]);
      assert v[i + n..i + |d|] == d[n..];
      ScanDoubled(v, i + n, s[1..]);
    }
  }

  /** Any text, in single quotes and followed by a tail, is read back exactly when the tail does
      not extend the quote. */
  lemma SingleRoundTripIff(s: Text, tail: Text)
    ensures SingleText(Single(s) + tail) == s <==> !Extends(tail)
  {
    var v, n := Single(s) + tail, |Doubled(s)|;
    assert v[1..1 + n] == Doubled(s) && v[1 + n] == QUOTE;
    ScanDoubled(v, 1, s);
    HalvedDoubled(s, []);
    assert Doubled(s) + [] == Doubled(s) && s + Halved([]) == s;
    if Extends(tail) {
      assert v[1 + n + 1] == QUOTE;
      var end := SingleEnd(v, 1);
      assert end >= n + 3;
      var rest := v[1 + n..end];
      assert v[1..end] == Doubled(s) + rest;
      HalvedDoubled(s, rest);
      assert rest[0] == QUOTE && rest[1] == QUOTE;
    } else {
      assert tail != [] ==> v[1 + n + 1] == tail[0];
    }
  }

  // ---------- Double quotes ----------

  function HexDigit(c: Point): Option<nat> {
    if 0x30 <= c <= 0x39 then Some(c - 0x30)
    else if 0x41 <= c <= 0x46 then Some(c - 0x41 + 10)
    else if 0x61 <= c <= 0x66 then Some(c - 0x61 + 10)
    else None
  }

  predicate AllHex(s: Text) { forall i :: 0 <= i < |s| ==> HexDigit(s[i]).Some? }

  function HexValue(s: Text): nat
    requires AllHex(s)
  {
    if s == [] then 0 else 16 * HexValue(s[..|s| - 1]) + HexDigit(s[|s| - 1]).value
  }

  /** The escapes that stand for one character (YAML 1.2.2, section 5.7), but for x, u and U. */
  function Named(c: Point): Option<Point> {
    if c == 0x30 then Some(0x00)         // 0
    else if c == 0x61 then Some(0x07)    // a
    else if c == 0x62 then Some(0x08)    // b
    else if c == 0x74 then Some(0x09)    // t
    else if c == 0x09 then Some(0x09)    // tab
    else if c == 0x6E then Some(0x0A)    // n
    else if c == 0x76 then Some(0x0B)    // v
    else if c == 0x66 then Some(0x0C)    // f
    else if c == 0x72 then Some(0x0D)    // r
    else if c == 0x65 then Some(0x1B)    // e
    else if c == 0x20 then Some(0x20)    // space
    else if c == 0x22 then Some(0x22)    // "
    else if c == 0x2F then Some(0x2F)    // /
    else if c == 0x5C then Some(0x5C)    // \
    else if c == 0x4E then Some(0x85)    // N
    else if c == 0x5F then Some(0xA0)    // _
    else if c == 0x4C then Some(0x2028)  // L
    else if c == 0x50 then Some(0x2029)  // P
    else None
  }

  /** The hexadecimal digits after `\x`, `\u` and `\U`; 0 for other letters. */
  function Digits(c: Point): nat {
    if c == 0x78 then 2 else if c == 0x75 then 4 else if c == 0x55 then 8 else 0
  }

  /** `_YAML_ESCAPE` at the start of `s`: how many characters it matches. */
  function Matched(s: Text): (n: nat)
    requires |s| >= 2 && s[0] == BACKSLASH
    ensures 2 <= n <= |s|
  {
    var n := Digits(s[1]);
    if n > 0 && 2 + n <= |s| && AllHex(s[2..2 + n]) then 2 + n else 2
  }

  /** `_unescape`; `None` is the `ValueError` of `chr`. */
  function Unescaped(escape: Text): Option<Text>
    requires |escape| == 2 || (|escape| > 2 && AllHex(escape[2..]))
  {
    if |escape| > 2 then
      var value := HexValue(escape[2..]);
      if value < 0x110000 then Some([value]) else None
    else match Named(escape[1])
      case Some(c) => Some([c])
      case None => Some(escape)
  }

  /** `_YAML_ESCAPE.sub(_unescape, text)`, left to right. */
  function Unescape(s: Text): Option<Text> {
    if s == [] then Some([])
    else if s[0] != BACKSLASH || |s| == 1 then Before(Some([s[0]]), Unescape(s[1..]))
    else
      var n := Matched(s);
      assert s[..n][2..] == s[2..n];
      Before(Unescaped(s[..n]), Unescape(s[n..]))
  }

  function Before(first: Option<Text>, rest: Option<Text>): Option<Text> {
    if first.Some? && rest.Some? then Some(first.value + rest.value) else None
  }

  /** Where the scan from `i` finds the closing quote, or the end of the text. */
  function DoubleEnd(v: Text, i: nat): (end: nat)
    ensures end <= |v| && (i <= |v| ==> i <= end)
    decreases |v| - i
  {
    if i >= |v| then |v|
    else if v[i] == DOUBLE then i
    else DoubleEnd(v, if v[i] == BACKSLASH then i + 2 else i + 1)
  }

  function DoubleText(v: Text): Option<Text>
    requires v != []
  {
    Unescape(v[1..DoubleEnd(v, 1)])
  }

  /** `_double_quoted`. */
  method DoubleQuoted(value: Text) returns (text: Option<Text>)
    requires value != [] && value[0] == DOUBLE
    ensures text == DoubleText(value)
    ensures forall s, pieces, tail :: Encoding(pieces, s) && value == [DOUBLE] + Joined(pieces) + [DOUBLE] + tail ==>
              text == Some(s)
  {
    forall s, pieces, tail | Encoding(pieces, s) && value == [DOUBLE] + Joined(pieces) + [DOUBLE] + tail
      ensures DoubleText(value) == Some(s)
    {
      DoubleRoundTrip(s, pieces, tail);
    }
    var index := 1;
    while index < |value| && value[index] != DOUBLE
      invariant 1 <= index && DoubleEnd(value, 1) == DoubleEnd(value, index)
      decreases |value| - index
    {
      index := index + if value[index] == BACKSLASH then 2 else 1;
    }
    text := Unescape(value[1..if index < |value| then index else |value|]);
  }

  /** What stands for each character that has a name (YAML 1.2.2, section 5.7), by its letter. */
  const NAMED: map<Point, Point> :=
    map[0x30 := 0x00, 0x61 := 0x07, 0x62 := 0x08, 0x74 := 0x09, 0x09 := 0x09, 0x6E := 0x0A, 0x76 := 0x0B,
        0x66 := 0x0C, 0x72 := 0x0D, 0x65 := 0x1B, 0x20 := 0x20, 0x22 := 0x22, 0x2F := 0x2F, 0x5C := 0x5C,
        0x4E := 0x85, 0x5F := 0xA0, 0x4C := 0x2028, 0x50 := 0x2029]

  /** `p` is the hexadecimal digit of `d`, in either case. */
  predicate IsHexOf(p: Point, d: nat)
    requires d < 16
  {
    p == "0123456789abcdef"[d] as int || p == "0123456789ABCDEF"[d] as int
  }

  /** The digits are those of `n`, with zeros in front. */
  predicate InHex(digits: Text, n: nat) {
    if digits == [] then n == 0
    else IsHexOf(digits[|digits| - 1], n % 16) && InHex(digits[..|digits| - 1], n / 16)
  }

  /** The ways to write one character between double quotes: as itself, by its name, or as `x`, `u`
      or `U` with two, four or eight hexadecimal digits. */
  predicate Spells(piece: Text, c: Point) {
    || (piece == [c] && c != DOUBLE && c != BACKSLASH)
    || (|piece| == 2 && piece[0] == BACKSLASH && piece[1] in NAMED && NAMED[piece[1]] == c)
    || (|piece| > 2 && piece[0] == BACKSLASH && InHex(piece[2..], c)
        && (piece[1], |piece|) in {(0x78, 4), (0x75, 6), (0x55, 10)})
  }

  lemma HexDigitIs(p: Point, d: nat)
    requires d < 16 && IsHexOf(p, d)
    ensures HexDigit(p) == Some(d)
  {
    if d < 10 {
      assert "0123456789abcdef"[d] as int == 0x30 + d && "0123456789ABCDEF"[d] as int == 0x30 + d;
    } else {
      assert "0123456789abcdef"[d] as int == 0x57 + d && "0123456789ABCDEF"[d] as int == 0x37 + d;
    }
  }

  lemma {:induction false} HexValueIs(digits: Text, n: nat)
    requires InHex(digits, n)
    ensures AllHex(digits) && HexValue(digits) == n
    decreases |digits|
  {
    if digits != [] {
      HexDigitIs(digits[|digits| - 1], n % 16);
      HexValueIs(digits[..|digits| - 1], n / 16);
      hide HexDigit;
      assert digits == digits[..|digits| - 1] + [digits[|digits| - 1]];
    }
  }

  lemma SpelledIsWritten(piece: Text, c: Point)
    requires Spells(piece, c)
    ensures Writes(piece, c)
  {
    if |piece| > 2 { HexValueIs(piece[2..], c); }
    hide HexValue, HexDigit, InHex, AllHex;
  }

  /** The same in terms of the reader. */
  predicate Writes(piece: Text, c: Point) {
    || (piece == [c] && c != DOUBLE && c != BACKSLASH)
    || (|piece| == 2 && piece[0] == BACKSLASH && Named(piece[1]) == Some(c))
    || (|piece| > 2 && piece[0] == BACKSLASH && |piece| == 2 + Digits(piece[1]) && AllHex(piece[2..])
      && HexValue(piece[2..]) == c)
  }

  /** One of the encodings of a text: each character written in one of the ways. */
  predicate Encoding(pieces: seq<Text>, s: Text) {
    |pieces| == |s| && forall i :: 0 <= i < |s| ==> Spells(pieces[i], s[i])
  }

  function Joined(pieces: seq<Text>): Text {
    if pieces == [] then [] else pieces[0] + Joined(pieces[1..])
  }

  lemma PieceIsRead(piece: Text, c: Point, rest: Text)
    requires Writes(piece, c)
    ensures Unescape(piece + rest) == Before(Some([c]), Unescape(rest))
  {
    var s := piece + rest;
    if |piece| == 1 {
      assert s[1..] == rest;
      return;
    }
    assert s[1] == piece[1];
    if |piece| == 2 {
      assert Digits(piece[1]) == 0;
      assert Matched(s) == 2 && s[..2] == piece && s[2..] == rest;
    } else {
      assert s[2..|piece|] == piece[2..];
      assert Matched(s) == |piece| && s[..|piece|] == piece && s[|piece|..] == rest;
    }
    hide HexValue, HexDigit, Digits;
  }

  lemma PieceIsPassed(v: Text, i: nat, piece: Text, c: Point)
    requires Writes(piece, c) && i + |piece| <= |v| && v[i..i + |piece|] == piece
    ensures DoubleEnd(v, i) == DoubleEnd(v, i + |piece|)
  {
    assert v[i] == piece[0];
    if |piece| > 2 {
      assert AllHex(v[i + 2..i + |piece|]) by { assert v[i + 2..i + |piece|] == piece[2..]; }
      HexIsPassed(v, i + 2, i + |piece|);
    }
  }

  lemma {:induction false} HexIsPassed(v: Text, i: nat, j: nat)
    requires i <= j <= |v| && AllHex(v[i..j])
    ensures DoubleEnd(v, i) == DoubleEnd(v, j)
    decreases j - i
  {
    if i < j {
      assert v[i] == v[i..j][0] && v[i + 1..j] == v[i..j][1..];
      HexIsPassed(v, i + 1, j);
    }
  }

  lemma {:induction false} PiecesAreRead(s: Text, pieces: seq<Text>)
    requires Encoding(pieces, s)
    ensures Unescape(Joined(pieces)) == Some(s)
    decreases |s|
  {
    if s != [] {
      PiecesAreRead(s[1..], pieces[1..]);
      SpelledIsWritten(pieces[0], s[0]);
      PieceIsRead(pieces[0], s[0], Joined(pieces[1..]));
      assert [s[0]] + s[1..] == s;
    }
  }

  lemma {:induction false} PiecesArePassed(before: Text, s: Text, pieces: seq<Text>, after: Text)
    requires Encoding(pieces, s)
    ensures DoubleEnd(before + Joined(pieces) + after, |before|)
         == DoubleEnd(before + Joined(pieces) + after, |before| + |Joined(pieces)|)
    decreases |s|
  {
    if s == [] { return; }
    var piece, rest := pieces[0], pieces[1..];
    assert Joined(pieces) == piece + Joined(rest);
    assert Encoding(rest, s[1..]) && Spells(piece, s[0]);
    hide *;
    SpelledIsWritten(piece, s[0]);
    PiecesArePassed(before + piece, s[1..], rest, after);
    Joins(before, piece, Joined(rest));
    PieceInside(before, piece, Joined(rest) + after, s[0]);
    Joins(before + piece, Joined(rest), after);
  }

  lemma PieceInside(before: Text, piece: Text, after: Text, c: Point)
    requires Writes(piece, c)
    ensures DoubleEnd(before + piece + after, |before|) == DoubleEnd(before + piece + after, |before| + |piece|)
  {
    hide *;
    var v := before + piece + after;
    assert v[|before|..|before| + |piece|] == piece;
    PieceIsPassed(v, |before|, piece, c);
  }

  /** Any encoding of any text in double quotes is read back, whatever follows the closing quote. */
  lemma DoubleRoundTrip(s: Text, pieces: seq<Text>, tail: Text)
    requires Encoding(pieces, s)
    ensures DoubleText([DOUBLE] + Joined(pieces) + [DOUBLE] + tail) == Some(s)
  {
    hide Joined, Unescape, Encoding;
    var v, n := [DOUBLE] + Joined(pieces) + [DOUBLE] + tail, |Joined(pieces)|;
    assert v[1..1 + n] == Joined(pieces) && v[1 + n] == DOUBLE;
    Joins([DOUBLE] + Joined(pieces), [DOUBLE], tail);
    PiecesArePassed([DOUBLE], s, pieces, [DOUBLE] + tail);
    PiecesAreRead(s, pieces);
  }

  // ---------- _scalar ----------

  /** `str.isspace`. */
  predicate IsSpace(c: Point) {
    || 0x09 <= c <= 0x0D || 0x1C <= c <= 0x20 || c == 0x85 || c == 0xA0 || c == 0x1680
    || 0x2000 <= c <= 0x200A || c == 0x2028 || c == 0x2029 || c == 0x202F || c == 0x205F || c == 0x3000
  }

  function StripLeft(s: Text): Text {
    if s != [] && IsSpace(s[0]) then StripLeft(s[1..]) else s
  }

  function StripRight(s: Text): Text {
    if s != [] && IsSpace(s[|s| - 1]) then StripRight(s[..|s| - 1]) else s
  }

  function Strip(s: Text): Text { StripRight(StripLeft(s)) }

  /** `text.split(" #", 1)[0]`. */
  function UpToComment(s: Text): Text {
    if |s| < 2 then s
    else if s[0] == 0x20 && s[1] == 0x23 then []
    else [s[0]] + UpToComment(s[1..])
  }

  /** The values read as no value: nothing, and the block scalar headers. */
  predicate IsNothing(s: Text) {
    s == [] || s == [0x7C] || s == [0x3E] || s == [0x7C, 0x2D] || s == [0x3E, 0x2D]
  }

  datatype Read = Value(text: Text) | NoValue | Raises

  /** `_scalar`. */
  function Scalar(raw: Text): Read {
    var value := Strip(raw);
    var read :=
      if value != [] && value[0] == QUOTE then Some(SingleText(value))
      else if value != [] && value[0] == DOUBLE then DoubleText(value)
      else Some(Strip(UpToComment(value)));
    match read
    case None => Raises
    case Some(text) => if IsNothing(text) then NoValue else Value(text)
  }

  lemma {:induction false} StripsLead(lead: Text, s: Text)
    requires (forall i :: 0 <= i < |lead| ==> IsSpace(lead[i])) && s != [] && !IsSpace(s[0])
    ensures StripLeft(lead + s) == s
    decreases |lead|
  {
    if lead == [] {
      assert lead + s == s;
    } else {
      StripsLead(lead[1..], s);
      assert (lead + s)[1..] == lead[1..] + s;
    }
  }

  lemma {:induction false} StripsTail(s: Text, tail: Text) returns (kept: Text)
    requires s != [] && !IsSpace(s[|s| - 1])
    ensures StripRight(s + tail) == s + kept && kept <= tail
    decreases |tail|
  {
    kept := tail;
    if tail == [] {
      assert s + tail == s;
    } else if IsSpace(tail[|tail| - 1]) {
      assert (s + tail)[..|s + tail| - 1] == s + tail[..|tail| - 1];
      kept := StripsTail(s, tail[..|tail| - 1]);
    }
  }

  lemma StripsAround(lead: Text, s: Text, tail: Text) returns (kept: Text)
    requires (forall i :: 0 <= i < |lead| ==> IsSpace(lead[i])) && s != [] && !IsSpace(s[0]) && !IsSpace(s[|s| - 1])
    ensures Strip(lead + s + tail) == s + kept && kept <= tail
  {
    assert lead + s + tail == lead + (s + tail) && (s + tail)[0] == s[0];
    StripsLead(lead, s + tail);
    kept := StripsTail(s, tail);
  }

  /** A single-quoted scalar with white space before it and a tail that does not extend the quote
      is read as its text exactly when that text is none of the five read as no value. */
  lemma SingleScalarIff(lead: Text, s: Text, tail: Text)
    requires (forall i :: 0 <= i < |lead| ==> IsSpace(lead[i])) && !Extends(tail)
    ensures Scalar(lead + Single(s) + tail) == Value(s)
            <==> s !in {[], [0x7C], [0x3E], [0x7C, 0x2D], [0x3E, 0x2D]}
  {
    var kept := StripsAround(lead, Single(s), tail);
    SingleRoundTripIff(s, kept);
  }

  lemma DoubleScalarIff(lead: Text, s: Text, pieces: seq<Text>, tail: Text)
    requires (forall i :: 0 <= i < |lead| ==> IsSpace(lead[i])) && Encoding(pieces, s)
    ensures Scalar(lead + ([DOUBLE] + Joined(pieces) + [DOUBLE]) + tail) == Value(s)
            <==> s !in {[], [0x7C], [0x3E], [0x7C, 0x2D], [0x3E, 0x2D]}
  {
    var kept := StripsAround(lead, [DOUBLE] + Joined(pieces) + [DOUBLE], tail);
    DoubleRoundTrip(s, pieces, kept);
  }

  // ---------- Without quotes ----------

  predicate AllSpace(s: Text) { forall i :: 0 <= i < |s| ==> IsSpace(s[i]) }

  predicate CommentAt(s: Text, i: nat) { i + 1 < |s| && s[i] == 0x20 && s[i + 1] == 0x23 }

  lemma {:induction false} CommentIsDropped(s: Text, comment: Text)
    requires forall i: nat :: !CommentAt(s + comment, i) || i >= |s|
    requires comment == [] || CommentAt(comment, 0)
    ensures UpToComment(s + comment) == s
    decreases |s|
  {
    var text := s + comment;
    if s == [] {
      assert text == comment;
    } else {
      assert !CommentAt(text, 0) && text[1..] == s[1..] + comment;
      forall i: nat ensures !CommentAt(s[1..] + comment, i) || i >= |s[1..]| {
        assert !CommentAt(text, i + 1) || i + 1 >= |s|;
      }
      CommentIsDropped(s[1..], comment);
      assert [s[0]] + s[1..] == s;
    }
  }

  lemma {:induction false} StripsAllOf(s: Text, gap: Text)
    requires s != [] && !IsSpace(s[|s| - 1]) && AllSpace(gap)
    ensures StripRight(s + gap) == s
    decreases |gap|
  {
    hide IsSpace;
    if gap == [] {
      assert s + gap == s;
    } else {
      assert (s + gap)[..|s + gap| - 1] == s + gap[..|gap| - 1];
      StripsAllOf(s, gap[..|gap| - 1]);
    }
  }

  /** Of what `strip` keeps behind a value, the comment is dropped and the white space stripped. */
  lemma PlainRest(s: Text, gap: Text, comment: Text, kept: Text)
    requires s != [] && !IsSpace(s[0]) && !IsSpace(s[|s| - 1]) && AllSpace(gap) && kept <= gap + comment
    requires (forall i: nat :: !CommentAt(s, i)) && (comment == [] || CommentAt(comment, 0))
    ensures Strip(UpToComment(s + kept)) == s
  {
    hide *;
    if |kept| <= |gap| + 1 {
      KeptIsSpace(gap, comment, kept);
      BeforeComment(s, kept, []);
      Unit(s + kept);
    } else {
      var rest := kept[|gap|..];
      assert kept == gap + rest && CommentAt(rest, 0) by { CommentKept(gap, comment, kept); }
      BeforeComment(s, gap, rest);
      Joins(s, gap, rest);
    }
  }

  lemma Unit(s: Text)
    ensures s + [] == s
  {
  }

  lemma KeptIsSpace(gap: Text, comment: Text, kept: Text)
    requires AllSpace(gap) && kept <= gap + comment && |kept| <= |gap| + 1
    requires comment == [] || CommentAt(comment, 0)
    ensures AllSpace(kept)
  {
    assert IsSpace(0x20);
    hide IsSpace;
    forall i | 0 <= i < |kept| ensures IsSpace(kept[i]) { assert kept[i] == if i < |gap| then gap[i] else comment[0]; }
  }

  lemma CommentKept(gap: Text, comment: Text, kept: Text)
    requires kept <= gap + comment && |kept| > |gap| + 1
    requires comment == [] || CommentAt(comment, 0)
    ensures kept == gap + kept[|gap|..] && CommentAt(kept[|gap|..], 0)
  {
    assert kept[|gap|] == comment[0] && kept[|gap| + 1] == comment[1];
    assert kept[..|gap|] == gap;
  }

  lemma BeforeComment(s: Text, gap: Text, comment: Text)
    requires s != [] && !IsSpace(s[0]) && !IsSpace(s[|s| - 1]) && AllSpace(gap)
    requires (forall i: nat :: !CommentAt(s, i)) && (comment == [] || CommentAt(comment, 0))
    ensures Strip(UpToComment(s + gap + comment)) == s
  {
    NoCommentBefore(s, gap, comment);
    hide CommentAt, IsSpace, UpToComment;
    CommentIsDropped(s + gap, comment);
    StripsAllOf(s, gap);
    assert (s + gap)[0] == s[0];
  }

  lemma NoCommentBefore(s: Text, gap: Text, comment: Text)
    requires s != [] && !IsSpace(s[|s| - 1]) && AllSpace(gap)
    requires (forall i: nat :: !CommentAt(s, i)) && (comment == [] || CommentAt(comment, 0))
    ensures forall i: nat :: !CommentAt(s + gap + comment, i) || i >= |s + gap|
  {
    var text := s + gap + comment;
    forall i: nat | i < |s + gap| ensures !CommentAt(text, i) {
      if i + 1 < |s| {
        assert !CommentAt(s, i) && text[i] == s[i] && text[i + 1] == s[i + 1];
      } else if i + 1 == |s| {
        assert text[i] == s[i] && IsSpace(0x20);
      } else if i + 1 < |s + gap| {
        assert text[i + 1] == gap[i + 1 - |s|] && !IsSpace(0x23);
      } else if i + 1 < |text| {
        assert text[i + 1] == comment[0];
      }
    }
  }

  /** A value without quotes, with white space around it and perhaps a comment behind that, is read
      as it is exactly when it is none of the five either. */
  lemma PlainScalarIff(lead: Text, s: Text, gap: Text, comment: Text)
    requires AllSpace(lead) && AllSpace(gap) && (comment == [] || CommentAt(comment, 0))
    requires s != [] && !IsSpace(s[0]) && !IsSpace(s[|s| - 1]) && s[0] != QUOTE && s[0] != DOUBLE
    requires forall i: nat :: !CommentAt(s, i)
    ensures Scalar(lead + s + (gap + comment)) == Value(s)
            <==> s !in {[], [0x7C], [0x3E], [0x7C, 0x2D], [0x3E, 0x2D]}
  {
    var kept := StripsAround(lead, s, gap + comment);
    PlainRest(s, gap, comment, kept);
    assert (s + kept)[0] == s[0];
    hide Strip, UpToComment, IsSpace;
  }
}
