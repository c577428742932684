/** The rule being sent and how it went (src/opentide/core/deploy_events.py). */
module RuleScopes {
  import opened Options
  import opened QuotedScalars

  // ---------- _bounded ----------

  const MAX_ERROR_LENGTH := 400

  const SPACE: Point := 0x20
  const ELLIPSIS: Point := 0x2026

  /** `re.sub(r"\s+", " ", text)`, after a white-space character or not. */
  function Squeezed(s: Text, afterSpace: bool): Text {
    if s == [] then []
    else if IsSpace(s[0]) then (if afterSpace then [] else [SPACE]) + Squeezed(s[1..], true)
    else [s[0]] + Squeezed(s[1..], false)
  }

  function Bounded(text: Text): Text {
    var t := Strip(Squeezed(text, false));
    if |t| > MAX_ERROR_LENGTH then StripRight(t[..MAX_ERROR_LENGTH - 1]) + [ELLIPSIS] else t
  }

  /** White space is single blanks. */
  predicate Single(s: Text) {
    && (forall i :: 0 <= i < |s| && IsSpace(s[i]) ==> s[i] == SPACE)
    && (forall i :: 0 <= i < |s| - 1 ==> !(IsSpace(s[i]) && IsSpace(s[i + 1])))
  }

  /** And there is none at the ends. */
  predicate Tidy(s: Text) {
    Single(s) && (s == [] || (!IsSpace(s[0]) && !IsSpace(s[|s| - 1])))
  }

  lemma {:induction false} SqueezedIsSingle(s: Text, afterSpace: bool)
    ensures Single(Squeezed(s, afterSpace))
    ensures afterSpace && Squeezed(s, afterSpace) != [] ==> !IsSpace(Squeezed(s, afterSpace)[0])
    decreases |s|
  {
    if s == [] { return; }
    SqueezedIsSingle(s[1..], IsSpace(s[0]));
    assert IsSpace(SPACE);
    hide IsSpace;
  }

  lemma {:induction false} StripLeftKeeps(s: Text)
    requires Single(s)
    ensures Single(StripLeft(s)) && (StripLeft(s) == [] || !IsSpace(StripLeft(s)[0]))
    decreases |s|
  {
    hide IsSpace;
    if s != [] && IsSpace(s[0]) { StripLeftKeeps(s[1..]); }
  }

  lemma {:induction false} StripRightKeeps(s: Text)
    requires Single(s) && (s == [] || !IsSpace(s[0]))
    ensures Tidy(StripRight(s)) && StripRight(s) <= s
    decreases |s|
  {
    hide IsSpace;
    if s != [] && IsSpace(s[|s| - 1]) { StripRightKeeps(s[..|s| - 1]); }
  }

  lemma {:induction false} SqueezedOfSingle(s: Text, afterSpace: bool)
    requires Single(s) && (afterSpace && s != [] ==> !IsSpace(s[0]))
    ensures Squeezed(s, afterSpace) == s
    decreases |s|
  {
    hide IsSpace;
    if s == [] { return; }
    SqueezedOfSingle(s[1..], IsSpace(s[0]));
    assert s == [s[0]] + s[1..];
  }

  /** What is kept of an error is tidy, at most 400 characters, and bounding it again changes
      nothing: `__exit__` bounds what `describe_error` has bounded. */
  lemma BoundedIs(text: Text)
    ensures |Bounded(text)| <= MAX_ERROR_LENGTH && Tidy(Bounded(text))
    ensures Bounded(Bounded(text)) == Bounded(text)
  {
    var t := Strip(Squeezed(text, false));
    SqueezedIsSingle(text, false);
    StripLeftKeeps(Squeezed(text, false));
    StripRightKeeps(StripLeft(Squeezed(text, false)));
    assert !IsSpace(ELLIPSIS);
    if |t| > MAX_ERROR_LENGTH { StripRightKeeps(t[..MAX_ERROR_LENGTH - 1]); }
    hide IsSpace, Squeezed;
    BoundedOfTidy(Bounded(text));
  }

  lemma BoundedOfTidy(b: Text)
    requires Tidy(b) && |b| <= MAX_ERROR_LENGTH
    ensures Bounded(b) == b
  {
    SqueezedOfSingle(b, false);
    hide IsSpace, Squeezed;
  }

  /** A word with the white space behind it. */
  datatype Spaced = Spaced(word: Text, gap: Text)

  /** Words have no white space in them, and there is some between any two. */
  predicate Sentence(words: seq<Spaced>) {
    && (forall i :: 0 <= i < |words| ==> words[i].word != [] && AllSpace(words[i].gap))
    && (forall i :: 0 <= i < |words| ==> forall j :: 0 <= j < |words[i].word| ==> !IsSpace(words[i].word[j]))
    && (forall i :: 0 <= i < |words| - 1 ==> words[i].gap != [])
  }

  function Written(words: seq<Spaced>): Text {
    if words == [] then [] else words[0].word + words[0].gap + Written(words[1..])
  }

  /** The words with one blank between any two. */
  function Blanked(words: seq<Spaced>): Text {
    if words == [] then []
    else if |words| == 1 then words[0].word
    else words[0].word + [SPACE] + Blanked(words[1..])
  }

  lemma {:induction false} SqueezedWord(word: Text, rest: Text, afterSpace: bool)
    requires word != [] && forall j :: 0 <= j < |word| ==> !IsSpace(word[j])
    ensures Squeezed(word + rest, afterSpace) == word + Squeezed(rest, false)
    decreases |word|
  {
    hide IsSpace;
    assert (word + rest)[1..] == word[1..] + rest;
    if |word| == 1 {
      assert word[1..] + rest == rest;
    } else {
      SqueezedWord(word[1..], rest, false);
      assert word == [word[0]] + word[1..];
    }
  }

  lemma {:induction false} SqueezedGap(gap: Text, rest: Text, afterSpace: bool)
    requires AllSpace(gap)
    ensures Squeezed(gap + rest, afterSpace)
            == if gap == [] then Squeezed(rest, afterSpace)
               else (if afterSpace then [] else [SPACE]) + Squeezed(rest, true)
    decreases |gap|
  {
    hide IsSpace;
    if gap == [] {
      assert gap + rest == rest;
    } else {
      assert (gap + rest)[1..] == gap[1..] + rest;
      SqueezedGap(gap[1..], rest, true);
    }
  }

  lemma {:induction false} SqueezedWords(words: seq<Spaced>, afterSpace: bool)
    requires Sentence(words)
    ensures Squeezed(Written(words), afterSpace)
            == Blanked(words) + if words == [] || words[|words| - 1].gap == [] then [] else [SPACE]
    decreases |words|
  {
    if words == [] { return; }
    var first, rest := words[0], words[1..];
    hide IsSpace, Squeezed;
    Joins(first.word, first.gap, Written(rest));
    SqueezedWord(first.word, first.gap + Written(rest), afterSpace);
    SqueezedGap(first.gap, Written(rest), false);
    assert Sentence(rest);
    SqueezedWords(rest, first.gap != []);
    hide Sentence;
    if rest != [] {
      var back: Text := if rest[|rest| - 1].gap == [] then [] else [SPACE];
      Joins([SPACE], Blanked(rest), back);
      Joins(first.word, [SPACE] + Blanked(rest), back);
      Joins(first.word, [SPACE], Blanked(rest));
    } else {
      assert first.gap != [] ==> [SPACE] + [] == [SPACE];
    }
  }

  lemma {:induction false} BlankedEnds(words: seq<Spaced>)
    requires Sentence(words) && words != []
    ensures Blanked(words) != [] && !IsSpace(Blanked(words)[0]) && !IsSpace(Blanked(words)[|Blanked(words)| - 1])
    decreases |words|
  {
    hide IsSpace;
    if |words| > 1 {
      assert Sentence(words[1..]);
      BlankedEnds(words[1..]);
    }
  }

  lemma BlanksVanish()
    ensures IsSpace(SPACE) && Strip([]) == [] && Strip([SPACE]) == []
  {
    assert [SPACE][1..] == [];
  }

  /** What is kept of an error: its words with one blank between any two, whatever white space was
      around them, cut to 399 characters and marked when that is longer than 400. */
  lemma BoundedOfWords(lead: Text, words: seq<Spaced>)
    requires AllSpace(lead) && Sentence(words)
    ensures var kept := Blanked(words);
      Bounded(lead + Written(words))
      == if |kept| <= 400 then kept else StripRight(kept[..399]) + [ELLIPSIS]
  {
    var text, kept := lead + Written(words), Blanked(words);
    var front: Text := if lead == [] then [] else [SPACE];
    var back: Text := if words == [] || words[|words| - 1].gap == [] then [] else [SPACE];
    hide *;
    SqueezedSentence(lead, words);
    if words == [] {
      NoWords(front, words);
    } else {
      BlankedEnds(words);
      StrippedBlanks(front, kept, back);
    }
    BoundedIsCut(text, front + kept + back, kept);
  }

  lemma SqueezedSentence(lead: Text, words: seq<Spaced>)
    requires AllSpace(lead) && Sentence(words)
    ensures Squeezed(lead + Written(words), false)
            == (if lead == [] then [] else [SPACE]) + Blanked(words)
               + (if words == [] || words[|words| - 1].gap == [] then [] else [SPACE])
  {
    var back: Text := if words == [] || words[|words| - 1].gap == [] then [] else [SPACE];
    hide *;
    SqueezedGap(lead, Written(words), false);
    SqueezedWords(words, lead != []);
    if lead == [] {
      NothingInFront(Blanked(words), back);
    } else {
      Joins([SPACE], Blanked(words), back);
    }
  }

  lemma NothingInFront(a: Text, b: Text)
    ensures [] + a + b == a + b
  {
    assert [] + a == a;
  }

  lemma OneBlank(front: Text)
    requires front == [] || front == [SPACE]
    ensures Strip(front) == []
  {
    BlanksVanish();
  }

  lemma NoWords(front: Text, words: seq<Spaced>)
    requires words == [] && (front == [] || front == [SPACE])
    ensures Strip(front + Blanked(words) + []) == Blanked(words)
  {
    OneBlank(front);
    assert front + [] + [] == front;
    hide Strip;
  }

  lemma StrippedBlanks(front: Text, kept: Text, back: Text)
    requires (front == [] || front == [SPACE]) && (back == [] || back == [SPACE])
    requires kept != [] && !IsSpace(kept[0]) && !IsSpace(kept[|kept| - 1])
    ensures Strip(front + kept + back) == kept
  {
    BlanksVanish();
    hide IsSpace;
    assert front + kept + back == front + (kept + back);
    StripsLead(front, kept + back);
    StripsAllOf(kept, back);
  }

  lemma BoundedIsCut(text: Text, squeezed: Text, kept: Text)
    requires Squeezed(text, false) == squeezed && Strip(squeezed) == kept
    ensures Bounded(text) == if |kept| <= 400 then kept else StripRight(kept[..399]) + [ELLIPSIS]
  {
    hide Squeezed, Strip, StripRight;
  }

  // ---------- One rule ----------

  datatype Status = Deployed | Failed | Skipped

  datatype Outcome = Outcome(status: Status, error: Option<Text>, reason: Option<Text>)

  datatype Call = Fail(message: Text) | Skip(reason: Text)

  /** The outcome after a series of calls. */
  function After(calls: seq<Call>): Outcome {
    if calls == [] then Outcome(Deployed, None, None) else
      var before := After(calls[..|calls| - 1]);
      match calls[|calls| - 1]
      case Fail(message) => if before.status == Failed then before
        else before.(status := Failed, error := Some(Bounded(message)))
      case Skip(reason) => if before.status == Failed then before
        else before.(status := Skipped, reason := Some(reason))
  }

  ghost predicate FailsAt(calls: seq<Call>, i: nat) {
    i < |calls| && calls[i].Fail? && forall j :: 0 <= j < i ==> !calls[j].Fail?
  }

  ghost predicate AnyFail(calls: seq<Call>) {
    exists i :: 0 <= i < |calls| && calls[i].Fail?
  }

  lemma SomeFail(calls: seq<Call>)
    requires calls != []
    ensures AnyFail(calls) <==> AnyFail(calls[..|calls| - 1]) || calls[|calls| - 1].Fail?
  {
    var front := calls[..|calls| - 1];
    if AnyFail(front) {
      var i :| 0 <= i < |front| && front[i].Fail?;
      assert calls[i].Fail?;
    }
  }

  /** A rule ends failed exactly when some call failed it, with the first error, and nothing said
      later hides that; skipped when it was skipped and not failed; else deployed. */
  lemma {:induction false} OutcomeIs(calls: seq<Call>)
    ensures After(calls).status == Failed <==> AnyFail(calls)
    ensures forall i: nat :: FailsAt(calls, i) ==>
              After(calls).error == Some(Bounded(calls[i].message)) && After(calls).reason == After(calls[..i]).reason
    ensures After(calls).status != Failed ==> After(calls).error == None
    ensures After(calls).status == Deployed <==> calls == []
    ensures After(calls).status == Skipped
            ==> calls[|calls| - 1].Skip? && After(calls).reason == Some(calls[|calls| - 1].reason)
    decreases |calls|
  {
    if calls == [] { return; }
    hide Bounded;
    var front := calls[..|calls| - 1];
    OutcomeIs(front);
    SomeFail(calls);
    forall i: nat | FailsAt(calls, i)
      ensures After(calls).error == Some(Bounded(calls[i].message)) && After(calls).reason == After(calls[..i]).reason
    {
      if i < |front| { assert FailsAt(front, i) && calls[..i] == front[..i]; } else { assert calls[..i] == front; }
    }
  }

  class RuleScope {
    var status: Status
    var error: Option<Text>
    var reason: Option<Text>
    var seconds: Option<nat>
    ghost var calls: seq<Call>

    ghost predicate Valid()
      reads this
    {
      Outcome(status, error, reason) == After(calls)
    }

    constructor ()
      ensures Valid() && calls == [] && seconds == None
    {
      status, error, reason, seconds, calls := Deployed, None, None, None, [];
    }

    method NoteFail(message: Text)
      requires Valid()
      modifies this`status, this`error, this`calls
      ensures Valid() && calls == old(calls) + [Fail(message)]
    {
      if status != Failed {
        status, error := Failed, Some(Bounded(message));
      }
      calls := calls + [Fail(message)];
    }

    method NoteSkip(why: Text)
      requires Valid()
      modifies this`status, this`reason, this`calls
      ensures Valid() && calls == old(calls) + [Skip(why)]
    {
      if status != Failed {
        status, reason := Skipped, Some(why);
      }
      calls := calls + [Skip(why)];
    }
  }

  // ---------- The stack ----------

  function Without<T(==)>(s: seq<T>, gone: seq<T>): seq<T> {
    if s == [] then [] else
      Without(s[..|s| - 1], gone) + if s[|s| - 1] in gone then [] else [s[|s| - 1]]
  }

  predicate Unique<T(==)>(s: seq<T>) {
    forall i, j :: 0 <= i < j < |s| ==> s[i] != s[j]
  }

  /** `list.remove`: the first occurrence. */
  function Removed<T(==)>(s: seq<T>, x: T): seq<T>
    requires x in s
  {
    if s[0] == x then s[1..] else [s[0]] + Removed(s[1..], x)
  }

  lemma {:induction false} WithoutIs<T>(s: seq<T>, gone: seq<T>, x: T)
    ensures x in Without(s, gone) <==> x in s && x !in gone
    decreases |s|
  {
    if s != [] {
      assert s == s[..|s| - 1] + [s[|s| - 1]];
      WithoutIs(s[..|s| - 1], gone, x);
    }
  }

  lemma {:induction false} RemovedAppend<T>(s: seq<T>, y: T, x: T)
    requires x in s + [y]
    ensures Removed(s + [y], x) == if x in s then Removed(s, x) + [y] else s
    decreases |s|
  {
    if s != [] {
      assert (s + [y])[1..] == s[1..] + [y];
      if s[0] != x { RemovedAppend(s[1..], y, x); }
    }
  }

  lemma WithoutMore<T>(front: seq<T>, last: T, gone: seq<T>)
    ensures Without(front + [last], gone) == if last in gone then Without(front, gone)
            else Without(front, gone) + [last]
  {
    assert (front + [last])[..|front|] == front;
  }

  /** One more scope finishes: it is taken off the stack. */
  lemma {:induction false} OneMoreGone<T>(s: seq<T>, gone: seq<T>, x: T)
    requires Unique(s) && x !in gone
    ensures x !in s ==> Without(s, gone + [x]) == Without(s, gone)
    ensures x in s ==> x in Without(s, gone) && Without(s, gone + [x]) == Removed(Without(s, gone), x)
    decreases |s|
  {
    if s == [] { return; }
    var front, last := s[..|s| - 1], s[|s| - 1];
    assert s == front + [last] && (x in front ==> last != x);
    assert last in gone + [x] <==> last in gone || last == x;
    OneMoreGone(front, gone, x);
    WithoutMore(front, last, gone);
    WithoutMore(front, last, gone + [x]);
    WithoutIs(front, gone, x);
    hide Without, Removed, Unique;
    if last !in gone && x in s { RemovedAppend(Without(front, gone), last, x); }
  }

  /** In a properly nested run the scope that ends is the last one, and the ones below stay as they are. */
  lemma {:induction false} InnermostLeaves<T>(s: seq<T>)
    requires s != [] && Unique(s)
    ensures Removed(s, s[|s| - 1]) == s[..|s| - 1]
    decreases |s|
  {
    if |s| > 1 {
      assert s[0] != s[|s| - 1];
      InnermostLeaves(s[1..]);
    }
  }

  /** Once the stack is empty, every scope started has finished, each once. */
  lemma AllFinishOnce<T>(started: seq<T>, finished: seq<T>)
    requires Unique(started) && Unique(finished) && (forall s :: s in finished ==> s in started)
    requires Without(started, finished) == []
    ensures multiset(started) == multiset(finished)
  {
    forall s | s in started ensures s in finished { WithoutIs(started, finished, s); }
    forall s ensures multiset(started)[s] == multiset(finished)[s] {
      UniqueCount(started, s);
      UniqueCount(finished, s);
    }
  }

  lemma {:induction false} UniqueCount<T>(s: seq<T>, x: T)
    requires Unique(s)
    ensures multiset(s)[x] == if x in s then 1 else 0
    decreases |s|
  {
    if s != [] {
      var front := s[..|s| - 1];
      assert s == front + [s[|s| - 1]];
      UniqueCount(front, x);
    }
  }

  lemma {:induction false} StillThere<T>(s: seq<T>, x: T)
    requires x in s
    ensures forall y :: y in Removed(s, x) ==> y in s
    decreases |s|
  {
    if s[0] != x {
      assert s == [s[0]] + s[1..];
      StillThere(s[1..], x);
    }
  }

  lemma UniqueMore<T>(s: seq<T>, x: T)
    requires Unique(s) && x !in s
    ensures Unique(s + [x])
  {
  }

  class Events {
    var current: seq<RuleScope>
    var finished: seq<RuleScope>
    ghost var started: seq<RuleScope>

    /** Every scope started finishes at most once, and the stack is the ones that have not, the
        innermost last. */
    ghost predicate Valid()
      reads this, started
    {
      && Unique(started) && Unique(finished) && (forall s :: s in finished ==> s in started)
      && (forall s :: s in current ==> s in started)
      && current == Without(started, finished)
      && forall s :: s in started ==> s.Valid()
    }

    constructor ()
      ensures Valid() && current == [] && finished == [] && started == []
    {
      current, finished, started := [], [], [];
    }

    method Enter() returns (scope: RuleScope)
      requires Valid()
      modifies this`current, this`started
      ensures Valid() && fresh(scope) && scope.calls == []
      ensures current == old(current) + [scope] && started == old(started) + [scope]
    {
      scope := new RuleScope();
      assert started == (started + [scope])[..|started|];
      current, started := current + [scope], started + [scope];
    }

    /** `__exit__`, for the innermost scope or another one. */
    method Exit(scope: RuleScope, raised: Option<Text>, elapsed: nat)
      requires Valid() && scope in current
      modifies this`current, this`finished, scope
      ensures Valid()
      ensures current == Removed(old(current), scope) && finished == old(finished) + [scope]
      ensures scope.calls == old(scope.calls) + if raised.Some? then [Fail(raised.value)] else []
      ensures scope.seconds == if old(scope.seconds).Some? then old(scope.seconds) else Some(elapsed)
    {
      WithoutIs(started, finished, scope);
      OneMoreGone(started, finished, scope);
      StillThere(current, scope);
      UniqueMore(finished, scope);
      hide Without, Removed, After, Unique;
      current := Removed(current, scope);
      if raised.Some? { scope.NoteFail(raised.value); }
      if scope.seconds.None? { scope.seconds := Some(elapsed); }
      finished := finished + [scope];
    }

    method NoteFailure(message: Text)
      requires Valid()
      modifies current
      ensures Valid() && current == old(current)
      ensures current != [] ==> current[|current| - 1].calls == old(current[|current| - 1].calls) + [Fail(message)]
      ensures forall s :: s in started && (current == [] || s != current[|current| - 1]) ==> s.calls == old(s.calls)
    {
      if current != [] { current[|current| - 1].NoteFail(message); }
    }

    method NoteSkip(why: Text)
      requires Valid()
      modifies current
      ensures Valid() && current == old(current)
      ensures current != [] ==> current[|current| - 1].calls == old(current[|current| - 1].calls) + [Skip(why)]
      ensures forall s :: s in started && (current == [] || s != current[|current| - 1]) ==> s.calls == old(s.calls)
    {
      if current != [] { current[|current| - 1].NoteSkip(why); }
    }
  }
}
