/** Command lines by construction: a line is put together from items, each spelled by what the
    command tree says at that point, and `RootFlags` reads exactly these items back. */
module CommandLines {
  import opened Options
  import opened RootFlags

  /** What a word, or two, after the command can be. */
  datatype Item =
    | Go(word: string)                          // names a subcommand
    | Argument(word: string)
    | Moving(flag: string)                      // a root flag that the command does not define
    | Switch(name: string)                      // an option without a value, known or not
    | Assigned(name: string, value: string)     // --name=value
    | Valued(name: string, value: string)       // --name value
    | Dangling(name: string)                    // --name at the end of the line

  function Spelling(item: Item): seq<string> {
    match item
    case Go(word) => [word]
    case Argument(word) => [word]
    case Moving(flag) => [flag]
    case Switch(name) => [name]
    case Assigned(name, value) => [name + "=" + value]
    case Valued(name, value) => [name, value]
    case Dangling(name) => [name]
  }

  predicate NoEquals(name: string) { forall i :: 0 <= i < |name| ==> name[i] != '=' }

  predicate Dashed(word: string) { |word| > 1 && word[0] == '-' }

  /** An option of the command under this name takes a value. */
  predicate Takes(command: Option<Command>, name: string) {
    command.Some? && name in command.value.options && command.value.options[name].takesValue
  }

  predicate Defines(command: Option<Command>, name: string) {
    command.Some? && name in command.value.options
  }

  predicate HasSubcommand(command: Option<Command>, word: string) {
    command.Some? && word in command.value.subcommands
  }

  /** The item may stand where `command` is the command so far. */
  predicate Fits(command: Option<Command>, item: Item) {
    match item
    case Go(word) => !Dashed(word) && HasSubcommand(command, word)
    case Argument(word) => !Dashed(word) && !HasSubcommand(command, word)
    case Moving(flag) => flag in {"--json", "--no-color", "--debug", "--quiet"} && !Defines(command, flag)
    case Switch(name) =>
      && Dashed(name) && name != "--" && NoEquals(name) && !Takes(command, name)
      && (name in {"--json", "--no-color", "--debug", "--quiet"} ==> Defines(command, name))
    case Assigned(name, _) => name != "" && name[0] == '-' && NoEquals(name)
    case Valued(name, _) => Dashed(name) && name != "--" && NoEquals(name) && Takes(command, name)
    case Dangling(name) => Dashed(name) && name != "--" && NoEquals(name) && Takes(command, name)
  }

  /** The command after an item. */
  function Next(command: Option<Command>, item: Item): Option<Command>
    requires Fits(command, item)
  {
    if item.Go? then Some(command.value.subcommands[item.word]) else command
  }

  /** A line from `command` on: the items, each in its place, and what follows the options. */
  predicate IsLine(command: Option<Command>, items: seq<Item>, tail: seq<string>)
    decreases |items|
  {
    if items == [] then tail == [] || tail[0] == "--"
    else
      && Fits(command, items[0])
      && (items[0].Dangling? ==> |items| == 1 && tail == [])
      && IsLine(Next(command, items[0]), items[1..], tail)
  }

  function Spelled(items: seq<Item>): seq<string> {
    if items == [] then [] else Spelling(items[0]) + Spelled(items[1..])
  }

  function MovingIn(items: seq<Item>): seq<string> {
    if items == [] then []
    else (if items[0].Moving? then Spelling(items[0]) else []) + MovingIn(items[1..])
  }

  function StayingIn(items: seq<Item>): seq<string> {
    if items == [] then []
    else (if items[0].Moving? then [] else Spelling(items[0])) + StayingIn(items[1..])
  }

  /** The command that a path of words names, by the subcommands of each node. */
  function Named(command: Option<Command>, path: seq<string>): Option<Option<Command>>
    decreases |path|
  {
    if path == [] then Some(command)
    else if HasSubcommand(command, path[0]) then Named(Some(command.value.subcommands[path[0]]), path[1..])
    else None
  }

  /** The words of a line that name subcommands. */
  function PathOf(items: seq<Item>): seq<string> {
    if items == [] then [] else (if items[0].Go? then [items[0].word] else []) + PathOf(items[1..])
  }

  // ---------- Names and equals signs ----------

  lemma {:induction false} LengthOfName(name: string, rest: string)
    requires NoEquals(name) && (rest == "" || rest[0] == '=')
    ensures NameLength(name + rest) == |name|
    decreases |name|
  {
    if name != "" {
      assert (name + rest)[1..] == name[1..] + rest;
      LengthOfName(name[1..], rest);
    }
  }

  lemma {:induction false} NameHasNoEquals(token: string)
    ensures NoEquals(NameOf(token)) && (HasEquals(token) ==> token == NameOf(token) + "=" + AfterEquals(token))
    decreases |token|
  {
    if token != "" && token[0] != '=' {
      NameHasNoEquals(token[1..]);
      assert NameOf(token) == [token[0]] + NameOf(token[1..]);
    }
  }

  /** How the reading sees an option of each kind. */
  lemma OptionSeen(command: Option<Command>, item: Item)
    requires Fits(command, item) && !item.Go? && !item.Argument? && !item.Moving?
    ensures var t := Spelling(item)[0];
      && IsOption(t) && !IsTerminator(t) && (IsHoistable(t) ==> t in OptionsOf(command))
      && (WantsValue(OptionsOf(command), t) <==> item.Valued? || item.Dangling?)
  {
    if item.Assigned? {
      LengthOfName(item.name, "=" + item.value);
      assert item.name + "=" + item.value == item.name + ("=" + item.value);
      var t := Spelling(item)[0];
      assert t[|item.name|] == '=';
      if IsHoistable(t) { FlagsHaveNoEquals(t, |item.name|); }
    } else {
      assert item.name + "" == item.name;
      LengthOfName(item.name, "");
    }
  }

  lemma FlagsHaveNoEquals(t: string, i: nat)
    requires IsHoistable(t) && i < |t|
    ensures t[i] != '='
  {
  }

  // ---------- Reading a line ----------

  lemma ReadItem(command: Option<Command>, item: Item, rest: seq<string>)
    requires Fits(command, item) && (item.Dangling? ==> rest == [])
    ensures var r := Read(Next(command, item), rest);
      Read(command, Spelling(item) + rest) == if item.Moving? then Flag(item.flag, r) else Keep(Spelling(item), r)
  {
    var words := Spelling(item) + rest;
    assert words[0] == Spelling(item)[0];
    assert words[1..] == if item.Valued? then [item.value] + rest else rest;
    if item.Valued? { assert words[..2] == Spelling(item) && words[2..] == rest; }
    if !item.Go? && !item.Argument? && !item.Moving? { OptionSeen(command, item); }
    hide IsValueOption, WantsValue;
    assert Read(command, words) == Read(command, words);
  }

  /** Every line put together from items is read as these: the moving flags, the other words, and
      what follows the options. */
  lemma {:induction false} ReadOfLine(command: Option<Command>, items: seq<Item>, tail: seq<string>)
    requires IsLine(command, items, tail)
    ensures Read(command, Spelled(items) + tail) == Reading(MovingIn(items), StayingIn(items), tail)
    decreases |items|
  {
    if items == [] {
      assert Spelled(items) + tail == tail;
    } else {
      var item, rest := items[0], Spelled(items[1..]) + tail;
      assert Spelled(items) + tail == Spelling(item) + rest;
      ReadOfLine(Next(command, item), items[1..], tail);
      ReadItem(command, item, rest);
    }
  }

  /** What the first word, with its value, is. */
  lemma FirstItem(command: Option<Command>, words: seq<string>) returns (item: Item)
    requires words != [] && words[0] != "--"
    ensures Fits(command, item) && Spelling(item) <= words && (item.Dangling? ==> |words| == 1)
  {
    var t := words[0];
    NameHasNoEquals(t);
    item :=
      if !Dashed(t) then (if HasSubcommand(command, t) then Go(t) else Argument(t))
      else if t in {"--json", "--no-color", "--debug", "--quiet"} && !Defines(command, t) then Moving(t)
      else if HasEquals(t) then Assigned(NameOf(t), AfterEquals(t))
      else if !Takes(command, t) then Switch(t)
      else if |words| > 1 then Valued(t, words[1])
      else Dangling(t);
    assert !HasEquals(t) ==> NameOf(t) == t;
  }

  /** And every sequence of words is such a line. */
  lemma {:induction false} LineOf(command: Option<Command>, words: seq<string>)
    returns (items: seq<Item>, tail: seq<string>)
    ensures IsLine(command, items, tail) && words == Spelled(items) + tail
    ensures (forall i :: 0 <= i < |words| ==> words[i] != "--") ==> tail == []
    decreases |words|
  {
    if words == [] || words[0] == "--" {
      assert Spelled([]) + words == words;
      return [], words;
    }
    hide Fits, Spelling, Spelled, IsLine;
    var item := FirstItem(command, words);
    SpellingIs(item);
    var rest := words[|Spelling(item)|..];
    assert words == Spelling(item) + rest;
    assert forall i :: 0 <= i < |rest| ==> rest[i] == words[|Spelling(item)| + i];
    items, tail := LineOf(Next(command, item), rest);
    if item.Dangling? {
      assert rest == [];
      NoWords(items);
    }
    OneInFront(command, item, items, tail);
    items := [item] + items;
  }

  lemma SpellingIs(item: Item)
    ensures Spelling(item) != [] && (item.Dangling? ==> |Spelling(item)| == 1)
  {
  }

  lemma OneInFront(command: Option<Command>, item: Item, items: seq<Item>, tail: seq<string>)
    requires Fits(command, item) && IsLine(Next(command, item), items, tail)
    requires item.Dangling? ==> items == [] && tail == []
    ensures IsLine(command, [item] + items, tail)
    ensures Spelled([item] + items) + tail == Spelling(item) + (Spelled(items) + tail)
  {
    hide Fits, Spelling;
  }

  lemma NoWords(items: seq<Item>)
    requires Spelled(items) == []
    ensures items == []
  {
  }

  // ---------- Where a reader stands ----------

  /** Behind words that leave the reader between two items, the rest is read as a line of its own. */
  lemma {:induction false} PlaceBehind(command: Option<Command>, after: Option<Command>, words: seq<string>,
                                       rest: seq<string>, i: nat)
    requires i <= |rest|
    requires PlaceAt(command, words + rest, |words|) == Place(after, false, false)
    ensures PlaceAt(command, words + rest, |words| + i) == PlaceAt(after, rest, i)
    decreases i
  {
    if i > 0 { PlaceBehind(command, after, words, rest, i - 1); }
  }

  lemma RoleBehind(command: Option<Command>, after: Option<Command>, words: seq<string>, rest: seq<string>, i: nat)
    requires i < |rest| && PlaceAt(command, words + rest, |words|) == Place(after, false, false)
    ensures PlaceAt(command, words + rest, |words| + i) == PlaceAt(after, rest, i)
    ensures RoleAt(command, words + rest, |words| + i) == RoleAt(after, rest, i)
  {
    PlaceBehind(command, after, words, rest, i);
  }

  lemma PlaceAfterItem(command: Option<Command>, item: Item, rest: seq<string>)
    requires Fits(command, item) && !item.Dangling?
    ensures var words := Spelling(item) + rest;
      && PlaceAt(command, words, |Spelling(item)|) == Place(Next(command, item), false, false)
      && RoleAt(command, words, 0) == RoleOf(item)
      && (item.Valued? ==> RoleAt(command, words, 1) == OptionValue)
  {
    var words := Spelling(item) + rest;
    assert words[0] == Spelling(item)[0];
    if !item.Go? && !item.Argument? && !item.Moving? { OptionSeen(command, item); }
    hide IsValueOption, WantsValue;
    assert PlaceAt(command, words, 0) == Place(command, false, false);
    assert PlaceAt(command, words, 1) == Past(PlaceAt(command, words, 0), words[0]);
    if item.Valued? { assert PlaceAt(command, words, 2) == Past(PlaceAt(command, words, 1), words[1]); }
  }

  function RoleOf(item: Item): Role {
    match item
    case Go(_) => Word
    case Argument(_) => Word
    case Moving(_) => RootFlag
    case _ => OptionName
  }

  /** In every line the command at an item is the one that the subcommand words before it name; the
      item's first word has its role, and the word after a value option is that option's value. */
  lemma {:induction false} RolesOfLine(command: Option<Command>, items: seq<Item>, tail: seq<string>, k: nat)
    requires IsLine(command, items, tail) && k < |items|
    ensures var words, at := Spelled(items) + tail, |Spelled(items[..k])|;
      && at + |Spelling(items[k])| <= |words|
      && Named(command, PathOf(items[..k])) == Some(PlaceAt(command, words, at).command)
      && RoleAt(command, words, at) == RoleOf(items[k])
      && (items[k].Valued? ==> RoleAt(command, words, at + 1) == OptionValue)
    decreases |items|
  {
    hide Fits, RoleAt, RoleOf, PlaceAt, HasSubcommand, Named;
    var item, rest := items[0], Spelled(items[1..]) + tail;
    var words := Spelled(items) + tail;
    assert words == Spelling(item) + rest;
    if k == 0 {
      FirstRole(command, items, tail);
    } else {
      var after := Next(command, item);
      PlaceAfterItem(command, item, rest);
      RolesOfLine(after, items[1..], tail, k - 1);
      OneItemMore(command, items, k);
      var at := |Spelled(items[1..][..k - 1])|;
      RoleBehind(command, after, Spelling(item), rest, at);
      if items[k].Valued? { RoleBehind(command, after, Spelling(item), rest, at + 1); }
    }
  }

  lemma FirstRole(command: Option<Command>, items: seq<Item>, tail: seq<string>)
    requires IsLine(command, items, tail) && items != []
    ensures var words := Spelled(items) + tail;
      && |Spelling(items[0])| <= |words| && Spelled(items[..0]) == []
      && Named(command, PathOf(items[..0])) == Some(PlaceAt(command, words, 0).command)
      && RoleAt(command, words, 0) == RoleOf(items[0])
      && (items[0].Valued? ==> RoleAt(command, words, 1) == OptionValue)
  {
    hide Fits, RoleAt, RoleOf;
    var item, rest := items[0], Spelled(items[1..]) + tail;
    var words := Spelled(items) + tail;
    assert words == Spelling(item) + rest;
    if item.Dangling? {
      assert words == Spelling(item);
      DanglingRole(command, item);
    } else {
      PlaceAfterItem(command, item, rest);
    }
  }

  lemma DanglingRole(command: Option<Command>, item: Item)
    requires item.Dangling? && Fits(command, item)
    ensures RoleAt(command, Spelling(item), 0) == RoleOf(item)
  {
    OptionSeen(command, item);
  }

  lemma OneItemMore(command: Option<Command>, items: seq<Item>, k: nat)
    requires 0 < k <= |items| && Fits(command, items[0])
    ensures Spelled(items[..k]) == Spelling(items[0]) + Spelled(items[1..][..k - 1])
    ensures Named(command, PathOf(items[..k])) == Named(Next(command, items[0]), PathOf(items[1..][..k - 1]))
  {
    var item := items[0];
    var rest := PathOf(items[1..][..k - 1]);
    assert items[..k][0] == item && items[..k][1..] == items[1..][..k - 1];
    if item.Go? {
      assert ([item.word] + rest)[1..] == rest;
    } else {
      assert [] + rest == rest;
    }
  }

  // ---------- Hoisting ----------

  /** Hoisting in terms of the items between the command word and the line's first `--`: those that
      move go to the front in their order, all others stay as they were spelled. */
  lemma HoistedItems(group: Command, args: seq<string>) returns (items: seq<Item>)
    requires RootEnd(group.options, args, 0) < Terminator(args)
    ensures var start, end := RootEnd(group.options, args, 0), Terminator(args);
      && IsLine(Get(group.subcommands, args[start]), items, [])
      && args == args[..start + 1] + Spelled(items) + args[end..]
      && Hoisted(group, args) == MovingIn(items) + args[..start + 1] + StayingIn(items) + args[end..]
  {
    var start, end := RootEnd(group.options, args, 0), Terminator(args);
    var command, words := Get(group.subcommands, args[start]), args[start + 1..end];
    hide RootEnd, Terminator, Read, IsLine, IsTerminator, Spelled, Hoisted, MovingIn, StayingIn, Get;
    items := PlainLine(command, words);
    InThree(args, start + 1, end);
    HoistedBy(group, args, start, end, MovingIn(items), StayingIn(items));
  }

  lemma InThree(words: seq<string>, i: nat, j: nat)
    requires i <= j <= |words|
    ensures words == words[..i] + words[i..j] + words[j..]
  {
  }

  lemma PlainLine(command: Option<Command>, words: seq<string>) returns (items: seq<Item>)
    requires forall i :: 0 <= i < |words| ==> !IsTerminator(words[i])
    ensures IsLine(command, items, []) && Spelled(items) == words
    ensures Read(command, words) == Reading(MovingIn(items), StayingIn(items), [])
  {
    var tail;
    items, tail := LineOf(command, words);
    ReadOfLine(command, items, tail);
    assert Spelled(items) + [] == Spelled(items);
  }

  lemma HoistedBy(group: Command, args: seq<string>, start: nat, end: nat, moved: seq<string>, stay: seq<string>)
    requires RootEnd(group.options, args, 0) == start < end == Terminator(args)
    requires Read(Get(group.subcommands, args[start]), args[start + 1..end]) == Reading(moved, stay, [])
    ensures Hoisted(group, args) == moved + args[..start + 1] + stay + args[end..]
  {
    hide RootEnd, Terminator, Read;
  }

  /** At every depth: behind the words that name a command, the value of one of its options stays
      with the option, a flag that the command defines itself stays, and one that it does not define
      moves. */
  lemma {:induction false} AtEveryDepth(command: Option<Command>, path: seq<string>, item: Item, rest: seq<string>)
    requires Named(command, path).Some? && Fits(Named(command, path).value, item) && !item.Dangling?
    requires forall i :: 0 <= i < |path| ==> !Dashed(path[i])
    ensures var named := Named(command, path).value;
      var r := Read(Next(named, item), rest);
      Read(command, path + Spelling(item) + rest)
      == if item.Moving? then Flag(item.flag, Keep(path, r)) else Keep(path + Spelling(item), r)
    decreases |path|
  {
    hide Fits, Read, Spelling, HasSubcommand;
    var r := Read(Next(Named(command, path).value, item), rest);
    if path == [] {
      assert path + Spelling(item) + rest == Spelling(item) + rest;
      ReadItem(command, item, rest);
      assert path + Spelling(item) == Spelling(item) && Keep(path, r) == r by { assert [] + r.kept == r.kept; }
    } else {
      var go, more := Go(path[0]), path[1..] + Spelling(item) + rest;
      GoFits(command, path);
      AtEveryDepth(Next(command, go), path[1..], item, rest);
      assert path + Spelling(item) + rest == Spelling(go) + more;
      ReadItem(command, go, more);
      assert path == [path[0]] + path[1..];
      KeepMore(path[0], path[1..], r);
      KeepMore(path[0], path[1..] + Spelling(item), r);
      assert [path[0]] + (path[1..] + Spelling(item)) == path + Spelling(item);
    }
  }

  lemma GoFits(command: Option<Command>, path: seq<string>)
    requires path != [] && Named(command, path).Some? && !Dashed(path[0])
    ensures Fits(command, Go(path[0])) && Spelling(Go(path[0])) == [path[0]]
    ensures Named(Next(command, Go(path[0])), path[1..]) == Named(command, path)
  {
  }

  lemma KeepMore(word: string, words: seq<string>, r: Reading)
    ensures Keep([word], Keep(words, r)) == Keep([word] + words, r)
  {
    assert [word] + (words + r.kept) == [word] + words + r.kept;
  }

  // ---------- The root's values ----------

  /** The item gives the option with this parameter name a value. */
  function Gives(options: map<string, Param>, item: Item, name: string): Option<string> {
    match item
    case Assigned(n, value) =>
      if n in options && options[n].takesValue && options[n].name == name then Some(value) else None
    case Valued(n, value) =>
      if n in options && options[n].takesValue && options[n].name == name then Some(value) else None
    case _ => None
  }

  /** The last value given. */
  function LastValue(options: map<string, Param>, items: seq<Item>, name: string): Option<string> {
    if items == [] then None
    else if Gives(options, items[|items| - 1], name).Some? then Gives(options, items[|items| - 1], name)
    else LastValue(options, items[..|items| - 1], name)
  }

  lemma {:induction false} LastValueFront(options: map<string, Param>, items: seq<Item>, name: string)
    requires items != []
    ensures LastValue(options, items, name)
            == match LastValue(options, items[1..], name)
               case Some(v) => Some(v)
               case None => Gives(options, items[0], name)
    decreases |items|
  {
    if |items| > 1 {
      var front := items[..|items| - 1];
      assert front[1..] == items[1..][..|items[1..]| - 1];
      LastValueFront(options, front, name);
    } else {
      assert LastValue(options, items[1..], name) == None;
    }
  }

  lemma NoValue(options: map<string, Param>, name: string)
    ensures LastValue(options, [], name) == None
  {
  }

  predicate OptionItems(items: seq<Item>) {
    forall i :: 0 <= i < |items| ==> !items[i].Go? && !items[i].Argument?
  }

  /** How `Said` sees one option item of the root. */
  lemma RootItemSeen(options: map<string, Param>, item: Item)
    requires Fits(Some(Command(options, map[])), item) && !item.Go? && !item.Argument?
    ensures var t := Spelling(item)[0];
      match item
      case Assigned(n, value) =>
        && NameOf(t) == n && HasEquals(t) && AfterEquals(t) == value
        && (IsValueOption(options, t) <==> n in options && options[n].takesValue)
      case Moving(_) => !IsValueOption(options, t)
      case Switch(_) => !IsValueOption(options, t)
      case Valued(n, _) => NameOf(t) == n && !HasEquals(t) && IsValueOption(options, t)
      case Dangling(n) => NameOf(t) == n && !HasEquals(t) && IsValueOption(options, t)
  {
    var t := Spelling(item)[0];
    if item.Assigned? {
      LengthOfName(item.name, "=" + item.value);
      assert t == item.name + ("=" + item.value);
    } else {
      assert NoEquals(t) by {
        if item.Moving? { forall i | 0 <= i < |t| ensures t[i] != '=' { FlagsHaveNoEquals(t, i); } }
      }
      assert t + "" == t;
      LengthOfName(t, "");
    }
  }

  /** What the root's options say, of every line of them: each parameter has the last value that any
      of its names was given. */
  lemma {:induction false} SaidOfItems(options: map<string, Param>, before: seq<string>, items: seq<Item>, name: string)
    requires IsLine(Some(Command(options, map[])), items, []) && OptionItems(items)
    ensures Get(Said(options, before + Spelled(items), |before|).values, name) == LastValue(options, items, name)
    decreases |items|
  {
    hide IsValueOption, NameOf, HasEquals, AfterEquals, Fits, Said, LastValue;
    var tokens := before + Spelled(items);
    SaidStep(options, tokens, |before|);
    if items == [] {
      assert |tokens| == |before|;
      NoValue(options, name);
    } else {
      var item, rest := items[0], items[1..];
      var longer := before + Spelling(item);
      assert tokens == longer + Spelled(rest);
      assert tokens[|before|] == Spelling(item)[0] && (item.Valued? ==> tokens[|before| + 1] == item.value);
      RootItemSeen(options, item);
      assert OptionItems(rest);
      SaidOfItems(options, longer, rest, name);
      LastValueFront(options, items, name);
      if item.Dangling? {
        assert rest == [] && |tokens| == |before| + 1;
        NoValue(options, name);
      }
    }
  }
}
