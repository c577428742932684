/** Root flags typed after the command (src/opentide/cli/lazy.py): where the root's own options
    end, what they say, and hoisting. */
module RootFlags {
  import opened Options

  /** One option, under each of its names: its parameter, and whether it takes a value. */
  datatype Param = Param(name: string, takesValue: bool)

  /** A command: its options by name (`_option_lookup`), and, for a group, its subcommands. */
  datatype Command = Command(options: map<string, Param>, subcommands: map<string, Command>)

  const HOISTED_FLAGS := {"--json", "--no-color", "--debug", "--quiet"}

  predicate IsHoistable(token: string) { token in HOISTED_FLAGS }

  /** The first `--` ends the options. */
  predicate IsTerminator(token: string) { token == "--" }

  predicate Plain(tokens: seq<string>) { forall i :: 0 <= i < |tokens| ==> !IsTerminator(tokens[i]) }

  predicate IsOption(token: string) { token != "" && token[0] == '-' && token != "-" }

  function NameLength(token: string): (n: nat)
    ensures n <= |token|
  {
    if token == "" || token[0] == '=' then 0 else 1 + NameLength(token[1..])
  }

  /** `token.partition("=")`. */
  function NameOf(token: string): string { token[..NameLength(token)] }
  predicate HasEquals(token: string) { NameLength(token) < |token| }
  function AfterEquals(token: string): string
    requires HasEquals(token)
  {
    token[NameLength(token) + 1..]
  }

  function OptionsOf(command: Option<Command>): map<string, Param> {
    match command case None => map[] case Some(c) => c.options
  }

  predicate IsValueOption(options: map<string, Param>, token: string) {
    NameOf(token) in options && options[NameOf(token)].takesValue
  }

  /** The option takes the next token as its value. */
  predicate WantsValue(options: map<string, Param>, token: string) {
    IsValueOption(options, token) && !HasEquals(token)
  }

  function Descend(command: Option<Command>, word: string): Option<Command> {
    if command.Some? && word in command.value.subcommands then Some(command.value.subcommands[word]) else command
  }

  /** `args.index("--")`, or the length. */
  function Terminator(args: seq<string>): (i: nat)
    ensures i <= |args| && (i < |args| ==> IsTerminator(args[i])) && forall j :: 0 <= j < i ==> !IsTerminator(args[j])
  {
    if args == [] || IsTerminator(args[0]) then 0 else 1 + Terminator(args[1..])
  }

  // ---------- The root's own options ----------

  /** The index after the root's options, from `i` on; past the end when a value is missing. */
  function RootEnd(options: map<string, Param>, args: seq<string>, i: nat): (end: nat)
    ensures end >= i && (end < |args| ==> IsTerminator(args[end]) || !IsOption(args[end]))
    decreases |args| - i
  {
    if i >= |args| || IsTerminator(args[i]) || !IsOption(args[i]) then i
    else RootEnd(options, args, i + if WantsValue(options, args[i]) then 2 else 1)
  }

  /** Token `j` is the value of the option before it. */
  predicate RootValue(options: map<string, Param>, args: seq<string>, j: nat)
    requires j <= |args|
  {
    j > 0 && !RootValue(options, args, j - 1) && WantsValue(options, args[j - 1])
  }

  /** Every token before `end` is an option of the root or the value of the option before it; the
      one at `end` is neither, or the line ends there, one further on when a value is missing. */
  predicate EndsRootOptions(options: map<string, Param>, args: seq<string>, end: nat) {
    && (forall j | 0 <= j < end && j < |args| ::
          RootValue(options, args, j) || (IsOption(args[j]) && !IsTerminator(args[j])))
    && (end < |args| ==> !RootValue(options, args, end) && (IsTerminator(args[end]) || !IsOption(args[end])))
    && (end >= |args| ==> end == if RootValue(options, args, |args|) then |args| + 1 else |args|)
  }

  lemma {:induction false} RootEndMeans(options: map<string, Param>, args: seq<string>, i: nat)
    requires i <= |args| && !RootValue(options, args, i)
    requires forall j | 0 <= j < i :: RootValue(options, args, j) || (IsOption(args[j]) && !IsTerminator(args[j]))
    ensures EndsRootOptions(options, args, RootEnd(options, args, i))
    decreases |args| - i
  {
    hide WantsValue, IsOption, IsTerminator;
    if i == |args| || IsTerminator(args[i]) || !IsOption(args[i]) { return; }
    assert RootValue(options, args, i + 1) == WantsValue(options, args[i]);
    if !WantsValue(options, args[i]) {
      RootEndMeans(options, args, i + 1);
    } else if i + 1 < |args| {
      assert !RootValue(options, args, i + 2);
      RootEndMeans(options, args, i + 2);
    }
  }

  method RootOptionsEnd(group: Command, args: seq<string>) returns (index: nat)
    ensures index == RootEnd(group.options, args, 0)
    ensures EndsRootOptions(group.options, args, index)
  {
    RootEndMeans(group.options, args, 0);
    hide IsTerminator, IsOption, WantsValue, EndsRootOptions;
    index := 0;
    while index < |args|
      invariant RootEnd(group.options, args, index) == RootEnd(group.options, args, 0)
      decreases |args| - index
    {
      var token := args[index];
      if IsTerminator(token) || !IsOption(token) { return; }
      index := index + if WantsValue(group.options, token) then 2 else 1;
    }
  }

  /** What the root's options say: the flags present, and each value option's last value. */
  datatype RootSays = RootSays(flags: set<string>, values: map<string, string>)

  function Said(options: map<string, Param>, tokens: seq<string>, i: nat): RootSays
    decreases |tokens| - i
  {
    if i >= |tokens| then RootSays({}, map[]) else
      var t := tokens[i];
      if !IsValueOption(options, t) then
        var rest := Said(options, tokens, i + 1);
        RootSays({t} + rest.flags, rest.values)
      else if HasEquals(t) then Earlier(options[NameOf(t)].name, AfterEquals(t), Said(options, tokens, i + 1))
      else if i + 1 == |tokens| then RootSays({}, map[])
      else Earlier(options[NameOf(t)].name, tokens[i + 1], Said(options, tokens, i + 2))
  }

  /** A value said earlier holds unless a later one replaces it. */
  function Earlier(name: string, value: string, later: RootSays): RootSays {
    RootSays(later.flags, map[name := value] + later.values)
  }

  function Least(a: nat, b: nat): nat { if a < b then a else b }

  /** The tokens of the root's own options. */
  function RootTokens(group: Command, args: seq<string>): seq<string> {
    args[..Least(RootEnd(group.options, args, 0), |args|)]
  }

  /** `split_root_options`. */
  method SplitRootOptions(group: Command, args: seq<string>) returns (values: map<string, string>, rest: seq<string>)
    ensures values == Said(group.options, RootTokens(group, args), 0).values
    ensures rest == args[|RootTokens(group, args)|..]
  {
    hide IsOption, NameOf, HasEquals, AfterEquals, Said;
    var options := group.options;
    var end := RootOptionsEnd(group, args);
    ghost var tokens := RootTokens(group, args);
    values := map[];
    var index := 0;
    while index < end && index < |args|
      invariant index <= |tokens| && RootEnd(options, args, index) == end
      invariant values + Said(options, tokens, index).values == Said(options, tokens, 0).values
      decreases |args| - index
    {
      var t := args[index];
      assert RootEnd(options, args, index) == RootEnd(options, args, index + if WantsValue(options, t) then 2 else 1);
      SaidStep(options, tokens, index);
      index := index + 1;
      if IsValueOption(options, t) {
        if HasEquals(t) {
          values := values[options[NameOf(t)].name := AfterEquals(t)];
        } else {
          if index >= |args| { break; }
          values := values[options[NameOf(t)].name := args[index]];
          index := index + 1;
        }
      }
    }
    SaidStep(options, tokens, |tokens|);
    rest := args[Least(end, |args|)..];
  }

  lemma SaidStep(options: map<string, Param>, tokens: seq<string>, i: nat)
    ensures i >= |tokens| ==> Said(options, tokens, i) == RootSays({}, map[])
    ensures i < |tokens| ==>
      Said(options, tokens, i).values
      == if !IsValueOption(options, tokens[i]) then Said(options, tokens, i + 1).values
         else if HasEquals(tokens[i]) then
           map[options[NameOf(tokens[i])].name := AfterEquals(tokens[i])] + Said(options, tokens, i + 1).values
         else if i + 1 == |tokens| then map[]
         else map[options[NameOf(tokens[i])].name := tokens[i + 1]] + Said(options, tokens, i + 2).values
  {
    hide NameOf, HasEquals, AfterEquals;
  }

  // ---------- What each word after the command is ----------

  /** The words after the command: the root flags among them, the command's own words, both in
      order, and everything from the first `--` that is not an option's value. */
  datatype Reading = Reading(flags: seq<string>, kept: seq<string>, tail: seq<string>)

  function Flag(token: string, r: Reading): Reading { r.(flags := [token] + r.flags) }
  function Keep(tokens: seq<string>, r: Reading): Reading { r.(kept := tokens + r.kept) }

  /** A root flag is one anywhere, unless the command defines that name itself or the token is the
      value of the option before it. */
  function Read(command: Option<Command>, tokens: seq<string>): Reading
    decreases |tokens|
  {
    if tokens == [] || IsTerminator(tokens[0]) then Reading([], [], tokens)
    else if IsHoistable(tokens[0]) && tokens[0] !in OptionsOf(command) then Flag(tokens[0], Read(command, tokens[1..]))
    else if !IsOption(tokens[0]) then Keep([tokens[0]], Read(Descend(command, tokens[0]), tokens[1..]))
    else if WantsValue(OptionsOf(command), tokens[0]) && |tokens| > 1 then Keep(tokens[..2], Read(command, tokens[2..]))
    else Keep([tokens[0]], Read(command, tokens[1..]))
  }

  // ---------- The same, word by word from the left ----------

  /** What one word is. */
  datatype Role = RootFlag | Word | OptionName | OptionValue | Behind

  /** Where a reader stands before a word: the command so far, whether an option waits for its
      value, and whether a `--` has ended the options. */
  datatype Place = Place(command: Option<Command>, pending: bool, ended: bool)

  function RoleIn(place: Place, token: string): Role {
    if place.ended then Behind
    else if place.pending then OptionValue
    else if IsTerminator(token) then Behind
    else if IsHoistable(token) && token !in OptionsOf(place.command) then RootFlag
    else if !IsOption(token) then Word
    else OptionName
  }

  function Past(place: Place, token: string): Place {
    match RoleIn(place, token)
    case RootFlag => place
    case Word => place.(command := Descend(place.command, token))
    case OptionName => place.(pending := WantsValue(OptionsOf(place.command), token))
    case OptionValue => place.(pending := false)
    case Behind => place.(ended := true)
  }

  function PlaceAt(command: Option<Command>, tokens: seq<string>, i: nat): Place
    requires i <= |tokens|
  {
    if i == 0 then Place(command, false, false) else Past(PlaceAt(command, tokens, i - 1), tokens[i - 1])
  }

  function RoleAt(command: Option<Command>, tokens: seq<string>, i: nat): Role
    requires i < |tokens|
  {
    RoleIn(PlaceAt(command, tokens, i), tokens[i])
  }

  datatype Part = Flags | Kept | Tail

  predicate In(part: Part, role: Role) {
    match part
    case Flags => role.RootFlag?
    case Kept => role.Word? || role.OptionName? || role.OptionValue?
    case Tail => role.Behind?
  }

  /** The words from `i` on that belong to a part, in their order. */
  function Select(command: Option<Command>, tokens: seq<string>, i: nat, part: Part): seq<string>
    requires i <= |tokens|
    decreases |tokens| - i
  {
    if i == |tokens| then [] else
      (if In(part, RoleAt(command, tokens, i)) then [tokens[i]] else []) + Select(command, tokens, i + 1, part)
  }

  lemma {:induction false} AllBehind(command: Option<Command>, tokens: seq<string>, i: nat)
    requires i <= |tokens|
    requires PlaceAt(command, tokens, i).ended || (i < |tokens| && RoleAt(command, tokens, i).Behind?)
    ensures Select(command, tokens, i, Flags) == Select(command, tokens, i, Kept) == []
    ensures Select(command, tokens, i, Tail) == tokens[i..]
    ensures forall j | i <= j < |tokens| :: RoleAt(command, tokens, j).Behind?
    decreases |tokens| - i
  {
    hide IsTerminator, IsHoistable, IsOption, WantsValue, Descend, OptionsOf;
    if i < |tokens| {
      AllBehind(command, tokens, i + 1);
      assert tokens[i..] == [tokens[i]] + tokens[i + 1..];
    }
  }

  /** The reading's three parts, selected from the words. */
  function Selected(command: Option<Command>, tokens: seq<string>, i: nat): Reading
    requires i <= |tokens|
  {
    Reading(Select(command, tokens, i, Flags), Select(command, tokens, i, Kept), Select(command, tokens, i, Tail))
  }

  lemma SelectedStep(command: Option<Command>, tokens: seq<string>, i: nat)
    requires i < |tokens|
    ensures var role, rest := RoleAt(command, tokens, i), Selected(command, tokens, i + 1);
      && (role.RootFlag? ==> Selected(command, tokens, i) == Flag(tokens[i], rest))
      && (In(Kept, role) ==> Selected(command, tokens, i) == Keep([tokens[i]], rest))
  {
    hide RoleAt;
  }

  lemma KeepTwo(a: string, b: string, r: Reading)
    ensures Keep([a], Keep([b], r)) == Keep([a, b], r)
  {
    assert [a] + ([b] + r.kept) == [a, b] + r.kept;
  }

  /** The reading is the selection by roles: each part holds its words in their order. */
  lemma {:induction false} ReadIsSelected(command: Option<Command>, tokens: seq<string>, i: nat)
    requires i <= |tokens| && !PlaceAt(command, tokens, i).pending && !PlaceAt(command, tokens, i).ended
    ensures Read(PlaceAt(command, tokens, i).command, tokens[i..]) == Selected(command, tokens, i)
    decreases |tokens| - i
  {
    hide IsTerminator, IsHoistable, IsOption, WantsValue, Descend, OptionsOf, Selected, Select, Flag, Keep;
    var place, rest := PlaceAt(command, tokens, i), tokens[i..];
    if i == |tokens| {
      ReadNothing(place.command);
      SelectedNothing(command, tokens);
      return;
    }
    var t := tokens[i];
    assert rest[0] == t && rest[1..] == tokens[i + 1..];
    if IsTerminator(t) {
      AllBehind(command, tokens, i);
      SelectedTail(command, tokens, i);
      return;
    }
    ReadStep(place.command, rest);
    SelectedStep(command, tokens, i);
    hide Read;
    if !(RoleIn(place, t).OptionName? && WantsValue(OptionsOf(place.command), t)) {
      ReadIsSelected(command, tokens, i + 1);
    } else if i + 1 == |tokens| {
      SelectedNothing(command, tokens);
      ReadNothing(place.command);
    } else {
      assert rest[..2] == [t, tokens[i + 1]] && rest[2..] == tokens[i + 2..];
      SelectedStep(command, tokens, i + 1);
      ReadIsSelected(command, tokens, i + 2);
      KeepTwo(t, tokens[i + 1], Selected(command, tokens, i + 2));
    }
  }

  lemma SelectedNothing(command: Option<Command>, tokens: seq<string>)
    ensures Selected(command, tokens, |tokens|) == Reading([], [], [])
  {
  }

  lemma SelectedTail(command: Option<Command>, tokens: seq<string>, i: nat)
    requires i <= |tokens| && Select(command, tokens, i, Flags) == Select(command, tokens, i, Kept) == []
    requires Select(command, tokens, i, Tail) == tokens[i..]
    ensures Selected(command, tokens, i) == Reading([], [], tokens[i..])
  {
  }

  predicate Rising(indices: seq<nat>) {
    forall j, k :: 0 <= j < k < |indices| ==> indices[j] < indices[k]
  }

  /** The words at these indices. */
  predicate Words(tokens: seq<string>, indices: seq<nat>, words: seq<string>) {
    && |words| == |indices|
    && forall k :: 0 <= k < |indices| ==> indices[k] < |tokens| && words[k] == tokens[indices[k]]
  }

  lemma {:induction false} IndicesOf(command: Option<Command>, tokens: seq<string>, i: nat, part: Part)
    returns (indices: seq<nat>)
    requires i <= |tokens|
    ensures Rising(indices) && Words(tokens, indices, Select(command, tokens, i, part))
    ensures forall j :: j in indices <==> i <= j < |tokens| && In(part, RoleAt(command, tokens, j))
    decreases |tokens| - i
  {
    hide RoleAt, In;
    if i == |tokens| { return []; }
    indices := IndicesOf(command, tokens, i + 1, part);
    if In(part, RoleAt(command, tokens, i)) {
      RisingFrom(indices, i);
      assert forall j :: j in [i] + indices <==> j == i || j in indices;
      indices := [i] + indices;
    }
  }

  lemma RisingFrom(indices: seq<nat>, i: nat)
    requires Rising(indices) && forall j :: j in indices ==> i < j
    ensures Rising([i] + indices)
  {
    forall k | 0 <= k < |indices| ensures i < indices[k] { assert indices[k] in indices; }
  }

  /** Hoisting is a stable partition: the words that move and those that stay are rising selections
      of the words, together all of them before the tail; and no word that moves is an option's
      value, is behind a `--`, or is an option of the command it follows. */
  lemma StablePartition(command: Option<Command>, tokens: seq<string>) returns (moved: seq<nat>, stay: seq<nat>)
    ensures var r := Read(command, tokens);
      && Rising(moved) && Words(tokens, moved, r.flags) && Rising(stay) && Words(tokens, stay, r.kept)
      && |r.tail| <= |tokens| && r.tail == tokens[|tokens| - |r.tail|..]
      && (forall i | 0 <= i < |tokens| - |r.tail| :: i in moved <==> i !in stay)
      && (forall i | |tokens| - |r.tail| <= i < |tokens| :: i !in moved && i !in stay)
    ensures forall i :: i in moved <==> 0 <= i < |tokens| && RoleAt(command, tokens, i).RootFlag?
    ensures forall i | i in moved ::
      var place := PlaceAt(command, tokens, i);
      IsHoistable(tokens[i]) && !place.pending && !place.ended && tokens[i] !in OptionsOf(place.command)
  {
    hide IsTerminator, IsHoistable, IsOption, WantsValue, Descend, OptionsOf, Read, Select, PlaceAt, RoleIn;
    assert tokens[0..] == tokens;
    AtTheStart(command, tokens);
    ReadIsSelected(command, tokens, 0);
    moved := IndicesOf(command, tokens, 0, Flags);
    stay := IndicesOf(command, tokens, 0, Kept);
    var from := TailIsLast(command, tokens, 0);
    var r := Read(command, tokens);
    assert r == Selected(command, tokens, 0) && r.tail == tokens[from..] && |tokens| - |r.tail| == from;
    forall i | 0 <= i < |tokens|
      ensures i < from ==> (i in moved <==> i !in stay)
      ensures from <= i ==> i !in moved && i !in stay
    {
      assert RoleAt(command, tokens, i).Behind? <==> from <= i;
    }
    forall i | i in moved
      ensures var place := PlaceAt(command, tokens, i);
        IsHoistable(tokens[i]) && !place.pending && !place.ended && tokens[i] !in OptionsOf(place.command)
    {
      FlagIs(PlaceAt(command, tokens, i), tokens[i]);
    }
  }

  lemma AtTheStart(command: Option<Command>, tokens: seq<string>)
    ensures PlaceAt(command, tokens, 0) == Place(command, false, false)
  {
  }

  lemma FlagIs(place: Place, token: string)
    requires RoleIn(place, token).RootFlag?
    ensures IsHoistable(token) && !place.pending && !place.ended && token !in OptionsOf(place.command)
  {
  }

  lemma {:induction false} TailIsLast(command: Option<Command>, tokens: seq<string>, i: nat) returns (from: nat)
    requires i <= |tokens|
    ensures i <= from <= |tokens| && Select(command, tokens, i, Tail) == tokens[from..]
    ensures forall j | i <= j < |tokens| :: RoleAt(command, tokens, j).Behind? <==> from <= j
    decreases |tokens| - i
  {
    hide IsTerminator, IsHoistable, IsOption, WantsValue, Descend, OptionsOf;
    if i == |tokens| { return i; }
    if RoleAt(command, tokens, i).Behind? {
      AllBehind(command, tokens, i);
      return i;
    }
    from := TailIsLast(command, tokens, i + 1);
  }

  /** `hoist_root_flags`: the reading stops at the first `--` of the line, whatever that is. */
  function Hoisted(group: Command, args: seq<string>): seq<string> {
    var start, end := RootEnd(group.options, args, 0), Terminator(args);
    if start >= end then args else
      var r := Read(Get(group.subcommands, args[start]), args[start + 1..end]);
      r.flags + args[..start + 1] + r.kept + args[end..]
  }

  /** One turn of the reading. */
  lemma ReadStep(command: Option<Command>, rest: seq<string>)
    requires rest != [] && !IsTerminator(rest[0])
    ensures Read(command, rest)
            == if IsHoistable(rest[0]) && rest[0] !in OptionsOf(command) then Flag(rest[0], Read(command, rest[1..]))
               else if !IsOption(rest[0]) then Keep([rest[0]], Read(Descend(command, rest[0]), rest[1..]))
               else if WantsValue(OptionsOf(command), rest[0]) && |rest| > 1
                 then Keep(rest[..2], Read(command, rest[2..]))
               else Keep([rest[0]], Read(command, rest[1..]))
  {
    hide IsOption, WantsValue, OptionsOf, IsHoistable, IsTerminator, Descend, Flag, Keep;
  }

  /** What has been found, and what the rest will give. */
  ghost predicate ScanSoFar(hoisted: seq<string>, kept: seq<string>, rest: Reading, all: Reading) {
    hoisted + rest.flags == all.flags && kept + rest.kept == all.kept
  }

  /** The loop of `hoist_root_flags`. */
  method Scan(command0: Option<Command>, words: seq<string>) returns (hoisted: seq<string>, kept: seq<string>)
    requires Plain(words)
    ensures hoisted == Read(command0, words).flags && kept == Read(command0, words).kept
  {
    hide Read, IsOption, WantsValue, OptionsOf, IsHoistable, IsTerminator, Descend;
    var command := command0;
    hoisted, kept := [], [];
    var index := 0;
    assert words[0..] == words;
    ReadNothing(command0);
    while index < |words|
      invariant index <= |words| && ScanSoFar(hoisted, kept, Read(command, words[index..]), Read(command0, words))
      decreases |words| - index
    {
      var token := words[index];
      ghost var rest := words[index..];
      assert rest[0] == token && rest[1..] == words[index + 1..];
      ReadStep(command, rest);
      if IsHoistable(token) && token !in OptionsOf(command) {
        hoisted := hoisted + [token];
        index := index + 1;
      } else if IsOption(token) && WantsValue(OptionsOf(command), token) && index + 1 < |words| {
        assert rest[..2] == words[index..index + 2] && rest[2..] == words[index + 2..];
        kept := kept + words[index..index + 2];
        index := index + 2;
      } else {
        kept := kept + [token];
        index := index + 1;
        if !IsOption(token) { command := Descend(command, token); }
      }
    }
    assert words[index..] == [];
    ReadNothing(command);
  }

  lemma ReadNothing(command: Option<Command>)
    ensures Read(command, []) == Reading([], [], [])
  {
  }

  method HoistRootFlags(group: Command, args: seq<string>) returns (line: seq<string>)
    ensures line == Hoisted(group, args)
  {
    hide IsHoistable, IsTerminator, IsOption, Read, RootEnd, Hoisted, Terminator;
    var start := RootOptionsEnd(group, args);
    var end := Terminator(args);
    if start >= end {
      NothingAfter(group, args);
      return args;
    }
    var command, words := Get(group.subcommands, args[start]), args[start + 1..end];
    if forall t :: t in words ==> !IsHoistable(t) {
      NothingToHoist(command, words);
      Unmoved(group, args, start, end);
      return args;
    }
    var hoisted, kept := Scan(command, words);
    line := hoisted + args[..start] + ([args[start]] + kept) + args[end..];
    Moved(group, args, start, end, hoisted, kept);
  }

  lemma NothingAfter(group: Command, args: seq<string>)
    requires RootEnd(group.options, args, 0) >= Terminator(args)
    ensures Hoisted(group, args) == args
  {
  }

  lemma Unmoved(group: Command, args: seq<string>, start: nat, end: nat)
    requires RootEnd(group.options, args, 0) == start < end == Terminator(args)
    requires var words := args[start + 1..end];
      Read(Get(group.subcommands, args[start]), words) == Reading([], words, [])
    ensures Hoisted(group, args) == args
  {
    hide Read, RootEnd, Terminator;
    assert args == [] + args[..start + 1] + args[start + 1..end] + args[end..];
  }

  lemma Moved(group: Command, args: seq<string>, start: nat, end: nat, hoisted: seq<string>, kept: seq<string>)
    requires RootEnd(group.options, args, 0) == start < end == Terminator(args)
    requires var r := Read(Get(group.subcommands, args[start]), args[start + 1..end]);
      hoisted == r.flags && kept == r.kept
    ensures Hoisted(group, args) == hoisted + args[..start] + ([args[start]] + kept) + args[end..]
  {
    hide Read, RootEnd, Terminator;
    assert args[..start + 1] == args[..start] + [args[start]];
    Regrouped(hoisted, args[..start], [args[start]], kept, args[end..]);
  }

  lemma Regrouped(a: seq<string>, b: seq<string>, c: seq<string>, d: seq<string>, e: seq<string>)
    ensures a + b + (c + d) + e == a + (b + c) + d + e
  {
  }

  lemma {:induction false} NothingToHoist(command: Option<Command>, tokens: seq<string>)
    requires Plain(tokens) && forall i :: 0 <= i < |tokens| ==> !IsHoistable(tokens[i])
    ensures Read(command, tokens) == Reading([], tokens, [])
    decreases |tokens|
  {
    hide IsOption, WantsValue, OptionsOf, IsHoistable, IsTerminator, Descend, Read;
    ReadNothing(command);
    if tokens == [] { return; }
    ReadStep(command, tokens);
    NothingToHoist(command, tokens[1..]);
    NothingToHoist(Descend(command, tokens[0]), tokens[1..]);
    if |tokens| > 1 { NothingToHoist(command, tokens[2..]); }
  }

  // ---------- What hoisting keeps ----------

  lemma {:induction false} OnlyFlagsMove(command: Option<Command>, tokens: seq<string>)
    requires Plain(tokens)
    ensures var r := Read(command, tokens);
            && r.tail == [] && Plain(r.flags) && Plain(r.kept)
            && forall i :: 0 <= i < |r.flags| ==> IsHoistable(r.flags[i])
    decreases |tokens|
  {
    hide WantsValue, OptionsOf, IsOption, Descend, IsTerminator, IsHoistable;
    if tokens != [] {
      if IsHoistable(tokens[0]) && tokens[0] !in OptionsOf(command) { OnlyFlagsMove(command, tokens[1..]); }
      else if !IsOption(tokens[0]) { OnlyFlagsMove(Descend(command, tokens[0]), tokens[1..]); }
      else if WantsValue(OptionsOf(command), tokens[0]) && |tokens| > 1 { OnlyFlagsMove(command, tokens[2..]); }
      else { OnlyFlagsMove(command, tokens[1..]); }
    }
  }

  /** The reading drops and repeats no word. */
  lemma {:induction false} SameWords(command: Option<Command>, tokens: seq<string>)
    ensures var r := Read(command, tokens);
            multiset(tokens) == multiset(r.flags) + multiset(r.kept) + multiset(r.tail)
            && |tokens| == |r.flags| + |r.kept| + |r.tail|
    decreases |tokens|
  {
    if tokens == [] || IsTerminator(tokens[0]) { return; }
    hide WantsValue, OptionsOf, IsOption, Descend, IsTerminator, IsHoistable, Read;
    var t, rest := tokens[0], tokens[1..];
    assert tokens == [t] + rest;
    ReadStep(command, tokens);
    if IsHoistable(t) && t !in OptionsOf(command) { SameWords(command, rest); }
    else if !IsOption(t) { SameWords(Descend(command, t), rest); }
    else if WantsValue(OptionsOf(command), t) && |tokens| > 1 {
      SameWords(command, tokens[2..]);
      assert tokens == tokens[..2] + tokens[2..];
    } else { SameWords(command, rest); }
  }

  lemma {:induction false} KeptReadsAlike(command: Option<Command>, tokens: seq<string>)
    requires Plain(tokens)
    ensures Read(command, Read(command, tokens).kept) == Reading([], Read(command, tokens).kept, [])
    decreases |tokens|
  {
    hide IsOption, OptionsOf, IsHoistable, IsTerminator, Descend, WantsValue;
    if tokens != [] {
      var t, rest, kept := tokens[0], tokens[1..], Read(command, tokens).kept;
      if IsHoistable(t) && t !in OptionsOf(command) {
        KeptReadsAlike(command, rest);
      } else if !IsOption(t) {
        KeptReadsAlike(Descend(command, t), rest);
        assert kept[1..] == Read(Descend(command, t), rest).kept;
      } else if WantsValue(OptionsOf(command), t) && |tokens| > 1 {
        KeptReadsAlike(command, tokens[2..]);
        assert kept[..2] == tokens[..2] && kept[2..] == Read(command, tokens[2..]).kept;
      } else {
        KeptReadsAlike(command, rest);
        assert kept[1..] == Read(command, rest).kept;
        assert rest == [] || !WantsValue(OptionsOf(command), t);
      }
    }
  }

  // ---------- The hoisted line ----------

  /** The root takes none of the hoisted flags as an option with a value (they are boolean there). */
  ghost predicate FlagsAreFlags(group: Command) {
    forall t :: IsHoistable(t) ==> !IsValueOption(group.options, t)
  }

  lemma {:induction false} RootEndIsLocal(options: map<string, Param>, a: seq<string>, b: seq<string>, i: nat)
    requires i <= RootEnd(options, a, i) < |a| && |b| > RootEnd(options, a, i)
    requires b[..RootEnd(options, a, i) + 1] == a[..RootEnd(options, a, i) + 1]
    ensures RootEnd(options, b, i) == RootEnd(options, a, i)
    decreases |a| - i
  {
    hide WantsValue, IsOption, IsTerminator;
    var end := RootEnd(options, a, i);
    assert b[i] == b[..end + 1][i] == a[..end + 1][i];
    if !(IsTerminator(a[i]) || !IsOption(a[i])) {
      RootEndIsLocal(options, a, b, i + if WantsValue(options, a[i]) then 2 else 1);
    }
  }

  lemma {:induction false} RootEndShifts(options: map<string, Param>, front: seq<string>, args: seq<string>, i: nat)
    ensures RootEnd(options, front + args, |front| + i) == |front| + RootEnd(options, args, i)
    decreases |args| - i
  {
    hide WantsValue, IsOption, IsTerminator;
    if i < |args| && !IsTerminator(args[i]) && IsOption(args[i]) {
      RootEndShifts(options, front, args, i + if WantsValue(options, args[i]) then 2 else 1);
    }
  }

  lemma {:induction false} RootEndSkipsFlags(options: map<string, Param>, flags: seq<string>, args: seq<string>, i: nat)
    requires i <= |flags| && forall j :: 0 <= j < |flags| ==> IsHoistable(flags[j]) && !IsValueOption(options, flags[j])
    ensures RootEnd(options, flags + args, i) == |flags| + RootEnd(options, args, 0)
    decreases |flags| - i
  {
    hide IsOption, IsTerminator, IsHoistable, IsValueOption;
    if i == |flags| {
      RootEndShifts(options, flags, args, 0);
    } else {
      assert (flags + args)[i] == flags[i];
      HoistableIsOption(flags[i]);
      RootEndSkipsFlags(options, flags, args, i + 1);
    }
  }

  lemma HoistableIsOption(t: string)
    requires IsHoistable(t)
    ensures IsOption(t) && !IsTerminator(t)
  {
  }

  function Line(flags: seq<string>, args: seq<string>, start: nat, kept: seq<string>, end: nat): seq<string>
    requires start < end <= |args|
  {
    flags + args[..start + 1] + kept + args[end..]
  }

  lemma LinePieces(flags: seq<string>, args: seq<string>, start: nat, kept: seq<string>, end: nat)
    requires start < end <= |args| && |flags| + |kept| == end - start - 1
    ensures var line, at := Line(flags, args, start, kept, end), |flags| + start;
            && |line| == |args| && line[end..] == args[end..] && line[at] == args[start]
            && line[..at] == flags + args[..start] && line[at..] == [args[start]] + kept + args[end..]
            && line[at + 1..end] == kept
            && line == Line([], line, at, kept, end)
            && line == flags + (args[..start + 1] + kept + args[end..])
            && (args[..start + 1] + kept + args[end..])[..start + 1] == args[..start + 1]
  {
    assert args[..start + 1] == args[..start] + [args[start]];
  }

  lemma {:induction false} TerminatorIs(args: seq<string>, k: nat)
    requires k <= |args| && Plain(args[..k]) && (k < |args| ==> IsTerminator(args[k]))
    ensures Terminator(args) == k
  {
    hide IsTerminator;
    if k > 0 {
      assert args[0] == args[..k][0];
      assert args[1..][..k - 1] == args[..k][1..];
      TerminatorIs(args[1..], k - 1);
    }
  }

  /** The pieces of a hoisted line are where they were: the root's options end at the command
      again, and the first `--` has not moved. */
  lemma HoistedLine(group: Command, args: seq<string>)
    requires FlagsAreFlags(group) && RootEnd(group.options, args, 0) < Terminator(args)
    ensures var start, end := RootEnd(group.options, args, 0), Terminator(args);
            var r := Read(Get(group.subcommands, args[start]), args[start + 1..end]);
            var line := Hoisted(group, args);
            && line == Line(r.flags, args, start, r.kept, end) && |r.flags| + |r.kept| == end - start - 1
            && RootEnd(group.options, line, 0) == |r.flags| + start
            && Terminator(line) == end
  {
    hide IsOption, WantsValue, IsHoistable, IsTerminator, IsValueOption, Read, RootEnd, Line;
    var start, end := RootEnd(group.options, args, 0), Terminator(args);
    var command, words := Get(group.subcommands, args[start]), args[start + 1..end];
    var r := Read(command, words);
    OnlyFlagsMove(command, words);
    SameWords(command, words);
    LineEnds(group, args, start, end, r);
    HoistedIs(group, args, start, end, r);
  }

  lemma LineEnds(group: Command, args: seq<string>, start: nat, end: nat, r: Reading)
    requires FlagsAreFlags(group) && RootEnd(group.options, args, 0) == start < end == Terminator(args)
    requires |r.flags| + |r.kept| == end - start - 1 && Plain(r.flags) && Plain(r.kept)
    requires forall i :: 0 <= i < |r.flags| ==> IsHoistable(r.flags[i])
    ensures var line := Line(r.flags, args, start, r.kept, end);
      RootEnd(group.options, line, 0) == |r.flags| + start && Terminator(line) == end
  {
    hide IsOption, WantsValue, IsHoistable, IsTerminator, IsValueOption, RootEnd, Line;
    LinePieces(r.flags, args, start, r.kept, end);
    var back := args[..start + 1] + r.kept + args[end..];
    RootEndIsLocal(group.options, args, back, 0);
    RootEndSkipsFlags(group.options, r.flags, back, 0);
    StillPlain(r.flags, args, start, r.kept, end);
    TerminatorIs(Line(r.flags, args, start, r.kept, end), end);
  }

  lemma StillPlain(flags: seq<string>, args: seq<string>, start: nat, kept: seq<string>, end: nat)
    requires start < end <= |args| && |flags| + |kept| == end - start - 1
    requires Plain(flags) && Plain(kept) && Plain(args[..end])
    ensures Plain(Line(flags, args, start, kept, end)[..end])
  {
    hide IsTerminator;
    var front := flags + args[..start + 1] + kept;
    assert Line(flags, args, start, kept, end)[..end] == front;
    forall i | 0 <= i < |front| ensures !IsTerminator(front[i]) {
      if |flags| <= i < |flags| + start + 1 { assert front[i] == args[..end][i - |flags|]; }
    }
  }

  lemma HoistedIs(group: Command, args: seq<string>, start: nat, end: nat, r: Reading)
    requires RootEnd(group.options, args, 0) == start < end == Terminator(args)
    requires r == Read(Get(group.subcommands, args[start]), args[start + 1..end])
    ensures Hoisted(group, args) == Line(r.flags, args, start, r.kept, end)
  {
  }

  lemma HoistAgain(group: Command, args: seq<string>, line: seq<string>, start: nat, end: nat, r: Reading)
    requires start < end <= |args| && |r.flags| + |r.kept| == end - start - 1
    requires line == Line(r.flags, args, start, r.kept, end)
    requires RootEnd(group.options, line, 0) == |r.flags| + start && Terminator(line) == end
    requires Read(Get(group.subcommands, args[start]), r.kept) == Reading([], r.kept, [])
    ensures Hoisted(group, line) == line
  {
    hide *;
    LinePieces(r.flags, args, start, r.kept, end);
    HoistedIs(group, line, |r.flags| + start, end, Reading([], r.kept, []));
  }

  /** Hoisting twice is hoisting once. */
  lemma HoistTwice(group: Command, args: seq<string>)
    requires FlagsAreFlags(group)
    ensures Hoisted(group, Hoisted(group, args)) == Hoisted(group, args)
  {
    hide IsTerminator, IsOption, IsHoistable, Read, RootEnd, FlagsAreFlags, Line;
    var start, end := RootEnd(group.options, args, 0), Terminator(args);
    if start >= end { return; }
    var command, words := Get(group.subcommands, args[start]), args[start + 1..end];
    KeptReadsAlike(command, words);
    HoistedLine(group, args);
    HoistAgain(group, args, Hoisted(group, args), start, end, Read(command, words));
  }

  // ---------- What the line means ----------

  /** A command line: what the root's options say, and the words handed to the command. */
  datatype Meaning = Meaning(root: RootSays, command: seq<string>)

  /** A parser that accepts root options in front only. */
  function ParseFront(group: Command, line: seq<string>): Meaning {
    var tokens := RootTokens(group, line);
    Meaning(Said(group.options, tokens, 0), line[|tokens|..])
  }

  /** `root`, with some flags more. */
  function AlsoSays(root: RootSays, flags: seq<string>): RootSays {
    root.(flags := root.flags + set t | t in flags)
  }

  /** The reference: a parser that also accepts the boolean root flags anywhere before the `--`
      that ends the options. */
  function ParseAnywhere(group: Command, args: seq<string>): Meaning {
    var front := ParseFront(group, args);
    if front.command == [] || IsTerminator(front.command[0]) then front else
      var r := Read(Get(group.subcommands, front.command[0]), front.command[1..]);
      Meaning(AlsoSays(front.root, r.flags), [front.command[0]] + r.kept + r.tail)
  }

  /** The line's first `--` is the value of an option: of one of the root's, or of one after the command. */
  predicate DashIsValue(group: Command, args: seq<string>) {
    var start, end := RootEnd(group.options, args, 0), Terminator(args);
    end < |args|
    && (end < start
        || (start < end
            && RoleAt(Get(group.subcommands, args[start]), args[start + 1..], end - start - 1).OptionValue?))
  }

  /** A root flag stands behind the line's first `--`. */
  predicate FlagBehindDash(group: Command, args: seq<string>) {
    var start, end := RootEnd(group.options, args, 0), Terminator(args);
    start < |args| && !IsTerminator(args[start])
    && FlagFrom(Get(group.subcommands, args[start]), args[start + 1..], if end <= start then 0 else end - start)
  }

  /** One of the words from `d` on is a root flag. */
  predicate FlagFrom(command: Option<Command>, words: seq<string>, d: nat) {
    exists j | d <= j < |words| :: RoleAt(command, words, j).RootFlag?
  }

  /** A reading without flags leaves the words as they are. */
  ghost predicate Leaves(r: Reading, tokens: seq<string>) {
    r.flags == [] ==> r.kept + r.tail == tokens
  }

  lemma KeepLeaves(words: seq<string>, r: Reading, rest: seq<string>)
    requires Leaves(r, rest)
    ensures Leaves(Keep(words, r), words + rest)
  {
    assert words + r.kept + r.tail == words + (r.kept + r.tail);
  }

  lemma {:induction false} WithoutFlags(command: Option<Command>, tokens: seq<string>)
    ensures Leaves(Read(command, tokens), tokens)
    decreases |tokens|
  {
    if tokens == [] || IsTerminator(tokens[0]) { return; }
    ReadStep(command, tokens);
    hide IsOption, OptionsOf, IsHoistable, IsTerminator, Descend, WantsValue, Read, Keep, Leaves;
    var t, rest := tokens[0], tokens[1..];
    assert tokens == [t] + rest;
    if IsHoistable(t) && t !in OptionsOf(command) {
      FlagLeaves(t, Read(command, rest), tokens);
    } else if !IsOption(t) {
      WithoutFlags(Descend(command, t), rest);
      KeepLeaves([t], Read(Descend(command, t), rest), rest);
    } else if WantsValue(OptionsOf(command), t) && |tokens| > 1 {
      WithoutFlags(command, tokens[2..]);
      KeepLeaves(tokens[..2], Read(command, tokens[2..]), tokens[2..]);
      assert tokens == tokens[..2] + tokens[2..];
    } else {
      WithoutFlags(command, rest);
      KeepLeaves([t], Read(command, rest), rest);
    }
  }

  lemma FlagLeaves(t: string, r: Reading, tokens: seq<string>)
    ensures Leaves(Flag(t, r), tokens)
  {
  }

  /** `r0`, followed by `after`, has the first flags of `r`; with all of them, the rest is the same. */
  ghost predicate ReadSoFar(r: Reading, r0: Reading, after: seq<string>) {
    && |r0.flags| <= |r.flags|
    && (|r.flags| == |r0.flags| ==> r.flags == r0.flags && r.kept + r.tail == r0.kept + after)
  }

  lemma SoFarFlag(t: string, r: Reading, r0: Reading, after: seq<string>)
    requires ReadSoFar(r, r0, after)
    ensures ReadSoFar(Flag(t, r), Flag(t, r0), after)
  {
  }

  lemma SoFarKeep(tokens: seq<string>, r: Reading, r0: Reading, after: seq<string>)
    requires ReadSoFar(r, r0, after)
    ensures ReadSoFar(Keep(tokens, r), Keep(tokens, r0), after)
  {
    if |r.flags| == |r0.flags| {
      assert tokens + r.kept + r.tail == tokens + (r.kept + r.tail);
      assert tokens + r0.kept + after == tokens + (r0.kept + after);
    }
  }

  /** An option that wants a value is at the front. */
  predicate ValueNext(command: Option<Command>, tokens: seq<string>) {
    && |tokens| > 1 && !IsTerminator(tokens[0]) && !(IsHoistable(tokens[0]) && tokens[0] !in OptionsOf(command))
    && IsOption(tokens[0]) && WantsValue(OptionsOf(command), tokens[0])
  }

  lemma ReadValue(command: Option<Command>, tokens: seq<string>)
    requires ValueNext(command, tokens)
    ensures Read(command, tokens) == Keep(tokens[..2], Read(command, tokens[2..]))
    ensures Read(command, [tokens[0]]) == Reading([], [tokens[0]], [])
  {
    hide IsOption, IsHoistable, IsTerminator, WantsValue, OptionsOf;
    assert [tokens[0]][1..] == [];
  }

  lemma ValueFirst(tokens: seq<string>, r: Reading)
    requires |tokens| > 1 && (r.flags == [] ==> r.kept + r.tail == tokens[2..])
    ensures ReadSoFar(Keep(tokens[..2], r), Reading([], [tokens[0]], []), tokens[1..])
  {
    assert tokens[..2] + tokens[2..] == [tokens[0]] + tokens[1..];
    assert tokens[..2] + r.kept + r.tail == tokens[..2] + (r.kept + r.tail);
  }

  /** The first `--` is the value of the option before it. */
  lemma ReadUpToItsValue(command: Option<Command>, tokens: seq<string>)
    requires ValueNext(command, tokens)
    ensures ReadSoFar(Read(command, tokens), Read(command, [tokens[0]]), tokens[1..])
  {
    ReadValue(command, tokens);
    WithoutFlags(command, tokens[2..]);
    ValueFirst(tokens, Read(command, tokens[2..]));
    hide *;
  }

  lemma ReadUpToLater(command: Option<Command>, tokens: seq<string>, d: nat)
    requires ValueNext(command, tokens) && 2 <= d <= |tokens|
    requires ReadSoFar(Read(command, tokens[2..]), Read(command, tokens[2..][..d - 2]), tokens[2..][d - 2..])
    ensures ReadSoFar(Read(command, tokens), Read(command, tokens[..d]), tokens[d..])
  {
    var now := tokens[..d];
    assert now[2..] == tokens[2..][..d - 2] && now[..2] == tokens[..2] && tokens[d..] == tokens[2..][d - 2..];
    ReadValue(command, tokens);
    ReadValue(command, now);
    hide *;
    SoFarKeep(tokens[..2], Read(command, tokens[2..]), Read(command, now[2..]), tokens[d..]);
  }

  /** The command that reads the tokens after the first. */
  function After(command: Option<Command>, token: string): Option<Command> {
    if IsOption(token) || (IsHoistable(token) && token !in OptionsOf(command)) then command else Descend(command, token)
  }

  lemma ReadUpToOther(command: Option<Command>, tokens: seq<string>, d: nat)
    requires 1 <= d <= |tokens| && !IsTerminator(tokens[0]) && !ValueNext(command, tokens)
    requires var next := After(command, tokens[0]);
             ReadSoFar(Read(next, tokens[1..]), Read(next, tokens[1..][..d - 1]), tokens[1..][d - 1..])
    ensures ReadSoFar(Read(command, tokens), Read(command, tokens[..d]), tokens[d..])
  {
    hide OptionsOf, IsTerminator, IsHoistable, IsOption, Descend, WantsValue, Flag, Keep, ReadSoFar;
    var t, rest, now, next := tokens[0], tokens[1..], tokens[..d], After(command, tokens[0]);
    assert now[0] == t && now[1..] == rest[..d - 1] && tokens[d..] == rest[d - 1..];
    SoFarFlag(t, Read(next, rest), Read(next, now[1..]), tokens[d..]);
    SoFarKeep([t], Read(next, rest), Read(next, now[1..]), tokens[d..]);
  }

  /** Reading up to the first `--` finds the first flags, and misses nothing else. */
  lemma {:induction false} ReadUpTo(command: Option<Command>, tokens: seq<string>)
    ensures ReadSoFar(Read(command, tokens), Read(command, tokens[..Terminator(tokens)]), tokens[Terminator(tokens)..])
    decreases |tokens|
  {
    if tokens == [] || IsTerminator(tokens[0]) { return; }
    hide Read, ReadSoFar, After, IsTerminator, ValueNext;
    var d := Terminator(tokens);
    if !ValueNext(command, tokens) {
      ReadUpTo(After(command, tokens[0]), tokens[1..]);
      ReadUpToOther(command, tokens, d);
    } else {
      TwoOn(command, tokens);
      if d == 1 {
        ReadUpToItsValue(command, tokens);
        assert tokens[..1] == [tokens[0]];
      } else {
        ReadUpTo(command, tokens[2..]);
        ReadUpToLater(command, tokens, d);
      }
    }
  }

  lemma TwoOn(command: Option<Command>, tokens: seq<string>)
    requires ValueNext(command, tokens)
    ensures Terminator(tokens) >= 1 && (Terminator(tokens) > 1 ==> Terminator(tokens) == 2 + Terminator(tokens[2..]))
  {
    hide IsTerminator;
    assert tokens[1..][1..] == tokens[2..];
  }

  lemma {:induction false} SaidShifts(options: map<string, Param>, front: seq<string>, tokens: seq<string>, i: nat)
    ensures Said(options, front + tokens, |front| + i) == Said(options, tokens, i)
    decreases |tokens| - i
  {
    hide IsValueOption, HasEquals;
    if i < |tokens| {
      SaidShifts(options, front, tokens, i + 1);
      if i + 1 < |tokens| { SaidShifts(options, front, tokens, i + 2); }
    }
  }

  lemma {:induction false} SaidFlagsFirst(options: map<string, Param>, flags: seq<string>, tokens: seq<string>, i: nat)
    requires i <= |flags| && forall j :: 0 <= j < |flags| ==> !IsValueOption(options, flags[j])
    ensures Said(options, flags + tokens, i) == AlsoSays(Said(options, tokens, 0), flags[i..])
    decreases |flags| - i
  {
    hide IsValueOption, HasEquals;
    if i == |flags| {
      SaidShifts(options, flags, tokens, 0);
    } else {
      assert (flags + tokens)[i] == flags[i] && flags[i..] == [flags[i]] + flags[i + 1..];
      SaidFlagsFirst(options, flags, tokens, i + 1);
    }
  }

  lemma ParseFrontAt(group: Command, line: seq<string>, at: nat)
    requires RootEnd(group.options, line, 0) == at <= |line|
    ensures ParseFront(group, line) == Meaning(Said(group.options, line[..at], 0), line[at..])
  {
  }

  lemma HoistedFront(group: Command, args: seq<string>, start: nat, end: nat, r: Reading)
    requires FlagsAreFlags(group) && RootEnd(group.options, args, 0) == start < end == Terminator(args)
    requires r == Read(Get(group.subcommands, args[start]), args[start + 1..end])
    ensures ParseFront(group, Hoisted(group, args))
            == Meaning(Said(group.options, r.flags + args[..start], 0), [args[start]] + r.kept + args[end..])
  {
    hide *;
    HoistedLine(group, args);
    LinePieces(r.flags, args, start, r.kept, end);
    ParseFrontAt(group, Hoisted(group, args), |r.flags| + start);
  }

  lemma HoistedMeaning(group: Command, args: seq<string>, start: nat, end: nat, r: Reading)
    requires FlagsAreFlags(group) && RootEnd(group.options, args, 0) == start < end == Terminator(args)
    requires r == Read(Get(group.subcommands, args[start]), args[start + 1..end])
    ensures ParseFront(group, Hoisted(group, args))
            == Meaning(AlsoSays(ParseFront(group, args).root, r.flags), [args[start]] + r.kept + args[end..])
  {
    assert Plain(args[start + 1..end]);
    OnlyFlagsMove(Get(group.subcommands, args[start]), args[start + 1..end]);
    assert forall j :: 0 <= j < |r.flags| ==> !IsValueOption(group.options, r.flags[j]);
    hide *;
    HoistedFront(group, args, start, end, r);
    ParseFrontAt(group, args, start);
    SaidFlagsFirst(group.options, r.flags, args[..start], 0);
    assert r.flags[0..] == r.flags;
  }

  lemma ParseAnywhereAt(group: Command, args: seq<string>, start: nat, r: Reading)
    requires RootEnd(group.options, args, 0) == start < |args| && !IsTerminator(args[start])
    requires r == Read(Get(group.subcommands, args[start]), args[start + 1..])
    ensures ParseFront(group, args).command == [args[start]] + args[start + 1..]
    ensures ParseAnywhere(group, args)
            == Meaning(AlsoSays(ParseFront(group, args).root, r.flags), [args[start]] + r.kept + r.tail)
  {
    hide Read, IsTerminator, Said, AlsoSays, ParseFront, RootEnd, Terminator;
    ParseFrontAt(group, args, start);
    assert args[start..][1..] == args[start + 1..] && args[start..][0] == args[start];
    assert args[start..] == [args[start]] + args[start + 1..];
  }

  lemma {:induction false} SelectNothingIff(command: Option<Command>, tokens: seq<string>, i: nat, part: Part)
    requires i <= |tokens|
    ensures Select(command, tokens, i, part) == []
            <==> forall j | i <= j < |tokens| :: !In(part, RoleAt(command, tokens, j))
    decreases |tokens| - i
  {
    hide RoleAt, In;
    if i < |tokens| { SelectNothingIff(command, tokens, i + 1, part); }
  }

  lemma {:induction false} PlaceCut(command: Option<Command>, tokens: seq<string>, d: nat, i: nat)
    requires i <= d <= |tokens|
    ensures PlaceAt(command, tokens[..d], i) == PlaceAt(command, tokens, i)
    decreases i
  {
    hide Past;
    if i > 0 { PlaceCut(command, tokens, d, i - 1); }
  }

  lemma {:induction false} SelectCut(command: Option<Command>, tokens: seq<string>, d: nat, i: nat, part: Part)
    requires i <= d <= |tokens|
    ensures Select(command, tokens, i, part) == Select(command, tokens[..d], i, part) + Select(command, tokens, d, part)
    decreases d - i
  {
    hide PlaceAt, RoleIn, In;
    if i < d {
      PlaceCut(command, tokens, d, i);
      SelectCut(command, tokens, d, i + 1, part);
    }
  }

  /** Reading up to the first `--` finds all the root flags exactly when it is not a value, or no
      root flag is behind it. */
  lemma CutFlagsIff(command: Option<Command>, tokens: seq<string>)
    ensures var d := Terminator(tokens);
      Read(command, tokens).flags == Read(command, tokens[..d]).flags
      <==> d == |tokens| || !RoleAt(command, tokens, d).OptionValue?
           || !FlagFrom(command, tokens, d + 1)
  {
    hide Read, Select, PlaceAt, IsTerminator, IsHoistable, IsOption, OptionsOf;
    var d := Terminator(tokens);
    var now := tokens[..d];
    AtTheStart(command, tokens);
    AtTheStart(command, now);
    assert tokens[0..] == tokens && now[0..] == now;
    ReadIsSelected(command, tokens, 0);
    ReadIsSelected(command, now, 0);
    SelectCut(command, tokens, d, 0, Flags);
    SelectNothingIff(command, tokens, d, Flags);
    if d < |tokens| && !RoleAt(command, tokens, d).OptionValue? { AllBehind(command, tokens, d); }
  }

  /** Hoisting keeps what the line means, exactly unless the line's first `--` is an option's value
      and a root flag is behind it: a front-only parser reads the hoisted line as the reference
      reads the original. */
  lemma HoistingKeepsMeaning(group: Command, args: seq<string>)
    requires FlagsAreFlags(group)
    ensures ParseFront(group, Hoisted(group, args)) == ParseAnywhere(group, args)
            <==> !(DashIsValue(group, args) && FlagBehindDash(group, args))
  {
    hide FlagsAreFlags, RootEnd, Hoisted, ParseFront, ParseAnywhere, IsTerminator, RoleAt;
    var start, end := RootEnd(group.options, args, 0), Terminator(args);
    if start >= |args| || IsTerminator(args[start]) {
      NoCommand(group, args);
    } else if start >= end {
      NothingHoisted(group, args, start);
    } else {
      SomethingHoisted(group, args, start, end);
    }
  }

  lemma NoFlagsIff(command: Option<Command>, words: seq<string>)
    ensures Read(command, words).flags == [] <==> !FlagFrom(command, words, 0)
  {
    hide Read, Select, RoleAt, PlaceAt;
    AtTheStart(command, words);
    assert words[0..] == words;
    ReadIsSelected(command, words, 0);
    SelectNothingIff(command, words, 0, Flags);
  }

  lemma NothingHoisted(group: Command, args: seq<string>, start: nat)
    requires RootEnd(group.options, args, 0) == start < |args| && !IsTerminator(args[start])
             && start >= Terminator(args)
    ensures DashIsValue(group, args)
    ensures ParseFront(group, Hoisted(group, args)) == ParseAnywhere(group, args) <==> !FlagBehindDash(group, args)
  {
    hide IsTerminator, RootEnd, ParseFront, ParseAnywhere, Read, AlsoSays, Hoisted, FlagFrom;
    var command, words := Get(group.subcommands, args[start]), args[start + 1..];
    var r := Read(command, words);
    NothingAfter(group, args);
    ParseAnywhereAt(group, args, start, r);
    SameWords(command, words);
    WithoutFlags(command, words);
    NoFlagsNoChange(ParseFront(group, args), r, args[start], words);
    NoFlagsIff(command, words);
  }

  lemma SomethingHoisted(group: Command, args: seq<string>, start: nat, end: nat)
    requires FlagsAreFlags(group) && RootEnd(group.options, args, 0) == start < end == Terminator(args)
    requires !IsTerminator(args[start])
    ensures ParseFront(group, Hoisted(group, args)) == ParseAnywhere(group, args)
            <==> !(DashIsValue(group, args) && FlagBehindDash(group, args))
  {
    hide IsTerminator, RootEnd, ParseFront, ParseAnywhere, Read, RoleAt, Hoisted, FlagsAreFlags, FlagFrom;
    var command, words := Get(group.subcommands, args[start]), args[start + 1..];
    TerminatorOf(args, start);
    SameFlagsIff(group, args, start, end);
    CutFlagsIff(command, words);
  }

  lemma SameFlagsIff(group: Command, args: seq<string>, start: nat, end: nat)
    requires FlagsAreFlags(group) && RootEnd(group.options, args, 0) == start < end == Terminator(args)
    requires !IsTerminator(args[start])
    ensures var command, words := Get(group.subcommands, args[start]), args[start + 1..];
      ParseFront(group, Hoisted(group, args)) == ParseAnywhere(group, args)
      <==> Read(command, words).flags == Read(command, words[..Terminator(words)]).flags
  {
    hide *;
    var command, words := Get(group.subcommands, args[start]), args[start + 1..];
    var d := Terminator(words);
    var r, r0 := Read(command, words), Read(command, words[..d]);
    TerminatorOf(args, start);
    assert args[start + 1..end] == words[..d] && args[end..] == words[d..];
    HoistedMeaning(group, args, start, end, r0);
    ParseAnywhereAt(group, args, start, r);
    ReadUpTo(command, words);
    SameWords(command, words);
    SameWords(command, words[..d]);
    NoTail(command, words, d);
    SameMeaningIff(ParseFront(group, args).root, args[start], r, r0, words[d..]);
  }

  lemma NoTail(command: Option<Command>, words: seq<string>, d: nat)
    requires d == Terminator(words)
    ensures Read(command, words[..d]).tail == []
  {
    hide IsTerminator, Read;
    OnlyFlagsMove(command, words[..d]);
  }

  lemma NoCommand(group: Command, args: seq<string>)
    requires var start := RootEnd(group.options, args, 0); start >= |args| || IsTerminator(args[start])
    ensures ParseFront(group, Hoisted(group, args)) == ParseAnywhere(group, args) && !FlagBehindDash(group, args)
  {
    hide RootEnd, IsTerminator, Read, Said, Terminator;
    var start := RootEnd(group.options, args, 0);
    assert start >= Terminator(args);
    assert start < |args| ==> args[start..][0] == args[start];
  }

  lemma TerminatorOf(args: seq<string>, start: nat)
    requires start < Terminator(args)
    ensures Terminator(args) == start + 1 + Terminator(args[start + 1..])
  {
    hide IsTerminator, Terminator;
    var end, rest := Terminator(args), args[start + 1..];
    var front := rest[..end - start - 1];
    forall i | 0 <= i < |front| ensures !IsTerminator(front[i]) { assert front[i] == args[start + 1 + i]; }
    TerminatorIs(rest, end - start - 1);
  }

  lemma NoFlagsNoChange(front: Meaning, r: Reading, word: string, words: seq<string>)
    requires front.command == [word] + words && |words| == |r.flags| + |r.kept| + |r.tail|
    requires r.flags == [] ==> r.kept + r.tail == words
    ensures front == Meaning(AlsoSays(front.root, r.flags), [word] + r.kept + r.tail) <==> r.flags == []
  {
    if r.flags == [] {
      assert [word] + r.kept + r.tail == [word] + (r.kept + r.tail);
      assert AlsoSays(front.root, []) == front.root;
    } else {
      assert |[word] + r.kept + r.tail| < |front.command|;
    }
  }

  lemma SameMeaningIff(root: RootSays, word: string, r: Reading, r0: Reading, after: seq<string>)
    requires ReadSoFar(r, r0, after) && |r.flags| + |r.kept| + |r.tail| == |r0.flags| + |r0.kept| + |after|
    ensures Meaning(AlsoSays(root, r0.flags), [word] + r0.kept + after)
            == Meaning(AlsoSays(root, r.flags), [word] + r.kept + r.tail)
            <==> r.flags == r0.flags
  {
    if r.flags == r0.flags {
      assert [word] + r0.kept + after == [word] + (r0.kept + after);
      assert [word] + r.kept + r.tail == [word] + (r.kept + r.tail);
    } else {
      assert |r.flags| > |r0.flags|;
      assert |[word] + r.kept + r.tail| < |[word] + r0.kept + after|;
    }
  }

  /** The option takes the `--` as its value, and the flag is read after it. */
  lemma RolesBehind(command: Option<Command>, option: string, dashes: string, flag: string)
    requires IsOption(option) && !IsTerminator(option) && WantsValue(OptionsOf(command), option)
    requires option in OptionsOf(command) && IsTerminator(dashes)
    requires IsHoistable(flag) && flag !in OptionsOf(command)
    ensures var words := [option, dashes, flag];
      && Terminator(words) == 1 && RoleAt(command, words, 1).OptionValue? && RoleAt(command, words, 2).RootFlag?
  {
    HoistableIsOption(flag);
    hide IsHoistable, IsTerminator, IsOption, WantsValue, OptionsOf;
    var words := [option, dashes, flag];
    TerminatorIs(words, 1);
    assert PlaceAt(command, words, 1) == Place(command, true, false);
    assert PlaceAt(command, words, 2) == Place(command, false, false);
  }

  /** Such lines: an option takes the `--` as its value and a root flag follows, which the
      reference reads and the code leaves where it is. */
  lemma FlagBehindAValue(group: Command, word: string, option: string, dashes: string, flag: string)
    requires FlagsAreFlags(group) && word in group.subcommands && !IsOption(word) && IsTerminator(dashes)
    requires var options := group.subcommands[word].options;
             IsOption(option) && !IsTerminator(option) && option in options && WantsValue(options, option)
             && IsHoistable(flag) && flag !in options
    ensures var args := [word, option, dashes, flag];
            && DashIsValue(group, args) && FlagBehindDash(group, args)
            && ParseFront(group, Hoisted(group, args)) != ParseAnywhere(group, args)
  {
    var args, words, command := [word, option, dashes, flag], [option, dashes, flag], Some(group.subcommands[word]);
    assert !IsTerminator(word) && OptionsOf(command) == group.subcommands[word].options;
    hide IsHoistable, IsTerminator, IsOption, WantsValue, FlagsAreFlags, RoleAt, Hoisted, ParseFront, ParseAnywhere;
    RolesBehind(command, option, dashes, flag);
    assert args[1..] == words;
    assert RootEnd(group.options, args, 0) == 0;
    TerminatorIs(args, 2);
    assert FlagFrom(command, words, 2);
    HoistingKeepsMeaning(group, args);
  }
}
