// What arguments come to: the texts that an option receives from a token of its
// own, said in terms of the token's characters, and whole readings of short
// argument vectors.
module ArgResults {
  import opened Wrappers
  import opened CliStrings
  import opened ArgTables
  import opened ArgLog

  function LongToken(name: string, value: string): string {
    "--" + (name + ['='] + value)
  }

  /** A long name that can be written with a value. */
  predicate LongName(name: string) {
    name != "" && Begins(name[0]) && '=' !in name
  }

  /** The texts that a use of the option at hand adds, and that it adds nothing else. */
  ghost predicate Adds(apps: seq<AppSpec>, states: seq<AppState>, u: Use, opt: nat, texts: seq<string>)
    requires Fits(apps, states) && HasOption(apps, u.app, opt)
  {
    var after := ApplyUse(apps, states, u);
    && Fits(apps, after)
    && after[u.app].results[opt] == states[u.app].results[opt] + texts
    && forall a, o :: 0 <= a < |apps| && 0 <= o < |apps[a].options| && (a != u.app || o != opt) ==>
         after[a].results[o] == states[a].results[o]
  }

  lemma UseAdds(apps: seq<AppSpec>, states: seq<AppState>, u: Use, opt: nat)
    requires Fits(apps, states) && HasOption(apps, u.app, opt)
    requires (u.Attached? || u.Flag? || u.Value? || u.Filler? || u.Positional?) && u.opt == opt
    ensures Adds(apps, states, u, opt, TextsOf(apps, u, u.app, opt))
  {
    UseFits(apps, states, u);
    forall a, o | 0 <= a < |apps| && 0 <= o < |apps[a].options|
      ensures ApplyUse(apps, states, u)[a].results[o] == states[a].results[o] + TextsOf(apps, u, a, o)
    {
      UseByOwner(apps, states, u, a, o);
    }
    forall a, o | 0 <= a < |apps| && 0 <= o < |apps[a].options| && (a != u.app || o != opt)
      ensures ApplyUse(apps, states, u)[a].results[o] == states[a].results[o]
    {
      assert states[a].results[o] + [] == states[a].results[o];
    }
  }

  // ---------------------------------------------------------------- one text, or several

  /** A text that is not a bracketed list, or goes to an option without extra
      arguments, is added as it is. */
  lemma PlainIsAdded(allowExtra: bool, s: string)
    requires allowExtra && |s| > 1 ==> s[0] != '[' || s[|s| - 1] != ']'
    ensures AddedBy(allowExtra, s) == [s]
  {
  }

  /** A bracketed list given to an option with extra arguments adds its elements. */
  lemma ListIsAdded(parts: seq<string>)
    requires parts != []
    requires forall i :: 0 <= i < |parts| ==>
               parts[i] != "" && ',' !in parts[i] && (|parts[i]| > 1 ==> parts[i][0] != '[')
    ensures AddedBy(true, ['['] + Interlaced(parts, ',') + [']']) == parts
  {
    var inner := Interlaced(parts, ',');
    var s := ['['] + inner + [']'];
    assert s[1..|s| - 1] == inner && s[|s| - 1] == ']';
    SplitOfInterlaced(parts, ',');
    InterlacedLength(parts);
    EachIsAdded(parts, |s|);
  }

  lemma {:induction false} InterlacedLength(parts: seq<string>)
    ensures forall i :: 0 <= i < |parts| ==> |parts[i]| <= |Interlaced(parts, ',')|
    decreases |parts|
  {
    if |parts| > 1 {
      InterlacedLength(parts[1..]);
      forall i | 0 <= i < |parts|
        ensures |parts[i]| <= |Interlaced(parts, ',')|
      {
        if i > 0 {
          assert parts[i] == parts[1..][i - 1];
        }
      }
    }
  }

  lemma {:induction false} EachIsAdded(parts: seq<string>, bound: nat)
    requires forall i :: 0 <= i < |parts| ==>
               parts[i] != "" && |parts[i]| < bound && (|parts[i]| > 1 ==> parts[i][0] != '[')
    ensures AllAdded(true, parts, bound) == parts
    decreases |parts|
  {
    if parts != [] {
      EachIsAdded(parts[1..], bound);
      PlainIsAdded(true, parts[0]);
      assert parts == [parts[0]] + parts[1..];
    }
  }

  // ---------------------------------------------------------------- one use

  /** "--name=value" adds the value. */
  lemma LongAdds(apps: seq<AppSpec>, states: seq<AppState>, a: nat, o: nat, name: string, value: string)
    requires Fits(apps, states) && HasOption(apps, a, o) && LongName(name) && value != ""
    ensures Adds(apps, states, Attached(a, o, LONG, LongToken(name, value)), o,
                 AddedBy(apps[a].options[o].allowExtra, value))
  {
    SplitLong(name, value);
    UseAdds(apps, states, Attached(a, o, LONG, LongToken(name, value)), o);
  }

  /** "/name:value" adds the value. */
  lemma WindowsAdds(apps: seq<AppSpec>, states: seq<AppState>, a: nat, o: nat, name: string, value: string)
    requires Fits(apps, states) && HasOption(apps, a, o) && value != ""
    requires name != "" && Begins(name[0]) && ':' !in name
    ensures Adds(apps, states, Attached(a, o, WINDOWS, "/" + (name + [':'] + value)), o,
                 AddedBy(apps[a].options[o].allowExtra, value))
  {
    SplitWindows(name, value);
    UseAdds(apps, states, Attached(a, o, WINDOWS, "/" + (name + [':'] + value)), o);
  }

  /** "-crest" adds the rest. */
  lemma ShortAdds(apps: seq<AppSpec>, states: seq<AppState>, a: nat, o: nat, c: char, rest: string)
    requires Fits(apps, states) && HasOption(apps, a, o) && Begins(c) && rest != ""
    ensures Adds(apps, states, Attached(a, o, SHORT, ['-', c] + rest), o,
                 AddedBy(apps[a].options[o].allowExtra, rest))
  {
    SplitShort(c, rest);
    UseAdds(apps, states, Attached(a, o, SHORT, ['-', c] + rest), o);
  }

  /** A flag adds its own text, or the one written behind the sign, unless that is
      empty or "{}"; of a run of short flags the rest comes back with a dash. */
  lemma FlagAdds(
    apps: seq<AppSpec>, states: seq<AppState>, a: nat, o: nat, name: string, value: string, c: char, rest: string)
    requires Fits(apps, states) && HasOption(apps, a, o) && !apps[a].options[o].allowExtra
    requires LongName(name) && Begins(c)
    ensures Adds(apps, states, Flag(a, o, LONG, "--" + name), o, [apps[a].options[o].flagValue])
    ensures Adds(apps, states, Flag(a, o, LONG, LongToken(name, value)), o,
                 [if value == "" || value == "{}" then apps[a].options[o].flagValue else value])
    ensures Adds(apps, states, Flag(a, o, SHORT, ['-', c] + rest), o, [apps[a].options[o].flagValue])
    ensures PushedBack(Flag(a, o, SHORT, ['-', c] + rest)) == if rest == "" then "" else "-" + rest
  {
    SplitLong(name, value);
    SplitShort(c, rest);
    UseAdds(apps, states, Flag(a, o, LONG, "--" + name), o);
    UseAdds(apps, states, Flag(a, o, LONG, LongToken(name, value)), o);
    UseAdds(apps, states, Flag(a, o, SHORT, ['-', c] + rest), o);
  }

  /** An argument that is a value or a positional adds itself. */
  lemma TokenAdds(apps: seq<AppSpec>, states: seq<AppState>, a: nat, o: nat, token: string)
    requires Fits(apps, states) && HasOption(apps, a, o)
    ensures Adds(apps, states, Value(a, o, token), o, AddedBy(apps[a].options[o].allowExtra, token))
    ensures Adds(apps, states, Positional(a, o, token), o, AddedBy(apps[a].options[o].allowExtra, token))
  {
    UseAdds(apps, states, Value(a, o, token), o);
    UseAdds(apps, states, Positional(a, o, token), o);
  }

  // ---------------------------------------------------------------- whole readings

  /** The first option of the app with this long name. */
  predicate FirstLong(app: AppSpec, o: nat, name: string) {
    o < |app.options| && name in app.options[o].lnames
    && forall k :: 0 <= k < o ==> name !in app.options[k].lnames
  }

  /** An option for a single value. */
  predicate Single(spec: OptionSpec) {
    spec.typeMin <= 1 && spec.typeMax == 1 && spec.expectedMin <= 1 && spec.expectedMax == 1 && !spec.allowExtra
  }

  lemma SingleLimits(spec: OptionSpec)
    requires Single(spec)
    ensures spec.ItemsMax() == 1 && spec.MinNum() <= 1
  {
  }

  predicate NobodysName(apps: seq<AppSpec>, token: string) {
    forall c :: 0 <= c < |apps| ==> token !in apps[c].names
  }

  /** Where an app has its turn, "--name=value" is a use of its option of that name. */
  lemma LongIsNext(
    apps: seq<AppSpec>, original: seq<string>, log: seq<Use>, a: nat, o: nat, name: string, value: string)
    requires a < |apps| && FirstLong(apps[a], o, name) && Single(apps[a].options[o])
    requires LongName(name) && value != "" && NobodysName(apps, LongToken(name, value))
    requires Remaining(original, log) == Some([LongToken(name, value)])
    requires Idle(apps, Replay(apps, log), log, [LongToken(name, value)]) && !Marked(log, a)
    requires Current(apps, log) == a
    ensures JustifiedNext(apps, original, log, Attached(a, o, LONG, LongToken(name, value)))
  {
    var token := LongToken(name, value);
    SplitLong(name, value);
    SingleLimits(apps[a].options[o]);
    RecognizeLong(apps, Replay(apps, log), a, name, value, true);
    assert Answers(apps[a].options[o], LONG, name);
    assert NamesOption(apps[a], o, LONG, token);
  }

  lemma LastIsTaken(args: seq<string>, before: seq<Use>, u: Use)
    requires Remaining(args, before) == Some([u.token]) && !u.Filler? && PushedBack(u) == ""
    ensures Remaining(args, before + [u]) == Some([])
  {
    assert (before + [u])[..|before|] == before && [u.token][1..] == [];
    assert Advance([u.token], u) == Some([]);
  }

  /** With the one text that it wants an option is complete. */
  lemma OneIsEnough(apps: seq<AppSpec>, states: seq<AppState>, log: seq<Use>, a: nat, o: nat)
    requires Fits(apps, states) && HasOption(apps, a, o) && Single(apps[a].options[o])
    requires EndsIn(log, a, o) && Collected(apps, log, a, o) == 1
    ensures Idle(apps, states, log, [])
  {
    SingleLimits(apps[a].options[o]);
    assert Unclosed(log) == log;
    assert Due(apps, log, a, o).None?;
    assert Sated(apps, states, log, a, o, []);
  }

  /** After it nothing more can come. */
  lemma LongIsLast(
    apps: seq<AppSpec>, original: seq<string>, log: seq<Use>, a: nat, o: nat, name: string, value: string)
    requires a < |apps| && FirstLong(apps[a], o, name) && Single(apps[a].options[o])
    requires LongName(name) && value != ""
    requires Remaining(original, log) == Some([LongToken(name, value)])
    ensures Ended(apps, original, log + [Attached(a, o, LONG, LongToken(name, value))])
  {
    var u := Attached(a, o, LONG, LongToken(name, value));
    var longer := log + [u];
    LastIsTaken(original, log, u);
    SplitLong(name, value);
    PlainIsAdded(false, value);
    assert Collected(apps, longer, a, o) == 1;
    OneIsEnough(apps, Replay(apps, longer), longer, a, o);
  }

  /** The reading of "--name=value" alone: the root's option of that name has the
      value, and nothing else does. */
  lemma ReadLongOption(apps: seq<AppSpec>, o: nat, name: string, value: string, log: seq<Use>)
    requires apps != [] && FirstLong(apps[0], o, name) && Single(apps[0].options[o])
    requires LongName(name) && value != "" && NobodysName(apps, LongToken(name, value))
    requires AllJustified(apps, [LongToken(name, value)], log) && Ended(apps, [LongToken(name, value)], log)
    ensures log == [Attached(0, o, LONG, LongToken(name, value))]
    ensures Replay(apps, log)[0].results[o] == [value]
  {
    var args, u := [LongToken(name, value)], Attached(0, o, LONG, LongToken(name, value));
    LongIsNext(apps, args, [], 0, o, name, value);
    LogAppend(apps, args, [], u);
    LongIsLast(apps, args, [], 0, o, name, value);
    assert [] + [u] == [u];
    OneReading(apps, args, log, [u]);
    LongAdds(apps, Fresh(apps), 0, o, name, value);
    PlainIsAdded(false, value);
    assert [u][..0] == [];
  }

  // "--name" and a value of its own

  lemma NameIsNext(apps: seq<AppSpec>, args: seq<string>, o: nat, name: string)
    requires apps != [] && FirstLong(apps[0], o, name) && Single(apps[0].options[o])
    requires LongName(name) && NobodysName(apps, "--" + name) && args != [] && args[0] == "--" + name
    ensures JustifiedNext(apps, args, [], Named(0, o, LONG, "--" + name))
  {
    SplitLong(name, "");
    SingleLimits(apps[0].options[o]);
    NoSuchSubcommand(apps, Fresh(apps), 0, "--" + name, true);
    assert ("--" + name)[2] == name[0];
    assert Recognize(apps, Fresh(apps), 0, "--" + name, true) == LONG;
    assert Answers(apps[0].options[o], LONG, name);
    assert NamesOption(apps[0], o, LONG, "--" + name);
  }

  /** Below its minimum the option takes any argument. */
  lemma ValueIsNext(apps: seq<AppSpec>, args: seq<string>, o: nat, token: string, value: string)
    requires apps != [] && HasOption(apps, 0, o) && Single(apps[0].options[o])
    requires apps[0].options[o].typeMin == 1 == apps[0].options[o].expectedMin
    requires Remaining(args, [Named(0, o, LONG, token)]) == Some([value])
    ensures JustifiedNext(apps, args, [Named(0, o, LONG, token)], Value(0, o, value))
  {
    var before := [Named(0, o, LONG, token)];
    assert Collected(apps, before, 0, o) == 0;
    assert WantsMore(apps, Replay(apps, before), before, 0, o, [value]);
  }

  lemma ValueIsLast(apps: seq<AppSpec>, args: seq<string>, before: seq<Use>, o: nat, value: string)
    requires apps != [] && HasOption(apps, 0, o) && Single(apps[0].options[o])
    requires apps[0].options[o].typeMin == 1 == apps[0].options[o].expectedMin
    requires before != [] && before[|before| - 1].Named? && Remaining(args, before) == Some([value])
    ensures Ended(apps, args, before + [Value(0, o, value)])
  {
    var u := Value(0, o, value);
    var longer := before + [u];
    LastIsTaken(args, before, u);
    PlainIsAdded(false, value);
    assert longer[..|before|] == before;
    assert Collected(apps, before, 0, o) == 0 && Collected(apps, longer, 0, o) == 1;
    OneIsEnough(apps, Replay(apps, longer), longer, 0, o);
  }

  /** The reading of "--name" and one more argument: where the option wants just one
      value it is that argument, whatever it looks like. */
  lemma ReadNextValue(apps: seq<AppSpec>, o: nat, name: string, value: string, log: seq<Use>)
    requires apps != [] && FirstLong(apps[0], o, name) && Single(apps[0].options[o])
    requires apps[0].options[o].typeMin == 1 == apps[0].options[o].expectedMin
    requires LongName(name) && NobodysName(apps, "--" + name)
    requires AllJustified(apps, ["--" + name, value], log) && Ended(apps, ["--" + name, value], log)
    ensures log == [Named(0, o, LONG, "--" + name)] + [Value(0, o, value)]
    ensures Replay(apps, log)[0].results[o] == [value]
  {
    var args, u, v := ["--" + name, value], Named(0, o, LONG, "--" + name), Value(0, o, value);
    NameIsNext(apps, args, o, name);
    LogAppend(apps, args, [], u);
    assert [] + [u] == [u];
    NameTaken(u, value);
    ValueIsNext(apps, args, o, "--" + name, value);
    LogAppend(apps, args, [u], v);
    ValueIsLast(apps, args, [u], o, value);
    OneReading(apps, args, log, [u] + [v]);
    ValueState(apps, o, u, value);
  }

  lemma NameTaken(u: Use, value: string)
    requires u.Named?
    ensures Remaining([u.token, value], [u]) == Some([value])
  {
    assert [u][..0] == [] && [u.token, value][1..] == [value];
  }

  lemma ValueState(apps: seq<AppSpec>, o: nat, u: Use, value: string)
    requires apps != [] && HasOption(apps, 0, o) && !apps[0].options[o].allowExtra && u.Named?
    ensures Replay(apps, [u] + [Value(0, o, value)])[0].results[o] == [value]
  {
    assert ([u] + [Value(0, o, value)])[..1] == [u] && [u][..0] == [];
    assert Replay(apps, [u]) == Fresh(apps);
    TokenAdds(apps, Fresh(apps), 0, o, value);
    PlainIsAdded(false, value);
  }

  /** A name by which the root knows this subcommand first. */
  predicate FirstSubcommand(apps: seq<AppSpec>, c: nat, name: string) {
    && apps != [] && c < |apps| && c in apps[0].subcommands && !apps[c].disabled && name in apps[c].names
    && forall d :: 0 <= d < |apps| && d != c ==> name !in apps[d].names
  }

  /** The root asks for no positional argument. */
  predicate NothingWanted(apps: seq<AppSpec>) {
    && apps != []
    && forall o :: 0 <= o < |apps[0].options| ==> !(apps[0].options[o].positional && apps[0].options[o].required)
  }

  lemma {:induction false} NoneWanted(apps: seq<AppSpec>, states: seq<AppState>, n: nat)
    requires NothingWanted(apps) && Fits(apps, states) && n <= |apps[0].options|
    ensures WantedBy(apps, states, 0, n) == 0
  {
    if n > 0 {
      NoneWanted(apps, states, n - 1);
    }
  }

  lemma SubcommandIsFound(apps: seq<AppSpec>, c: nat, name: string)
    requires WellFormed(apps) && FirstSubcommand(apps, c, name)
    ensures FindSubcommand(apps, Fresh(apps), 0, name, true) == Some(c)
  {
    var i :| 0 <= i < |apps[0].subcommands| && apps[0].subcommands[i] == c;
    assert 0 < c && Fresh(apps)[c].parsed == 0;
    assert Matches(apps, Fresh(apps), c, name, true);
    var found := FirstMatch(apps, Fresh(apps), apps[0].subcommands, name, true);
    assert found.Some?;
  }

  lemma SubcommandIsNext(apps: seq<AppSpec>, c: nat, name: string, rest: seq<string>)
    requires WellFormed(apps) && FirstSubcommand(apps, c, name) && NothingWanted(apps) && name != "--"
    ensures JustifiedNext(apps, [name] + rest, [], Subcommand(0, c, name, true))
    ensures Remaining([name] + rest, [Subcommand(0, c, name, true)]) == Some(rest)
  {
    var u := Subcommand(0, c, name, true);
    SubcommandIsFound(apps, c, name);
    NoneWanted(apps, Fresh(apps), |apps[0].options|);
    assert HasRoom(apps, Fresh(apps), 0);
    assert ValidSubcommand(apps, Fresh(apps), 0, name, true);
    assert [u][..0] == [] && ([name] + rest)[1..] == rest;
  }

  /** The reading of a subcommand and "--name=value": the subcommand was chosen, and
      its option of that name has the value. */
  lemma ReadSubcommandOption(
    apps: seq<AppSpec>, c: nat, sub: string, o: nat, name: string, value: string, log: seq<Use>)
    requires WellFormed(apps) && FirstSubcommand(apps, c, sub) && NothingWanted(apps) && sub != "--"
    requires FirstLong(apps[c], o, name) && Single(apps[c].options[o])
    requires LongName(name) && value != "" && NobodysName(apps, LongToken(name, value))
    requires AllJustified(apps, [sub] + [LongToken(name, value)], log)
    requires Ended(apps, [sub] + [LongToken(name, value)], log)
    ensures log == [Subcommand(0, c, sub, true)] + [Attached(c, o, LONG, LongToken(name, value))]
    ensures Replay(apps, log)[0].parsedSubcommands == [c] && Replay(apps, log)[c].results[o] == [value]
  {
    var args := [sub] + [LongToken(name, value)];
    var u, v := Subcommand(0, c, sub, true), Attached(c, o, LONG, LongToken(name, value));
    SubcommandIsNext(apps, c, sub, [LongToken(name, value)]);
    LogAppend(apps, args, [], u);
    assert [] + [u] == [u];
    ThenLong(apps, args, [u], c, o, name, value, log);
    SubcommandState(apps, c, sub, o, name, value);
  }

  lemma ThenLong(apps: seq<AppSpec>, args: seq<string>, before: seq<Use>, a: nat, o: nat, name: string, value: string,
                 log: seq<Use>)
    requires a < |apps| && FirstLong(apps[a], o, name) && Single(apps[a].options[o])
    requires LongName(name) && value != "" && NobodysName(apps, LongToken(name, value))
    requires AllJustified(apps, args, before) && Remaining(args, before) == Some([LongToken(name, value)])
    requires Idle(apps, Replay(apps, before), before, [LongToken(name, value)]) && !Marked(before, a)
    requires Current(apps, before) == a
    requires AllJustified(apps, args, log) && Ended(apps, args, log)
    ensures log == before + [Attached(a, o, LONG, LongToken(name, value))]
  {
    var u := Attached(a, o, LONG, LongToken(name, value));
    LongIsNext(apps, args, before, a, o, name, value);
    LogAppend(apps, args, before, u);
    LongIsLast(apps, args, before, a, o, name, value);
    OneReading(apps, args, log, before + [u]);
  }

  lemma SubcommandState(apps: seq<AppSpec>, c: nat, sub: string, o: nat, name: string, value: string)
    requires WellFormed(apps) && 0 < c < |apps| && o < |apps[c].options| && !apps[c].options[o].allowExtra
    requires LongName(name) && value != ""
    ensures var log := [Subcommand(0, c, sub, true)] + [Attached(c, o, LONG, LongToken(name, value))];
            Replay(apps, log)[0].parsedSubcommands == [c] && Replay(apps, log)[c].results[o] == [value]
  {
    var u, v := Subcommand(0, c, sub, true), Attached(c, o, LONG, LongToken(name, value));
    assert [u][..0] == [] && ([u] + [v])[..1] == [u];
    var states := Replay(apps, [u]);
    AfterSubcommand(apps, c, sub);
    LongAdds(apps, states, c, o, name, value);
    PlainIsAdded(false, value);
    SplitLong(name, value);
    assert Replay(apps, [u] + [v]) == ApplyUse(apps, states, v);
  }

  lemma AfterSubcommand(apps: seq<AppSpec>, c: nat, sub: string)
    requires 0 < c < |apps|
    ensures var states := Replay(apps, [Subcommand(0, c, sub, true)]);
            && states[0].parsedSubcommands == [c]
            && forall o :: 0 <= o < |apps[c].options| ==> states[c].results[o] == []
  {
    var u := Subcommand(0, c, sub, true);
    assert [u][..0] == [];
    assert Replay(apps, [u]) == ApplyUse(apps, Fresh(apps), u);
  }

  // ---------------------------------------------------------------- past the minimum

  /** Past its minimum an option takes no argument that names an option. */
  lemma NamesEndValues(apps: seq<AppSpec>, states: seq<AppState>, log: seq<Use>, a: nat, o: nat,
                       name: string, value: string, more: seq<string>)
    requires Fits(apps, states) && HasOption(apps, a, o) && Met(apps, log, a, o)
    requires LongName(name) && NobodysName(apps, LongToken(name, value))
    ensures !Justified(apps, states, log, [LongToken(name, value)] + more, Value(a, o, LongToken(name, value)))
  {
    RecognizeLong(apps, states, a, name, value, false);
  }

  /** An option with extra arguments, of an app that wants no positional, takes words ... */
  lemma WordsAreTaken(apps: seq<AppSpec>, states: seq<AppState>, log: seq<Use>, a: nat, o: nat,
                      word: string, more: seq<string>)
    requires Fits(apps, states) && HasOption(apps, a, o) && apps[a].options[o].allowExtra && EndsIn(log, a, o)
    requires word != "++" && (word != "" ==> word[0] != '-' && word[0] != '/') && NobodysName(apps, word)
    requires StillWanted(apps, Replay(apps, AtMinimum(apps, log, a, o)), a) == 0
    ensures Justified(apps, states, log, [word] + more, Value(a, o, word))
  {
    RecognizeWord(apps, states, a, word, false);
  }

  /** ... until a "--", which it uses up. */
  lemma DashesAreUsedUp(apps: seq<AppSpec>, states: seq<AppState>, log: seq<Use>, a: nat, o: nat, more: seq<string>)
    requires Fits(apps, states) && HasOption(apps, a, o) && apps[a].options[o].allowExtra
    requires EndsIn(log, a, o) && Met(apps, log, a, o)
    ensures Justified(apps, states, log, ["--"] + more, Closing(a, o, "--"))
  {
  }

  // ---------------------------------------------------------------- more readings

  /** The log of a use that nothing may follow is the only one. */
  lemma ReadAlone(apps: seq<AppSpec>, args: seq<string>, u: Use, log: seq<Use>)
    requires JustifiedNext(apps, args, [], u) && Ended(apps, args, [u])
    requires AllJustified(apps, args, log) && Ended(apps, args, log)
    ensures log == [u] && Replay(apps, log) == ApplyUse(apps, Fresh(apps), u)
  {
    LogAppend(apps, args, [], u);
    assert [] + [u] == [u];
    OneReading(apps, args, log, [u]);
    ReplayOne(apps, u);
  }

  lemma ReplayOne(apps: seq<AppSpec>, u: Use)
    ensures Replay(apps, [u]) == ApplyUse(apps, Fresh(apps), u)
  {
    assert [u][..0] == [];
    assert Replay(apps, []) == Fresh(apps);
  }

  lemma ReadTwo(apps: seq<AppSpec>, args: seq<string>, u: Use, v: Use, log: seq<Use>)
    requires JustifiedNext(apps, args, [], u) && JustifiedNext(apps, args, [u], v) && Ended(apps, args, [u, v])
    requires AllJustified(apps, args, log) && Ended(apps, args, log)
    ensures log == [u, v] && Replay(apps, log) == ApplyUse(apps, ApplyUse(apps, Fresh(apps), u), v)
  {
    LogAppend(apps, args, [], u);
    assert [] + [u] == [u];
    LogAppend(apps, args, [u], v);
    assert [u] + [v] == [u, v];
    OneReading(apps, args, log, [u, v]);
    ReplayTwo(apps, u, v);
  }

  lemma ReplayTwo(apps: seq<AppSpec>, u: Use, v: Use)
    ensures Replay(apps, [u, v]) == ApplyUse(apps, ApplyUse(apps, Fresh(apps), u), v)
  {
    ReplayOne(apps, u);
    assert [u, v][..1] == [u];
  }

  /** "--name" where no option has that name is left over. */
  lemma ReadUnknown(apps: seq<AppSpec>, name: string, log: seq<Use>)
    requires apps != [] && forall o :: 0 <= o < |apps[0].options| ==> name !in apps[0].options[o].lnames
    requires LongName(name) && NobodysName(apps, "--" + name)
    requires AllJustified(apps, ["--" + name], log) && Ended(apps, ["--" + name], log)
    ensures log == [LeftOver(0, LONG, "--" + name)] && Replay(apps, log)[0].missing == [(LONG, "--" + name)]
  {
    var token, u := "--" + name, LeftOver(0, LONG, "--" + name);
    UnknownIsNext(apps, name);
    LastIsTaken([token], [], u);
    assert [] + [u] == [u];
    ReadAlone(apps, [token], u, log);
  }

  lemma UnknownIsNext(apps: seq<AppSpec>, name: string)
    requires apps != [] && forall o :: 0 <= o < |apps[0].options| ==> name !in apps[0].options[o].lnames
    requires LongName(name) && NobodysName(apps, "--" + name)
    ensures JustifiedNext(apps, ["--" + name], [], LeftOver(0, LONG, "--" + name))
  {
    var token := "--" + name;
    SplitLong(name, "");
    NoSuchSubcommand(apps, Fresh(apps), 0, token, true);
    assert token[2] == name[0];
    assert Recognize(apps, Fresh(apps), 0, token, true) == LONG;
  }

  /** "--name" alone, where the option may do without a value, records the option's
      own text. */
  lemma ReadNameAlone(apps: seq<AppSpec>, o: nat, name: string, log: seq<Use>)
    requires apps != [] && FirstLong(apps[0], o, name) && Single(apps[0].options[o])
    requires apps[0].options[o].typeMin == 0 || apps[0].options[o].expectedMin == 0
    requires LongName(name) && NobodysName(apps, "--" + name)
    requires AllJustified(apps, ["--" + name], log) && Ended(apps, ["--" + name], log)
    ensures log == [Named(0, o, LONG, "--" + name), Filler(0, o, apps[0].options[o].flagValue)]
    ensures Replay(apps, log)[0].results[o] == [apps[0].options[o].flagValue]
  {
    var token, text := "--" + name, apps[0].options[o].flagValue;
    var u, v := Named(0, o, LONG, token), Filler(0, o, text);
    NameIsNext(apps, [token], o, name);
    LastIsTaken([token], [], u);
    assert [] + [u] == [u];
    OwnTextIsDue(apps, [token], u, o);
    ReadTwo(apps, [token], u, v, log);
    UseAdds(apps, Fresh(apps), v, o);
    PlainIsAdded(false, text);
  }

  lemma OwnTextIsDue(apps: seq<AppSpec>, args: seq<string>, u: Use, o: nat)
    requires apps != [] && HasOption(apps, 0, o) && Single(apps[0].options[o])
    requires apps[0].options[o].typeMin == 0 || apps[0].options[o].expectedMin == 0
    requires u.Named? && u.app == 0 && u.opt == o && Remaining(args, [u]) == Some([])
    ensures var v := Filler(0, o, apps[0].options[o].flagValue);
            JustifiedNext(apps, args, [u], v) && Ended(apps, args, [u, v])
  {
    var v := Filler(0, o, apps[0].options[o].flagValue);
    SingleLimits(apps[0].options[o]);
    assert Collected(apps, [u], 0, o) == 0;
    assert Optional(apps, [u], 0, o) && Met(apps, [u], 0, o);
    assert Due(apps, [u], 0, o) == Some(v.token);
    assert [u, v][..1] == [u];
  }

  /** After "--" the root's first positional that lacks results gets the next argument,
      whatever it looks like. */
  lemma ReadAfterMark(apps: seq<AppSpec>, o: nat, token: string, log: seq<Use>)
    requires apps != [] && apps[0].parent.None? && HasOption(apps, 0, o) && Lacks(apps, Fresh(apps), 0, o)
    requires forall k :: 0 <= k < o ==> !apps[0].options[k].positional
    requires AllJustified(apps, ["--", token], log) && Ended(apps, ["--", token], log)
    ensures log == [LeftOver(0, POSITIONAL_MARK, "--"), Positional(0, o, token)]
    ensures Replay(apps, log)[0].results[o] == AddedBy(apps[0].options[o].allowExtra, token)
  {
    var args, u, v := ["--", token], LeftOver(0, POSITIONAL_MARK, "--"), Positional(0, o, token);
    MarkIsNext(apps, args);
    assert [u][..0] == [] && args[1..] == [token];
    assert Remaining(args, [u]) == Some([token]);
    AfterMark(apps, o, token, u);
    LastIsTaken(args, [u], v);
    assert [u] + [v] == [u, v];
    ReadTwo(apps, args, u, v, log);
    TokenAdds(apps, ApplyUse(apps, Fresh(apps), u), 0, o, token);
  }

  lemma MarkIsNext(apps: seq<AppSpec>, args: seq<string>)
    requires apps != [] && args != [] && args[0] == "--"
    ensures JustifiedNext(apps, args, [], LeftOver(0, POSITIONAL_MARK, "--"))
  {
  }

  lemma AfterMark(apps: seq<AppSpec>, o: nat, token: string, u: Use)
    requires apps != [] && apps[0].parent.None? && HasOption(apps, 0, o) && Lacks(apps, Fresh(apps), 0, o)
    requires forall k :: 0 <= k < o ==> !apps[0].options[k].positional
    requires u == LeftOver(0, POSITIONAL_MARK, "--")
    ensures JustifiedNext(apps, ["--", token], [u], Positional(0, o, token))
  {
    var states := Replay(apps, [u]);
    assert [u][..0] == [] && ["--", token][1..] == [token];
    ReplayOne(apps, u);
    assert Lacks(apps, states, 0, o);
    TakerIsFirst(apps, states, 0, o);
    assert Marked([u], 0) && Current(apps, [u]) == 0;
  }

  lemma {:induction false} SomethingWanted(apps: seq<AppSpec>, states: seq<AppState>, o: nat, n: nat)
    requires apps != [] && Fits(apps, states) && o < n <= |apps[0].options|
    requires Lacks(apps, states, 0, o) && apps[0].options[o].required
    ensures WantedBy(apps, states, 0, n) > 0
  {
    if o < n - 1 {
      SomethingWanted(apps, states, o, n - 1);
    } else {
      assert Wants(apps, states, 0, o);
    }
  }

  /** While a required positional lacks results it gets the next word, even one that
      is the name of a subcommand. */
  lemma ReadWantedFirst(apps: seq<AppSpec>, c: nat, o: nat, token: string, log: seq<Use>)
    requires WellFormed(apps) && FirstSubcommand(apps, c, token) && token != "--"
    requires HasOption(apps, 0, o) && Lacks(apps, Fresh(apps), 0, o) && apps[0].options[o].required
    requires forall k :: 0 <= k < o ==> !apps[0].options[k].positional
    requires AllJustified(apps, [token], log) && Ended(apps, [token], log)
    ensures log == [Positional(0, o, token)]
  {
    var u := Positional(0, o, token);
    WantedIsNext(apps, c, o, token);
    LastIsTaken([token], [], u);
    assert [] + [u] == [u];
    ReadAlone(apps, [token], u, log);
  }

  lemma WantedIsNext(apps: seq<AppSpec>, c: nat, o: nat, token: string)
    requires WellFormed(apps) && FirstSubcommand(apps, c, token) && token != "--"
    requires HasOption(apps, 0, o) && Lacks(apps, Fresh(apps), 0, o) && apps[0].options[o].required
    requires forall k :: 0 <= k < o ==> !apps[0].options[k].positional
    ensures JustifiedNext(apps, [token], [], Positional(0, o, token))
  {
    SubcommandIsFound(apps, c, token);
    SomethingWanted(apps, Fresh(apps), o, |apps[0].options|);
    TakerIsFirst(apps, Fresh(apps), 0, o);
    assert Recognize(apps, Fresh(apps), 0, token, true) == SUBCOMMAND;
  }

  /** Two subcommands of the root, one after the other: the first, where it wants no
      positional itself, leaves the second to the root. */
  lemma ReadTwoSubcommands(apps: seq<AppSpec>, c: nat, sub: string, d: nat, sub2: string, log: seq<Use>)
    requires WellFormed(apps) && NothingWanted(apps) && sub != "--" && sub2 != "--" && c != d
    requires FirstSubcommand(apps, c, sub) && FirstSubcommand(apps, d, sub2)
    requires apps[0].maxSubcommands == 0 || apps[0].maxSubcommands > 1
    requires forall o :: 0 <= o < |apps[c].options| ==> !apps[c].options[o].positional
    requires AllJustified(apps, [sub] + [sub2], log) && Ended(apps, [sub] + [sub2], log)
    ensures log == [Subcommand(0, c, sub, true), Subcommand(0, d, sub2, true)]
    ensures Replay(apps, log)[0].parsedSubcommands == [c, d]
  {
    var args, u, v := [sub] + [sub2], Subcommand(0, c, sub, true), Subcommand(0, d, sub2, true);
    SubcommandIsNext(apps, c, sub, [sub2]);
    SecondIsNext(apps, args, u, d, sub2);
    LastIsTaken(args, [u], v);
    assert [u] + [v] == [u, v];
    assert Ended(apps, args, [u, v]);
    ReadTwo(apps, args, u, v, log);
    BothChosen(apps, u, v);
  }

  lemma BothChosen(apps: seq<AppSpec>, u: Use, v: Use)
    requires apps != [] && u.Subcommand? && v.Subcommand? && u.app == v.app == 0 && u.chosen && v.chosen
    requires 0 < u.com < |apps| && 0 < v.com < |apps|
    ensures Fits(apps, ApplyUse(apps, ApplyUse(apps, Fresh(apps), u), v))
            && ApplyUse(apps, ApplyUse(apps, Fresh(apps), u), v)[0].parsedSubcommands == [u.com, v.com]
  {
    UseFits(apps, Fresh(apps), u);
    UseFits(apps, ApplyUse(apps, Fresh(apps), u), v);
    KeepsChosen(apps, Fresh(apps), u);
    KeepsChosen(apps, ApplyUse(apps, Fresh(apps), u), v);
  }

  lemma SecondIsNext(apps: seq<AppSpec>, args: seq<string>, u: Use, d: nat, sub2: string)
    requires WellFormed(apps) && NothingWanted(apps) && sub2 != "--" && FirstSubcommand(apps, d, sub2)
    requires u.Subcommand? && u.app == 0 && u.chosen && u.com < |apps| && u.com in apps[0].subcommands && u.com != d
    requires apps[0].maxSubcommands == 0 || apps[0].maxSubcommands > 1
    requires forall o :: 0 <= o < |apps[u.com].options| ==> !apps[u.com].options[o].positional
    requires Remaining(args, [u]) == Some([sub2])
    ensures JustifiedNext(apps, args, [u], Subcommand(0, d, sub2, true))
  {
    var states, c := Replay(apps, [u]), u.com;
    ReplayOne(apps, u);
    assert states[0].parsedSubcommands == [c] && states[d].parsed == 0;
    SubcommandFound(apps, states, 0, sub2);
    SubcommandFound(apps, states, c, sub2);
    OnlyMatch(apps, states, d, sub2);
    NoneWanted(apps, states, |apps[0].options|);
    WantsNone(apps, states, c, |apps[c].options|);
    assert ParentOf(apps, c) == 0;
    assert HasRoom(apps, states, 0) && ValidSubcommand(apps, states, 0, sub2, true);
    assert Recognize(apps, states, c, sub2, true) == SUBCOMMAND;
    assert Leaves(apps, states, [u], c, sub2);
    assert Climbs(apps, states, [u], c, 0, sub2);
  }

  lemma {:induction false} WantsNone(apps: seq<AppSpec>, states: seq<AppState>, a: nat, n: nat)
    requires Fits(apps, states) && a < |apps| && n <= |apps[a].options|
    requires forall o :: 0 <= o < |apps[a].options| ==> !apps[a].options[o].positional
    ensures WantedBy(apps, states, a, n) == 0
  {
    if n > 0 {
      WantsNone(apps, states, a, n - 1);
    }
  }

  lemma OnlyMatch(apps: seq<AppSpec>, states: seq<AppState>, d: nat, name: string)
    requires WellFormed(apps) && Fits(apps, states) && FirstSubcommand(apps, d, name) && states[d].parsed == 0
    ensures FindSubcommand(apps, states, 0, name, true) == Some(d)
  {
    assert Matches(apps, states, d, name, true);
    var found := FirstMatch(apps, states, apps[0].subcommands, name, true);
    assert found.Some?;
  }

  // ---------------------------------------------------------------- limits over whole logs

  /** The root is never given more subcommands than it allows. */
  lemma {:induction false} RootRoom(apps: seq<AppSpec>, original: seq<string>, log: seq<Use>)
    requires WellFormed(apps) && AllJustified(apps, original, log) && apps[0].maxSubcommands > 0
    ensures |Replay(apps, log)[0].parsedSubcommands| <= apps[0].maxSubcommands
    decreases |log|
  {
    if log != [] {
      var n := |log| - 1;
      FrontJustified(apps, original, log);
      RootRoom(apps, original, log[..n]);
      LastJustified(apps, original, log);
      RootRoomNext(apps, Replay(apps, log[..n]), log[..n], Remaining(original, log[..n]).value, log[n]);
    }
  }

  lemma RootRoomNext(apps: seq<AppSpec>, states: seq<AppState>, front: seq<Use>, left: seq<string>, u: Use)
    requires WellFormed(apps) && Fits(apps, states) && apps[0].maxSubcommands > 0
    requires Justified(apps, states, front, left, u)
    requires |states[0].parsedSubcommands| <= apps[0].maxSubcommands
    ensures Fits(apps, ApplyUse(apps, states, u))
            && |ApplyUse(apps, states, u)[0].parsedSubcommands| <= apps[0].maxSubcommands
  {
    UseFits(apps, states, u);
    JustifiedApp(apps, states, front, left, u);
    if u.Subcommand? && u.app == 0 && u.chosen {
      RootHasRoom(apps, states, u.token);
    }
    KeepsChosen(apps, states, u);
  }

  lemma RootHasRoom(apps: seq<AppSpec>, states: seq<AppState>, token: string)
    requires WellFormed(apps) && Fits(apps, states)
    requires Recognize(apps, states, 0, token, true) == SUBCOMMAND
    ensures apps[0].maxSubcommands == 0 || |states[0].parsedSubcommands| < apps[0].maxSubcommands
  {
  }

  lemma KeepsChosen(apps: seq<AppSpec>, states: seq<AppState>, u: Use)
    requires Fits(apps, states) && apps != [] && u.app < |apps| && (u.Subcommand? ==> u.com < |apps|)
    ensures ApplyUse(apps, states, u)[0].parsedSubcommands == states[0].parsedSubcommands + ChosenIn(u, 0)
  {
  }

  /** No use names the option or gives it a value. */
  predicate NeverNamed(log: seq<Use>, a: nat, o: nat) {
    forall i :: 0 <= i < |log| ==> !(OfOption(log[i]) && log[i].app == a && log[i].opt == o)
  }

  /** A positional option without a name and without extra arguments never gets more
      than the values it wants at least. */
  lemma PositionalBound(apps: seq<AppSpec>, original: seq<string>, log: seq<Use>, a: nat, o: nat)
    requires AllJustified(apps, original, log) && HasOption(apps, a, o)
    requires var spec := apps[a].options[o]; spec.lnames == [] && spec.snames == [] && !spec.allowExtra
    ensures |Replay(apps, log)[a].results[o]| <= apps[a].options[o].typeMin * apps[a].options[o].expectedMin
  {
    PositionalLimit(apps, original, log, a, o);
  }

  lemma {:induction false} PositionalLimit(
    apps: seq<AppSpec>, original: seq<string>, log: seq<Use>, a: nat, o: nat)
    requires AllJustified(apps, original, log) && HasOption(apps, a, o)
    requires var spec := apps[a].options[o]; spec.lnames == [] && spec.snames == [] && !spec.allowExtra
    ensures NeverNamed(log, a, o)
    ensures |Replay(apps, log)[a].results[o]| <= apps[a].options[o].ItemsMin()
    decreases |log|
  {
    if log != [] {
      var n := |log| - 1;
      FrontJustified(apps, original, log);
      PositionalLimit(apps, original, log[..n], a, o);
      LastJustified(apps, original, log);
      PositionalNext(apps, original, log[..n], log[n], a, o);
      assert log == log[..n] + [log[n]];
    }
  }

  lemma LastJustified(apps: seq<AppSpec>, original: seq<string>, log: seq<Use>)
    requires log != [] && AllJustified(apps, original, log)
    ensures JustifiedNext(apps, original, log[..|log| - 1], log[|log| - 1])
  {
    assert JustifiedAt(apps, original, log, |log| - 1);
  }

  lemma PositionalNext(
    apps: seq<AppSpec>, original: seq<string>, front: seq<Use>, u: Use, a: nat, o: nat)
    requires HasOption(apps, a, o) && NeverNamed(front, a, o) && JustifiedNext(apps, original, front, u)
    requires var spec := apps[a].options[o]; spec.lnames == [] && spec.snames == [] && !spec.allowExtra
    requires |Replay(apps, front)[a].results[o]| <= apps[a].options[o].ItemsMin()
    ensures NeverNamed(front + [u], a, o)
    ensures |Replay(apps, front + [u])[a].results[o]| <= apps[a].options[o].ItemsMin()
  {
    assert (front + [u])[..|front|] == front;
    PositionalStep(apps, Replay(apps, front), front, Remaining(original, front).value, u, a, o);
  }

  lemma NamedBefore(log: seq<Use>, a: nat, o: nat)
    requires EndsIn(Unclosed(log), a, o)
    ensures !NeverNamed(log, a, o)
  {
    var open := Unclosed(log);
    assert open[|open| - 1] == log[|open| - 1];
  }

  /** The only uses that come to such an option are positional. */
  lemma OnlyPositional(
    apps: seq<AppSpec>, states: seq<AppState>, front: seq<Use>, left: seq<string>, u: Use, a: nat, o: nat)
    requires Fits(apps, states) && HasOption(apps, a, o) && NeverNamed(front, a, o)
    requires Justified(apps, states, front, left, u)
    requires apps[a].options[o].lnames == [] && apps[a].options[o].snames == []
    ensures (OfOption(u) || Continues(u)) ==> u.app != a || u.opt != o
    ensures u.Positional? && u.app == a && u.opt == o ==> Takes(apps, states, a, o)
  {
    if Continues(u) && u.app == a && u.opt == o && EndsIn(Unclosed(front), a, o) {
      NamedBefore(front, a, o);
    }
  }

  lemma PositionalStep(
    apps: seq<AppSpec>, states: seq<AppState>, front: seq<Use>, left: seq<string>, u: Use, a: nat, o: nat)
    requires Fits(apps, states) && HasOption(apps, a, o) && NeverNamed(front, a, o)
    requires Justified(apps, states, front, left, u)
    requires var spec := apps[a].options[o]; spec.lnames == [] && spec.snames == [] && !spec.allowExtra
    requires |states[a].results[o]| <= apps[a].options[o].ItemsMin()
    ensures !(OfOption(u) && u.app == a && u.opt == o)
    ensures Fits(apps, ApplyUse(apps, states, u))
            && |ApplyUse(apps, states, u)[a].results[o]| <= apps[a].options[o].ItemsMin()
  {
    OnlyPositional(apps, states, front, left, u, a, o);
    UseFits(apps, states, u);
    JustifiedApp(apps, states, front, left, u);
    UseByOwner(apps, states, u, a, o);
  }

  lemma JustifiedApp(apps: seq<AppSpec>, states: seq<AppState>, front: seq<Use>, left: seq<string>, u: Use)
    requires Fits(apps, states) && Justified(apps, states, front, left, u)
    ensures u.app < |apps| && (u.Subcommand? ==> u.com < |apps|)
  {
  }
}
