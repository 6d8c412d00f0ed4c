// The option tables of an app tree and what the parser looks up in them: how a
// token is taken apart, what it is recognised as, and which option or subcommand
// answers to it.
module ArgTables {
  import opened Wrappers
  import opened CliStrings
  import opened CheckedMultiply

  // ---------------------------------------------------------------- tables

  /** Names an option by its app and its place there. */
  datatype OptionRef = OptionRef(app: nat, opt: nat)

  /** An option as configured. `flagValue` is what it records when it is given
      no text of its own. */
  datatype OptionSpec = OptionSpec(
    lnames: seq<string>, snames: seq<string>, positional: bool, required: bool,
    typeMin: nat, typeMax: nat, expectedMin: nat, expectedMax: nat,
    allowExtra: bool, flagValue: string, needs: seq<OptionRef>, excludes: seq<OptionRef>)
  {
    function ItemsMin(): nat {
      typeMin * expectedMin
    }

    function ItemsMax(): nat {
      ExpectedItems(typeMax, expectedMax)
    }

    function MinNum(): nat {
      if typeMin < ItemsMin() then typeMin else ItemsMin()
    }

    function FlagText(input: string): string {
      if input == "" || input == "{}" then flagValue else input
    }

    /** A flag, which takes no value, takes no extra ones either. */
    predicate WellFormed() {
      typeMin <= typeMax && expectedMin <= expectedMax && (allowExtra ==> ItemsMax() > 0)
    }

    lemma MinimumHasType()
      requires WellFormed()
      ensures MinNum() > 0 ==> typeMax > 0
    {
    }
  }

  /** An app: the root, or a named subcommand of a parent that precedes it.
      `maxSubcommands` and `maxOptions` are 0 when there is no limit; `help` are
      the options that call for the help text. */
  datatype AppSpec = AppSpec(
    names: seq<string>, parent: Option<nat>, options: seq<OptionSpec>, subcommands: seq<nat>,
    disabled: bool, required: bool, minSubcommands: nat, maxSubcommands: nat,
    minOptions: nat, maxOptions: nat, help: seq<nat>, allowExtras: bool, windowsStyle: bool)

  ghost predicate WellFormed(apps: seq<AppSpec>) {
    && apps != [] && apps[0].parent.None?
    && (forall a: nat :: 0 < a < |apps| ==> apps[a].parent.Some? && apps[a].parent.value < a)
    && (forall a: nat, i :: a < |apps| && 0 <= i < |apps[a].subcommands| ==>
          var c := apps[a].subcommands[i]; a < c < |apps| && apps[c].parent == Some(a))
    && (forall a: nat, o :: a < |apps| && 0 <= o < |apps[a].options| ==> apps[a].options[o].WellFormed())
  }

  datatype Classifier = NONE | POSITIONAL_MARK | SHORT | LONG | WINDOWS | SUBCOMMAND | SUBCOMMAND_TERMINATOR

  // ---------------------------------------------------------------- splitting

  predicate ValidFirstChar(c: char) {
    'a' <= c <= 'z' || 'A' <= c <= 'Z' || '0' <= c <= '9' || c == '_' || c == '?' || c == '@'
  }

  /** An argument taken apart: the option name, the text after the sign, and
      what is left of a run of short names. */
  datatype Parts = Parts(name: string, value: string, rest: string)
  {
    /** Nothing but a name. */
    predicate Bare() {
      value == "" && rest == ""
    }
  }

  function SplitAt(s: string, from: nat, sign: char): Parts
    requires from <= |s|
  {
    var loc := Find(s, sign, from);
    if loc < |s| then Parts(s[from..loc], s[loc + 1..], "") else Parts(s[from..], "", "")
  }

  function SplitArg(kind: Classifier, s: string): Option<Parts> {
    match kind
    case LONG =>
      if |s| > 2 && s[..2] == "--" && ValidFirstChar(s[2]) then Some(SplitAt(s, 2, '=')) else None
    case SHORT =>
      if |s| > 1 && s[0] == '-' && ValidFirstChar(s[1]) then Some(Parts(s[1..2], "", s[2..])) else None
    case WINDOWS =>
      if |s| > 1 && s[0] == '/' && ValidFirstChar(s[1]) then Some(SplitAt(s, 1, ':')) else None
    case _ => None
  }

  predicate Answers(o: OptionSpec, kind: Classifier, name: string) {
    match kind
    case LONG => name in o.lnames
    case SHORT => name in o.snames
    case WINDOWS => name in o.lnames || name in o.snames
    case _ => false
  }

  /** The first option that answers to the name. */
  function FindOption(options: seq<OptionSpec>, kind: Classifier, name: string): (o: Option<nat>)
    ensures o.Some? ==> o.value < |options| && Answers(options[o.value], kind, name)
                        && forall k :: 0 <= k < o.value ==> !Answers(options[k], kind, name)
    ensures o.None? ==> forall k :: 0 <= k < |options| ==> !Answers(options[k], kind, name)
  {
    if options == [] then None
    else if Answers(options[0], kind, name) then Some(0)
    else match FindOption(options[1..], kind, name) case None => None case Some(k) => Some(k + 1)
  }

  // ---------------------------------------------------------------- state

  /** What parsing has gathered for one app. */
  datatype AppState = AppState(
    results: seq<seq<string>>, missing: seq<(Classifier, string)>, parsedSubcommands: seq<nat>, parsed: nat)

  predicate Fits(apps: seq<AppSpec>, states: seq<AppState>) {
    |states| == |apps| && forall a :: 0 <= a < |apps| ==> |states[a].results| == |apps[a].options|
  }

  // ---------------------------------------------------------------- lookups

  function Count(states: seq<AppState>, app: nat, opt: nat): nat
    requires app < |states| && opt < |states[app].results|
  {
    |states[app].results[opt]|
  }

  /** A positional option that still wants values. */
  predicate Wants(apps: seq<AppSpec>, states: seq<AppState>, app: nat, opt: nat)
    requires Fits(apps, states) && app < |apps|
  {
    opt < |apps[app].options| && apps[app].options[opt].positional
    && Count(states, app, opt) < apps[app].options[opt].ItemsMin()
  }

  predicate Waiting(apps: seq<AppSpec>, states: seq<AppState>, app: nat)
    requires Fits(apps, states) && app < |apps|
  {
    exists o: nat :: o < |apps[app].options| && Wants(apps, states, app, o)
  }

  /** How many values the required ones of the first `n` options still want. */
  function WantedBy(apps: seq<AppSpec>, states: seq<AppState>, app: nat, n: nat): nat
    requires Fits(apps, states) && app < |apps| && n <= |apps[app].options|
  {
    if n == 0 then 0
    else
      WantedBy(apps, states, app, n - 1)
      + if Wants(apps, states, app, n - 1) && apps[app].options[n - 1].required
        then apps[app].options[n - 1].ItemsMin() - Count(states, app, n - 1)
        else 0
  }

  function StillWanted(apps: seq<AppSpec>, states: seq<AppState>, app: nat): nat
    requires Fits(apps, states) && app < |apps|
  {
    WantedBy(apps, states, app, |apps[app].options|)
  }

  predicate Takes(apps: seq<AppSpec>, states: seq<AppState>, app: nat, opt: nat)
    requires Fits(apps, states) && app < |apps|
  {
    opt < |apps[app].options| && apps[app].options[opt].positional
    && (Count(states, app, opt) < apps[app].options[opt].ItemsMin() || apps[app].options[opt].allowExtra)
  }

  /** The first positional option from `opt` on that takes one more value, or the
      number of options when none does. */
  function Taker(apps: seq<AppSpec>, states: seq<AppState>, app: nat, opt: nat): (o: nat)
    requires Fits(apps, states) && app < |apps| && opt <= |apps[app].options|
    ensures opt <= o <= |apps[app].options| && (o < |apps[app].options| ==> Takes(apps, states, app, o))
    ensures forall k: nat :: opt <= k < o ==> !Takes(apps, states, app, k)
    decreases |apps[app].options| - opt
  {
    if opt == |apps[app].options| || Takes(apps, states, app, opt) then opt else Taker(apps, states, app, opt + 1)
  }

  predicate Matches(apps: seq<AppSpec>, states: seq<AppState>, c: nat, name: string, ignoreUsed: bool) {
    c < |apps| && c < |states| && !apps[c].disabled && name in apps[c].names && (states[c].parsed == 0 || !ignoreUsed)
  }

  function FirstMatch(
    apps: seq<AppSpec>, states: seq<AppState>, candidates: seq<nat>, name: string, ignoreUsed: bool): (com: Option<nat>)
    ensures com.Some? ==> com.value in candidates && Matches(apps, states, com.value, name, ignoreUsed)
    ensures com.None? ==> forall c :: c in candidates ==> !Matches(apps, states, c, name, ignoreUsed)
  {
    if candidates == [] then None
    else if Matches(apps, states, candidates[0], name, ignoreUsed) then Some(candidates[0])
    else FirstMatch(apps, states, candidates[1..], name, ignoreUsed)
  }

  function FindSubcommand(
    apps: seq<AppSpec>, states: seq<AppState>, app: nat, name: string, ignoreUsed: bool): Option<nat>
    requires app < |apps|
  {
    FirstMatch(apps, states, apps[app].subcommands, name, ignoreUsed)
  }

  predicate HasRoom(apps: seq<AppSpec>, states: seq<AppState>, app: nat)
    requires Fits(apps, states) && app < |apps|
  {
    apps[app].maxSubcommands == 0 || apps[app].maxSubcommands > |states[app].parsedSubcommands|
  }

  /** The parent, and for the root itself. */
  function ParentOf(apps: seq<AppSpec>, app: nat): (p: nat)
    requires app < |apps|
    ensures p <= app
  {
    match apps[app].parent
    case Some(p) => if p < app then p else app
    case None => app
  }

  predicate ValidSubcommand(apps: seq<AppSpec>, states: seq<AppState>, app: nat, name: string, ignoreUsed: bool)
    requires Fits(apps, states) && app < |apps|
    decreases app
  {
    (HasRoom(apps, states, app) && FindSubcommand(apps, states, app, name, ignoreUsed).Some?)
    || (ParentOf(apps, app) < app && ValidSubcommand(apps, states, ParentOf(apps, app), name, ignoreUsed))
  }

  function Recognize(apps: seq<AppSpec>, states: seq<AppState>, app: nat, current: string, ignoreUsed: bool): Classifier
    requires Fits(apps, states) && app < |apps|
  {
    if current == "--" then POSITIONAL_MARK
    else if ValidSubcommand(apps, states, app, current, ignoreUsed) then SUBCOMMAND
    else if SplitArg(LONG, current).Some? then LONG
    else if SplitArg(SHORT, current).Some? then
      if '0' <= current[1] <= '9' && FindOption(apps[app].options, SHORT, current[1..2]).None? then NONE else SHORT
    else if apps[app].windowsStyle && SplitArg(WINDOWS, current).Some? then WINDOWS
    else if current == "++" && apps[app].parent.Some? then SUBCOMMAND_TERMINATOR
    else NONE
  }

  predicate NamesOption(app: AppSpec, o: nat, kind: Classifier, t: string) {
    SplitArg(kind, t).Some? && FindOption(app.options, kind, SplitArg(kind, t).value.name) == Some(o)
  }

  /** Only "--" is the mark, wherever it is met. */
  lemma OnlyDashes(apps: seq<AppSpec>, states: seq<AppState>, app: nat, token: string, ignoreUsed: bool)
    requires Fits(apps, states) && app < |apps|
    ensures Recognize(apps, states, app, token, ignoreUsed) == POSITIONAL_MARK <==> token == "--"
  {
  }

  // ---------------------------------------------------------------- what a token splits into

  /** The characters that an option name may begin with, by their codes: letters,
      digits, the underscore, the question mark and the at sign. */
  predicate Begins(c: char) {
    var n := c as int;
    97 <= n <= 122 || 65 <= n <= 90 || 48 <= n <= 57 || n == 95 || n == 63 || n == 64
  }

  lemma BeginsIsValid(c: char)
    ensures Begins(c) <==> ValidFirstChar(c)
  {
  }

  lemma SplitAtSign(s: string, from: nat, sign: char, name: string, value: string)
    requires from <= |s| && s[from..] == name + [sign] + value && sign !in name
    ensures SplitAt(s, from, sign) == Parts(name, value, "")
  {
    var loc := from + |name|;
    assert s[loc] == s[from..][|name|] == sign;
    assert forall k :: from <= k < loc ==> s[k] == s[from..][k - from] && name[k - from] in name;
    assert Find(s, sign, from) == loc;
    assert s[from..loc] == s[from..][..|name|] == name;
    assert s[loc + 1..] == s[from..][|name| + 1..] == value;
  }

  lemma SplitWithoutSign(s: string, from: nat, sign: char)
    requires from <= |s| && sign !in s[from..]
    ensures SplitAt(s, from, sign) == Parts(s[from..], "", "")
  {
    assert forall k :: from <= k < |s| ==> s[k] == s[from..][k - from] && s[k] in s[from..];
  }

  /** "--name=value" is the name and the value, and "--name" the name alone. */
  lemma SplitLong(name: string, value: string)
    requires name != "" && Begins(name[0]) && '=' !in name
    ensures SplitArg(LONG, "--" + (name + ['='] + value)) == Some(Parts(name, value, ""))
    ensures SplitArg(LONG, "--" + name) == Some(Parts(name, "", ""))
  {
    BeginsIsValid(name[0]);
    var s := "--" + (name + ['='] + value);
    assert s[..2] == "--" && s[2..] == name + ['='] + value && s[2] == name[0];
    SplitAtSign(s, 2, '=', name, value);
    var t := "--" + name;
    assert t[..2] == "--" && t[2..] == name && t[2] == name[0];
    SplitWithoutSign(t, 2, '=');
  }

  /** "-c" followed by anything is the one letter and the rest. */
  lemma SplitShort(c: char, rest: string)
    requires Begins(c)
    ensures SplitArg(SHORT, ['-', c] + rest) == Some(Parts([c], "", rest))
  {
    BeginsIsValid(c);
    var s := ['-', c] + rest;
    assert s[1..2] == [c] && s[2..] == rest;
  }

  /** "/name:value" is the name and the value, and "/name" the name alone. */
  lemma SplitWindows(name: string, value: string)
    requires name != "" && Begins(name[0]) && ':' !in name
    ensures SplitArg(WINDOWS, "/" + (name + [':'] + value)) == Some(Parts(name, value, ""))
    ensures SplitArg(WINDOWS, "/" + name) == Some(Parts(name, "", ""))
  {
    BeginsIsValid(name[0]);
    var s := "/" + (name + [':'] + value);
    assert s[1..] == name + [':'] + value && s[1] == name[0];
    SplitAtSign(s, 1, ':', name, value);
    var t := "/" + name;
    assert t[1..] == name && t[1] == name[0];
    SplitWithoutSign(t, 1, ':');
  }

  /** Nothing else splits. */
  lemma SplitsOnlySo(kind: Classifier, s: string)
    requires SplitArg(kind, s).Some?
    ensures match kind
            case LONG => |s| > 2 && s[0] == s[1] == '-' && Begins(s[2])
            case SHORT => |s| > 1 && s[0] == '-' && Begins(s[1])
            case WINDOWS => |s| > 1 && s[0] == '/' && Begins(s[1])
            case _ => false
  {
    if kind == LONG {
      BeginsIsValid(s[2]);
      assert s[..2][0] == s[0] && s[..2][1] == s[1];
    } else {
      BeginsIsValid(s[1]);
    }
  }

  // ---------------------------------------------------------------- what a token is taken for

  /** A token that is no app's name is not taken for a subcommand. */
  lemma {:induction false} NoSuchSubcommand(
    apps: seq<AppSpec>, states: seq<AppState>, app: nat, token: string, ignoreUsed: bool)
    requires Fits(apps, states) && app < |apps|
    requires forall c :: 0 <= c < |apps| ==> token !in apps[c].names
    ensures !ValidSubcommand(apps, states, app, token, ignoreUsed)
    decreases app
  {
    if ParentOf(apps, app) < app {
      NoSuchSubcommand(apps, states, ParentOf(apps, app), token, ignoreUsed);
    }
  }

  lemma RecognizeLong(
    apps: seq<AppSpec>, states: seq<AppState>, app: nat, name: string, value: string, ignoreUsed: bool)
    requires Fits(apps, states) && app < |apps|
    requires name != "" && Begins(name[0]) && '=' !in name
    requires forall c :: 0 <= c < |apps| ==> "--" + (name + ['='] + value) !in apps[c].names
    ensures Recognize(apps, states, app, "--" + (name + ['='] + value), ignoreUsed) == LONG
  {
    NoSuchSubcommand(apps, states, app, "--" + (name + ['='] + value), ignoreUsed);
    SplitLong(name, value);
  }

  /** A letter after a dash is a short option. */
  lemma RecognizeShort(apps: seq<AppSpec>, states: seq<AppState>, app: nat, c: char, rest: string, ignoreUsed: bool)
    requires Fits(apps, states) && app < |apps| && Begins(c) && !('0' <= c <= '9')
    requires forall a :: 0 <= a < |apps| ==> ['-', c] + rest !in apps[a].names
    ensures Recognize(apps, states, app, ['-', c] + rest, ignoreUsed) == SHORT
  {
    var token := ['-', c] + rest;
    NoSuchSubcommand(apps, states, app, token, ignoreUsed);
    SplitShort(c, rest);
    if SplitArg(LONG, token).Some? {
      SplitsOnlySo(LONG, token);
    }
  }

  /** A digit after a dash is one only where some option has that name, else a value. */
  lemma RecognizeNumber(apps: seq<AppSpec>, states: seq<AppState>, app: nat, c: char, rest: string, ignoreUsed: bool)
    requires Fits(apps, states) && app < |apps| && '0' <= c <= '9'
    requires forall a :: 0 <= a < |apps| ==> ['-', c] + rest !in apps[a].names
    ensures Recognize(apps, states, app, ['-', c] + rest, ignoreUsed)
         == if exists o :: 0 <= o < |apps[app].options| && [c] in apps[app].options[o].snames then SHORT else NONE
  {
    var token := ['-', c] + rest;
    NoSuchSubcommand(apps, states, app, token, ignoreUsed);
    BeginsIsValid(c);
    SplitShort(c, rest);
    if SplitArg(LONG, token).Some? {
      SplitsOnlySo(LONG, token);
    }
    assert token[1..2] == [c];
  }

  /** What begins neither with a dash nor with a slash, and is no app's name, is a value. */
  lemma RecognizeWord(apps: seq<AppSpec>, states: seq<AppState>, app: nat, token: string, ignoreUsed: bool)
    requires Fits(apps, states) && app < |apps|
    requires token != "++" && (token != "" ==> token[0] != '-' && token[0] != '/')
    requires forall c :: 0 <= c < |apps| ==> token !in apps[c].names
    ensures Recognize(apps, states, app, token, ignoreUsed) == NONE
  {
    NoSuchSubcommand(apps, states, app, token, ignoreUsed);
    if SplitArg(LONG, token).Some? {
      SplitsOnlySo(LONG, token);
    }
    if SplitArg(SHORT, token).Some? {
      SplitsOnlySo(SHORT, token);
    }
    if SplitArg(WINDOWS, token).Some? {
      SplitsOnlySo(WINDOWS, token);
    }
  }

  // ---------------------------------------------------------------- what the lookups find

  /** A subcommand is found by any of its names unless it is disabled or, where used
      ones do not count, has been given before. */
  lemma SubcommandFound(apps: seq<AppSpec>, states: seq<AppState>, app: nat, name: string)
    requires Fits(apps, states) && app < |apps|
    ensures FindSubcommand(apps, states, app, name, false).Some? <==>
            exists c :: c in apps[app].subcommands && c < |apps| && !apps[c].disabled && name in apps[c].names
    ensures FindSubcommand(apps, states, app, name, true).Some? <==>
            exists c :: c in apps[app].subcommands && c < |apps| && !apps[c].disabled && name in apps[c].names
                        && states[c].parsed == 0
  {
    if c :| c in apps[app].subcommands && c < |apps| && !apps[c].disabled && name in apps[c].names {
      assert Matches(apps, states, c, name, false);
    }
    if c :| c in apps[app].subcommands && c < |apps| && !apps[c].disabled && name in apps[c].names
            && states[c].parsed == 0
    {
      assert Matches(apps, states, c, name, true);
    }
  }

  /** A positional option that has fewer results than it must have. */
  predicate Lacks(apps: seq<AppSpec>, states: seq<AppState>, app: nat, opt: nat)
    requires Fits(apps, states) && app < |apps| && opt < |apps[app].options|
  {
    var spec := apps[app].options[opt];
    spec.positional && |states[app].results[opt]| < spec.typeMin * spec.expectedMin
  }

  /** The next positional goes to the first option that lacks results or takes any number. */
  lemma TakerIsFirst(apps: seq<AppSpec>, states: seq<AppState>, app: nat, o: nat)
    requires Fits(apps, states) && app < |apps| && o < |apps[app].options|
    requires Lacks(apps, states, app, o) || (apps[app].options[o].positional && apps[app].options[o].allowExtra)
    requires forall k :: 0 <= k < o ==> !Lacks(apps, states, app, k)
                                        && !(apps[app].options[k].positional && apps[app].options[k].allowExtra)
    ensures Taker(apps, states, app, 0) == o
  {
    var taker := Taker(apps, states, app, 0);
    assert Takes(apps, states, app, o);
    assert taker < o ==> !Lacks(apps, states, app, taker);
  }

  /** An app waits for positionals exactly while one lacks results. */
  lemma WaitingIff(apps: seq<AppSpec>, states: seq<AppState>, app: nat)
    requires Fits(apps, states) && app < |apps|
    ensures Waiting(apps, states, app) <==>
            exists o :: 0 <= o < |apps[app].options| && Lacks(apps, states, app, o)
  {
    forall o: nat | o < |apps[app].options|
      ensures Wants(apps, states, app, o) <==> Lacks(apps, states, app, o)
    {
    }
  }

  /** Where one required positional at most lacks results, so many are still wanted
      as it lacks. */
  lemma {:induction false} WantedIsLacking(
    apps: seq<AppSpec>, states: seq<AppState>, app: nat, o: nat, n: nat)
    requires Fits(apps, states) && app < |apps| && o < |apps[app].options| && n <= |apps[app].options|
    requires forall k :: 0 <= k < |apps[app].options| && k != o ==>
               !(Lacks(apps, states, app, k) && apps[app].options[k].required)
    ensures var spec := apps[app].options[o];
            WantedBy(apps, states, app, n) ==
            if o < n && Lacks(apps, states, app, o) && spec.required
            then spec.typeMin * spec.expectedMin - |states[app].results[o]| else 0
  {
    if n > 0 {
      WantedIsLacking(apps, states, app, o, n - 1);
      assert Wants(apps, states, app, n - 1) <==> Lacks(apps, states, app, n - 1);
    }
  }

  /** The limits of an option in plain numbers. */
  lemma Limits(spec: OptionSpec)
    requires spec.WellFormed()
    ensures spec.MinNum() == if spec.typeMin == 0 || spec.expectedMin == 0 then 0 else spec.typeMin
    ensures spec.typeMax * spec.expectedMax < 0x8000_0000 ==> spec.ItemsMax() == spec.typeMax * spec.expectedMax
    ensures spec.typeMax * spec.expectedMax >= 0x8000_0000 ==> spec.ItemsMax() == 0x2000_0000
  {
    if spec.typeMin > 0 && spec.expectedMin > 0 {
      assert spec.typeMin * spec.expectedMin >= spec.typeMin * 1;
    }
  }
}
