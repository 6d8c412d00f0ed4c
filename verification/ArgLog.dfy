// What the argument parser does, as a log of uses: one entry for each argument or
// part of it, and one for each text that an option adds of its own. Which entry
// may come next is said here without reference to how the parser is written.
module ArgLog {
  import opened Wrappers
  import opened CliStrings
  import opened ArgTables

  /** One use of an argument. Filler records an option's own text and uses none. */
  datatype Use =
    | Named(app: nat, opt: nat, kind: Classifier, token: string)
    | Attached(app: nat, opt: nat, kind: Classifier, token: string)
    | Flag(app: nat, opt: nat, kind: Classifier, token: string)
    | Value(app: nat, opt: nat, token: string)
    | Filler(app: nat, opt: nat, token: string)
    | Positional(app: nat, opt: nat, token: string)
    | Subcommand(app: nat, com: nat, token: string, chosen: bool)
    | LeftOver(app: nat, kind: Classifier, token: string)
    | Closing(app: nat, opt: nat, token: string)
    | Separator(app: nat, token: string)

  /** The texts one add_result records: a bracketed list given to an option with
      extra arguments is taken apart at its commas. */
  function AddedBy(allowExtra: bool, s: string): seq<string>
    decreases |s|, 1
  {
    if allowExtra && |s| > 1 && s[0] == '[' && s[|s| - 1] == ']' then
      var pieces := Split(s[1..|s| - 1], ',');
      AllAdded(allowExtra, pieces, |s|)
    else [s]
  }

  function AllAdded(allowExtra: bool, pieces: seq<string>, bound: nat): seq<string>
    decreases bound, 0, |pieces|
  {
    if pieces == [] then []
    else
      (if pieces[0] == "" || |pieces[0]| >= bound then [] else AddedBy(allowExtra, pieces[0]))
      + AllAdded(allowExtra, pieces[1..], bound)
  }

  function AddResult(apps: seq<AppSpec>, states: seq<AppState>, app: nat, opt: nat, text: string): seq<AppState> {
    if app < |apps| && app < |states| && opt < |apps[app].options| && opt < |states[app].results| then
      var st := states[app];
      var added := AddedBy(apps[app].options[opt].allowExtra, text);
      states[app := st.(results := st.results[opt := st.results[opt] + added])]
    else states
  }

  function ValueOf(apps: seq<AppSpec>, u: Use): string
    requires u.Attached? || u.Flag?
  {
    match SplitArg(u.kind, u.token)
    case None => ""
    case Some(p) =>
      if u.Attached? then (if p.value != "" then p.value else p.rest)
      else if u.app < |apps| && u.opt < |apps[u.app].options| then apps[u.app].options[u.opt].FlagText(p.value)
      else ""
  }

  /** What a use does to the gathered results. */
  function ApplyUse(apps: seq<AppSpec>, states: seq<AppState>, u: Use): seq<AppState> {
    match u
    case Named(_, _, _, _) => states
    case Attached(a, o, _, _) => AddResult(apps, states, a, o, ValueOf(apps, u))
    case Flag(a, o, _, _) => AddResult(apps, states, a, o, ValueOf(apps, u))
    case Value(a, o, t) => AddResult(apps, states, a, o, t)
    case Filler(a, o, t) => AddResult(apps, states, a, o, t)
    case Positional(a, o, t) => AddResult(apps, states, a, o, t)
    case Subcommand(a, c, _, chosen) =>
      if a < |states| && c < |states| then
        var more := states[a].parsedSubcommands + if chosen then [c] else [];
        var st := states[a := states[a].(parsedSubcommands := more)];
        st[c := st[c].(parsed := st[c].parsed + 1)]
      else states
    case LeftOver(a, kind, t) =>
      if a < |states| then states[a := states[a].(missing := states[a].missing + [(kind, t)])] else states
    case Closing(_, _, _) => states
    case Separator(_, _) => states
  }

  function Fresh(apps: seq<AppSpec>): seq<AppState> {
    seq(|apps|, a requires 0 <= a < |apps| =>
      AppState(seq(|apps[a].options|, o => []), [], [], if a == 0 then 1 else 0))
  }

  function Replay(apps: seq<AppSpec>, log: seq<Use>): (states: seq<AppState>)
    ensures Fits(apps, states)
  {
    if log == [] then Fresh(apps)
    else
      var before := Replay(apps, log[..|log| - 1]);
      UseFits(apps, before, log[|log| - 1]);
      ApplyUse(apps, before, log[|log| - 1])
  }

  lemma UseFits(apps: seq<AppSpec>, states: seq<AppState>, u: Use)
    requires Fits(apps, states)
    ensures Fits(apps, ApplyUse(apps, states, u))
  {
  }

  // ---------------------------------------------------------------- arguments

  /** What a run of short flags leaves to be parsed next. */
  function PushedBack(u: Use): string {
    match u
    case Flag(_, _, kind, token) =>
      (match SplitArg(kind, token) case Some(p) => if p.rest == "" then "" else "-" + p.rest case None => "")
    case _ => ""
  }

  /** The arguments still to parse after a use of the first one. */
  function After(u: Use, args: seq<string>): seq<string>
    requires u.Filler? || args != []
  {
    if u.Filler? then args
    else if PushedBack(u) == "" then args[1..]
    else [PushedBack(u)] + args[1..]
  }

  /** A use takes the first argument, and none but that. */
  function Advance(args: seq<string>, u: Use): Option<seq<string>> {
    if u.Filler? then Some(args)
    else if args != [] && args[0] == u.token then Some(After(u, args))
    else None
  }

  /** The arguments that `log` leaves of the original ones. */
  function Remaining(original: seq<string>, log: seq<Use>): Option<seq<string>> {
    if log == [] then Some(original)
    else
      match Remaining(original, log[..|log| - 1])
      case None => None
      case Some(args) => Advance(args, log[|log| - 1])
  }

  /** The arguments before a use; None where what it pushed back is not in front. */
  function Before(u: Use, args: seq<string>): Option<seq<string>> {
    if u.Filler? then Some(args)
    else if PushedBack(u) == "" then Some([u.token] + args)
    else if args != [] && args[0] == PushedBack(u) then Some([u.token] + args[1..])
    else None
  }

  /** The arguments that `log` has used up, put back in front of `args`. */
  function Restore(log: seq<Use>, args: seq<string>): Option<seq<string>> {
    if log == [] then Some(args)
    else
      match Before(log[|log| - 1], args)
      case None => None
      case Some(earlier) => Restore(log[..|log| - 1], earlier)
  }

  lemma BeforeAfter(u: Use, args: seq<string>, left: seq<string>)
    ensures Before(u, left) == Some(args) <==> Advance(args, u) == Some(left)
  {
    if Before(u, left) == Some(args) && !u.Filler? && PushedBack(u) != "" {
      assert [PushedBack(u)] + args[1..] == left;
    }
    if Advance(args, u) == Some(left) && !u.Filler? {
      assert args == [u.token] + args[1..];
    }
  }

  /** Read backwards, a log gives the arguments that it uses up read forwards:
      no argument is invented, left out or used twice. */
  lemma {:induction false} RestoreRemaining(original: seq<string>, log: seq<Use>, left: seq<string>)
    ensures Restore(log, left) == Some(original) <==> Remaining(original, log) == Some(left)
    decreases |log|
  {
    if log != [] {
      var front, u := log[..|log| - 1], log[|log| - 1];
      match Before(u, left)
      case None =>
        if args :| Remaining(original, front) == Some(args) {
          BeforeAfter(u, args, left);
        }
      case Some(earlier) =>
        BeforeAfter(u, earlier, left);
        RestoreRemaining(original, front, earlier);
        if args :| Remaining(original, front) == Some(args) {
          BeforeAfter(u, args, left);
        }
    }
  }

  /** Total characters plus one for each argument. */
  function Measure(args: seq<string>): nat {
    if args == [] then 0 else |args[0]| + 1 + Measure(args[1..])
  }

  lemma PushedBackIsShorter(u: Use)
    ensures PushedBack(u) != "" ==> |PushedBack(u)| + 1 == |u.token|
  {
  }

  /** Every use makes the arguments fewer or shorter: a run of short flags comes
      back one character shorter. */
  lemma AfterIsSmaller(u: Use, args: seq<string>)
    requires !u.Filler? && args != [] && args[0] == u.token
    ensures Measure(After(u, args)) < Measure(args)
  {
    PushedBackIsShorter(u);
    if PushedBack(u) != "" {
      assert ([PushedBack(u)] + args[1..])[1..] == args[1..];
    }
  }

  // ---------------------------------------------------------------- the option in progress

  /** A use that names an option or gives it a value. */
  predicate OfOption(u: Use) {
    u.Named? || u.Attached? || u.Flag? || u.Value?
  }

  /** A use that goes on with the option named last. */
  predicate Continues(u: Use) {
    u.Value? || u.Filler? || u.Closing?
  }

  predicate EndsIn(log: seq<Use>, app: nat, opt: nat) {
    log != [] && var u := log[|log| - 1]; OfOption(u) && u.app == app && u.opt == opt
  }

  /** The log without a closing separator. */
  function Unclosed(log: seq<Use>): seq<Use> {
    if log != [] && log[|log| - 1].Closing? then log[..|log| - 1] else log
  }

  predicate HasOption(apps: seq<AppSpec>, app: nat, opt: nat) {
    app < |apps| && opt < |apps[app].options|
  }

  /** How many texts the option named last has got since it was named. */
  function Collected(apps: seq<AppSpec>, log: seq<Use>, app: nat, opt: nat): nat
    requires HasOption(apps, app, opt)
  {
    if log == [] then 0
    else
      var u := log[|log| - 1];
      match u
      case Attached(_, _, _, _) => |TextsOf(apps, u, app, opt)|
      case Value(_, _, _) => Collected(apps, log[..|log| - 1], app, opt) + |TextsOf(apps, u, app, opt)|
      case _ => 0
  }

  predicate Met(apps: seq<AppSpec>, log: seq<Use>, app: nat, opt: nat)
    requires HasOption(apps, app, opt)
  {
    Collected(apps, log, app, opt) >= apps[app].options[opt].MinNum()
  }

  /** The log as it was when the option had its minimum. */
  function AtMinimum(apps: seq<AppSpec>, log: seq<Use>, app: nat, opt: nat): seq<Use>
    requires HasOption(apps, app, opt)
  {
    if log != [] && log[|log| - 1].Value? && Met(apps, log[..|log| - 1], app, opt)
    then AtMinimum(apps, log[..|log| - 1], app, opt)
    else log
  }

  /** At its minimum the option could still take more. */
  predicate Optional(apps: seq<AppSpec>, log: seq<Use>, app: nat, opt: nat)
    requires HasOption(apps, app, opt)
  {
    var spec := apps[app].options[opt];
    spec.allowExtra || Collected(apps, AtMinimum(apps, log, app, opt), app, opt) < spec.ItemsMax()
  }

  /** The next argument is one more value of the option: below its minimum any
      is; after that one that looks like a value, while the option may have more
      and the required positionals do not need all arguments that are left. */
  predicate WantsMore(apps: seq<AppSpec>, states: seq<AppState>, log: seq<Use>, app: nat, opt: nat, left: seq<string>)
    requires Fits(apps, states) && HasOption(apps, app, opt)
  {
    var spec := apps[app].options[opt];
    left != [] &&
    (Met(apps, log, app, opt) ==>
       && Optional(apps, log, app, opt)
       && (Collected(apps, log, app, opt) < spec.ItemsMax() || spec.allowExtra)
       && Recognize(apps, states, app, left[0], false) == NONE
       && StillWanted(apps, Replay(apps, AtMinimum(apps, log, app, opt)), app) < |left|)
  }

  /** The next argument is a "--" that ends the values. */
  predicate Closes(apps: seq<AppSpec>, log: seq<Use>, app: nat, opt: nat, left: seq<string>)
    requires HasOption(apps, app, opt)
  {
    Met(apps, log, app, opt) && Optional(apps, log, app, opt) && left != [] && left[0] == "--"
  }

  /** The text of its own that the option is due: its flag text where it got
      nothing, an empty one where it got only part of a value. */
  function Due(apps: seq<AppSpec>, log: seq<Use>, app: nat, opt: nat): Option<string>
    requires HasOption(apps, app, opt)
  {
    var spec, n := apps[app].options[opt], Collected(apps, log, app, opt);
    if Optional(apps, log, app, opt) && spec.MinNum() == 0 && spec.ItemsMax() > 0 && n == 0
    then Some(spec.FlagText(""))
    else if spec.MinNum() > 0 && spec.typeMax > 0 && spec.typeMax != spec.MinNum() && n % spec.typeMax != 0
    then Some("")
    else None
  }

  /** The option that `log` ends in takes no more of what is left. */
  predicate Sated(apps: seq<AppSpec>, states: seq<AppState>, log: seq<Use>, app: nat, opt: nat, left: seq<string>)
    requires Fits(apps, states) && HasOption(apps, app, opt)
  {
    && Met(apps, Unclosed(log), app, opt)
    && (EndsIn(log, app, opt) ==>
          !WantsMore(apps, states, log, app, opt, left) && !Closes(apps, log, app, opt, left))
  }

  /** No option is in progress, or the one that is takes no more and is due nothing. */
  predicate Idle(apps: seq<AppSpec>, states: seq<AppState>, log: seq<Use>, left: seq<string>)
    requires Fits(apps, states)
  {
    var open := Unclosed(log);
    open != [] ==>
      var u := open[|open| - 1];
      OfOption(u) ==>
        && HasOption(apps, u.app, u.opt)
        && Sated(apps, states, log, u.app, u.opt, left)
        && Due(apps, open, u.app, u.opt).None?
  }

  /** The option in progress lacks values of its minimum. */
  predicate Short(apps: seq<AppSpec>, log: seq<Use>) {
    log != [] &&
    var u := log[|log| - 1];
    OfOption(u) && HasOption(apps, u.app, u.opt) && !Met(apps, log, u.app, u.opt)
  }

  // ---------------------------------------------------------------- turns

  /** The app has seen "--" since it was entered: all else is positional. */
  predicate Marked(log: seq<Use>, app: nat) {
    log != [] &&
    var u := log[|log| - 1];
    (u.LeftOver? && u.app == app && u.kind == POSITIONAL_MARK)
    || (!(u.Subcommand? && u.com == app) && Marked(log[..|log| - 1], app))
  }

  /** The log has only grown, and the apps below `n` see no difference in their marks. */
  ghost predicate Grows(before: seq<Use>, after: seq<Use>, n: nat) {
    before <= after && forall a: nat :: a < n ==> Marked(before, a) == Marked(after, a)
  }

  /** The app that has the word after these uses. */
  function Current(apps: seq<AppSpec>, log: seq<Use>): nat {
    if log == [] then 0
    else
      match log[|log| - 1]
      case Subcommand(_, c, _, _) => c
      case Separator(a, _) => if a < |apps| then ParentOf(apps, a) else a
      case u => u.app
  }

  /** A token that is tried as a positional: it looks like a value, or comes after
      "--", or names a subcommand while a required positional waits. */
  predicate AsPositional(apps: seq<AppSpec>, states: seq<AppState>, marked: bool, kind: Classifier, app: nat)
    requires Fits(apps, states) && app < |apps|
  {
    marked || kind == NONE || (kind == SUBCOMMAND && StillWanted(apps, states, app) > 0)
  }

  /** The subcommand of this app that the token may name once more. */
  function Repeats(apps: seq<AppSpec>, states: seq<AppState>, app: nat, token: string): Option<nat>
    requires Fits(apps, states) && app < |apps|
  {
    if HasRoom(apps, states, app) then FindSubcommand(apps, states, app, token, false) else None
  }

  /** An app leaves the token to its parent: it names a subcommand that is not
      this app's, or one that the parent may be given once more. */
  predicate HandsBack(
    apps: seq<AppSpec>, states: seq<AppState>, marked: bool, kind: Classifier, app: nat, token: string)
    requires Fits(apps, states) && app < |apps|
  {
    || (!marked && kind == SUBCOMMAND && StillWanted(apps, states, app) == 0
        && FindSubcommand(apps, states, app, token, true).None?)
    || (AsPositional(apps, states, marked, kind, app) && Taker(apps, states, app, 0) == |apps[app].options|
        && Repeats(apps, states, app, token).None?
        && Repeats(apps, states, ParentOf(apps, app), token).Some?)
  }

  predicate Leaves(apps: seq<AppSpec>, states: seq<AppState>, log: seq<Use>, app: nat, token: string)
    requires Fits(apps, states) && app < |apps|
  {
    HandsBack(apps, states, Marked(log, app), Recognize(apps, states, app, token, true), app, token)
  }

  /** From `from` up to `app`, every app on the way leaves the token to its parent. */
  predicate Climbs(apps: seq<AppSpec>, states: seq<AppState>, log: seq<Use>, from: nat, app: nat, token: string)
    requires Fits(apps, states) && from < |apps|
    decreases from
  {
    from == app
    || (ParentOf(apps, from) < from && Leaves(apps, states, log, from, token)
        && Climbs(apps, states, log, ParentOf(apps, from), app, token))
  }

  /** It is for `app` to say what the token is. */
  predicate MayAct(apps: seq<AppSpec>, states: seq<AppState>, log: seq<Use>, app: nat, token: string)
    requires Fits(apps, states)
  {
    Current(apps, log) < |apps| && Climbs(apps, states, log, Current(apps, log), app, token)
  }

  lemma {:induction false} ClimbsOn(
    apps: seq<AppSpec>, states: seq<AppState>, log: seq<Use>, from: nat, app: nat, token: string)
    requires Fits(apps, states) && from < |apps| && app < |apps|
    requires Climbs(apps, states, log, from, app, token)
    requires Leaves(apps, states, log, app, token) && ParentOf(apps, app) < app
    ensures Climbs(apps, states, log, from, ParentOf(apps, app), token)
    decreases from
  {
    if from != app {
      ClimbsOn(apps, states, log, ParentOf(apps, from), app, token);
    }
  }

  // ---------------------------------------------------------------- justification

  /** A token that no positional option takes, and no subcommand of this app or of
      its parent answers to. */
  predicate Unclaimed(
    apps: seq<AppSpec>, states: seq<AppState>, marked: bool, kind: Classifier, app: nat, token: string)
    requires Fits(apps, states) && app < |apps|
  {
    && AsPositional(apps, states, marked, kind, app)
    && Taker(apps, states, app, 0) == |apps[app].options|
    && Repeats(apps, states, app, token).None?
    && Repeats(apps, states, ParentOf(apps, app), token).None?
  }

  /** What an app makes of a token of this kind. */
  predicate Acts(apps: seq<AppSpec>, states: seq<AppState>, marked: bool, kind: Classifier, u: Use)
    requires Fits(apps, states) && u.app < |apps|
  {
    var app := apps[u.app];
    match u
    case Named(a, o, k, t) =>
      !marked && k == kind && NamesOption(app, o, k, t)
      && app.options[o].ItemsMax() > 0 && SplitArg(k, t).value.Bare()
    case Attached(a, o, k, t) =>
      !marked && k == kind && NamesOption(app, o, k, t)
      && app.options[o].ItemsMax() > 0 && !SplitArg(k, t).value.Bare()
    case Flag(a, o, k, t) => !marked && k == kind && NamesOption(app, o, k, t) && app.options[o].ItemsMax() == 0
    case Positional(a, o, t) =>
      AsPositional(apps, states, marked, kind, a) && o < |app.options| && Taker(apps, states, a, 0) == o
    case Subcommand(a, c, t, chosen) =>
      c < |apps| &&
      if chosen then
        !marked && kind == SUBCOMMAND && StillWanted(apps, states, a) == 0
        && FindSubcommand(apps, states, a, t, true) == Some(c)
      else
        AsPositional(apps, states, marked, kind, a) && Taker(apps, states, a, 0) == |app.options|
        && Repeats(apps, states, a, t) == Some(c)
    case LeftOver(a, k, t) =>
      (match k
       case NONE => Unclaimed(apps, states, marked, kind, a, t)
       case POSITIONAL_MARK => !marked && kind == POSITIONAL_MARK && (a == 0 || Waiting(apps, states, a))
       case _ => !marked && k == kind && SplitArg(k, t).Some?
                 && FindOption(app.options, k, SplitArg(k, t).value.name).None?)
    case Separator(a, t) =>
      !marked && a != 0
      && ((kind == POSITIONAL_MARK && !Waiting(apps, states, a)) || kind == SUBCOMMAND_TERMINATOR)
    case _ => false
  }

  /** The use by which an app's token names the option. */
  function NamingUse(app: AppSpec, a: nat, opt: nat, kind: Classifier, token: string): Use
    requires NamesOption(app, opt, kind, token)
  {
    if app.options[opt].ItemsMax() == 0 then Flag(a, opt, kind, token)
    else if SplitArg(kind, token).value.Bare() then Named(a, opt, kind, token)
    else Attached(a, opt, kind, token)
  }

  /** A naming use starts the count afresh and leaves the marks alone. */
  lemma NamingStartsAfresh(apps: seq<AppSpec>, log: seq<Use>, app: nat, opt: nat, u: Use)
    requires HasOption(apps, app, opt) && (u.Named? || u.Attached? || u.Flag?)
    ensures Grows(log, log + [u], app + 1) && AtMinimum(apps, log + [u], app, opt) == log + [u]
    ensures Collected(apps, log + [u], app, opt) == if u.Attached? then |TextsOf(apps, u, app, opt)| else 0
    ensures u.Named? ==> |TextsOf(apps, u, app, opt)| == 0
    ensures u.app == app && u.opt == opt && !u.Named? && !apps[app].options[opt].allowExtra ==>
              |TextsOf(apps, u, app, opt)| == 1
  {
    assert (log + [u])[..|log|] == log;
  }

  /** What the option in progress makes of the next argument, or adds of its own. */
  predicate GoesOn(apps: seq<AppSpec>, states: seq<AppState>, before: seq<Use>, left: seq<string>, u: Use)
    requires Fits(apps, states) && Continues(u)
  {
    && HasOption(apps, u.app, u.opt)
    && match u
       case Value(a, o, _) => EndsIn(before, a, o) && WantsMore(apps, states, before, a, o, left)
       case Closing(a, o, _) => EndsIn(before, a, o) && Closes(apps, before, a, o, left)
       case Filler(a, o, t) =>
         && EndsIn(Unclosed(before), a, o) && Sated(apps, states, before, a, o, left)
         && Due(apps, Unclosed(before), a, o) == Some(t)
  }

  /** The use is the one that the tables call for, in the state reached and with
      these arguments left. */
  predicate Justified(apps: seq<AppSpec>, states: seq<AppState>, before: seq<Use>, left: seq<string>, u: Use)
    requires Fits(apps, states)
  {
    && (u.Filler? || (left != [] && left[0] == u.token))
    && if Continues(u) then GoesOn(apps, states, before, left, u)
       else
         && u.app < |apps|
         && Idle(apps, states, before, left)
         && MayAct(apps, states, before, u.app, u.token)
         && Acts(apps, states, Marked(before, u.app), Recognize(apps, states, u.app, u.token, true), u)
  }

  /** The use may come next after these. */
  predicate JustifiedNext(apps: seq<AppSpec>, original: seq<string>, before: seq<Use>, u: Use) {
    var left := Remaining(original, before);
    left.Some? && Justified(apps, Replay(apps, before), before, left.value, u)
  }

  predicate JustifiedAt(apps: seq<AppSpec>, original: seq<string>, log: seq<Use>, i: nat)
    requires i < |log|
  {
    JustifiedNext(apps, original, log[..i], log[i])
  }

  predicate AllJustified(apps: seq<AppSpec>, original: seq<string>, log: seq<Use>) {
    forall i: nat :: i < |log| ==> JustifiedAt(apps, original, log, i)
  }

  /** Nothing more can be justified: all arguments are used and the option in
      progress, if any, is complete or short of values. */
  predicate Ended(apps: seq<AppSpec>, original: seq<string>, log: seq<Use>) {
    Remaining(original, log) == Some([]) && (Idle(apps, Replay(apps, log), log, []) || Short(apps, log))
  }

  // ---------------------------------------------------------------- one reading

  lemma ActsOnce(apps: seq<AppSpec>, states: seq<AppState>, marked: bool, kind: Classifier, u: Use, v: Use)
    requires Fits(apps, states) && u.app == v.app < |apps| && u.token == v.token
    requires Acts(apps, states, marked, kind, u) && Acts(apps, states, marked, kind, v)
    ensures u == v
  {
  }

  lemma ActsOrLeaves(apps: seq<AppSpec>, states: seq<AppState>, marked: bool, kind: Classifier, u: Use)
    requires Fits(apps, states) && u.app < |apps| && Acts(apps, states, marked, kind, u)
    ensures !HandsBack(apps, states, marked, kind, u.app, u.token)
  {
  }

  lemma {:induction false} ClimbsOnce(
    apps: seq<AppSpec>, states: seq<AppState>, log: seq<Use>, from: nat, a: nat, b: nat, token: string)
    requires Fits(apps, states) && from < |apps| && a < |apps| && b < |apps|
    requires Climbs(apps, states, log, from, a, token) && Climbs(apps, states, log, from, b, token)
    requires !Leaves(apps, states, log, a, token) && !Leaves(apps, states, log, b, token)
    ensures a == b
    decreases from
  {
    if from != a && from != b {
      ClimbsOnce(apps, states, log, ParentOf(apps, from), a, b, token);
    }
  }

  /** In any state at most one use is justified. */
  lemma JustifiedOnce(
    apps: seq<AppSpec>, states: seq<AppState>, before: seq<Use>, left: seq<string>, u: Use, v: Use)
    requires Fits(apps, states)
    requires Justified(apps, states, before, left, u) && Justified(apps, states, before, left, v)
    ensures u == v
  {
    if Continues(u) {
      ContinuesOnce(apps, states, before, left, u, v);
    } else if Continues(v) {
      ContinuesOnce(apps, states, before, left, v, u);
    } else {
      var t := u.token;
      ActsOrLeaves(apps, states, Marked(before, u.app), Recognize(apps, states, u.app, t, true), u);
      ActsOrLeaves(apps, states, Marked(before, v.app), Recognize(apps, states, v.app, t, true), v);
      ClimbsOnce(apps, states, before, Current(apps, before), u.app, v.app, t);
      ActsOnce(apps, states, Marked(before, u.app), Recognize(apps, states, u.app, t, true), u, v);
    }
  }

  /** A use that goes on is the only one justified. */
  lemma ContinuesOnce(
    apps: seq<AppSpec>, states: seq<AppState>, before: seq<Use>, left: seq<string>, u: Use, v: Use)
    requires Fits(apps, states) && Continues(u)
    requires Justified(apps, states, before, left, u) && Justified(apps, states, before, left, v)
    ensures u == v
  {
    if Continues(v) {
      assert EndsIn(Unclosed(before), u.app, u.opt) && EndsIn(Unclosed(before), v.app, v.opt);
      GoOnOnce(apps, states, before, left, u, v);
    } else {
      GoesOnOrIdle(apps, states, before, left, u);
    }
  }

  lemma GoOnOnce(
    apps: seq<AppSpec>, states: seq<AppState>, before: seq<Use>, left: seq<string>, u: Use, v: Use)
    requires Fits(apps, states) && Continues(u) && Continues(v) && u.app == v.app && u.opt == v.opt
    requires GoesOn(apps, states, before, left, u) && GoesOn(apps, states, before, left, v)
    requires !u.Filler? && !v.Filler? ==> left != [] && u.token == v.token == left[0]
    ensures u == v
  {
    if left != [] {
      OnlyDashes(apps, states, u.app, left[0], false);
    }
  }

  lemma GoesOnOrIdle(apps: seq<AppSpec>, states: seq<AppState>, before: seq<Use>, left: seq<string>, u: Use)
    requires Fits(apps, states) && Continues(u) && GoesOn(apps, states, before, left, u)
    ensures !Idle(apps, states, before, left)
  {
    if Idle(apps, states, before, left) {
      IdleMeans(apps, states, before, left, u.app, u.opt);
    }
  }

  lemma IdleMeans(
    apps: seq<AppSpec>, states: seq<AppState>, log: seq<Use>, left: seq<string>, app: nat, opt: nat)
    requires Fits(apps, states) && Idle(apps, states, log, left)
    requires EndsIn(Unclosed(log), app, opt)
    ensures HasOption(apps, app, opt)
    ensures Sated(apps, states, log, app, opt, left) && Due(apps, Unclosed(log), app, opt).None?
  {
  }

  lemma NothingAfterEnd(apps: seq<AppSpec>, states: seq<AppState>, before: seq<Use>, u: Use)
    requires Fits(apps, states) && (Idle(apps, states, before, []) || Short(apps, before))
    ensures !Justified(apps, states, before, [], u)
  {
    if u.Filler? && GoesOn(apps, states, before, [], u) {
      GoesOnOrIdle(apps, states, before, [], u);
    }
  }

  lemma {:induction false} OneReadingUpTo(
    apps: seq<AppSpec>, original: seq<string>, log: seq<Use>, other: seq<Use>, k: nat)
    requires AllJustified(apps, original, log) && k <= |log|
    requires AllJustified(apps, original, other) && Ended(apps, original, other)
    ensures k <= |other| && log[..k] == other[..k]
  {
    if k > 0 {
      var i := k - 1;
      OneReadingUpTo(apps, original, log, other, i);
      SameUse(apps, original, log, other, i);
      assert log[..k] == log[..i] + [log[i]] && other[..k] == other[..i] + [other[i]];
    }
  }

  lemma NextOnce(apps: seq<AppSpec>, original: seq<string>, before: seq<Use>, u: Use, v: Use)
    requires JustifiedNext(apps, original, before, u) && JustifiedNext(apps, original, before, v)
    ensures u == v
  {
    JustifiedOnce(apps, Replay(apps, before), before, Remaining(original, before).value, u, v);
  }

  lemma NoneNextAfterEnd(apps: seq<AppSpec>, original: seq<string>, log: seq<Use>, u: Use)
    requires Ended(apps, original, log)
    ensures !JustifiedNext(apps, original, log, u)
  {
    NothingAfterEnd(apps, Replay(apps, log), log, u);
  }

  lemma SameUse(apps: seq<AppSpec>, original: seq<string>, log: seq<Use>, other: seq<Use>, i: nat)
    requires AllJustified(apps, original, log) && i < |log| && log[..i] <= other
    requires AllJustified(apps, original, other) && Ended(apps, original, other)
    ensures i < |other| && other[i] == log[i]
  {
    var before := log[..i];
    assert JustifiedAt(apps, original, log, i);
    if before == other {
      NoneNextAfterEnd(apps, original, other, log[i]);
    } else {
      assert JustifiedAt(apps, original, other, i) && other[..i] == before;
      NextOnce(apps, original, before, log[i], other[i]);
    }
  }

  /** There is one reading of an argument vector: two logs of justified uses that
      cannot go on are equal. */
  lemma OneReading(apps: seq<AppSpec>, original: seq<string>, log: seq<Use>, other: seq<Use>)
    requires AllJustified(apps, original, log) && Ended(apps, original, log)
    requires AllJustified(apps, original, other) && Ended(apps, original, other)
    ensures log == other
  {
    OneReadingUpTo(apps, original, log, other, |log|);
    OneReadingUpTo(apps, original, other, log, |other|);
    assert log[..|log|] == log && other[..|other|] == other;
  }

  /** Nothing comes of no arguments. */
  lemma EmptyReading(apps: seq<AppSpec>, log: seq<Use>)
    requires AllJustified(apps, [], log)
    ensures log == []
  {
    if log != [] {
      assert JustifiedAt(apps, [], log, 0);
      NoneNextAfterEnd(apps, [], log[..0], log[0]);
    }
  }

  /** An argument that the option in progress wants becomes its value. */
  lemma WantedIsTaken(apps: seq<AppSpec>, original: seq<string>, log: seq<Use>, app: nat, opt: nat, u: Use)
    requires JustifiedNext(apps, original, log, u) && HasOption(apps, app, opt) && EndsIn(log, app, opt)
    requires WantsMore(apps, Replay(apps, log), log, app, opt, Remaining(original, log).value)
    ensures u == Value(app, opt, Remaining(original, log).value[0])
  {
    NextOnce(apps, original, log, u, Value(app, opt, Remaining(original, log).value[0]));
  }

  /** No option adds a text of its own twice. */
  lemma FillerOnce(apps: seq<AppSpec>, original: seq<string>, log: seq<Use>, u: Use)
    requires JustifiedNext(apps, original, log, u) && u.Filler?
    ensures log != [] && !log[|log| - 1].Filler?
  {
  }

  // ---------------------------------------------------------------- growing a log

  lemma LogAppend(apps: seq<AppSpec>, original: seq<string>, log: seq<Use>, u: Use)
    requires AllJustified(apps, original, log) && JustifiedNext(apps, original, log, u)
    ensures AllJustified(apps, original, log + [u])
  {
    var longer := log + [u];
    forall i: nat | i < |longer|
      ensures JustifiedAt(apps, original, longer, i)
    {
      if i < |log| {
        JustifiedLonger(apps, original, log, u, i);
      } else {
        assert longer[..|log|] == log;
      }
    }
  }

  lemma JustifiedLonger(apps: seq<AppSpec>, original: seq<string>, log: seq<Use>, u: Use, i: nat)
    requires AllJustified(apps, original, log) && i < |log|
    ensures JustifiedAt(apps, original, log + [u], i)
  {
    assert JustifiedAt(apps, original, log, i) && (log + [u])[..i] == log[..i];
  }

  lemma ReplayAppend(apps: seq<AppSpec>, original: seq<string>, log: seq<Use>, left: seq<string>, u: Use)
    requires Remaining(original, log) == Some(left) && (u.Filler? || (left != [] && left[0] == u.token))
    ensures Replay(apps, log + [u]) == ApplyUse(apps, Replay(apps, log), u)
    ensures Remaining(original, log + [u]) == Some(After(u, left))
  {
    assert (log + [u])[..|log|] == log;
  }

  /** The log explains everything: every use in it is justified, it leaves of the
      original arguments those that are left, and played forward it gives the
      results. */
  ghost predicate Explains(
    apps: seq<AppSpec>, original: seq<string>, log: seq<Use>, args: seq<string>, states: seq<AppState>)
  {
    && AllJustified(apps, original, log)
    && Remaining(original, log) == Some(args)
    && states == Replay(apps, log)
  }

  lemma OneMoreUse(
    apps: seq<AppSpec>, original: seq<string>, log: seq<Use>, args: seq<string>, states: seq<AppState>, u: Use)
    requires Fits(apps, states)
    requires Explains(apps, original, log, args, states) && Justified(apps, states, log, args, u)
    ensures Explains(apps, original, log + [u], After(u, args), ApplyUse(apps, states, u))
    ensures !u.Filler? ==> Measure(After(u, args)) < Measure(args)
  {
    LogAppend(apps, original, log, u);
    ReplayAppend(apps, original, log, args, u);
    if !u.Filler? {
      AfterIsSmaller(u, args);
    }
  }

  // ---------------------------------------------------------------- owners

  /** The texts that the log gives to one option, in order. */
  function TextsFor(apps: seq<AppSpec>, log: seq<Use>, app: nat, opt: nat): seq<string>
    requires app < |apps| && opt < |apps[app].options|
  {
    if log == [] then []
    else
      var u := log[|log| - 1];
      TextsFor(apps, log[..|log| - 1], app, opt) + TextsOf(apps, u, app, opt)
  }

  function TextsOf(apps: seq<AppSpec>, u: Use, app: nat, opt: nat): seq<string>
    requires app < |apps| && opt < |apps[app].options|
  {
    var allowExtra := apps[app].options[opt].allowExtra;
    if (u.Attached? || u.Flag?) && u.app == app && u.opt == opt then AddedBy(allowExtra, ValueOf(apps, u))
    else if (u.Value? || u.Filler? || u.Positional?) && u.app == app && u.opt == opt then AddedBy(allowExtra, u.token)
    else []
  }

  function LeftOf(u: Use, app: nat): seq<(Classifier, string)> {
    if u.LeftOver? && u.app == app then [(u.kind, u.token)] else []
  }

  function ChosenIn(u: Use, app: nat): seq<nat> {
    if u.Subcommand? && u.app == app && u.chosen then [u.com] else []
  }

  function LeftOversOf(log: seq<Use>, app: nat): seq<(Classifier, string)> {
    if log == [] then []
    else
      var u := log[|log| - 1];
      LeftOversOf(log[..|log| - 1], app) + LeftOf(u, app)
  }

  function ChosenBy(log: seq<Use>, app: nat): seq<nat> {
    if log == [] then []
    else
      var u := log[|log| - 1];
      ChosenBy(log[..|log| - 1], app) + ChosenIn(u, app)
  }

  /** Played forward, a log gives each option exactly its own texts, each app its
      own left-overs and the subcommands chosen in it, all in argument order. */
  lemma {:induction false} ReplayByOwner(
    apps: seq<AppSpec>, original: seq<string>, log: seq<Use>, app: nat, opt: nat)
    requires app < |apps| && opt < |apps[app].options|
    requires AllJustified(apps, original, log)
    ensures var states := Replay(apps, log);
            && states[app].results[opt] == TextsFor(apps, log, app, opt)
            && states[app].missing == LeftOversOf(log, app)
            && states[app].parsedSubcommands == ChosenBy(log, app)
    decreases |log|
  {
    if log != [] {
      var front, u := log[..|log| - 1], log[|log| - 1];
      FrontJustified(apps, original, log);
      ReplayByOwner(apps, original, front, app, opt);
      UseFits(apps, Replay(apps, front), u);
      UseByOwner(apps, Replay(apps, front), u, app, opt);
    }
  }

  lemma FrontJustified(apps: seq<AppSpec>, original: seq<string>, log: seq<Use>)
    requires log != [] && AllJustified(apps, original, log)
    ensures AllJustified(apps, original, log[..|log| - 1])
    ensures var u := log[|log| - 1]; u.app < |apps| && (u.Subcommand? ==> u.com < |apps|)
  {
    LastIsBounded(apps, original, log);
    PrefixJustified(apps, original, log, |log| - 1);
  }

  lemma LastIsBounded(apps: seq<AppSpec>, original: seq<string>, log: seq<Use>)
    requires log != [] && AllJustified(apps, original, log)
    ensures var u := log[|log| - 1]; u.app < |apps| && (u.Subcommand? ==> u.com < |apps|)
  {
    assert JustifiedAt(apps, original, log, |log| - 1);
  }

  lemma PrefixJustified(apps: seq<AppSpec>, original: seq<string>, log: seq<Use>, k: nat)
    requires AllJustified(apps, original, log) && k <= |log|
    ensures AllJustified(apps, original, log[..k])
  {
    forall i: nat | i < k
      ensures JustifiedAt(apps, original, log[..k], i)
    {
      assert JustifiedAt(apps, original, log, i) && log[..k][..i] == log[..i];
    }
  }

  lemma UseByOwner(apps: seq<AppSpec>, states: seq<AppState>, u: Use, app: nat, opt: nat)
    requires Fits(apps, states) && Fits(apps, ApplyUse(apps, states, u)) && HasOption(apps, app, opt)
    requires u.Subcommand? || u.LeftOver? ==> u.app < |apps|
    requires u.Subcommand? ==> u.com < |apps|
    ensures var before, after := states[app], ApplyUse(apps, states, u)[app];
            && after.results[opt] == before.results[opt] + TextsOf(apps, u, app, opt)
            && after.missing == before.missing + LeftOf(u, app)
            && after.parsedSubcommands == before.parsedSubcommands + ChosenIn(u, app)
  {
    match u
    case Attached(a, o, _, _) => AddedByOwner(apps, states, a, o, ValueOf(apps, u), app, opt);
    case Flag(a, o, _, _) => AddedByOwner(apps, states, a, o, ValueOf(apps, u), app, opt);
    case Value(a, o, t) => AddedByOwner(apps, states, a, o, t, app, opt);
    case Filler(a, o, t) => AddedByOwner(apps, states, a, o, t, app, opt);
    case Positional(a, o, t) => AddedByOwner(apps, states, a, o, t, app, opt);
    case _ =>
  }

  lemma AddedByOwner(apps: seq<AppSpec>, states: seq<AppState>, a: nat, o: nat, text: string, app: nat, opt: nat)
    requires Fits(apps, states) && app < |apps| && opt < |apps[app].options|
    ensures var after := AddResult(apps, states, a, o, text);
            && Fits(apps, after)
            && after[app].results[opt] == states[app].results[opt]
                 + (if a == app && o == opt then AddedBy(apps[app].options[opt].allowExtra, text) else [])
            && after[app].missing == states[app].missing
            && after[app].parsedSubcommands == states[app].parsedSubcommands
  {
  }
}
