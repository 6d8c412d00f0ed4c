// What is checked once all arguments have been read: calls for help, requirements
// and left-overs, each down the tree of the apps that were parsed.
module ArgChecks {
  import opened Wrappers
  import opened ArgTables

  /** The option has a result. */
  predicate Given(states: seq<AppState>, ref: OptionRef) {
    ref.app < |states| && ref.opt < |states[ref.app].results| && states[ref.app].results[ref.opt] != []
  }

  // ---------------------------------------------------------------- help

  /** Down some chain of subcommands chosen, to one that chose none, a help option
      was given. */
  predicate HelpAsked(apps: seq<AppSpec>, states: seq<AppState>, app: nat, above: bool)
    requires Fits(apps, states) && app < |apps|
    decreases |apps| - app
  {
    var asked := above || exists o :: o in apps[app].help && Given(states, OptionRef(app, o));
    if states[app].parsedSubcommands == [] then asked
    else exists c :: c in states[app].parsedSubcommands && app < c < |apps| && HelpAsked(apps, states, c, asked)
  }

  /** Subcommands chosen are among the app's own, which come after it. */
  predicate ChosenBelow(apps: seq<AppSpec>, states: seq<AppState>) {
    && |states| == |apps|
    && forall a :: 0 <= a < |apps| ==> forall c :: c in states[a].parsedSubcommands ==> a < c < |apps|
  }

  /** A help option given above is heard below. */
  lemma {:induction false} HelpFromAbove(apps: seq<AppSpec>, states: seq<AppState>, app: nat)
    requires Fits(apps, states) && app < |apps| && ChosenBelow(apps, states)
    ensures HelpAsked(apps, states, app, true)
    decreases |apps| - app
  {
    var chosen := states[app].parsedSubcommands;
    if chosen != [] {
      assert chosen[0] in chosen;
      HelpFromAbove(apps, states, chosen[0]);
    }
  }

  /** The root, and every subcommand chosen by one of these. */
  ghost predicate OnChain(apps: seq<AppSpec>, states: seq<AppState>, app: nat)
    requires Fits(apps, states)
    decreases app
  {
    && app < |apps|
    && (app == 0 || exists p :: 0 <= p < app && app in states[p].parsedSubcommands && OnChain(apps, states, p))
  }

  ghost predicate HelpGiven(apps: seq<AppSpec>, states: seq<AppState>, app: nat)
    requires app < |apps|
  {
    exists o :: o in apps[app].help && Given(states, OptionRef(app, o))
  }

  lemma {:induction false} HelpReachesUp(apps: seq<AppSpec>, states: seq<AppState>, app: nat)
    requires Fits(apps, states) && OnChain(apps, states, app)
    requires HelpAsked(apps, states, app, true) && (app == 0 || HelpAsked(apps, states, app, false))
    requires app != 0
    ensures HelpAsked(apps, states, 0, false)
    decreases app
  {
    var p :| 0 <= p < app && app in states[p].parsedSubcommands && OnChain(apps, states, p);
    HelpMonotone(apps, states, app);
    if p == 0 {
      HelpPasses(apps, states, 0, app, false);
    } else {
      HelpPasses(apps, states, p, app, false);
      HelpPasses(apps, states, p, app, true);
      HelpReachesUp(apps, states, p);
    }
  }

  lemma HelpPasses(apps: seq<AppSpec>, states: seq<AppState>, p: nat, c: nat, above: bool)
    requires Fits(apps, states) && p < c < |apps| && c in states[p].parsedSubcommands
    requires HelpAsked(apps, states, c, true) && HelpAsked(apps, states, c, false)
    ensures HelpAsked(apps, states, p, above)
  {
  }

  lemma {:induction false} HelpMonotone(apps: seq<AppSpec>, states: seq<AppState>, app: nat)
    requires Fits(apps, states) && app < |apps|
    ensures HelpAsked(apps, states, app, false) ==> HelpAsked(apps, states, app, true)
    decreases |apps| - app
  {
    forall c | c in states[app].parsedSubcommands && app < c < |apps|
      ensures HelpAsked(apps, states, c, false) ==> HelpAsked(apps, states, c, true)
    {
      HelpMonotone(apps, states, c);
    }
  }

  /** Help is asked for exactly when a help option was given to the root or to a
      subcommand chosen below it, however far down. */
  lemma HelpIff(apps: seq<AppSpec>, states: seq<AppState>)
    requires Fits(apps, states) && apps != [] && ChosenBelow(apps, states)
    ensures HelpAsked(apps, states, 0, false) <==> exists a :: OnChain(apps, states, a) && HelpGiven(apps, states, a)
  {
    if a :| OnChain(apps, states, a) && HelpGiven(apps, states, a) {
      HelpHere(apps, states, a);
      if a != 0 {
        HelpFromAbove(apps, states, a);
        HelpReachesUp(apps, states, a);
      }
    }
    if forall a :: OnChain(apps, states, a) ==> !HelpGiven(apps, states, a) {
      NoHelp(apps, states, 0);
    }
  }

  lemma HelpHere(apps: seq<AppSpec>, states: seq<AppState>, app: nat)
    requires Fits(apps, states) && app < |apps| && ChosenBelow(apps, states) && HelpGiven(apps, states, app)
    ensures HelpAsked(apps, states, app, false)
  {
    var chosen := states[app].parsedSubcommands;
    if chosen != [] {
      assert chosen[0] in chosen;
      HelpFromAbove(apps, states, chosen[0]);
    }
  }

  lemma {:induction false} NoHelp(apps: seq<AppSpec>, states: seq<AppState>, app: nat)
    requires Fits(apps, states) && OnChain(apps, states, app)
    requires forall a :: OnChain(apps, states, a) ==> !HelpGiven(apps, states, a)
    ensures !HelpAsked(apps, states, app, false)
    decreases |apps| - app
  {
    forall c | c in states[app].parsedSubcommands && app < c < |apps|
      ensures !HelpAsked(apps, states, c, false)
    {
      assert OnChain(apps, states, c);
      NoHelp(apps, states, c);
    }
  }

  // ---------------------------------------------------------------- requirements

  /** A required option is there, and one that is there has what it needs and
      nothing that it excludes. */
  predicate OptionMet(apps: seq<AppSpec>, states: seq<AppState>, app: nat, opt: nat)
    requires app < |apps| && opt < |apps[app].options|
  {
    var spec, given := apps[app].options[opt], Given(states, OptionRef(app, opt));
    && (spec.required ==> given)
    && (given ==> forall r :: r in spec.needs ==> Given(states, r))
    && (given ==> forall r :: r in spec.excludes ==> !Given(states, r))
  }

  /** How many of the first `n` options are there. */
  function UsedOptions(states: seq<AppState>, app: nat, n: nat): nat {
    if n == 0 then 0 else UsedOptions(states, app, n - 1) + if Given(states, OptionRef(app, n - 1)) then 1 else 0
  }

  /** Neither the app nor anything in it was used. */
  predicate Untouched(apps: seq<AppSpec>, states: seq<AppState>, app: nat)
    requires Fits(apps, states) && app < |apps|
    decreases |apps| - app
  {
    && states[app].parsed == 0
    && (forall o :: 0 <= o < |apps[app].options| ==> !Given(states, OptionRef(app, o)))
    && forall c :: c in apps[app].subcommands ==> (app < c < |apps| ==> Untouched(apps, states, c))
  }

  /** What one app asks of its own options and of the number of its subcommands. */
  predicate OwnMet(apps: seq<AppSpec>, states: seq<AppState>, app: nat)
    requires Fits(apps, states) && app < |apps|
  {
    var spec, used := apps[app], UsedOptions(states, app, |apps[app].options|);
    && (forall o :: 0 <= o < |spec.options| ==> OptionMet(apps, states, app, o))
    && spec.minSubcommands <= |states[app].parsedSubcommands|
    && spec.minOptions <= used && (spec.maxOptions == 0 || used <= spec.maxOptions)
  }

  /** A subcommand that was parsed meets its own requirements, and one that is
      required was used. */
  predicate SubcommandMet(apps: seq<AppSpec>, states: seq<AppState>, c: nat)
    requires Fits(apps, states) && c < |apps|
    decreases |apps| - c, 1
  {
    apps[c].disabled
    || ((states[c].parsed > 0 ==> RequirementsMet(apps, states, c))
        && (apps[c].required ==> !Untouched(apps, states, c)))
  }

  predicate RequirementsMet(apps: seq<AppSpec>, states: seq<AppState>, app: nat)
    requires Fits(apps, states) && app < |apps|
    decreases |apps| - app, 0
  {
    && OwnMet(apps, states, app)
    && forall c :: c in apps[app].subcommands ==> (app < c < |apps| ==> SubcommandMet(apps, states, c))
  }

  /** The root, and every enabled subcommand that was parsed below one of these. */
  ghost predicate Active(apps: seq<AppSpec>, states: seq<AppState>, app: nat)
    requires Fits(apps, states)
    decreases app
  {
    app < |apps| &&
    (app == 0 ||
     (&& !apps[app].disabled && states[app].parsed > 0
      && exists p :: 0 <= p < app && app in apps[p].subcommands && Active(apps, states, p)))
  }

  /** Requirements that are met at the root are met by every app that takes part:
      all required options of all of them have a result. */
  lemma {:induction false} MetByAll(apps: seq<AppSpec>, states: seq<AppState>, app: nat)
    requires Fits(apps, states) && apps != [] && RequirementsMet(apps, states, 0) && Active(apps, states, app)
    ensures RequirementsMet(apps, states, app)
    ensures forall o :: 0 <= o < |apps[app].options| && apps[app].options[o].required ==>
              states[app].results[o] != []
    decreases app
  {
    if app > 0 {
      var p :| 0 <= p < app && app in apps[p].subcommands && Active(apps, states, p);
      MetByAll(apps, states, p);
      assert SubcommandMet(apps, states, app);
    }
    assert RequirementsMet(apps, states, app) && OwnMet(apps, states, app);
    forall o | 0 <= o < |apps[app].options| && apps[app].options[o].required
      ensures states[app].results[o] != []
    {
      assert OptionMet(apps, states, app, o);
    }
  }

  /** What one app asks for, its subcommands' own requirements aside. */
  ghost predicate LocalMet(apps: seq<AppSpec>, states: seq<AppState>, app: nat)
    requires Fits(apps, states) && app < |apps|
  {
    && OwnMet(apps, states, app)
    && forall c :: c in apps[app].subcommands && app < c < |apps| && !apps[c].disabled && apps[c].required ==>
         !Untouched(apps, states, c)
  }

  lemma {:induction false} MetBelow(apps: seq<AppSpec>, states: seq<AppState>, app: nat)
    requires Fits(apps, states) && Active(apps, states, app)
    requires forall a :: 0 <= a < |apps| && Active(apps, states, a) ==> LocalMet(apps, states, a)
    ensures RequirementsMet(apps, states, app)
    decreases |apps| - app
  {
    forall c | c in apps[app].subcommands && app < c < |apps|
      ensures SubcommandMet(apps, states, c)
    {
      if !apps[c].disabled && states[c].parsed > 0 {
        assert Active(apps, states, c);
        MetBelow(apps, states, c);
      }
    }
  }

  /** The requirements are met exactly when every app that takes part has what it
      asks for itself. */
  lemma MetIff(apps: seq<AppSpec>, states: seq<AppState>)
    requires Fits(apps, states) && apps != []
    ensures RequirementsMet(apps, states, 0)
       <==> forall a :: 0 <= a < |apps| && Active(apps, states, a) ==> LocalMet(apps, states, a)
  {
    if RequirementsMet(apps, states, 0) {
      forall a | 0 <= a < |apps| && Active(apps, states, a)
        ensures LocalMet(apps, states, a)
      {
        MetByAll(apps, states, a);
        LocalOf(apps, states, a);
      }
    }
    if forall a :: 0 <= a < |apps| && Active(apps, states, a) ==> LocalMet(apps, states, a) {
      assert Active(apps, states, 0);
      MetBelow(apps, states, 0);
    }
  }

  lemma LocalOf(apps: seq<AppSpec>, states: seq<AppState>, app: nat)
    requires Fits(apps, states) && app < |apps| && RequirementsMet(apps, states, app)
    ensures LocalMet(apps, states, app)
  {
    forall c | c in apps[app].subcommands && app < c < |apps| && !apps[c].disabled && apps[c].required
      ensures !Untouched(apps, states, c)
    {
      assert SubcommandMet(apps, states, c);
    }
  }

  /** The options that have a result, as a set. */
  lemma {:induction false} UsedIsCount(states: seq<AppState>, app: nat, n: nat)
    ensures var given := set o: nat | o < n && Given(states, OptionRef(app, o));
            UsedOptions(states, app, n) == |given|
  {
    var given := set o: nat | o < n && Given(states, OptionRef(app, o));
    if n > 0 {
      UsedIsCount(states, app, n - 1);
      var before := set o: nat | o < n - 1 && Given(states, OptionRef(app, o));
      assert given == before + if Given(states, OptionRef(app, n - 1)) then {n - 1} else {};
    } else {
      assert given == {};
    }
  }

  /** An option that exists and has a result. */
  predicate Filled(apps: seq<AppSpec>, states: seq<AppState>, app: nat, opt: nat)
    requires Fits(apps, states)
  {
    app < |apps| && opt < |apps[app].options| && states[app].results[opt] != []
  }

  /** An option has a result if it must, and one that has goes with those that it
      needs and without those that it excludes. */
  predicate GoesWith(apps: seq<AppSpec>, states: seq<AppState>, app: nat, opt: nat)
    requires Fits(apps, states) && app < |apps| && opt < |apps[app].options|
  {
    var spec := apps[app].options[opt];
    if states[app].results[opt] == [] then !spec.required
    else
      && (forall r :: r in spec.needs ==> Filled(apps, states, r.app, r.opt))
      && (forall r :: r in spec.excludes ==> !Filled(apps, states, r.app, r.opt))
  }

  lemma OptionIff(apps: seq<AppSpec>, states: seq<AppState>, app: nat, opt: nat)
    requires Fits(apps, states) && app < |apps| && opt < |apps[app].options|
    ensures OptionMet(apps, states, app, opt) <==> GoesWith(apps, states, app, opt)
  {
    forall r: OptionRef
      ensures Given(states, r) <==> Filled(apps, states, r.app, r.opt)
    {
    }
    assert Given(states, OptionRef(app, opt)) <==> states[app].results[opt] != [];
  }

  /** What an app asks for itself: of each option, of the number of options that have
      a result, and of the number of subcommands chosen. */
  lemma OwnIff(apps: seq<AppSpec>, states: seq<AppState>, app: nat)
    requires Fits(apps, states) && app < |apps|
    ensures var spec, n := apps[app], |apps[app].options|;
            var filled := set o: nat | o < n && Filled(apps, states, app, o);
            OwnMet(apps, states, app) <==>
              && (forall o :: 0 <= o < n ==> GoesWith(apps, states, app, o))
              && |states[app].parsedSubcommands| >= spec.minSubcommands
              && |filled| >= spec.minOptions && (|filled| <= spec.maxOptions || spec.maxOptions == 0)
  {
    var n := |apps[app].options|;
    UsedIsCount(states, app, n);
    var given := set o: nat | o < n && Given(states, OptionRef(app, o));
    var filled := set o: nat | o < n && Filled(apps, states, app, o);
    assert given == filled;
    forall o | 0 <= o < n
      ensures OptionMet(apps, states, app, o) <==> GoesWith(apps, states, app, o)
    {
      OptionIff(apps, states, app, o);
    }
  }

  /** The app itself, and every subcommand below it. */
  ghost predicate Within(apps: seq<AppSpec>, top: nat, app: nat)
    decreases app
  {
    && app < |apps|
    && (app == top || exists p :: 0 <= p < app && app in apps[p].subcommands && Within(apps, top, p))
  }

  ghost predicate Unused(apps: seq<AppSpec>, states: seq<AppState>, app: nat)
    requires Fits(apps, states) && app < |apps|
  {
    states[app].parsed == 0 && forall o :: 0 <= o < |apps[app].options| ==> states[app].results[o] == []
  }

  lemma {:induction false} UntouchedWithin(apps: seq<AppSpec>, states: seq<AppState>, top: nat, app: nat)
    requires Fits(apps, states) && top < |apps| && Untouched(apps, states, top) && Within(apps, top, app)
    ensures Untouched(apps, states, app) && Unused(apps, states, app)
    decreases app
  {
    if app != top {
      var p :| 0 <= p < app && app in apps[p].subcommands && Within(apps, top, p);
      UntouchedWithin(apps, states, top, p);
    }
    forall o | 0 <= o < |apps[app].options|
      ensures states[app].results[o] == []
    {
      assert !Given(states, OptionRef(app, o));
    }
  }

  lemma {:induction false} WithinChild(apps: seq<AppSpec>, top: nat, child: nat, app: nat)
    requires top < child < |apps| && child in apps[top].subcommands && Within(apps, child, app)
    ensures Within(apps, top, app)
    decreases app
  {
    if app != child {
      var p :| 0 <= p < app && app in apps[p].subcommands && Within(apps, child, p);
      WithinChild(apps, top, child, p);
    } else {
      assert Within(apps, top, top);
    }
  }

  lemma {:induction false} UnusedWithin(apps: seq<AppSpec>, states: seq<AppState>, top: nat)
    requires Fits(apps, states) && top < |apps|
    requires forall a :: Within(apps, top, a) ==> Unused(apps, states, a)
    ensures Untouched(apps, states, top)
    decreases |apps| - top
  {
    assert Within(apps, top, top);
    forall c | c in apps[top].subcommands && top < c < |apps|
      ensures Untouched(apps, states, c)
    {
      forall a | Within(apps, c, a)
        ensures Unused(apps, states, a)
      {
        WithinChild(apps, top, c, a);
      }
      UnusedWithin(apps, states, c);
    }
  }

  /** A required subcommand counts as used exactly when it or something below it was
      parsed or has a result. */
  lemma UntouchedIff(apps: seq<AppSpec>, states: seq<AppState>, top: nat)
    requires Fits(apps, states) && top < |apps|
    ensures Untouched(apps, states, top) <==> forall a :: Within(apps, top, a) ==> Unused(apps, states, a)
  {
    if Untouched(apps, states, top) {
      forall a | Within(apps, top, a)
        ensures Unused(apps, states, a)
      {
        UntouchedWithin(apps, states, top, a);
      }
    }
    if forall a :: Within(apps, top, a) ==> Unused(apps, states, a) {
      UnusedWithin(apps, states, top);
    }
  }

  // ---------------------------------------------------------------- left-overs

  /** No app that was parsed has left-overs, unless it allows them. */
  predicate ExtrasOk(apps: seq<AppSpec>, states: seq<AppState>, app: nat)
    requires Fits(apps, states) && app < |apps|
    decreases |apps| - app
  {
    (apps[app].allowExtras || forall m :: m in states[app].missing ==> m.0 == POSITIONAL_MARK)
    && forall c :: c in apps[app].subcommands ==>
         (app < c < |apps| && states[c].parsed > 0 ==> ExtrasOk(apps, states, c))
  }

  /** The root, and every subcommand that was parsed below one of these. */
  ghost predicate Parsed(apps: seq<AppSpec>, states: seq<AppState>, app: nat)
    requires Fits(apps, states)
    decreases app
  {
    app < |apps| &&
    (app == 0 || (states[app].parsed > 0
                  && exists p :: 0 <= p < app && app in apps[p].subcommands && Parsed(apps, states, p)))
  }

  /** Nothing forbidden is left over exactly when no app that was parsed and allows
      none has anything left over but a "--". */
  lemma ExtrasIff(apps: seq<AppSpec>, states: seq<AppState>)
    requires Fits(apps, states) && apps != []
    ensures ExtrasOk(apps, states, 0)
       <==> forall a :: 0 <= a < |apps| && Parsed(apps, states, a) && !apps[a].allowExtras ==>
              forall m :: m in states[a].missing ==> m.0 == POSITIONAL_MARK
  {
    if ExtrasOk(apps, states, 0) {
      forall a | 0 <= a < |apps| && Parsed(apps, states, a)
        ensures ExtrasOk(apps, states, a)
      {
        ExtrasDown(apps, states, a);
      }
    }
    if forall a :: 0 <= a < |apps| && Parsed(apps, states, a) && !apps[a].allowExtras ==>
         forall m :: m in states[a].missing ==> m.0 == POSITIONAL_MARK {
      ExtrasUp(apps, states, 0);
    }
  }

  lemma {:induction false} ExtrasDown(apps: seq<AppSpec>, states: seq<AppState>, app: nat)
    requires Fits(apps, states) && apps != [] && ExtrasOk(apps, states, 0) && Parsed(apps, states, app)
    ensures ExtrasOk(apps, states, app)
    decreases app
  {
    if app > 0 {
      var p :| 0 <= p < app && app in apps[p].subcommands && Parsed(apps, states, p);
      ExtrasDown(apps, states, p);
    }
  }

  lemma {:induction false} ExtrasUp(apps: seq<AppSpec>, states: seq<AppState>, app: nat)
    requires Fits(apps, states) && Parsed(apps, states, app)
    requires forall a :: 0 <= a < |apps| && Parsed(apps, states, a) && !apps[a].allowExtras ==>
               forall m :: m in states[a].missing ==> m.0 == POSITIONAL_MARK
    ensures ExtrasOk(apps, states, app)
    decreases |apps| - app
  {
    forall c | c in apps[app].subcommands && app < c < |apps| && states[c].parsed > 0
      ensures ExtrasOk(apps, states, c)
    {
      assert Parsed(apps, states, c);
      ExtrasUp(apps, states, c);
    }
  }
}
