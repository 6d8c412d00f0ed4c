// The argument parser: one stack of arguments and a tree of apps, walked by
// recursive descent. Every step is proved to be the one that ArgLog allows.
module ArgParser {
  import opened Wrappers
  import opened CliStrings
  import opened ArgTables
  import opened ArgLog
  import opened ArgChecks

  /** Done carries the return value, Thrown stands for the exceptions. */
  datatype Outcome = Done(handled: bool) | Thrown

  function Larger(a: nat, b: nat): nat {
    if a < b then b else a
  }

  /** The log has grown, and first by this use. */
  predicate First(before: seq<Use>, after: seq<Use>, u: Use) {
    before < after && after[|before|] == u
  }

  lemma ChosenIsOwn(apps: seq<AppSpec>, states: seq<AppState>, before: seq<Use>, left: seq<string>, u: Use)
    requires WellFormed(apps) && Fits(apps, states) && u.Subcommand? && Justified(apps, states, before, left, u)
    ensures u.app < u.com < |apps|
  {
    assert u.com in apps[u.app].subcommands;
  }

  lemma ChosenIsBelow(apps: seq<AppSpec>, states: seq<AppState>, u: Use)
    requires Fits(apps, states) && ChosenBelow(apps, states)
    requires u.Subcommand? ==> u.app < u.com < |apps|
    ensures ChosenBelow(apps, ApplyUse(apps, states, u))
  {
    var after := ApplyUse(apps, states, u);
    UseFits(apps, states, u);
    forall a: nat | a < |apps|
      ensures after[a].parsedSubcommands == states[a].parsedSubcommands
              || (u.Subcommand? && a == u.app && after[a].parsedSubcommands == states[a].parsedSubcommands + [u.com])
    {
    }
  }

  /** However the arguments are read, an app only ever chooses subcommands of its own. */
  lemma {:induction false} ChosenAreBelow(apps: seq<AppSpec>, original: seq<string>, log: seq<Use>)
    requires WellFormed(apps) && AllJustified(apps, original, log)
    ensures ChosenBelow(apps, Replay(apps, log))
    decreases |log|
  {
    if log != [] {
      var n := |log| - 1;
      var front, left := log[..n], Remaining(original, log[..n]);
      forall i: nat | i < n
        ensures JustifiedAt(apps, original, front, i)
      {
        assert JustifiedAt(apps, original, log, i) && front[..i] == log[..i];
      }
      ChosenAreBelow(apps, original, front);
      assert JustifiedAt(apps, original, log, n);
      if log[n].Subcommand? {
        ChosenIsOwn(apps, Replay(apps, front), front, left.value, log[n]);
      }
      ChosenIsBelow(apps, Replay(apps, front), log[n]);
    }
  }

  class Parser {
    const apps: seq<AppSpec>
    var args: seq<string>
    var states: seq<AppState>
    ghost var original: seq<string>
    ghost var log: seq<Use>

    ghost predicate Valid()
      reads this
    {
      WellFormed(apps) && Fits(apps, states) && Explains(apps, original, log, args, states)
    }

    constructor (apps: seq<AppSpec>)
      requires WellFormed(apps)
      ensures Valid() && this.apps == apps && args == [] && log == []
    {
      this.apps := apps;
      args, states, original, log := [], Fresh(apps), [], [];
    }

    function Top(): string
      requires args != []
      reads this
    {
      args[0]
    }

    /** Takes the first argument (a filler takes none) and records what it is used
        for. */
    method Consume(u: Use)
      requires Valid() && Justified(apps, states, log, args, u)
      modifies this
      ensures Valid() && original == old(original) && log == old(log) + [u]
      ensures args == After(u, old(args)) && (!u.Filler? ==> Measure(args) < Measure(old(args)))
      ensures states == ApplyUse(apps, old(states), u)
    {
      OneMoreUse(apps, original, log, args, states, u);
      args, states, log := After(u, args), ApplyUse(apps, states, u), log + [u];
    }

    /** Takes the first argument as one of an option's, or a filler for it. */
    method Record(u: Use, app: nat, opt: nat)
      requires Valid() && Justified(apps, states, log, args, u) && HasOption(apps, app, opt)
      requires (OfOption(u) || u.Filler?) && u.app == app && u.opt == opt
      modifies this
      ensures Valid() && original == old(original) && log == old(log) + [u]
      ensures args == After(u, old(args)) && (!u.Filler? ==> Measure(args) < Measure(old(args)))
      ensures Count(states, app, opt) == old(Count(states, app, opt)) + |TextsOf(apps, u, app, opt)|
    {
      Consume(u);
      UseByOwner(apps, old(states), u, app, opt);
    }

    // -------------------------------------------------------------- lookups

    ghost predicate Ready(app: nat)
      reads this
    {
      Valid() && app < |apps|
    }

    /** How many values the required positional options still want. */
    method CountRemainingPositionals(app: nat) returns (n: nat)
      requires Fits(apps, states) && app < |apps|
      ensures n == StillWanted(apps, states, app)
      ensures n > 0 ==> Waiting(apps, states, app)
    {
      n := 0;
      for i := 0 to |apps[app].options|
        invariant n == WantedBy(apps, states, app, i)
        invariant n > 0 ==> Waiting(apps, states, app)
      {
        var opt := apps[app].options[i];
        if opt.positional && opt.required {
          if opt.ItemsMin() > 0 && Count(states, app, i) < opt.ItemsMin() {
            n := n + (opt.ItemsMin() - Count(states, app, i));
            assert Wants(apps, states, app, i);
          }
        }
      }
    }

    method HasRemainingPositionals(app: nat) returns (b: bool)
      requires Fits(apps, states) && app < |apps|
      ensures b <==> Waiting(apps, states, app)
    {
      for i := 0 to |apps[app].options|
        invariant forall o: nat :: o < i ==> !Wants(apps, states, app, o)
      {
        if apps[app].options[i].positional && Count(states, app, i) < apps[app].options[i].ItemsMin() {
          assert Wants(apps, states, app, i);
          return true;
        }
      }
      return false;
    }

    /** The parser is between options, and the next argument is for `app`. */
    ghost predicate Turn(app: nat)
      reads this
    {
      && Valid() && app < |apps| && Idle(apps, states, log, args)
      && (args != [] ==> MayAct(apps, states, log, app, Top()))
    }

    /** The one reason to give up: the arguments have run out below the minimum of
        an option. */
    ghost predicate Failed()
      reads this
    {
      args == [] && Short(apps, log)
    }

    // -------------------------------------------------------------- options

    /** The naming argument itself: a flag, a name with text attached, or a name
        alone. Returns how many values it brought. */
    method StartOption(app: nat, op: nat, kind: Classifier) returns (collected: nat)
      requires Turn(app) && !Marked(log, app) && args != []
      requires kind == Recognize(apps, states, app, Top(), true) && NamesOption(apps[app], op, kind, Top())
      modifies this
      ensures Valid() && original == old(original) && Grows(old(log), log, app + 1)
      ensures EndsIn(log, app, op) && collected == Collected(apps, log, app, op)
      ensures AtMinimum(apps, log, app, op) == log
      ensures |log| == |old(log)| + 1 && Measure(args) < Measure(old(args))
      ensures First(old(log), log, NamingUse(apps[app], app, op, kind, old(Top())))
      ensures var spec := apps[app].options[op];
              && Count(states, app, op)
                   == old(Count(states, app, op)) + collected + (if spec.ItemsMax() == 0 then 1 else 0)
              && (!spec.allowExtra ==> collected <= 1) && (spec.ItemsMax() == 0 ==> collected == 0)
    {
      var spec, parts := apps[app].options[op], SplitArg(kind, Top()).value;
      var u := Named(app, op, kind, Top());
      if spec.ItemsMax() == 0 {
        u := Flag(app, op, kind, Top());
      } else if !parts.Bare() {
        u := Attached(app, op, kind, Top());
      }
      collected := if u.Attached? then |TextsOf(apps, u, app, op)| else 0;
      NamingStartsAfresh(apps, log, app, op, u);
      NamingJustified(app, op, kind);
      Record(u, app, op);
    }

    lemma NamingJustified(app: nat, op: nat, kind: Classifier)
      requires Turn(app) && !Marked(log, app) && args != []
      requires kind == Recognize(apps, states, app, Top(), true) && NamesOption(apps[app], op, kind, Top())
      ensures Justified(apps, states, log, args, NamingUse(apps[app], app, op, kind, Top()))
    {
    }

    /** An option and the values that follow it. */
    method ParseArg(app: nat, kind: Classifier) returns (r: Outcome)
      requires Turn(app) && !Marked(log, app) && args != [] && kind == Recognize(apps, states, app, Top(), true)
      requires kind == LONG || kind == SHORT || kind == WINDOWS
      modifies this
      ensures Valid() && original == old(original) && Grows(old(log), log, app + 1)
      ensures r.Done? ==> r.handled && Turn(app) && Measure(args) < Measure(old(args))
      ensures r.Thrown? ==> Failed()
      ensures SplitArg(kind, old(Top())).Some?
      ensures match FindOption(apps[app].options, kind, SplitArg(kind, old(Top())).value.name)
              case None => r.Done? && log == old(log) + [LeftOver(app, kind, old(Top()))]
              case Some(op) =>
                && First(old(log), log, NamingUse(apps[app], app, op, kind, old(Top())))
                && (r.Done? ==> Served(apps[app].options[op], old(Count(states, app, op)), Count(states, app, op)))
    {
      var current := Top();
      var split := SplitArg(kind, current);
      if split.None? {
        assert false;
      }
      var found := FindOption(apps[app].options, kind, split.value.name);
      if found.None? {
        MoveToMissing(app, kind);
        return Done(true);
      }
      var enough := Serve(app, found.value, kind);
      return if enough then Done(true) else Thrown;
    }

    /** All the texts of an option just named; false when its minimum cannot be met.
        It is not left before it takes no more and is due nothing. */
    method Serve(app: nat, op: nat, kind: Classifier) returns (enough: bool)
      requires Turn(app) && !Marked(log, app) && args != []
      requires kind == Recognize(apps, states, app, Top(), true) && NamesOption(apps[app], op, kind, Top())
      modifies this
      ensures Valid() && original == old(original) && Grows(old(log), log, app + 1)
      ensures First(old(log), log, NamingUse(apps[app], app, op, kind, old(Top())))
      ensures enough ==> Turn(app) && Measure(args) < Measure(old(args))
      ensures enough ==> Served(apps[app].options[op], old(Count(states, app, op)), Count(states, app, op))
      ensures !enough ==> Failed()
    {
      var minNum := apps[app].options[op].MinNum();
      var collected := StartOption(app, op, kind);
      collected := CollectAtLeast(app, op, minNum, collected);
      if minNum > collected {
        return false;
      }
      ghost var middle := Count(states, app, op);
      FinishOption(app, op, collected);
      TextsAddUp(apps[app].options[op], old(Count(states, app, op)), collected, middle, Count(states, app, op));
      enough := true;
    }

    /** An option that was named got its minimum of texts and, unless it takes
        extra ones, at most its maximum and one of its own. */
    static predicate Served(spec: OptionSpec, before: nat, after: nat) {
      && before + spec.MinNum() <= after
      && (!spec.allowExtra ==> after <= before + Larger(Larger(1, spec.MinNum()), spec.ItemsMax()) + 1)
    }

    static lemma TextsAddUp(spec: OptionSpec, before: nat, collected: nat, middle: nat, after: nat)
      requires spec.WellFormed() && collected >= spec.MinNum() && before + collected <= middle <= after
      requires middle <= before + collected + (if spec.ItemsMax() == 0 then 1 else 0)
      requires !spec.allowExtra ==> collected <= Larger(1, spec.MinNum())
      requires !spec.allowExtra && spec.ItemsMax() == 0 ==> collected <= spec.MinNum()
      requires !spec.allowExtra ==> after <= middle + Larger(collected, spec.ItemsMax()) - collected + 1
      ensures Served(spec, before, after)
    {
    }

    /** The next argument as a value of the option; returns how many texts it holds. */
    method TakeValue(app: nat, op: nat) returns (n: nat)
      requires Ready(app) && HasOption(apps, app, op) && EndsIn(log, app, op)
      requires WantsMore(apps, states, log, app, op, args)
      modifies this
      ensures Valid() && original == old(original) && log == old(log) + [Value(app, op, old(Top()))]
      ensures args == old(args)[1..] && Measure(args) < Measure(old(args))
      ensures Count(states, app, op) == old(Count(states, app, op)) + n
      ensures Collected(apps, log, app, op) == old(Collected(apps, log, app, op)) + n
      ensures AtMinimum(apps, log, app, op)
           == if old(Met(apps, log, app, op)) then old(AtMinimum(apps, log, app, op)) else log
      ensures !apps[app].options[op].allowExtra ==> n == 1
    {
      var u := Value(app, op, Top());
      n := |TextsOf(apps, u, app, op)|;
      assert (log + [u])[..|log|] == log;
      Record(u, app, op);
    }

    /** Gathers the minimum number of values, whatever they look like. */
    method CollectAtLeast(app: nat, op: nat, minNum: nat, start: nat) returns (collected: nat)
      requires Ready(app) && HasOption(apps, app, op) && EndsIn(log, app, op) && AtMinimum(apps, log, app, op) == log
      requires start == Collected(apps, log, app, op) && minNum == apps[app].options[op].MinNum()
      modifies this
      ensures Valid() && original == old(original) && Grows(old(log), log, app + 1)
      ensures EndsIn(log, app, op) && collected == Collected(apps, log, app, op)
      ensures AtMinimum(apps, log, app, op) == log
      ensures Measure(args) <= Measure(old(args))
      ensures Count(states, app, op) == old(Count(states, app, op)) + collected - start
      ensures collected >= start && (collected >= minNum || args == [])
      ensures !apps[app].options[op].allowExtra ==> collected <= Larger(start, minNum)
    {
      collected := start;
      while minNum > collected && args != []
        invariant Valid() && original == old(original) && Grows(old(log), log, app + 1)
        invariant EndsIn(log, app, op) && collected == Collected(apps, log, app, op)
        invariant AtMinimum(apps, log, app, op) == log
        invariant Measure(args) <= Measure(old(args))
        invariant Count(states, app, op) == old(Count(states, app, op)) + collected - start && collected >= start
        invariant !apps[app].options[op].allowExtra ==> collected <= Larger(start, minNum)
        decreases Measure(args)
      {
        var n := TakeValue(app, op);
        collected := collected + n;
      }
    }

    /** Goes on while the next argument looks like a value and no required
        positional is waiting for it. */
    method CollectUpTo(app: nat, op: nat, maxNum: nat, start: nat) returns (collected: nat)
      requires Ready(app) && HasOption(apps, app, op) && EndsIn(log, app, op) && AtMinimum(apps, log, app, op) == log
      requires Met(apps, log, app, op) && Optional(apps, log, app, op)
      requires start == Collected(apps, log, app, op) && maxNum == apps[app].options[op].ItemsMax()
      modifies this
      ensures Valid() && original == old(original) && Grows(old(log), log, app + 1)
      ensures EndsIn(log, app, op) && collected == Collected(apps, log, app, op) >= start
      ensures AtMinimum(apps, log, app, op) == old(log) && !WantsMore(apps, states, log, app, op, args)
      ensures Measure(args) <= Measure(old(args))
      ensures Count(states, app, op) == old(Count(states, app, op)) + collected - start
      ensures !apps[app].options[op].allowExtra ==> collected <= Larger(start, maxNum)
    {
      collected := start;
      var required := CountRemainingPositionals(app);
      while (collected < maxNum || apps[app].options[op].allowExtra) && args != []
            && Recognize(apps, states, app, Top(), false) == NONE
        invariant Valid() && original == old(original) && Grows(old(log), log, app + 1)
        invariant EndsIn(log, app, op) && collected == Collected(apps, log, app, op) >= start
        invariant AtMinimum(apps, log, app, op) == old(log)
        invariant Measure(args) <= Measure(old(args))
        invariant Count(states, app, op) == old(Count(states, app, op)) + collected - start
        invariant !apps[app].options[op].allowExtra ==> collected <= Larger(start, maxNum)
        decreases Measure(args)
      {
        if required >= |args| {
          break;
        }
        var n := TakeValue(app, op);
        collected := collected + n;
      }
    }

    /** Uses up a "--" that ends the values of an option. */
    method EatSeparator(app: nat, op: nat)
      requires Ready(app) && HasOption(apps, app, op) && EndsIn(log, app, op)
      requires Met(apps, log, app, op) && Optional(apps, log, app, op)
      modifies this
      ensures Valid() && original == old(original) && Grows(old(log), log, app + 1)
      ensures Unclosed(log) == old(log) && states == old(states)
      ensures if old(args != [] && Top() == "--")
              then args == old(args)[1..] && log == old(log) + [Closing(app, op, "--")]
              else args == old(args) && log == old(log)
      ensures Measure(args) <= Measure(old(args))
    {
      if args == [] { return; }
      OnlyDashes(apps, states, app, Top(), true);
      if Recognize(apps, states, app, Top(), true) == POSITIONAL_MARK {
        Consume(Closing(app, op, "--"));
      }
    }

    /** Records the text of its own that the option is due. */
    method Fill(app: nat, op: nat, text: string)
      requires Ready(app) && HasOption(apps, app, op) && EndsIn(Unclosed(log), app, op)
      requires Sated(apps, states, log, app, op, args) && Due(apps, Unclosed(log), app, op) == Some(text)
      modifies this
      ensures Valid() && original == old(original) && args == old(args) && Grows(old(log), log, app + 1)
      ensures log == old(log) + [Filler(app, op, text)] && Turn(app)
      ensures Count(states, app, op)
           == old(Count(states, app, op)) + |AddedBy(apps[app].options[op].allowExtra, text)|
    {
      Record(Filler(app, op, text), app, op);
    }

    /** Past the minimum: further values if more are allowed and a separator that
        ends them. */
    method CollectOptional(app: nat, op: nat, start: nat) returns (collected: nat)
      requires Ready(app) && HasOption(apps, app, op) && EndsIn(log, app, op) && AtMinimum(apps, log, app, op) == log
      requires start == Collected(apps, log, app, op) && Met(apps, log, app, op) && Optional(apps, log, app, op)
      modifies this
      ensures Valid() && original == old(original) && Grows(old(log), log, app + 1)
      ensures EndsIn(Unclosed(log), app, op) && collected == Collected(apps, Unclosed(log), app, op) >= start
      ensures Sated(apps, states, log, app, op, args) && Optional(apps, Unclosed(log), app, op)
      ensures Current(apps, log) == app
      ensures Measure(args) <= Measure(old(args))
      ensures Count(states, app, op) == old(Count(states, app, op)) + collected - start
      ensures var spec := apps[app].options[op];
              !spec.allowExtra ==> collected <= Larger(start, spec.ItemsMax())
    {
      collected := CollectUpTo(app, op, apps[app].options[op].ItemsMax(), start);
      EatSeparator(app, op);
    }

    /** What follows the minimum: optional values, and a text of the option's own
        where it got nothing or only part of a value. The option is complete then. */
    method FinishOption(app: nat, op: nat, start: nat)
      requires Ready(app) && HasOption(apps, app, op) && EndsIn(log, app, op) && AtMinimum(apps, log, app, op) == log
      requires start == Collected(apps, log, app, op) && Met(apps, log, app, op)
      modifies this
      ensures Valid() && original == old(original) && Grows(old(log), log, app + 1) && Turn(app)
      ensures Measure(args) <= Measure(old(args))
      ensures Count(states, app, op) >= old(Count(states, app, op))
      ensures var spec := apps[app].options[op];
              !spec.allowExtra ==>
                Count(states, app, op) <= old(Count(states, app, op)) + Larger(start, spec.ItemsMax()) - start + 1
    {
      var spec, collected := apps[app].options[op], start;
      var optional := spec.ItemsMax() > collected || spec.allowExtra;
      if optional {
        collected := CollectOptional(app, op, collected);
      }
      spec.MinimumHasType();
      if optional && spec.MinNum() == 0 && spec.ItemsMax() > 0 && collected == 0 {
        Fill(app, op, spec.FlagText(""));
      } else if spec.MinNum() > 0 && spec.typeMax != spec.MinNum() && collected % spec.typeMax != 0 {
        Fill(app, op, "");
      } else {
        Complete(app, op);
      }
    }

    lemma Complete(app: nat, op: nat)
      requires Ready(app) && HasOption(apps, app, op) && EndsIn(Unclosed(log), app, op) && Current(apps, log) == app
      requires Sated(apps, states, log, app, op, args) && Due(apps, Unclosed(log), app, op).None?
      ensures Turn(app)
    {
    }

    // -------------------------------------------------------------- positionals and subcommands

    /** The root always uses the argument up; a subcommand may hand it back. */
    method ParsePositional(app: nat) returns (r: Outcome)
      requires Turn(app) && args != []
      requires AsPositional(apps, states, Marked(log, app), Recognize(apps, states, app, Top(), true), app)
      modifies this
      ensures Valid() && original == old(original) && Grows(old(log), log, app + 1)
      ensures r == Done(true) ==> Turn(app) && Measure(args) < Measure(old(args))
      ensures r == Done(false) ==> args == old(args) && log == old(log) && app != 0 && Turn(ParentOf(apps, app))
      ensures r.Thrown? ==> Failed()
      ensures old(Waiting(apps, states, app)) ==> r == Done(true)
      ensures old(Taker(apps, states, app, 0)) < |apps[app].options| ==>
                && r == Done(true)
                && log == old(log) + [Positional(app, old(Taker(apps, states, app, 0)), old(Top()))]
      decreases Measure(args), 2
    {
      var o := NextPositional(app);
      if o < |apps[app].options| {
        TakePositional(app, o);
        r := Done(true);
      } else {
        r := ParseUnclaimed(app);
      }
    }

    method TakePositional(app: nat, o: nat)
      requires Turn(app) && args != []
      requires AsPositional(apps, states, Marked(log, app), Recognize(apps, states, app, Top(), true), app)
      requires o == Taker(apps, states, app, 0) < |apps[app].options|
      modifies this
      ensures Valid() && original == old(original) && Grows(old(log), log, app + 1)
      ensures log == old(log) + [Positional(app, o, old(Top()))]
      ensures Turn(app) && Measure(args) < Measure(old(args))
    {
      Consume(Positional(app, o, Top()));
    }

    method NextPositional(app: nat) returns (o: nat)
      requires Fits(apps, states) && app < |apps|
      ensures o == Taker(apps, states, app, 0)
      ensures o == |apps[app].options| ==> !Waiting(apps, states, app)
    {
      o := 0;
      while o < |apps[app].options|
        invariant o <= |apps[app].options| && Taker(apps, states, app, 0) == Taker(apps, states, app, o)
      {
        if Takes(apps, states, app, o) {
          return;
        }
        o := o + 1;
      }
      assert forall k: nat :: Wants(apps, states, app, k) ==> Takes(apps, states, app, k);
    }

    /** An argument no positional option takes: a subcommand named once more, one
        for the parent to look at, or a left-over. */
    method ParseUnclaimed(app: nat) returns (r: Outcome)
      requires Turn(app) && args != []
      requires AsPositional(apps, states, Marked(log, app), Recognize(apps, states, app, Top(), true), app)
      requires Taker(apps, states, app, 0) == |apps[app].options|
      modifies this
      ensures Valid() && original == old(original) && Grows(old(log), log, app + 1)
      ensures r == Done(true) ==> Turn(app) && Measure(args) < Measure(old(args))
      ensures r == Done(false) ==> args == old(args) && log == old(log) && app != 0 && Turn(ParentOf(apps, app))
      ensures r.Thrown? ==> Failed()
      ensures match old(Repeats(apps, states, app, Top()))
              case Some(c) => r != Done(false) && First(old(log), log, Subcommand(app, c, old(Top()), false))
              case None =>
                if old(Repeats(apps, states, ParentOf(apps, app), Top())).Some? then r == Done(false)
                else r == Done(true) && log == old(log) + [LeftOver(app, NONE, old(Top()))]
      decreases Measure(args), 1
    {
      var com := FindSubcommand(apps, states, app, Top(), false);
      if com.Some? && HasRoom(apps, states, app) {
        r := Descend(app, com.value, false);
        return;
      }
      r := ParseElsewhere(app);
    }

    /** An argument that names no subcommand of this app that may come once more. */
    method ParseElsewhere(app: nat) returns (r: Outcome)
      requires Turn(app) && args != []
      requires AsPositional(apps, states, Marked(log, app), Recognize(apps, states, app, Top(), true), app)
      requires Taker(apps, states, app, 0) == |apps[app].options| && Repeats(apps, states, app, Top()).None?
      modifies this
      ensures Valid() && original == old(original) && Grows(old(log), log, app + 1)
      ensures r == Done(true) ==> Turn(app) && Measure(args) < Measure(old(args))
      ensures r == Done(false) ==> args == old(args) && app != 0 && Turn(ParentOf(apps, app))
      ensures if old(Repeats(apps, states, ParentOf(apps, app), Top())).Some?
              then r == Done(false) && log == old(log)
              else r == Done(true) && log == old(log) + [LeftOver(app, NONE, old(Top()))]
    {
      var parentApp := ParentOf(apps, app);
      var com := FindSubcommand(apps, states, parentApp, Top(), false);
      if com.Some? && HasRoom(apps, states, parentApp) {
        assert app != 0;
        HandedBack(app);
        return Done(false);
      }
      MoveToMissing(app, NONE);
      return Done(true);
    }

    /** Keeps the argument among the app's left-overs. */
    method MoveToMissing(app: nat, kind: Classifier)
      requires Turn(app) && args != []
      requires var found := Recognize(apps, states, app, Top(), true);
               Acts(apps, states, Marked(log, app), found, LeftOver(app, kind, Top()))
      modifies this
      ensures Valid() && original == old(original)
      ensures Grows(old(log), log, if kind == POSITIONAL_MARK then app else app + 1)
      ensures log == old(log) + [LeftOver(app, kind, old(Top()))]
      ensures Turn(app) && Measure(args) < Measure(old(args)) && (kind == POSITIONAL_MARK ==> Marked(log, app))
    {
      Consume(LeftOver(app, kind, Top()));
    }

    /** A token that names a subcommand, of this app or of one above. The source's
        exception for a subcommand missing at the root cannot happen. */
    method ParseSubcommand(app: nat) returns (r: Outcome)
      requires Turn(app) && !Marked(log, app) && args != []
      requires Recognize(apps, states, app, Top(), true) == SUBCOMMAND
      modifies this
      ensures Valid() && original == old(original) && Grows(old(log), log, app + 1)
      ensures r == Done(true) ==> Turn(app) && Measure(args) < Measure(old(args))
      ensures r == Done(false) ==> args == old(args) && log == old(log) && app != 0 && Turn(ParentOf(apps, app))
      ensures r.Thrown? ==> Failed()
      ensures if old(StillWanted(apps, states, app)) > 0 then r == Done(true)
              else match old(FindSubcommand(apps, states, app, Top(), true))
                   case Some(c) => r != Done(false) && First(old(log), log, Subcommand(app, c, old(Top()), true))
                   case None => r == Done(false)
      decreases Measure(args), 3
    {
      var required := CountRemainingPositionals(app);
      if required > 0 {
        r := ParsePositional(app);
        return;
      }
      var com := FindSubcommand(apps, states, app, Top(), true);
      if com.Some? {
        r := Descend(app, com.value, true);
        return;
      }
      if app == 0 {
        assert false;
      }
      HandedBack(app);
      return Done(false);
    }

    /** Enters a subcommand; what it leaves is for this app again. */
    method Descend(app: nat, com: nat, chosen: bool) returns (r: Outcome)
      requires Turn(app) && args != [] && com in apps[app].subcommands
      requires Justified(apps, states, log, args, Subcommand(app, com, Top(), chosen))
      modifies this
      ensures Valid() && original == old(original) && Grows(old(log), log, app + 1)
      ensures r == Thrown || (r == Done(true) && Turn(app) && Measure(args) < Measure(old(args)))
      ensures r.Thrown? ==> Failed()
      ensures First(old(log), log, Subcommand(app, com, old(Top()), chosen))
      decreases Measure(args), 0
    {
      Consume(Subcommand(app, com, Top(), chosen));
      assert Current(apps, log) == com;
      r := Parse(com);
      r := if r.Thrown? then Thrown else Done(true);
    }

    lemma HandedBack(app: nat)
      requires Turn(app) && args != [] && app != 0 && Leaves(apps, states, log, app, Top())
      ensures Turn(ParentOf(apps, app))
    {
      ClimbsOn(apps, states, log, Current(apps, log), app, Top());
    }

    /** A "--" outside an option's values. */
    method ParseMark(app: nat) returns (r: Outcome)
      requires Turn(app) && !Marked(log, app) && args != [] && Top() == "--"
      modifies this
      ensures Valid() && original == old(original) && Grows(old(log), log, app)
      ensures Measure(args) < Measure(old(args))
      ensures r == Done(app == 0 || old(Waiting(apps, states, app)))
      ensures Turn(if r == Done(true) then app else ParentOf(apps, app))
      ensures r == Done(true) ==> Marked(log, app)
    {
      OnlyDashes(apps, states, app, Top(), true);
      var remaining := HasRemainingPositionals(app);
      if !remaining && app != 0 {
        EndSubcommand(app);
        r := Done(false);
      } else {
        MoveToMissing(app, POSITIONAL_MARK);
        r := Done(true);
      }
    }

    /** A "++", which only a subcommand knows, or a "--" where no positional waits. */
    method EndSubcommand(app: nat)
      requires Turn(app) && !Marked(log, app) && args != []
      requires var kind := Recognize(apps, states, app, Top(), true);
               kind == SUBCOMMAND_TERMINATOR
               || (kind == POSITIONAL_MARK && app != 0 && !Waiting(apps, states, app))
      modifies this
      ensures Valid() && original == old(original) && Grows(old(log), log, app + 1)
      ensures log == old(log) + [Separator(app, old(Top()))] && Measure(args) < Measure(old(args))
      ensures app != 0 && Turn(ParentOf(apps, app))
    {
      Consume(Separator(app, Top()));
    }

    // -------------------------------------------------------------- the loop

    /** One argument and what belongs to it; `positional` is the flag that "--"
        turns on for the rest of this app. */
    method ParseSingle(app: nat, positionalOnly: bool) returns (r: Outcome, positional: bool)
      requires Turn(app) && args != [] && positionalOnly == Marked(log, app)
      modifies this
      ensures Valid() && original == old(original) && Grows(old(log), log, app)
      ensures r == Done(true) ==> Turn(app) && Measure(args) < Measure(old(args))
      ensures r == Done(false) ==> Measure(args) <= Measure(old(args)) && app != 0 && Turn(ParentOf(apps, app))
      ensures r == Done(true) ==> positional == Marked(log, app)
      ensures r.Thrown? ==> Failed()
      decreases Measure(args), 4
    {
      positional := positionalOnly;
      var classifier := if positionalOnly then NONE else Recognize(apps, states, app, Top(), true);
      match classifier {
        case POSITIONAL_MARK =>
          OnlyDashes(apps, states, app, Top(), true);
          positional := true;
          r := ParseMark(app);
        case SUBCOMMAND_TERMINATOR =>
          EndSubcommand(app);
          r := Done(false);
        case SUBCOMMAND =>
          r := ParseSubcommand(app);
        case NONE =>
          r := ParsePositional(app);
        case _ =>
          r := ParseArg(app, classifier);
      }
    }

    /** The loop of one app. The root goes on whatever a single step returns,
        which ends because at the root every step uses something up. */
    method Parse(app: nat) returns (r: Outcome)
      requires Turn(app) && !Marked(log, app)
      modifies this
      ensures Valid() && original == old(original) && Grows(old(log), log, app)
      ensures r.Done? ==> Measure(args) <= Measure(old(args)) && Turn(ParentOf(apps, app))
      ensures r.Done? && app == 0 ==> args == []
      ensures r.Thrown? ==> Failed()
      decreases Measure(args), 5
    {
      var positionalOnly := false;
      r := Done(true);
      while args != []
        invariant original == old(original) && r.Done? && Turn(app)
        invariant Measure(args) <= Measure(old(args))
        invariant Grows(old(log), log, app) && positionalOnly == Marked(log, app)
        decreases Measure(args)
      {
        r, positionalOnly := ParseSingle(app, positionalOnly);
        if r.Thrown? {
          return;
        }
        if app != 0 && !r.handled {
          break;
        }
      }
    }

    // -------------------------------------------------------------- the checks afterwards

    method ProcessHelpFlags(app: nat, above: bool) returns (asked: bool)
      requires Fits(apps, states) && app < |apps|
      ensures asked <==> HelpAsked(apps, states, app, above)
      decreases |apps| - app
    {
      var here := above;
      var help, chosen := apps[app].help, states[app].parsedSubcommands;
      for i := 0 to |help|
        invariant here <==> above || exists k :: 0 <= k < i && Given(states, OptionRef(app, help[k]))
      {
        if Given(states, OptionRef(app, help[i])) {
          here := true;
        }
      }
      assert here <==> above || exists o :: o in help && Given(states, OptionRef(app, o));
      if chosen == [] {
        return here;
      }
      for i := 0 to |chosen|
        invariant forall k :: 0 <= k < i && app < chosen[k] < |apps| ==> !HelpAsked(apps, states, chosen[k], here)
      {
        if app < chosen[i] < |apps| {
          asked := ProcessHelpFlags(chosen[i], here);
          if asked {
            assert chosen[i] in chosen;
            return;
          }
        }
      }
      asked := false;
    }

    method ProcessRequirements(app: nat) returns (ok: bool)
      requires Fits(apps, states) && app < |apps|
      ensures ok <==> RequirementsMet(apps, states, app)
      decreases |apps| - app, 0
    {
      ok := ProcessOwnRequirements(app);
      if !ok {
        return;
      }
      var subcommands := apps[app].subcommands;
      for i := 0 to |subcommands|
        invariant forall k :: 0 <= k < i && app < subcommands[k] < |apps| ==>
                    SubcommandMet(apps, states, subcommands[k])
      {
        assert subcommands[i] in subcommands;
        if app < subcommands[i] < |apps| {
          ok := ProcessSubcommandRequirements(subcommands[i]);
          if !ok {
            return;
          }
        }
      }
      ok := true;
    }

    method ProcessSubcommandRequirements(c: nat) returns (ok: bool)
      requires Fits(apps, states) && c < |apps|
      ensures ok <==> SubcommandMet(apps, states, c)
      decreases |apps| - c, 1
    {
      ok := true;
      if apps[c].disabled {
        return;
      }
      if states[c].parsed > 0 {
        ok := ProcessRequirements(c);
        if !ok {
          return;
        }
      }
      ok := !apps[c].required || !Untouched(apps, states, c);
    }

    method ProcessOwnRequirements(app: nat) returns (ok: bool)
      requires Fits(apps, states) && app < |apps|
      ensures ok <==> OwnMet(apps, states, app)
    {
      var spec, used := apps[app], 0;
      for o := 0 to |spec.options|
        invariant used == UsedOptions(states, app, o)
        invariant forall k :: 0 <= k < o ==> OptionMet(apps, states, app, k)
      {
        if Given(states, OptionRef(app, o)) {
          used := used + 1;
        }
        if !OptionMet(apps, states, app, o) {
          return false;
        }
      }
      ok := && spec.minSubcommands <= |states[app].parsedSubcommands|
            && spec.minOptions <= used && (spec.maxOptions == 0 || used <= spec.maxOptions);
    }

    method ProcessExtras(app: nat) returns (ok: bool)
      requires Fits(apps, states) && app < |apps|
      ensures ok <==> ExtrasOk(apps, states, app)
      decreases |apps| - app
    {
      if !apps[app].allowExtras {
        for i := 0 to |states[app].missing|
          invariant forall k :: 0 <= k < i ==> states[app].missing[k].0 == POSITIONAL_MARK
        {
          if states[app].missing[i].0 != POSITIONAL_MARK {
            return false;
          }
        }
      }
      var subcommands := apps[app].subcommands;
      for i := 0 to |subcommands|
        invariant forall k :: 0 <= k < i && app < subcommands[k] < |apps| && states[subcommands[k]].parsed > 0 ==>
                    ExtrasOk(apps, states, subcommands[k])
      {
        var c := subcommands[i];
        if app < c < |apps| && states[c].parsed > 0 {
          ok := ProcessExtras(c);
          if !ok {
            return;
          }
        }
      }
      ok := true;
    }

    /** Parsing ends for every argument vector, with all arguments read and a log
        of justified uses that cannot go on; by ArgLog.OneReading there is no other.
        It succeeds exactly when no option was left short of its minimum, no help was
        asked for, the requirements of all apps that were parsed are met, and none of
        them has left-overs that it does not allow. */
    method ParseAll(arguments: seq<string>) returns (r: Outcome)
      requires Valid() && log == []
      modifies this
      ensures Valid() && args == []
      ensures AllJustified(apps, arguments, log) && Ended(apps, arguments, log)
      ensures Restore(log, []) == Some(arguments) && states == Replay(apps, log)
      ensures r.Done? <==>
                && !Short(apps, log) && !HelpAsked(apps, states, 0, false)
                && RequirementsMet(apps, states, 0) && ExtrasOk(apps, states, 0)
      ensures ChosenBelow(apps, states)
      ensures r.Done? ==> forall a :: OnChain(apps, states, a) ==> !HelpGiven(apps, states, a)
    {
      args, original := arguments, arguments;
      r := Parse(0);
      RestoreRemaining(arguments, log, []);
      ChosenAreBelow(apps, arguments, log);
      HelpIff(apps, states);
      if r.Done? {
        var help := ProcessHelpFlags(0, false);
        var met := ProcessRequirements(0);
        var noExtras := ProcessExtras(0);
        if help || !met || !noExtras {
          r := Thrown;
        }
      }
    }
  }
}
