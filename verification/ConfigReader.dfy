// Reading a configuration file into items and the "++" / "--" items that open
// and close sections. The open path is what a consumer of the items keeps; the
// reader itself only looks at the last item it has put out.
module ConfigReader {
  import opened Wrappers
  import opened CliStrings
  import opened IniValues

  type Path = seq<string>

  datatype ConfigItem = ConfigItem(parents: Path, name: string, inputs: seq<string>)

  // ---------------------------------------------------------------- lines

  datatype Line = Header(section: string) | Skip | Entry(name: string, values: seq<string>)

  predicate IsDefault(section: string) {
    ToLower(section) == "default"
  }

  function HeaderName(line: string): (section: string)
    requires |line| > 1
  {
    var inner := line[1..|line| - 1];
    if |inner| > 1 && inner[0] == '[' && inner[|inner| - 1] == ']' then inner[1..|inner| - 1] else inner
  }

  /** The name of an entry; the quotes around the parts of a dotted one go later. */
  function EntryName(text: string): string {
    if '.' in text then text else RemoveQuotes(text)
  }

  /** The name and the values of a line that is neither header nor comment. */
  function EntryOf(fmt: Format, line: string): Line {
    var pos := Find(line, fmt.valueDelimiter, 0);
    if pos < |line| then Entry(EntryName(Trim(line[..pos])), ReadValues(fmt, Trim(line[pos + 1..])))
    else Entry(EntryName(Trim(line)), ["true"])
  }

  function Classify(fmt: Format, text: string): Line {
    var line := Trim(text);
    if |line| > 1 && line[0] == '[' && line[|line| - 1] == ']' then Header(HeaderName(line))
    else if line == "" || line[0] == ';' || line[0] == '#' || line[0] == fmt.commentChar then Skip
    else EntryOf(fmt, line)
  }

  // ---------------------------------------------------------------- paths

  /** The path a section stands for: the default section is the root. */
  function SectionPath(section: string): (path: Path)
    ensures path == [] <==> IsDefault(section)
  {
    if IsDefault(section) then []
    else Map(RemoveQuotes, if '.' in section then Split(section, '.') else [section])
  }

  /** Dots in a name add to the path; the last piece is the name. */
  function GenerateParents(section: string, name: string): (Path, string) {
    if '.' in name then
      var pieces := Split(name, '.');
      (SectionPath(section) + Map(RemoveQuotes, pieces[..|pieces| - 1]), RemoveQuotes(pieces[|pieces| - 1]))
    else (SectionPath(section), name)
  }

  // ---------------------------------------------------------------- walks

  predicate IsEvent(name: string) {
    name == "++" || name == "--"
  }

  /** One item against the open path: "++" extends it by one component, "--"
      closes exactly the innermost, and an entry lies at or below it. */
  function Visit(open: Path, item: ConfigItem): Option<Path> {
    var p := item.parents;
    if item.name == "++" then
      if p != [] && p[..|p| - 1] == open then Some(p) else None
    else if item.name == "--" then
      if p != [] && p == open then Some(p[..|p| - 1]) else None
    else if open <= p then Some(open) else None
  }

  function Walk(items: seq<ConfigItem>): Option<Path> {
    if items == [] then Some([])
    else
      var before := Walk(items[..|items| - 1]);
      if before.None? then None else Visit(before.value, items[|items| - 1])
  }

  /** Opened and closed like brackets, with nothing left open. */
  predicate WellNested(items: seq<ConfigItem>) {
    Walk(items) == Some([])
  }

  lemma WalkAppend(items: seq<ConfigItem>, item: ConfigItem)
    ensures Walk(items + [item]) == match Walk(items) case None => None case Some(p) => Visit(p, item)
  {
    assert (items + [item])[..|items|] == items;
  }

  /** The input strings with the place they were given for, in file order. */
  function Inputs(items: seq<ConfigItem>): seq<(Path, string, string)> {
    if items == [] then []
    else Inputs(items[..|items| - 1]) + Placed(items[|items| - 1])
  }

  function Placed(item: ConfigItem): seq<(Path, string, string)> {
    seq(|item.inputs|, i requires 0 <= i < |item.inputs| => (item.parents, item.name, item.inputs[i]))
  }

  lemma InputsAppend(items: seq<ConfigItem>, item: ConfigItem)
    ensures Inputs(items + [item]) == Inputs(items) + Placed(item)
  {
    assert (items + [item])[..|items|] == items;
  }

  // ---------------------------------------------------------------- events

  /** What a consumer that keeps the open path sees: a section opened, with the
      open path then, and an input read, with the open path and its place. */
  datatype Event = Opens(at: Option<Path>) | Reads(at: Option<Path>, parents: Path, name: string, input: string)

  function Events(items: seq<ConfigItem>): seq<Event> {
    if items == [] then []
    else Events(items[..|items| - 1]) + Moment(Walk(items), items[|items| - 1])
  }

  function Moment(at: Option<Path>, item: ConfigItem): seq<Event> {
    if item.name == "++" then [Opens(at)]
    else if item.name == "--" then []
    else ReadsOf(at, item)
  }

  function ReadsOf(at: Option<Path>, item: ConfigItem): seq<Event> {
    seq(|item.inputs|, i requires 0 <= i < |item.inputs| => Reads(at, item.parents, item.name, item.inputs[i]))
  }

  lemma EventsAppend(items: seq<ConfigItem>, item: ConfigItem)
    ensures Events(items + [item]) == Events(items) + Moment(Walk(items + [item]), item)
  {
    assert (items + [item])[..|items|] == items;
  }

  lemma CloseTellsNothing(items: seq<ConfigItem>, close: ConfigItem)
    requires close.name == "--"
    ensures Events(items + [close]) == Events(items)
  {
    EventsAppend(items, close);
  }

  lemma EventsDropClose(items: seq<ConfigItem>)
    requires EndsInClose(items)
    ensures Events(items[..|items| - 1]) == Events(items)
  {
  }

  /** The openings that take the open path from the first `from` components of
      `path` to the first `upTo`, one by one. */
  function Openings(path: Path, from: nat, upTo: nat): seq<Event>
    requires from <= upTo <= |path|
  {
    if upTo == from then [] else Openings(path, from, upTo - 1) + [Opens(Some(path[..upTo]))]
  }

  /** Events were added, the last of them an opening after which this is the open
      path; where there is one, they are just the openings that lead to it. */
  ghost predicate Enters(before: seq<Event>, after: seq<Event>, at: Option<Path>) {
    && before < after && after[|after| - 1] == Opens(at)
    && (at.Some? ==>
          exists from: nat :: from < |at.value| && after == before + Openings(at.value, from, |at.value|))
  }

  // ---------------------------------------------------------------- sections

  /** The item after which a new section may close what is still open. */
  predicate EndsInClose(items: seq<ConfigItem>) {
    items != [] && items[|items| - 1].name == "--"
  }

  /** The walk up to, but not including, a last "--": a new section may take
      that "--" back. */
  function Pending(items: seq<ConfigItem>): Option<Path> {
    if EndsInClose(items) then Walk(items[..|items| - 1]) else Walk(items)
  }

  /** The reader's last "--" closes the innermost open path. */
  ghost predicate ClosesOpen(items: seq<ConfigItem>) {
    EndsInClose(items) ==>
      && items[|items| - 1].inputs == []
      && items[|items| - 1].parents != []
      && (Pending(items).Some? ==> Pending(items).value == items[|items| - 1].parents)
  }

  /** `output` goes on from `items` with closings only. */
  ghost predicate ClosedOn(items: seq<ConfigItem>, output: seq<ConfigItem>) {
    && EndsInClose(output) && Events(output) == Events(items)
    && (ClosesOpen(items) ==>
          && ClosesOpen(output) && Inputs(output) == Inputs(items)
          && (Pending(output).Some? <==> Pending(items).Some?))
  }

  /** The path of the last item. */
  function LastPath(items: seq<ConfigItem>): Path
    requires items != []
  {
    items[|items| - 1].parents
  }

  /** Puts out further closings until the last one is for a path of length `keep`. */
  method CloseDownTo(items: seq<ConfigItem>, keep: nat) returns (output: seq<ConfigItem>)
    requires EndsInClose(items) && 1 <= keep
    ensures ClosedOn(items, output)
    ensures LastPath(output) == if |LastPath(items)| > keep then LastPath(items)[..keep] else LastPath(items)
  {
    output := items;
    ghost var was := LastPath(items);
    var last := LastPath(items);
    while |last| > keep
      invariant ClosedOn(items, output) && LastPath(output) == last
      invariant |last| <= |was| && last == was[..|last|]
      invariant |last| >= if |was| > keep then keep else |was|
      decreases |last|
    {
      output := CloseOnce(items, output);
      last := last[..|last| - 1];
    }
  }

  method CloseOnce(ghost items: seq<ConfigItem>, before: seq<ConfigItem>) returns (output: seq<ConfigItem>)
    requires ClosedOn(items, before) && |LastPath(before)| > 1
    ensures ClosedOn(items, output) && LastPath(output) == LastPath(before)[..|LastPath(before)| - 1]
  {
    var back := before[|before| - 1];
    var more := back.(parents := back.parents[..|back.parents| - 1]);
    output := before + [more];
    CloseTellsNothing(before, more);
    if ClosesOpen(before) {
      OneMoreClose(before, more);
    }
  }

  lemma OneMoreClose(items: seq<ConfigItem>, more: ConfigItem)
    requires EndsInClose(items) && ClosesOpen(items) && |items[|items| - 1].parents| > 1
    requires var back := items[|items| - 1]; more == back.(parents := back.parents[..|back.parents| - 1])
    ensures ClosesOpen(items + [more]) && Inputs(items + [more]) == Inputs(items)
    ensures Pending(items + [more]).Some? <==> Pending(items).Some?
  {
    InputsAppend(items, more);
    assert (items + [more])[..|items|] == items;
    assert items == items[..|items| - 1] + [items[|items| - 1]];
    WalkAppend(items[..|items| - 1], items[|items| - 1]);
  }

  /** `output` goes on from `items` with the openings up to `upTo`, in order or not. */
  ghost predicate Opened(items: seq<ConfigItem>, output: seq<ConfigItem>, path: Path, from: nat, upTo: nat)
    requires from <= upTo <= |path|
  {
    var inOrder, before, after := Walk(items) == Some(path[..from]), Events(items), Events(output);
    && Inputs(output) == Inputs(items) && before <= after
    && (upTo == from ==> output == items)
    && (upTo > from ==>
          && !EndsInClose(output) && before < after && after[|after| - 1] == Opens(Walk(output))
          && Walk(output) == if inOrder then Some(path[..upTo]) else None)
    && (inOrder ==> after == before + Openings(path, from, upTo))
  }

  method OpenFrom(items: seq<ConfigItem>, parents: Path, from: nat) returns (output: seq<ConfigItem>)
    requires from < |parents|
    ensures !EndsInClose(output) && Inputs(output) == Inputs(items)
    ensures Walk(output) == if Walk(items) == Some(parents[..from]) then Some(parents) else None
    ensures Enters(Events(items), Events(output), Walk(output))
  {
    output := items;
    OpenedNothing(items, parents, from);
    for ii := from to |parents|
      invariant Opened(items, output, parents, from, ii)
    {
      OpenedOnce(items, output, parents, from, ii);
      output := output + [ConfigItem(parents[..ii + 1], "++", [])];
    }
    assert parents[..|parents|] == parents;
  }

  lemma OpenedNothing(items: seq<ConfigItem>, path: Path, from: nat)
    requires from <= |path|
    ensures Opened(items, items, path, from, from)
  {
    assert Events(items) + [] == Events(items);
  }

  lemma OpenedOnce(items: seq<ConfigItem>, output: seq<ConfigItem>, path: Path, from: nat, upTo: nat)
    requires from <= upTo < |path| && Opened(items, output, path, from, upTo)
    ensures Opened(items, output + [ConfigItem(path[..upTo + 1], "++", [])], path, from, upTo + 1)
  {
    var item := ConfigItem(path[..upTo + 1], "++", []);
    EventsAppend(output, item);
    InputsAppend(output, item);
    WalkAppend(output, item);
    assert path[..upTo + 1][..upTo] == path[..upTo];
  }

  method CommonPrefix(p: Path, q: Path, limit: nat) returns (common: nat)
    requires limit <= |p| && limit <= |q|
    ensures common <= limit && p[..common] == q[..common]
    ensures common < limit ==> p[common] != q[common]
  {
    common := 0;
    while common < limit && p[common] == q[common]
      invariant common <= limit && p[..common] == q[..common]
    {
      common := common + 1;
    }
  }

  lemma WalkLastClose(items: seq<ConfigItem>)
    requires EndsInClose(items) && ClosesOpen(items)
    ensures var p := items[|items| - 1].parents;
            Walk(items) == if Pending(items).Some? then Some(p[..|p| - 1]) else None
  {
  }

  lemma InputsDropLast(items: seq<ConfigItem>)
    requires EndsInClose(items) && ClosesOpen(items)
    ensures Inputs(items[..|items| - 1]) == Inputs(items)
  {
  }

  /** Just the first `from` components of `parents` are open. */
  ghost predicate KeptOpen(items: seq<ConfigItem>, output: seq<ConfigItem>, parents: Path, from: nat)
    requires from <= |parents|
  {
    && Events(output) == Events(items)
    && (ClosesOpen(items) ==>
          && Inputs(output) == Inputs(items)
          && Walk(output) == if Pending(items).Some? then Some(parents[..from]) else None)
  }

  /** After a last "--": closes what `parents` does not share with it, or takes
      it back when all of it is shared; `from` components stay open. */
  method KeepShared(items: seq<ConfigItem>, parents: Path) returns (output: seq<ConfigItem>, from: nat)
    requires EndsInClose(items) && parents != []
    ensures from < |parents| && KeptOpen(items, output, parents, from)
  {
    var msize := if |parents| > 1 then |parents| else 2;
    output := CloseDownTo(items, msize - 1);
    from := 0;
    if |parents| > 1 {
      output, from := KeepCommon(items, output, parents);
    } else if ClosesOpen(items) {
      WalkLastClose(output);
      assert LastPath(output)[..|LastPath(output)| - 1] == parents[..from];
    }
  }

  method KeepCommon(ghost items: seq<ConfigItem>, closed: seq<ConfigItem>, parents: Path)
    returns (output: seq<ConfigItem>, from: nat)
    requires ClosedOn(items, closed) && |LastPath(closed)| < |parents|
    ensures from < |parents| && KeptOpen(items, output, parents, from)
  {
    var back := LastPath(closed);
    var mpair := if |back| < |parents| - 1 then |back| else |parents| - 1;
    from := CommonPrefix(back, parents, mpair);
    if from == mpair {
      output := closed[..|closed| - 1];
      assert back == parents[..from];
      TakenBack(items, closed, parents, from);
    } else {
      output := CloseDownTo(closed, from + 1);
      ClosedFurther(items, closed, output);
      assert back[..from + 1][..from] == parents[..from];
      ClosedAbove(items, output, parents, from);
    }
  }

  lemma TakenBack(items: seq<ConfigItem>, closed: seq<ConfigItem>, parents: Path, from: nat)
    requires ClosedOn(items, closed) && from <= |parents| && LastPath(closed) == parents[..from]
    ensures KeptOpen(items, closed[..|closed| - 1], parents, from)
  {
    EventsDropClose(closed);
    if ClosesOpen(items) {
      InputsDropLast(closed);
    }
  }

  lemma ClosedAbove(items: seq<ConfigItem>, closed: seq<ConfigItem>, parents: Path, from: nat)
    requires ClosedOn(items, closed) && from <= |parents|
    requires |LastPath(closed)| == from + 1 && LastPath(closed)[..from] == parents[..from]
    ensures KeptOpen(items, closed, parents, from)
  {
    if ClosesOpen(items) {
      WalkLastClose(closed);
    }
  }

  lemma ClosedFurther(items: seq<ConfigItem>, closed: seq<ConfigItem>, output: seq<ConfigItem>)
    requires ClosedOn(items, closed) && ClosedOn(closed, output)
    ensures ClosedOn(items, output)
  {
  }

  /** Opens `currentSection`, keeping open what it shares with what a last "--"
      has just closed. */
  method CheckParentSegments(items: seq<ConfigItem>, currentSection: string) returns (output: seq<ConfigItem>)
    requires !IsDefault(currentSection)
    ensures !EndsInClose(output) && Enters(Events(items), Events(output), Walk(output))
    ensures ClosesOpen(items) ==> Inputs(output) == Inputs(items)
    ensures ClosesOpen(items) && EndsInClose(items) ==>
              Walk(output) == if Pending(items).Some? then Some(SectionPath(currentSection)) else None
    ensures !EndsInClose(items) ==>
              Walk(output) == if Walk(items) == Some([]) then Some(SectionPath(currentSection)) else None
  {
    var parents := SectionPath(currentSection);
    output := items;
    var from := 0;
    if items != [] && items[|items| - 1].name == "--" {
      output, from := KeepShared(items, parents);
    }
    output := OpenFrom(output, parents, from);
  }

  // ---------------------------------------------------------------- the file

  /** Where the reader stands after some lines: in a section, or in the default
      section, in either case with the number of components of the last section
      named. */
  datatype Place = Named(section: string) | Default(left: nat)

  function PlaceAfter(lines: seq<Line>): Place {
    if lines == [] then Default(0)
    else NextPlace(PlaceAfter(lines[..|lines| - 1]), lines[|lines| - 1])
  }

  function NextPlace(before: Place, line: Line): Place {
    match line
    case Header(section) =>
      if !IsDefault(section) then Named(section)
      else if before.Named? then Default(|SectionPath(before.section)|)
      else before
    case _ => before
  }

  /** A [default] header comes after a dotted section, and then an entry or the
      end of the file before the next section header. */
  predicate Dangles(place: Place) {
    place.Default? && place.left >= 2
  }

  /** Some entry comes at such a place. */
  predicate EntryDangles(lines: seq<Line>) {
    lines != [] &&
    var before, line := lines[..|lines| - 1], lines[|lines| - 1];
    EntryDangles(before) || (line.Entry? && Dangles(PlaceAfter(before)))
  }

  predicate LeavesOpen(lines: seq<Line>) {
    EntryDangles(lines) || Dangles(PlaceAfter(lines))
  }

  function SectionOf(place: Place): string {
    if place.Named? then place.section else "default"
  }

  /** The inputs that the entry lines give, each with its full place. */
  function GivenInputs(lines: seq<Line>): seq<(Path, string, string)> {
    if lines == [] then []
    else
      var before, line := lines[..|lines| - 1], lines[|lines| - 1];
      GivenInputs(before)
        + if line.Entry? then EntryInputs(SectionOf(PlaceAfter(before)), line) else []
  }

  function EntryInputs(section: string, line: Line): seq<(Path, string, string)>
    requires line.Entry?
  {
    Placed(EntryItem(section, line))
  }

  function EntryItem(section: string, line: Line): ConfigItem
    requires line.Entry?
  {
    var (parents, leaf) := GenerateParents(section, line.name);
    ConfigItem(parents, leaf, line.values)
  }

  predicate EventEntry(line: Line) {
    line.Entry? && IsEvent(GenerateParents("default", line.name).1)
  }

  /** No entry is itself named like an event. */
  predicate NoEventNames(lines: seq<Line>) {
    forall i :: 0 <= i < |lines| ==> !EventEntry(lines[i])
  }

  /** The reader's loop invariant: in step, or beyond repair. */
  ghost predicate InStep(items: seq<ConfigItem>, place: Place) {
    match place
    case Named(section) => !IsDefault(section) && !EndsInClose(items) && Walk(items) == Some(SectionPath(section))
    case Default(left) =>
      if EndsInClose(items)
      then Pending(items).Some? && |items[|items| - 1].parents| == left
      else left <= 1 && Walk(items) == Some([])
  }

  ghost predicate Lost(items: seq<ConfigItem>, place: Place) {
    || Pending(items).None?
    || (place.Default? && !EndsInClose(items) && Walk(items).Some? && Walk(items).value != [])
  }

  lemma ReadsJoin(at: Option<Path>, item: ConfigItem, more: seq<string>)
    ensures ReadsOf(at, item.(inputs := item.inputs + more)) == ReadsOf(at, item) + ReadsOf(at, item.(inputs := more))
  {
  }

  lemma MergeReads(before: seq<ConfigItem>, back: ConfigItem, more: seq<string>)
    requires !IsEvent(back.name)
    ensures var merged, at := back.(inputs := back.inputs + more), Walk(before + [back]);
            && Walk(before + [merged]) == at
            && Events(before + [merged]) == Events(before + [back]) + ReadsOf(at, back.(inputs := more))
  {
    var merged, at := back.(inputs := back.inputs + more), Walk(before + [back]);
    WalkAppend(before, merged);
    WalkAppend(before, back);
    EventsAppend(before, merged);
    EventsAppend(before, back);
    ReadsJoin(at, back, more);
    SumOfThree(Events(before), ReadsOf(at, back), ReadsOf(at, back.(inputs := more)));
  }

  lemma SumOfThree(a: seq<Event>, b: seq<Event>, c: seq<Event>)
    ensures a + (b + c) == (a + b) + c
  {
  }

  method AppendEntry(items: seq<ConfigItem>, entry: ConfigItem) returns (output: seq<ConfigItem>)
    ensures !IsEvent(entry.name) ==>
              && !EndsInClose(output) && Inputs(output) == Inputs(items) + Placed(entry)
              && Walk(output) == (match Walk(items) case None => None case Some(p) => Visit(p, entry))
              && Events(output) == Events(items) + ReadsOf(Walk(output), entry)
  {
    if items != [] && entry.name == items[|items| - 1].name && entry.parents == items[|items| - 1].parents {
      var back := items[|items| - 1];
      var merged := back.(inputs := back.inputs + entry.inputs);
      output := items[..|items| - 1] + [merged];
      WalkAppend(items[..|items| - 1], merged);
      InputsAppend(items[..|items| - 1], merged);
      assert Placed(merged) == Placed(back) + Placed(entry);
      if !IsEvent(entry.name) {
        assert items == items[..|items| - 1] + [back] && entry == back.(inputs := entry.inputs);
        MergeReads(items[..|items| - 1], back, entry.inputs);
      }
    } else {
      output := items + [entry];
      EventsAppend(items, entry);
      WalkAppend(items, entry);
      InputsAppend(items, entry);
    }
  }

  /** The closing put out when a named section ends. */
  method EndSection(items: seq<ConfigItem>, section: string) returns (output: seq<ConfigItem>)
    requires !IsDefault(section)
    ensures EndsInClose(output) && Inputs(output) == Inputs(items) && Events(output) == Events(items)
    ensures Pending(output) == Walk(items) && output[|output| - 1].parents == SectionPath(section)
    ensures Walk(items) == Some(SectionPath(section)) || Walk(items).None? ==> ClosesOpen(output)
  {
    var item := ConfigItem(GenerateParents(section, "").0, "--", []);
    output := items + [item];
    InputsAppend(items, item);
    CloseTellsNothing(items, item);
    assert output[..|output| - 1] == items;
  }

  /** The invariant of the loop over lines. */
  ghost predicate Tracks(items: seq<ConfigItem>, place: Place, lost: bool) {
    && ClosesOpen(items)
    && (place.Named? ==> !IsDefault(place.section) && !EndsInClose(items))
    && if lost then Lost(items, place) else InStep(items, place)
  }

  /** Ends the section the reader is in; from there on the place is a default one. */
  method LeaveSection(items: seq<ConfigItem>, section: string, ghost place: Place, ghost lost: bool)
    returns (output: seq<ConfigItem>)
    requires section == SectionOf(place)
    requires place.Named? ==> !IsDefault(section)
    ensures Tracks(items, place, lost) ==>
              Tracks(output, NextPlace(place, Header("default")), lost) && Inputs(output) == Inputs(items)
    ensures Events(output) == Events(items)
  {
    output := items;
    DefaultItself();
    if section != "default" {
      output := EndSection(output, section);
    }
  }

  method OpenSection(items: seq<ConfigItem>, next: string, ghost place: Place, ghost lost: bool)
    returns (output: seq<ConfigItem>)
    requires place.Default? && !IsDefault(next)
    ensures Tracks(items, place, lost) ==> Tracks(output, Named(next), lost) && Inputs(output) == Inputs(items)
    ensures Enters(Events(items), Events(output), Walk(output))
  {
    output := CheckParentSegments(items, next);
  }

  method Enter(items: seq<ConfigItem>, section: string, next: string, ghost place: Place, ghost lost: bool)
    returns (output: seq<ConfigItem>)
    requires section == SectionOf(place)
    requires place.Named? ==> !IsDefault(section)
    ensures Tracks(items, place, lost) ==>
              Tracks(output, NextPlace(place, Header(next)), lost) && Inputs(output) == Inputs(items)
    ensures if IsDefault(next) then Events(output) == Events(items)
            else Enters(Events(items), Events(output), Walk(output))
  {
    output := LeaveSection(items, section, place, lost);
    DefaultItself();
    if !IsDefault(next) {
      output := OpenSection(output, next, NextPlace(place, Header("default")), lost);
    }
  }

  lemma EntryTracks(items: seq<ConfigItem>, output: seq<ConfigItem>, entry: ConfigItem, place: Place, lost: bool)
    requires Tracks(items, place, lost) && SectionPath(SectionOf(place)) <= entry.parents
    requires !EndsInClose(output)
    requires Walk(output) == match Walk(items) case None => None case Some(p) => Visit(p, entry)
    requires !IsEvent(entry.name)
    ensures Tracks(output, place, lost || Dangles(place))
  {
    if EndsInClose(items) {
      WalkLastClose(items);
    }
  }

  /** Closes what is still open at the end of the file. */
  method Finish(items: seq<ConfigItem>, section: string, ghost place: Place, ghost lost: bool)
    returns (output: seq<ConfigItem>)
    requires section == SectionOf(place)
    requires place.Named? ==> !IsDefault(section)
    ensures Events(output) == Events(items)
    ensures Tracks(items, place, lost) ==>
              && Inputs(output) == Inputs(items)
              && (WellNested(output) <==> !lost && !Dangles(place))
  {
    output := items;
    if section != "default" {
      output := EndSection(output, section);
      output := CloseDownTo(output, 1);
    }
    if Tracks(items, place, lost) && EndsInClose(output) {
      WalkLastClose(output);
    }
  }

  method ReadEntry(items: seq<ConfigItem>, section: string, line: Line, ghost place: Place, ghost lost: bool)
    returns (output: seq<ConfigItem>)
    requires line.Entry? && section == SectionOf(place)
    ensures !IsEvent(GenerateParents(section, line.name).1) && Tracks(items, place, lost) ==>
              && Tracks(output, place, lost || Dangles(place))
              && Inputs(output) == Inputs(items) + EntryInputs(section, line)
              && Events(output) == Events(items) + ReadsOf(Walk(output), EntryItem(section, line))
              && !EndsInClose(output)
  {
    var leaf, entry := GenerateParents(section, line.name).1, EntryItem(section, line);
    output := AppendEntry(items, entry);
    if !IsEvent(leaf) && Tracks(items, place, lost) {
      EntryTracks(items, output, entry, place, lost);
    }
  }

  lemma PlaceNext(before: seq<Line>, line: Line)
    ensures PlaceAfter(before + [line]) == NextPlace(PlaceAfter(before), line)
  {
    assert (before + [line])[..|before|] == before;
  }

  lemma OneMoreLine(before: seq<Line>, line: Line)
    ensures var lines := before + [line];
            && PlaceAfter(lines) == NextPlace(PlaceAfter(before), line)
            && EntryDangles(lines) == (EntryDangles(before) || (line.Entry? && Dangles(PlaceAfter(before))))
            && AllTold(lines) == AllTold(before)
                 + (if EntryDangles(lines) then [] else Told(SectionOf(PlaceAfter(before)), line))
            && GivenInputs(lines) == GivenInputs(before)
                 + (if line.Entry? then EntryInputs(SectionOf(PlaceAfter(before)), line) else [])
  {
    assert (before + [line])[..|before|] == before;
  }

  /** The events that a line adds, with this open path after it. */
  ghost predicate Tells(before: seq<Event>, after: seq<Event>, section: string, line: Line, at: Option<Path>) {
    match line
    case Header(next) => if IsDefault(next) then after == before else Enters(before, after, at)
    case Skip => after == before
    case Entry(_, _) => after == before + ReadsOf(at, EntryItem(section, line))
  }

  /** The events that a line calls for: a header opens its section, and an entry is
      read with its section open. */
  function Told(section: string, line: Line): seq<Event> {
    match line
    case Header(next) => if IsDefault(next) then [] else [Opens(Some(SectionPath(next)))]
    case Skip => []
    case Entry(_, _) => ReadsOf(Some(SectionPath(section)), EntryItem(section, line))
  }

  /** What the lines call for, up to the first entry at a dangling place. */
  function AllTold(lines: seq<Line>): seq<Event> {
    if lines == [] then []
    else
      var before, line := lines[..|lines| - 1], lines[|lines| - 1];
      AllTold(before) + if EntryDangles(lines) then [] else Told(SectionOf(PlaceAfter(before)), line)
  }

  /** The opening of the section just around the one opened next. */
  predicate LeadsTo(e: Event, next: Option<Event>) {
    && next.Some? && e.Opens? && next.value.Opens? && e.at.Some? && next.value.at.Some?
    && var p := next.value.at.value; p != [] && e.at.value == p[..|p| - 1]
  }

  /** All that was told happened, in that order, before `next`, and nothing else
      but openings of sections around the one opened next. */
  predicate CoversTo(events: seq<Event>, told: seq<Event>, next: Option<Event>) {
    if events == [] then told == []
    else
      var n, m := |events| - 1, |told| - 1;
      || (told != [] && events[n] == told[m] && CoversTo(events[..n], told[..m], Some(events[n])))
      || (LeadsTo(events[n], next) && CoversTo(events[..n], told, Some(events[n])))
  }

  predicate Covers(events: seq<Event>, told: seq<Event>) {
    CoversTo(events, told, None)
  }

  /** As far as the place is not lost, the events cover what was told. */
  ghost predicate Follows(events: seq<Event>, told: seq<Event>, lost: bool) {
    if lost then exists k: nat :: k <= |events| && Covers(events[..k], told)
    else Covers(events, told)
  }

  lemma CoversBefore(events: seq<Event>, told: seq<Event>, next: Option<Event>)
    requires Covers(events, told)
    ensures CoversTo(events, told, next)
  {
  }

  lemma {:induction false} CoversBoth(events: seq<Event>, told: seq<Event>, more: seq<Event>, next: Option<Event>)
    requires Covers(events, told)
    ensures CoversTo(events + more, told + more, next)
    decreases |more|
  {
    if more == [] {
      assert events + more == events && told + more == told;
      CoversBefore(events, told, next);
    } else {
      var n := |more| - 1;
      CoversBoth(events, told, more[..n], Some(more[n]));
      assert (events + more)[..|events| + n] == events + more[..n];
      assert (told + more)[..|told| + n] == told + more[..n];
    }
  }

  /** The openings on the way to a section are covered before the next of them. */
  lemma {:induction false} CoversOpenings(events: seq<Event>, told: seq<Event>, path: Path, from: nat, upTo: nat)
    requires Covers(events, told) && from <= upTo < |path|
    ensures CoversTo(events + Openings(path, from, upTo), told, Some(Opens(Some(path[..upTo + 1]))))
    decreases upTo
  {
    var next := Some(Opens(Some(path[..upTo + 1])));
    if upTo == from {
      assert events + [] == events;
      CoversBefore(events, told, next);
    } else {
      CoversOpenings(events, told, path, from, upTo - 1);
      var all, last := events + Openings(path, from, upTo), Opens(Some(path[..upTo]));
      assert all[..|all| - 1] == events + Openings(path, from, upTo - 1) && all[|all| - 1] == last;
      assert path[..upTo + 1][..upTo] == path[..upTo];
      assert LeadsTo(last, next);
    }
  }

  lemma CoversEntering(before: seq<Event>, after: seq<Event>, path: Path, told: seq<Event>)
    requires Covers(before, told) && Enters(before, after, Some(path))
    ensures Covers(after, told + [Opens(Some(path))])
  {
    var from: nat :| from < |path| && after == before + Openings(path, from, |path|);
    var n, last := |after| - 1, Opens(Some(path));
    assert path[..|path|] == path;
    assert after[..n] == before + Openings(path, from, |path| - 1) && after[n] == last;
    CoversOpenings(before, told, path, from, |path| - 1);
    assert (told + [last])[..|told|] == told;
  }

  lemma FollowOn(before: seq<Event>, after: seq<Event>, told: seq<Event>, lost: bool,
                 section: string, line: Line, place: Place, at: Option<Path>, nowLost: bool)
    requires Follows(before, told, lost) && Tells(before, after, section, line, at)
    requires section == SectionOf(place) && (lost ==> nowLost)
    requires !nowLost && (line.Entry? || NextPlace(place, line).Named?) ==>
               at == Some(SectionPath(SectionOf(NextPlace(place, line))))
    ensures Follows(after, told + (if nowLost then [] else Told(section, line)), nowLost)
  {
    if nowLost {
      var k: nat :| k <= |before| && Covers(before[..k], told) by {
        assert before[..|before|] == before;
      }
      assert after[..k] == before[..k] && told + [] == told;
    } else {
      match line
      case Header(next) =>
        if IsDefault(next) {
          assert told + [] == told;
        } else {
          CoversEntering(before, after, SectionPath(next), told);
        }
      case Skip => assert told + [] == told;
      case Entry(_, _) => CoversBoth(before, told, Told(section, line), None);
    }
  }

  /** In step and not just after a closing, the section is what is open. */
  lemma PlaceOpen(items: seq<ConfigItem>, place: Place, lost: bool)
    requires Tracks(items, place, lost) && !lost && !EndsInClose(items)
    ensures Walk(items) == Some(SectionPath(SectionOf(place)))
  {
    DefaultItself();
  }

  method ReadLine(items: seq<ConfigItem>, section: string, line: Line, ghost place: Place, ghost lost: bool)
    returns (output: seq<ConfigItem>, next: string)
    requires section == SectionOf(place)
    requires place.Named? ==> !IsDefault(section)
    ensures next == SectionOf(NextPlace(place, line))
    ensures NextPlace(place, line).Named? ==> !IsDefault(next)
    ensures Tracks(items, place, lost) && !EventEntry(line) ==>
              && Tracks(output, NextPlace(place, line), lost || (line.Entry? && Dangles(place)))
              && Inputs(output) == Inputs(items) + (if line.Entry? then EntryInputs(section, line) else [])
              && Tells(Events(items), Events(output), section, line, Walk(output))
              && (line.Entry? ==> !EndsInClose(output))
  {
    output, next := items, section;
    match line {
      case Header(name) =>
        output := Enter(output, section, name, place, lost);
        next := if IsDefault(name) then "default" else name;
      case Skip =>
      case Entry(_, _) =>
        output := ReadEntry(output, section, line, place, lost);
    }
  }

  /** What is promised of the items for a file whose entries are not named like
      events. Whatever the file, every input comes out once, in order and at its
      place. Up to the first entry at a dangling place, each header is followed by
      a state whose open path is its section's and each entry is read with its
      section open. The section events are well nested exactly for the files that
      never leave a dotted section through [default] and then go on. */
  ghost predicate Renders(output: seq<ConfigItem>, lines: seq<Line>) {
    && Inputs(output) == GivenInputs(lines)
    && Follows(Events(output), AllTold(lines), EntryDangles(lines))
    && (WellNested(output) <==> !LeavesOpen(lines))
  }

  /** What holds of the items after these lines. */
  ghost predicate Reading(items: seq<ConfigItem>, lines: seq<Line>) {
    && Tracks(items, PlaceAfter(lines), EntryDangles(lines))
    && Inputs(items) == GivenInputs(lines)
    && Follows(Events(items), AllTold(lines), EntryDangles(lines))
  }

  lemma ReadOn(items: seq<ConfigItem>, output: seq<ConfigItem>, before: seq<Line>, line: Line)
    requires Reading(items, before)
    requires var place, lost := PlaceAfter(before), EntryDangles(before);
             && Tracks(output, NextPlace(place, line), lost || (line.Entry? && Dangles(place)))
             && Inputs(output) == Inputs(items) + (if line.Entry? then EntryInputs(SectionOf(place), line) else [])
             && Tells(Events(items), Events(output), SectionOf(place), line, Walk(output))
             && (line.Entry? ==> !EndsInClose(output))
    ensures Reading(output, before + [line])
  {
    OneMoreLine(before, line);
    var place, lost := PlaceAfter(before), EntryDangles(before);
    var nowLost := lost || (line.Entry? && Dangles(place));
    if !nowLost && (line.Entry? || NextPlace(place, line).Named?) {
      PlaceOpen(output, NextPlace(place, line), nowLost);
    }
    FollowOn(Events(items), Events(output), AllTold(before), lost,
             SectionOf(place), line, place, Walk(output), nowLost);
  }

  method ReadNext(items: seq<ConfigItem>, section: string, ghost before: seq<Line>, line: Line)
    returns (output: seq<ConfigItem>, next: string)
    requires section == SectionOf(PlaceAfter(before))
    requires PlaceAfter(before).Named? ==> !IsDefault(section)
    ensures next == SectionOf(PlaceAfter(before + [line]))
    ensures PlaceAfter(before + [line]).Named? ==> !IsDefault(next)
    ensures Reading(items, before) && !EventEntry(line) ==> Reading(output, before + [line])
  {
    output, next := ReadLine(items, section, line, PlaceAfter(before), EntryDangles(before));
    PlaceNext(before, line);
    if Reading(items, before) && !EventEntry(line) {
      ReadOn(items, output, before, line);
    }
  }

  method FinishReading(items: seq<ConfigItem>, section: string, ghost lines: seq<Line>)
    returns (output: seq<ConfigItem>)
    requires section == SectionOf(PlaceAfter(lines))
    requires PlaceAfter(lines).Named? ==> !IsDefault(section)
    ensures Reading(items, lines) ==> Renders(output, lines)
  {
    output := Finish(items, section, PlaceAfter(lines), EntryDangles(lines));
  }

  method ReadLines(lines: seq<Line>) returns (output: seq<ConfigItem>)
    ensures NoEventNames(lines) ==> Renders(output, lines)
  {
    output := [];
    var section := "default";
    for i := 0 to |lines|
      invariant section == SectionOf(PlaceAfter(lines[..i]))
      invariant PlaceAfter(lines[..i]).Named? ==> !IsDefault(section)
      invariant NoEventNames(lines) ==> Reading(output, lines[..i])
    {
      output, section := ReadNext(output, section, lines[..i], lines[i]);
      assert lines[..i + 1] == lines[..i] + [lines[i]];
    }
    assert lines[..|lines|] == lines;
    output := FinishReading(output, section, lines);
  }

  method FromConfig(fmt: Format, text: seq<string>) returns (output: seq<ConfigItem>)
    ensures var lines := Map(line => Classify(fmt, line), text);
            NoEventNames(lines) ==> Renders(output, lines)
  {
    output := ReadLines(Map(line => Classify(fmt, line), text));
  }

  // ---------------------------------------------------------------- the exception

  /** The failing family at its smallest: a dotted section, then [default], then
      the end of the file or an entry. The events come out of step. */
  method ReadThroughDefault(section: string, entries: seq<Line>) returns (output: seq<ConfigItem>)
    requires |SectionPath(section)| >= 2 && |entries| <= 1
    requires forall i :: 0 <= i < |entries| ==> entries[i].Entry? && !EventEntry(entries[i])
    ensures !WellNested(output)
  {
    DefaultAfterDottedLeavesOpen(section, entries);
    output := ReadLines(DefaultAfter(section) + entries);
  }

  function DefaultAfter(section: string): seq<Line> {
    [Header(section)] + [Header("default")]
  }

  lemma DefaultAfterDottedLeavesOpen(section: string, entries: seq<Line>)
    requires |SectionPath(section)| >= 2 && |entries| <= 1
    requires forall i :: 0 <= i < |entries| ==> entries[i].Entry?
    ensures LeavesOpen(DefaultAfter(section) + entries)
  {
    DefaultDangles(section);
    if entries == [] {
      assert DefaultAfter(section) + entries == DefaultAfter(section);
    } else {
      EntryDanglesAfter(DefaultAfter(section), entries[0]);
      assert entries == [entries[0]];
    }
  }

  lemma EntryDanglesAfter(before: seq<Line>, entry: Line)
    requires entry.Entry? && Dangles(PlaceAfter(before))
    ensures EntryDangles(before + [entry])
  {
    assert (before + [entry])[..|before|] == before;
  }

  lemma DefaultDangles(section: string)
    requires |SectionPath(section)| >= 2
    ensures Dangles(PlaceAfter(DefaultAfter(section)))
  {
    DefaultItself();
    PlaceNext([], Header(section));
    assert [] + [Header(section)] == [Header(section)];
    PlaceNext([Header(section)], Header("default"));
  }

  lemma DefaultItself()
    ensures IsDefault("default")
  {
  }

  /** Files without a [default] header are read well: all events are in step. */
  method ReadNamedSections(lines: seq<Line>) returns (output: seq<ConfigItem>)
    requires forall i :: 0 <= i < |lines| && lines[i].Header? ==> !IsDefault(lines[i].section)
    requires NoEventNames(lines)
    ensures WellNested(output) && Inputs(output) == GivenInputs(lines) && Covers(Events(output), AllTold(lines))
  {
    NoDefaultHeaderIsSafe(lines);
    output := ReadLines(lines);
  }

  lemma {:induction false} NoDefaultHeaderIsSafe(lines: seq<Line>)
    requires forall i :: 0 <= i < |lines| && lines[i].Header? ==> !IsDefault(lines[i].section)
    ensures !LeavesOpen(lines)
    ensures PlaceAfter(lines).Default? ==> PlaceAfter(lines).left == 0
    decreases |lines|
  {
    if lines != [] {
      NoDefaultHeaderIsSafe(lines[..|lines| - 1]);
    }
  }
}
