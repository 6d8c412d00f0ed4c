// What the lines of a configuration file mean, said in terms of their characters:
// headers, comments, entries, dotted names, and a section written and read back.
module ConfigLines {
  import opened Wrappers
  import opened CliStrings
  import opened IniValues
  import opened ConfigReader

  // ---------------------------------------------------------------- headers and comments

  predicate Bracketed(s: string) {
    |s| > 1 && s[0] == '[' && s[|s| - 1] == ']'
  }

  /** A bracketed line is a header, with or without whitespace around it; double
      brackets count as one. */
  lemma HeaderLine(fmt: Format, before: string, section: string, after: string)
    requires AllSpace(before) && AllSpace(after)
    ensures !Bracketed(section) ==> Classify(fmt, before + ("[" + section + "]") + after) == Header(section)
    ensures Classify(fmt, before + ("[[" + section + "]]") + after) == Header(section)
  {
    var line := "[" + section + "]";
    TrimTakesSpaces(before, line, after);
    assert line[1..|line| - 1] == section;
    var double := "[[" + section + "]]";
    TrimTakesSpaces(before, double, after);
    var inner := "[" + section + "]";
    assert double[1..|double| - 1] == inner && inner[1..|inner| - 1] == section;
  }

  /** A blank line is skipped, and so is one that begins with a semicolon, a number
      sign or the comment character and is no header. */
  lemma SkippedLine(fmt: Format, before: string, line: string, after: string)
    requires AllSpace(before) && AllSpace(after)
    ensures Classify(fmt, before) == Skip
    ensures line != "" && Snug(line) && !Bracketed(line)
            && (line[0] == ';' || line[0] == '#' || line[0] == fmt.commentChar) ==>
              Classify(fmt, before + line + after) == Skip
  {
    TrimLeftSpaces(before, "");
    TrimRightSpaces("", before);
    assert before + "" == before && "" + before == before;
    if line != "" && Snug(line) {
      TrimTakesSpaces(before, line, after);
    }
  }

  // ---------------------------------------------------------------- entries

  /** A name, quoted or not, as it can stand in front of the delimiter. */
  predicate PlainName(fmt: Format, name: string) {
    && name != "" && Snug(name) && fmt.valueDelimiter !in name && '.' !in name
    && name[0] != ';' && name[0] != '#' && name[0] != fmt.commentChar && name[0] != '['
  }

  /** One pair of quotes around a text goes, and a text without one is kept. */
  lemma QuotesGo(quote: char, s: string)
    ensures quote == '"' || quote == '\'' ==> RemoveQuotes([quote] + s + [quote]) == s
    ensures s != "" && s[0] != '"' && s[0] != '\'' ==> RemoveQuotes(s) == s
  {
    var text := [quote] + s + [quote];
    assert text[1..|text| - 1] == s;
  }

  lemma FirstAt(front: string, delimiter: char, rest: string)
    requires delimiter !in front
    ensures Find(front + ([delimiter] + rest), delimiter, 0) == |front|
  {
    var s := front + ([delimiter] + rest);
    assert s[|front|] == delimiter;
    forall k | 0 <= k < |front|
      ensures s[k] != delimiter
    {
      assert s[k] == front[k];
    }
  }

  lemma DelimiterAt(name: string, gap: string, delimiter: char, rest: string)
    requires delimiter !in name && delimiter !in gap
    ensures Find(name + gap + ([delimiter] + rest), delimiter, 0) == |name| + |gap|
  {
    FirstAt(name + gap, delimiter, rest);
  }

  /** A line that is neither header nor comment is an entry. */
  lemma LineOfEntry(fmt: Format, line: string)
    requires line != "" && Snug(line)
    requires line[0] != ';' && line[0] != '#' && line[0] != fmt.commentChar && line[0] != '['
    ensures Classify(fmt, line) == EntryOf(fmt, line)
  {
    TrimSnug(line);
  }

  /** The name before the delimiter, the item after it. */
  lemma EntryAt(fmt: Format, line: string, pos: nat, name: string, item: string)
    requires Find(line, fmt.valueDelimiter, 0) == pos < |line|
    requires name == Trim(line[..pos]) && item == Trim(line[pos + 1..]) && '.' !in name
    ensures EntryOf(fmt, line) == Entry(RemoveQuotes(name), ReadValues(fmt, item))
  {
    assert EntryOf(fmt, line) == Entry(EntryName(Trim(line[..pos])), ReadValues(fmt, Trim(line[pos + 1..])));
  }

  lemma CutBefore(name: string, gap: string, rest: string)
    requires name != "" && Snug(name) && AllSpace(gap)
    ensures Trim((name + gap + rest)[..|name| + |gap|]) == name
  {
    assert (name + gap + rest)[..|name| + |gap|] == "" + name + gap;
    TrimTakesSpaces("", name, gap);
  }

  lemma CutAfter(front: string, delimiter: char, gap: string, item: string)
    requires item != "" && Snug(item) && AllSpace(gap)
    ensures Trim((front + ([delimiter] + (gap + item)))[|front| + 1..]) == item
  {
    assert (front + ([delimiter] + (gap + item)))[|front| + 1..] == gap + item + "";
    TrimTakesSpaces(gap, item, "");
  }

  lemma EndsSnug(name: string, gap: string, delimiter: char, gap2: string, item: string)
    requires name != "" && item != "" && Snug(name) && Snug(item)
    ensures var line := name + gap + ([delimiter] + (gap2 + item));
            line[0] == name[0] && Snug(line)
  {
    var line := name + gap + ([delimiter] + (gap2 + item));
    assert line[|line| - 1] == item[|item| - 1];
  }

  lemma EntryCut(fmt: Format, name: string, gap: string, gap2: string, item: string)
    requires PlainName(fmt, name) && item != "" && Snug(item)
    requires AllSpace(gap) && AllSpace(gap2) && !IsSpace(fmt.valueDelimiter)
    ensures var line := name + gap + ([fmt.valueDelimiter] + (gap2 + item));
            var pos := |name| + |gap|;
            && Find(line, fmt.valueDelimiter, 0) == pos < |line|
            && name == Trim(line[..pos]) && item == Trim(line[pos + 1..])
  {
    CutBefore(name, gap, [fmt.valueDelimiter] + (gap2 + item));
    CutAfter(name + gap, fmt.valueDelimiter, gap2, item);
    DelimiterAt(name, gap, fmt.valueDelimiter, gap2 + item);
  }

  lemma EntryOfCut(fmt: Format, line: string, pos: nat, name: string, item: string)
    requires line != "" && Snug(line)
    requires line[0] != ';' && line[0] != '#' && line[0] != fmt.commentChar && line[0] != '['
    requires Find(line, fmt.valueDelimiter, 0) == pos < |line|
    requires name == Trim(line[..pos]) && item == Trim(line[pos + 1..]) && '.' !in name
    ensures Classify(fmt, line) == Entry(RemoveQuotes(name), ReadValues(fmt, item))
  {
    LineOfEntry(fmt, line);
    EntryAt(fmt, line, pos, name, item);
  }

  /** "name = item" is an entry with the values of the item, its name without quotes. */
  lemma EntryLine(fmt: Format, name: string, gap: string, gap2: string, item: string)
    requires PlainName(fmt, name) && item != "" && Snug(item)
    requires AllSpace(gap) && AllSpace(gap2) && !IsSpace(fmt.valueDelimiter)
    ensures Classify(fmt, name + gap + ([fmt.valueDelimiter] + (gap2 + item)))
         == Entry(RemoveQuotes(name), ReadValues(fmt, item))
  {
    var line := name + gap + ([fmt.valueDelimiter] + (gap2 + item));
    EndsSnug(name, gap, fmt.valueDelimiter, gap2, item);
    EntryCut(fmt, name, gap, gap2, item);
    EntryOfCut(fmt, line, |name| + |gap|, name, item);
  }

  /** A name alone is an entry with the value "true". */
  lemma FlagLine(fmt: Format, name: string)
    requires PlainName(fmt, name)
    ensures Classify(fmt, name) == Entry(RemoveQuotes(name), ["true"])
  {
    TrimSnug(name);
    assert forall k :: 0 <= k < |name| ==> name[k] in name;
  }

  /** An entry written in the default format reads back as the list. */
  lemma WrittenEntry(name: string, args: seq<string>, isNumber: string -> bool)
    requires PlainName(INI, name) && args != [] && forall i :: 0 <= i < |args| ==> Plain(args[i])
    requires NumbersAreBare(isNumber)
    ensures Classify(INI, name + "" + (['='] + ("" + IniJoined(args, INI, isNumber))))
         == Entry(RemoveQuotes(name), args)
  {
    IniRoundTrip(args, isNumber);
    IniJoinedSnug(args, isNumber);
    EntryLine(INI, name, "", "", IniJoined(args, INI, isNumber));
  }

  lemma IniJoinedSnug(args: seq<string>, isNumber: string -> bool)
    requires args != [] && forall i :: 0 <= i < |args| ==> Plain(args[i])
    requires NumbersAreBare(isNumber)
    ensures IniJoined(args, INI, isNumber) != "" && Snug(IniJoined(args, INI, isNumber))
  {
    var parts := Converted(args, isNumber);
    ConvertedAllWritten(args, isNumber);
    JoinedIsChained(parts, ' ', " ");
    assert IniJoined(args, INI, isNumber) == Chained(parts, " ");
    TokensOfSpaced(parts, args);
  }

  // ---------------------------------------------------------------- paths

  /** A part of a dotted name as it is written: as it is, or in quotes. */
  predicate PartWritten(text: string, part: string) {
    && '.' !in text
    && ((text == part && part != "" && part[0] != '"' && part[0] != '\'')
        || text == ['"'] + part + ['"'] || text == ['\''] + part + ['\''])
  }

  predicate PartsWritten(texts: seq<string>, parts: seq<string>) {
    |texts| == |parts| && forall i :: 0 <= i < |parts| ==> PartWritten(texts[i], parts[i])
  }

  lemma PartRead(text: string, part: string)
    requires PartWritten(text, part)
    ensures RemoveQuotes(text) == part
  {
    QuotesGo('"', part);
    QuotesGo('\'', part);
  }

  lemma PartsRead(texts: seq<string>, parts: seq<string>)
    requires PartsWritten(texts, parts)
    ensures Map(RemoveQuotes, texts) == parts
  {
    forall i | 0 <= i < |parts|
      ensures RemoveQuotes(texts[i]) == parts[i]
    {
      PartRead(texts[i], parts[i]);
    }
  }

  lemma {:induction false} DotsBetween(parts: seq<string>)
    requires |parts| > 1
    ensures '.' in Interlaced(parts, '.')
  {
  }

  /** The default section in any mixture of cases, and nothing else. */
  lemma DefaultInAnyCase(section: string)
    ensures IsDefault(section) <==>
            |section| == 7 && forall i :: 0 <= i < 7 ==>
              section[i] == "default"[i] || section[i] == "DEFAULT"[i]
  {
    if |section| == 7 {
      LowerDefault(section);
    }
  }

  lemma LowerDefault(section: string)
    requires |section| == 7
    ensures ToLower(section) == "default" <==>
            forall i :: 0 <= i < 7 ==> section[i] == "default"[i] || section[i] == "DEFAULT"[i]
  {
    forall i | 0 <= i < 7
      ensures ToLower(section)[i] == "default"[i] <==> section[i] == "default"[i] || section[i] == "DEFAULT"[i]
    {
    }
  }

  /** A dotted section is the path of its parts, quoted or not. */
  lemma SectionOfParts(texts: seq<string>, parts: seq<string>)
    requires parts != [] && PartsWritten(texts, parts) && !IsDefault(Interlaced(texts, '.'))
    ensures SectionPath(Interlaced(texts, '.')) == parts
  {
    PartsRead(texts, parts);
    assert forall i :: 0 <= i < |parts| ==> PartWritten(texts[i], parts[i]);
    if |parts| == 1 {
      assert PartWritten(texts[0], parts[0]) && texts == [texts[0]];
    } else {
      DotsBetween(texts);
      SplitOfInterlaced(texts, '.');
    }
  }

  /** A dotted name adds its parts but the last, which is the name, to the path. */
  lemma NameOfParts(section: string, texts: seq<string>, parts: seq<string>, text: string, leaf: string)
    requires PartsWritten(texts, parts) && PartWritten(text, leaf)
    ensures GenerateParents(section, Interlaced(texts + [text], '.'))
         == (SectionPath(section) + parts, if parts == [] then text else leaf)
  {
    var all := texts + [text];
    if parts == [] {
      assert all == [text] && SectionPath(section) + [] == SectionPath(section);
    } else {
      PartsRead(texts, parts);
      PartRead(text, leaf);
      DotsBetween(all);
      assert forall i :: 0 <= i < |parts| ==> PartWritten(texts[i], parts[i]);
      SplitOfInterlaced(all, '.');
      assert all[..|all| - 1] == texts;
    }
  }

  // ---------------------------------------------------------------- a section written and read back

  /** The items of one entry, each input at its place. */
  function At(path: Path, name: string, args: seq<string>): seq<(Path, string, string)> {
    seq(|args|, i requires 0 <= i < |args| => (path, name, args[i]))
  }

  /** A header line, and an entry line with the written values, read from text: every
      value comes out with its section and name, the section opened and closed. */
  method ReadWrittenSection(texts: seq<string>, ghost parts: seq<string>, name: string, args: seq<string>,
                            ghost isNumber: string -> bool, written: string)
    returns (output: seq<ConfigItem>)
    requires parts != [] && PartsWritten(texts, parts) && !IsDefault(Interlaced(texts, '.'))
    requires !Bracketed(Interlaced(texts, '.'))
    requires PlainName(INI, name) && !IsEvent(RemoveQuotes(name))
    requires args != [] && forall i :: 0 <= i < |args| ==> Plain(args[i])
    requires NumbersAreBare(isNumber) && written == IniJoined(args, INI, isNumber)
    ensures Inputs(output) == At(parts, RemoveQuotes(name), args) && WellNested(output)
    ensures Covers(Events(output),
                   [Opens(Some(parts))] + ReadsOf(Some(parts), ConfigItem(parts, RemoveQuotes(name), args)))
  {
    var section := Interlaced(texts, '.');
    output := FromConfig(INI, ["" + ("[" + section + "]") + "", name + "" + (['='] + ("" + written))]);
    LinesAsWritten(section, name, args, isNumber);
    SectionOfParts(texts, parts);
    NoDotInside(name);
    WrittenLines(section, parts, RemoveQuotes(name), args);
  }

  lemma NoDotInside(name: string)
    requires '.' !in name
    ensures '.' !in RemoveQuotes(name)
  {
  }

  lemma LinesAsWritten(section: string, name: string, args: seq<string>, isNumber: string -> bool)
    requires !Bracketed(section) && PlainName(INI, name)
    requires args != [] && forall i :: 0 <= i < |args| ==> Plain(args[i])
    requires NumbersAreBare(isNumber)
    ensures var header, entry := "" + ("[" + section + "]") + "",
                                 name + "" + (['='] + ("" + IniJoined(args, INI, isNumber)));
            Map(line => Classify(INI, line), [header, entry]) == [Header(section)] + [Entry(RemoveQuotes(name), args)]
  {
    HeaderLine(INI, "", section, "");
    WrittenEntry(name, args, isNumber);
  }

  lemma WrittenLines(section: string, parts: seq<string>, name: string, args: seq<string>)
    requires !IsDefault(section) && SectionPath(section) == parts && '.' !in name && name != "++" && name != "--"
    ensures var lines := [Header(section)] + [Entry(name, args)];
            && NoEventNames(lines) && !LeavesOpen(lines) && !EntryDangles(lines)
            && GivenInputs(lines) == At(parts, name, args)
            && AllTold(lines) == [Opens(Some(parts))] + ReadsOf(Some(parts), ConfigItem(parts, name, args))
  {
    var header, entry := Header(section), Entry(name, args);
    OneMoreLine([], header);
    OneMoreLine([header], entry);
    assert [] + [header] == [header];
    assert [] + Told("default", header) == [Opens(Some(parts))];
    assert [] + Placed(EntryItem(section, entry)) == At(parts, name, args);
  }
}
