// Writing a list of option values as one INI value and reading it back.
module IniValues {
  import opened CliStrings

  // ---------------------------------------------------------------- format

  /** '\0' stands for "none" in the array bounds. */
  datatype Format = Format(
    commentChar: char, arrayStart: char, arrayEnd: char, arraySeparator: char, valueDelimiter: char)
  {
    predicate DefaultArray() {
      (arrayStart == '\0' || arrayStart == ' ') && arrayStart == arrayEnd
    }

    function Start(): char {
      if DefaultArray() then '[' else arrayStart
    }

    function End(): char {
      if DefaultArray() then ']' else arrayEnd
    }

    function Separator(): char {
      if DefaultArray() && arraySeparator == ' ' then ',' else arraySeparator
    }
  }

  const INI := Format(';', '\0', '\0', ' ', '=')
  const TOML := Format('#', '[', ']', ',', '=')

  // ---------------------------------------------------------------- writing

  predicate AllIn(s: string, digits: string) {
    forall c :: c in s ==> c in digits
  }

  /** 0x, 0o and 0b literals are written bare. */
  predicate RadixLiteral(arg: string)
    requires |arg| >= 2
  {
    arg[0] == '0' &&
    match arg[1]
    case 'x' => AllIn(arg[2..], "0123456789ABCDEFabcdef")
    case 'o' => AllIn(arg[2..], "01234567")
    case 'b' => AllIn(arg[2..], "01")
    case _ => false
  }

  /** `isNumber` is the conversion to a floating-point number. */
  function ConvertArg(arg: string, isNumber: string -> bool): string {
    if arg == "" then "\"\""
    else if arg == "true" || arg == "false" || arg == "nan" || arg == "inf" then arg
    else if !("0x" <= arg) && !("0X" <= arg) && isNumber(arg) then arg
    else if |arg| == 1 then "'" + arg + "'"
    else if RadixLiteral(arg) then arg
    else if '"' !in arg then "\"" + arg + "\""
    else "'" + arg + "'"
  }

  /** The elements with the separator between them, and a blank after one that
      is not itself whitespace. */
  function Joined(parts: seq<string>, sep: char): string {
    if parts == [] then ""
    else if |parts| == 1 then parts[0]
    else Joined(parts[..|parts| - 1], sep) + Glue(sep) + parts[|parts| - 1]
  }

  function Glue(sep: char): string {
    if IsSpace(sep) then [sep] else [sep] + " "
  }

  function Converted(args: seq<string>, isNumber: string -> bool): seq<string> {
    Map(a => ConvertArg(a, isNumber), args)
  }

  function IniJoined(args: seq<string>, fmt: Format, isNumber: string -> bool): string {
    (if |args| > 1 && fmt.arrayStart != '\0' then [fmt.arrayStart] else "")
    + Joined(Converted(args, isNumber), fmt.arraySeparator)
    + (if |args| > 1 && fmt.arrayEnd != '\0' then [fmt.arrayEnd] else "")
  }

  lemma JoinedNext(parts: seq<string>, sep: char, k: nat)
    requires k < |parts|
    ensures Joined(parts[..k + 1], sep)
         == if k == 0 then parts[0]
            else Joined(parts[..k], sep) + Glue(sep) + parts[k]
  {
    assert parts[..k + 1][..k] == parts[..k];
  }

  method IniJoin(args: seq<string>, fmt: Format, isNumber: string -> bool) returns (joined: string)
    ensures joined == IniJoined(args, fmt, isNumber)
  {
    ghost var parts := Converted(args, isNumber);
    var elements := "";
    var start := 0;
    while start < |args|
      invariant 0 <= start <= |args|
      invariant elements == Joined(parts[..start], fmt.arraySeparator)
    {
      JoinedNext(parts, fmt.arraySeparator, start);
      if start > 0 {
        elements := elements + Glue(fmt.arraySeparator);
      }
      elements := elements + ConvertArg(args[start], isNumber);
      start := start + 1;
    }
    assert parts[..start] == parts;
    joined := if |args| > 1 && fmt.arrayStart != '\0' then [fmt.arrayStart] else "";
    joined := joined + elements;
    joined := joined + if |args| > 1 && fmt.arrayEnd != '\0' then [fmt.arrayEnd] else "";
  }

  // ---------------------------------------------------------------- reading

  /** A quote preceded by a backslash does not close. */
  predicate Escaped(str: string, end: nat) {
    1 <= end < |str| && str[end - 1] == '\\'
  }

  function SkipEscaped(str: string, end: nat): (r: nat)
    requires str != "" && 1 <= end <= |str|
    ensures end <= r <= |str|
    decreases |str| - end
  {
    if Escaped(str, end) then SkipEscaped(str, Find(str, str[0], end + 1)) else end
  }

  /** Backslash-quote becomes quote, from left to right. */
  function Unescape(s: string, key: char): string {
    if |s| < 2 then s
    else if s[0] == '\\' && s[1] == key then [key] + Unescape(s[2..], key)
    else [s[0]] + Unescape(s[1..], key)
  }

  predicate IsDelimiter(c: char, delimiter: char) {
    if delimiter == '\0' then IsSpace(c) else c == delimiter
  }

  function FindDelimiter(str: string, delimiter: char): (i: nat)
    ensures i <= |str|
    ensures forall k :: 0 <= k < i ==> !IsDelimiter(str[k], delimiter)
    ensures i < |str| ==> IsDelimiter(str[i], delimiter)
  {
    if str == "" || IsDelimiter(str[0], delimiter) then 0 else 1 + FindDelimiter(str[1..], delimiter)
  }

  /** What the opening quote encloses, and what follows the closing one. */
  function Enclosed(str: string): (r: (string, string))
    requires str != ""
    ensures |r.1| < |str|
  {
    var first := Find(str, str[0], 1);
    var end := SkipEscaped(str, first);
    (if Escaped(str, first) then Unescape(str[1..end], str[0]) else str[1..end],
     if end < |str| then str[end + 1..] else "")
  }

  function FirstToken(str: string, delimiter: char): (r: (string, string))
    requires str != ""
    ensures |r.1| < |str|
  {
    if IsQuote(str[0]) then Enclosed(str)
    else
      var i := FindDelimiter(str, delimiter);
      (str[..i], if i < |str| then str[i + 1..] else "")
  }

  /** The tokens of a text that has been trimmed. */
  function Tokens(str: string, delimiter: char): seq<string>
    decreases |str|
  {
    if str == "" then []
    else
      var (token, rest) := FirstToken(str, delimiter);
      [token] + Tokens(Trim(rest), delimiter)
  }

  method TakeQuoted(str: string) returns (token: string, rest: string)
    requires str != ""
    ensures (token, rest) == Enclosed(str)
  {
    var keyChar := str[0];
    var embeddedQuote := false;
    var end := Find(str, keyChar, 1);
    ghost var first := end;
    while Escaped(str, end)
      invariant 1 <= end <= |str|
      invariant SkipEscaped(str, end) == SkipEscaped(str, first)
      invariant embeddedQuote ==> Escaped(str, first)
      invariant !embeddedQuote ==> end == first
      decreases |str| - end
    {
      end := Find(str, keyChar, end + 1);
      embeddedQuote := true;
    }
    token := str[1..end];
    rest := if end < |str| then str[end + 1..] else "";
    if embeddedQuote {
      token := Unescape(token, keyChar);
    }
  }

  lemma TokensStep(output: seq<string>, str: string, delimiter: char)
    requires str != ""
    ensures var (token, rest) := FirstToken(str, delimiter);
            output + Tokens(str, delimiter) == (output + [token]) + Tokens(Trim(rest), delimiter)
  {
  }

  /** The text with a backslash in front of every quote. */
  function Escape(s: string, quote: char): string {
    if s == "" then "" else (if s[0] == quote then ['\\', quote] else [s[0]]) + Escape(s[1..], quote)
  }

  /** Quotes inside are escaped, and the last character escapes nothing. */
  ghost predicate QuotesEscaped(text: string, quote: char) {
    && (forall k :: 0 <= k < |text| && text[k] == quote ==> k > 0 && text[k - 1] == '\\')
    && (text != "" ==> text[|text| - 1] != '\\')
  }

  lemma {:induction false} EscapeEscapes(s: string, quote: char)
    requires '\\' !in s && quote != '\\'
    ensures QuotesEscaped(Escape(s, quote), quote)
    ensures Unescape(Escape(s, quote), quote) == s
    ensures quote in Escape(s, quote) <==> quote in s
  {
    if s != "" {
      EscapeEscapes(s[1..], quote);
      var front, more := (if s[0] == quote then ['\\', quote] else [s[0]]), Escape(s[1..], quote);
      assert s == [s[0]] + s[1..];
      FrontEscaped(front, more, quote);
      assert (front + more)[|front|..] == more;
    }
  }

  lemma FrontEscaped(front: string, more: string, quote: char)
    requires QuotesEscaped(front, quote) && QuotesEscaped(more, quote) && front != ""
    ensures QuotesEscaped(front + more, quote)
  {
    forall k | 0 <= k < |front + more| && (front + more)[k] == quote
      ensures k > 0 && (front + more)[k - 1] == '\\'
    {
      if k >= |front| {
        assert more[k - |front|] == quote;
      }
    }
  }

  /** The closing quote is the first one that is not escaped. */
  lemma {:induction false} SkipsToClosing(str: string, from: nat, end: nat)
    requires str != "" && 1 <= from <= end < |str| && str[end] == str[0] && !Escaped(str, end)
    requires forall k :: from <= k < end && str[k] == str[0] ==> Escaped(str, k)
    ensures Find(str, str[0], from) <= end && SkipEscaped(str, Find(str, str[0], from)) == end
    decreases end - from
  {
    var first := Find(str, str[0], from);
    if first < end {
      SkipsToClosing(str, first + 1, end);
    }
  }

  /** A text without backslashes, quoted with its quotes escaped, is taken whole. */
  lemma EscapedIsTaken(s: string, quote: char, rest: string)
    requires IsQuote(quote) && '\\' !in s
    ensures Enclosed([quote] + Escape(s, quote) + [quote] + rest) == (s, rest)
  {
    var text := Escape(s, quote);
    var str := [quote] + text + [quote] + rest;
    EscapeEscapes(s, quote);
    var end := |text| + 1;
    assert str[0] == quote && str[end] == quote && str[1..end] == text && str[end + 1..] == rest;
    forall k | 1 <= k < end && str[k] == quote
      ensures Escaped(str, k) && quote in text
    {
      assert text[k - 1] == quote;
    }
    SkipsToClosing(str, 1, end);
    if quote !in text {
      NothingToEscape(s, quote);
    }
  }

  lemma {:induction false} NothingToEscape(s: string, quote: char)
    requires quote !in s
    ensures Escape(s, quote) == s
  {
    if s != "" {
      NothingToEscape(s[1..], quote);
    }
  }

  method SplitUp(text: string, delimiter: char) returns (output: seq<string>)
    ensures output == Tokens(Trim(text), delimiter)
  {
    var str := Trim(text);
    output := [];
    while str != ""
      invariant output + Tokens(str, delimiter) == Tokens(Trim(text), delimiter)
      decreases |str|
    {
      TokensStep(output, str, delimiter);
      var token, rest;
      if IsQuote(str[0]) {
        token, rest := TakeQuoted(str);
      } else {
        var i := FindDelimiter(str, delimiter);
        token := str[..i];
        rest := if i < |str| then str[i + 1..] else "";
      }
      output := output + [token];
      str := Trim(rest);
    }
  }

  function RawValues(fmt: Format, item: string): seq<string> {
    if |item| > 1 && item[0] == fmt.Start() && item[|item| - 1] == fmt.End() then
      Tokens(Trim(item[1..|item| - 1]), fmt.Separator())
    else if fmt.DefaultArray() && fmt.Separator() in item then Tokens(Trim(item), fmt.Separator())
    else if fmt.DefaultArray() && ' ' in item then Tokens(Trim(item), '\0')
    else [item]
  }

  /** The values of an item whose text after the delimiter is `item`. */
  function ReadValues(fmt: Format, item: string): seq<string> {
    Map(RemoveQuotes, RawValues(fmt, item))
  }

  method ParseValues(fmt: Format, item: string) returns (buffer: seq<string>)
    ensures buffer == ReadValues(fmt, item)
  {
    if |item| > 1 && item[0] == fmt.Start() && item[|item| - 1] == fmt.End() {
      buffer := SplitUp(item[1..|item| - 1], fmt.Separator());
    } else if fmt.DefaultArray() && fmt.Separator() in item {
      buffer := SplitUp(item, fmt.Separator());
    } else if fmt.DefaultArray() && ' ' in item {
      buffer := SplitUp(item, '\0');
    } else {
      buffer := [item];
    }
    ghost var raw := buffer;
    for i := 0 to |buffer|
      invariant |buffer| == |raw|
      invariant forall k :: 0 <= k < i ==> buffer[k] == RemoveQuotes(raw[k])
      invariant forall k :: i <= k < |raw| ==> buffer[k] == raw[k]
    {
      buffer := buffer[i := RemoveQuotes(buffer[i])];
    }
  }

  // ---------------------------------------------------------------- round trip

  /** Texts free of commas, with quotes of one kind at most and none around them,
      and not ending in a backslash. */
  predicate Plain(arg: string) {
    && ',' !in arg && ('"' !in arg || '\'' !in arg) && arg != "'" && RemoveQuotes(arg) == arg
    && (arg != "" ==> arg[|arg| - 1] != '\\')
  }

  /** A word that can stand bare. */
  predicate Bare(s: string) {
    s != "" && s[0] != '[' && forall c :: c in s ==> !IsSpace(c) && !IsQuote(c) && c != ','
  }

  /** Among plain texts only bare words are numbers. */
  ghost predicate NumbersAreBare(isNumber: string -> bool) {
    forall s :: Plain(s) && isNumber(s) ==> Bare(s)
  }

  /** A written element: quoted, or bare. */
  predicate Writes(part: string, arg: string) {
    || (part == arg && Bare(arg))
    || (exists q :: (q == '"' || q == '\'') && q !in arg && part == [q] + arg + [q])
  }

  lemma RadixIsBare(arg: string)
    requires |arg| >= 2 && RadixLiteral(arg)
    ensures Bare(arg)
  {
    assert arg[2..] == "" || |arg[2..]| > 0;
    assert forall c :: c in arg ==> c == arg[0] || c == arg[1] || c in arg[2..];
  }

  lemma InQuotes(q: char, arg: string, part: string)
    requires (q == '"' || q == '\'') && q !in arg && part == [q] + arg + [q]
    ensures Writes(part, arg) && Snug(part) && part != ""
  {
  }

  lemma ConvertWrites(arg: string, isNumber: string -> bool)
    requires Plain(arg)
    requires NumbersAreBare(isNumber)
    ensures Writes(ConvertArg(arg, isNumber), arg)
    ensures Snug(ConvertArg(arg, isNumber)) && ConvertArg(arg, isNumber) != ""
  {
    BareIff(arg, isNumber);
    var part := ConvertArg(arg, isNumber);
    if StandsBare(arg, isNumber) {
      BareOfStandsBare(arg, isNumber);
    } else {
      QuotedIfNot(arg, isNumber);
      var q := if |arg| != 1 && '"' !in arg then '"' else '\'';
      InQuotes(q, arg, part);
    }
  }

  lemma BareOfStandsBare(arg: string, isNumber: string -> bool)
    requires Plain(arg) && NumbersAreBare(isNumber) && StandsBare(arg, isNumber)
    ensures Bare(arg)
  {
    if |arg| >= 2 && RadixLiteral(arg) {
      RadixIsBare(arg);
    }
  }

  /** A text that needs quotes is put between single quotes if it is one character
      or holds a double quote, and between double quotes otherwise. */
  lemma QuotedIfNot(arg: string, isNumber: string -> bool)
    requires !StandsBare(arg, isNumber)
    ensures var q := if |arg| != 1 && '"' !in arg then '"' else '\'';
            ConvertArg(arg, isNumber) == [q] + arg + [q]
  {
  }

  /** The first token of a written element followed by `rest` is the element. */
  lemma TokenOfWritten(part: string, arg: string, rest: string)
    requires Writes(part, arg) && Plain(arg)
    requires rest == "" || rest[0] == ' '
    ensures var r := FirstToken(part + rest, '\0');
            r.0 == arg && Trim(r.1) == Trim(rest)
  {
    var str := part + rest;
    if part == arg && Bare(arg) {
      BareToken(arg, rest);
    } else {
      var q :| (q == '"' || q == '\'') && q !in arg && part == [q] + arg + [q];
      QuotedToken(q, arg, rest, '\0');
    }
  }

  lemma QuotedToken(q: char, arg: string, rest: string, delimiter: char)
    requires Plain(arg) && (q == '"' || q == '\'') && q !in arg
    ensures FirstToken([q] + arg + [q] + rest, delimiter) == (arg, rest)
  {
    var str := [q] + arg + [q] + rest;
    var end := |arg| + 1;
    assert forall k :: 1 <= k < end ==> str[k] == arg[k - 1] && arg[k - 1] in arg;
    assert str[end] == q;
    assert Find(str, q, 1) == end;
    assert str[end - 1] == if arg == "" then q else arg[|arg| - 1];
    assert str[1..end] == arg && str[end + 1..] == rest;
  }

  lemma BareToken(arg: string, rest: string)
    requires Bare(arg) && (rest == "" || rest[0] == ' ')
    ensures var r := FirstToken(arg + rest, '\0'); r.0 == arg && Trim(r.1) == Trim(rest)
  {
    var str := arg + rest;
    assert str[0] == arg[0];
    var i := FindDelimiter(str, '\0');
    assert forall k :: 0 <= k < |arg| ==> str[k] == arg[k] && arg[k] in arg;
    if rest == "" {
      assert str == arg;
    } else {
      assert str[|arg|] == ' ';
      assert i == |arg| && str[..i] == arg && str[i + 1..] == rest[1..];
      TrimDropsLead(rest);
    }
  }

  lemma TrimDropsLead(s: string)
    requires s != "" && IsSpace(s[0])
    ensures Trim(s) == Trim(s[1..])
  {
    TrimRightKeepsLead(s);
  }

  lemma TrimRightKeepsLead(s: string)
    requires s != "" && IsSpace(s[0])
    ensures TrimLeft(TrimRight(s)) == TrimLeft(TrimRight(s[1..]))
  {
    if IsSpace(s[|s| - 1]) && |s| > 1 {
      assert s[1..][..|s| - 2] == s[..|s| - 1][1..];
      TrimRightKeepsLead(s[..|s| - 1]);
    } else if |s| > 1 {
      assert TrimRight(s) == s;
      assert TrimRight(s[1..]) == s[1..];
    }
  }

  /** The same elements chained from the front, with `glue` in between. */
  function Chained(parts: seq<string>, glue: string): string {
    if parts == [] then ""
    else if |parts| == 1 then parts[0]
    else parts[0] + glue + Chained(parts[1..], glue)
  }

  lemma {:induction false} JoinedIsChained(parts: seq<string>, sep: char, glue: string)
    requires glue == Glue(sep)
    ensures Joined(parts, sep) == Chained(parts, glue)
    decreases |parts|
  {
    if |parts| > 2 {
      var front, last := parts[..|parts| - 1], parts[|parts| - 1];
      JoinedIsChained(front, sep, glue);
      JoinedIsChained(parts[1..], sep, glue);
      JoinedIsChained(front[1..], sep, glue);
      assert parts[1..][..|parts| - 2] == front[1..];
      assert Joined(parts, sep) == front[0] + glue + Chained(front[1..], glue) + glue + last;
      assert Joined(parts[1..], sep) == Chained(front[1..], glue) + glue + last;
    }
  }

  ghost predicate AllWritten(parts: seq<string>, args: seq<string>) {
    && |parts| == |args|
    && forall i :: 0 <= i < |args| ==>
         Plain(args[i]) && Writes(parts[i], args[i]) && Snug(parts[i]) && parts[i] != ""
  }

  lemma SnugAround(part: string, middle: string, rest: string)
    requires Snug(part) && part != "" && Snug(rest) && rest != ""
    ensures Snug(part + middle + rest)
  {
  }

  lemma TokensOfMore(part: string, arg: string, rest: string)
    requires Writes(part, arg) && Plain(arg) && part != ""
    requires Snug(rest) && rest != ""
    ensures Tokens(part + " " + rest, '\0') == [arg] + Tokens(rest, '\0')
  {
    var str := part + " " + rest;
    assert str == part + (" " + rest);
    TokenOfWritten(part, arg, " " + rest);
    TrimSnug(rest);
    var r := FirstToken(str, '\0');
    assert Tokens(str, '\0') == [r.0] + Tokens(Trim(r.1), '\0');
  }

  lemma {:induction false} TokensOfSpaced(parts: seq<string>, args: seq<string>)
    requires AllWritten(parts, args)
    ensures Tokens(Chained(parts, " "), '\0') == args && Snug(Chained(parts, " "))
    ensures parts != [] ==> Chained(parts, " ") != ""
    decreases |parts|
  {
    if |parts| == 1 {
      TokenOfWritten(parts[0], args[0], "");
      assert parts[0] + "" == parts[0];
    } else if |parts| > 1 {
      TokensOfSpaced(parts[1..], args[1..]);
      TokensOfMore(parts[0], args[0], Chained(parts[1..], " "));
      SnugAround(parts[0], " ", Chained(parts[1..], " "));
      assert args == [args[0]] + args[1..];
    }
  }

  /** Reading back what the default INI format writes gives the list itself. */
  lemma IniRoundTrip(args: seq<string>, isNumber: string -> bool)
    requires args != [] && forall i :: 0 <= i < |args| ==> Plain(args[i])
    requires NumbersAreBare(isNumber)
    ensures ReadValues(INI, IniJoined(args, INI, isNumber)) == args
  {
    var parts := Converted(args, isNumber);
    ConvertedAllWritten(args, isNumber);
    JoinedIsChained(parts, ' ', " ");
    assert IniJoined(args, INI, isNumber) == Chained(parts, " ");
    ReadSpaced(parts, args);
  }

  lemma ReadSpaced(parts: seq<string>, args: seq<string>)
    requires AllWritten(parts, args) && parts != []
    ensures ReadValues(INI, Chained(parts, " ")) == args
  {
    var item := Chained(parts, " ");
    TokensOfSpaced(parts, args);
    TrimSnug(item);
    SpacedChars(parts, args);
    if |args| == 1 && ' ' !in item {
      assert RemoveQuotes(parts[0]) == args[0];
      assert RawValues(INI, item) == [item];
    } else {
      assert RawValues(INI, item) == args;
    }
  }

  /** No comma and no leading bracket, and a blank as soon as there are two. */
  lemma {:induction false} SpacedChars(parts: seq<string>, args: seq<string>)
    requires AllWritten(parts, args) && parts != []
    ensures var s := Chained(parts, " ");
            s != "" && s[0] != '[' && ',' !in s && (|parts| > 1 ==> ' ' in s)
    decreases |parts|
  {
    assert ',' !in parts[0] && parts[0][0] != '[';
    if |parts| > 1 {
      SpacedChars(parts[1..], args[1..]);
    }
  }

  // ---------------------------------------------------------------- bracketed lists

  /** What comes back: after a quoted element the comma is left over and is read
      as one more, empty, element. */
  ghost function Reread(parts: seq<string>, args: seq<string>): seq<string>
    requires AllWritten(parts, args)
  {
    if |args| <= 1 then args
    else
      (if parts[0] == args[0] then [args[0]] else [args[0], ""]) + Reread(parts[1..], args[1..])
  }

  lemma BareInList(part: string, rest: string)
    requires Bare(part) && Snug(rest) && rest != ""
    ensures Tokens(part + ", " + rest, ',') == [part] + Tokens(rest, ',')
  {
    var str := part + ", " + rest;
    assert forall k :: 0 <= k < |part| ==> str[k] == part[k] && part[k] in part;
    assert str[|part|] == ',' && str[|part| + 1..] == " " + rest;
    assert FindDelimiter(str, ',') == |part| && str[..|part|] == part;
    TrimSnug(rest);
    assert FirstToken(str, ',') == (part, " " + rest);
  }

  lemma CommaInList(rest: string)
    requires Snug(rest) && rest != ""
    ensures Tokens(", " + rest, ',') == [""] + Tokens(rest, ',')
    ensures Trim(", " + rest) == ", " + rest
  {
    var tail := ", " + rest;
    assert tail[0] == ',' && tail[..0] == "" && tail[1..] == " " + rest;
    assert FirstToken(tail, ',') == ("", " " + rest);
    TrimSnug(rest);
    TrimSnug(tail);
  }

  lemma TokensUnfold(str: string, token: string, rest: string, delimiter: char)
    requires str != "" && FirstToken(str, delimiter) == (token, rest)
    ensures Tokens(str, delimiter) == [token] + Tokens(Trim(rest), delimiter)
  {
  }

  lemma QuotedInList(q: char, arg: string, part: string, rest: string)
    requires Plain(arg) && (q == '"' || q == '\'') && q !in arg && part == [q] + arg + [q] && Snug(rest) && rest != ""
    ensures Tokens(part + (", " + rest), ',') == [arg, ""] + Tokens(rest, ',')
  {
    var tail := ", " + rest;
    QuotedToken(q, arg, tail, ',');
    CommaInList(rest);
    TokensUnfold(part + tail, arg, tail, ',');
    TwoInFront(arg, "", Tokens(rest, ','));
  }

  lemma TwoInFront(a: string, b: string, rest: seq<string>)
    ensures [a] + ([b] + rest) == [a, b] + rest
  {
  }

  lemma LastInList(part: string, arg: string)
    requires Writes(part, arg) && Plain(arg)
    ensures Tokens(part, ',') == [arg]
  {
    if part == arg && Bare(arg) {
      assert forall k :: 0 <= k < |arg| ==> arg[k] in arg;
      assert FindDelimiter(arg, ',') == |arg| && arg[..|arg|] == arg;
      assert FirstToken(arg, ',') == (arg, "");
    } else {
      var q :| (q == '"' || q == '\'') && q !in arg && part == [q] + arg + [q];
      QuotedToken(q, arg, "", ',');
      assert part + "" == part;
    }
  }

  lemma WrittenAsIs(arg: string)
    requires Writes(arg, arg)
    ensures Bare(arg)
  {
    if q :| (q == '"' || q == '\'') && q !in arg && arg == [q] + arg + [q] {
      assert |arg| == |[q] + arg + [q]|;
    }
  }

  lemma MoreInList(part: string, arg: string, rest: string)
    requires Writes(part, arg) && Plain(arg) && Snug(rest) && rest != ""
    ensures Tokens(part + ", " + rest, ',') == (if part == arg then [arg] else [arg, ""]) + Tokens(rest, ',')
  {
    if part == arg {
      WrittenAsIs(arg);
      BareInList(part, rest);
    } else {
      var q :| (q == '"' || q == '\'') && q !in arg && part == [q] + arg + [q];
      QuotedInList(q, arg, part, rest);
      assert part + (", " + rest) == part + ", " + rest;
    }
  }

  lemma {:induction false} TokensOfListed(parts: seq<string>, args: seq<string>)
    requires AllWritten(parts, args) && parts != []
    ensures Tokens(Chained(parts, ", "), ',') == Reread(parts, args)
    ensures Snug(Chained(parts, ", ")) && Chained(parts, ", ") != ""
    decreases |parts|
  {
    if |parts| == 1 {
      LastInList(parts[0], args[0]);
    } else {
      var rest := Chained(parts[1..], ", ");
      TokensOfListed(parts[1..], args[1..]);
      SnugAround(parts[0], ", ", rest);
      MoreInList(parts[0], args[0], rest);
    }
  }

  /** All parts but the last are the elements themselves. */
  ghost predicate AsTheyAre(parts: seq<string>, args: seq<string>)
    requires |parts| == |args|
  {
    forall i :: 0 <= i < |args| - 1 ==> parts[i] == args[i]
  }

  lemma AsTheyAreStep(parts: seq<string>, args: seq<string>)
    requires |parts| == |args| > 1
    ensures AsTheyAre(parts, args) <==> parts[0] == args[0] && AsTheyAre(parts[1..], args[1..])
  {
    if parts[0] == args[0] && AsTheyAre(parts[1..], args[1..]) {
      forall i | 0 <= i < |args| - 1
        ensures parts[i] == args[i]
      {
        if i > 0 {
          assert parts[1..][i - 1] == args[1..][i - 1];
        }
      }
    }
  }

  lemma {:induction false} RereadLength(parts: seq<string>, args: seq<string>)
    requires AllWritten(parts, args)
    ensures |Reread(parts, args)| >= |args|
    ensures Reread(parts, args) == args <==> AsTheyAre(parts, args)
    decreases |args|
  {
    if |args| > 1 {
      RereadLength(parts[1..], args[1..]);
      AsTheyAreStep(parts, args);
      var more := Reread(parts[1..], args[1..]);
      if parts[0] != args[0] {
        assert |Reread(parts, args)| == 2 + |more|;
      } else {
        assert Reread(parts, args) == [args[0]] + more;
        assert ([args[0]] + more)[1..] == more && [args[0]] + args[1..] == args;
      }
    }
  }

  lemma RemoveQuotesOfAll(raw: seq<string>)
    requires forall i :: 0 <= i < |raw| ==> RemoveQuotes(raw[i]) == raw[i]
    ensures Map(RemoveQuotes, raw) == raw
  {
  }

  lemma {:induction false} RereadPlain(parts: seq<string>, args: seq<string>)
    requires AllWritten(parts, args)
    ensures forall i :: 0 <= i < |Reread(parts, args)| ==>
              RemoveQuotes(Reread(parts, args)[i]) == Reread(parts, args)[i]
    decreases |args|
  {
    if |args| > 1 {
      RereadPlain(parts[1..], args[1..]);
    }
  }

  lemma ConvertedAllWritten(args: seq<string>, isNumber: string -> bool)
    requires forall i :: 0 <= i < |args| ==> Plain(args[i])
    requires NumbersAreBare(isNumber)
    ensures AllWritten(Converted(args, isNumber), args)
  {
    forall i | 0 <= i < |args| {
      ConvertWrites(args[i], isNumber);
    }
  }

  /** The texts that need no quotes: the four literals, numbers not in hexadecimal,
      and the three kinds of radix literals. */
  predicate StandsBare(arg: string, isNumber: string -> bool) {
    arg != "" &&
    ( arg == "true" || arg == "false" || arg == "nan" || arg == "inf"
    || (!("0x" <= arg) && !("0X" <= arg) && isNumber(arg))
    || (|arg| > 1 && RadixLiteral(arg)))
  }

  lemma BareIff(arg: string, isNumber: string -> bool)
    ensures ConvertArg(arg, isNumber) == arg <==> StandsBare(arg, isNumber)
  {
    if !StandsBare(arg, isNumber) {
      assert |ConvertArg(arg, isNumber)| == |arg| + 2;
    }
  }

  /** In the bracketed form the writer and the reader undo each other exactly
      when every element but the last needs no quotes. */
  lemma BracketedRoundTrip(args: seq<string>, isNumber: string -> bool)
    requires args != [] && forall i :: 0 <= i < |args| ==> Plain(args[i])
    requires NumbersAreBare(isNumber)
    ensures ReadValues(TOML, IniJoined(args, TOML, isNumber)) == args
       <==> forall i :: 0 <= i < |args| - 1 ==> StandsBare(args[i], isNumber)
  {
    forall i | 0 <= i < |args| - 1
      ensures ConvertArg(args[i], isNumber) == args[i] <==> StandsBare(args[i], isNumber)
    {
      BareIff(args[i], isNumber);
    }
    var parts := Converted(args, isNumber);
    ConvertedAllWritten(args, isNumber);
    RereadLength(parts, args);
    ReadListed(parts, args);
    WrittenInBrackets(args, isNumber);
  }

  lemma ReadOne(part: string, arg: string)
    requires Plain(arg) && Writes(part, arg) && part != ""
    ensures ReadValues(TOML, part) == [arg]
  {
    assert part[0] != '[';
    assert RawValues(TOML, part) == [part];
    assert arg != "" ==> arg[0] in arg;
    assert RemoveQuotes(part) == arg;
  }

  lemma ReadListed(parts: seq<string>, args: seq<string>)
    requires AllWritten(parts, args) && parts != []
    ensures var list := Chained(parts, ", ");
            ReadValues(TOML, if |args| > 1 then "[" + list + "]" else list) == Reread(parts, args)
  {
    if |args| > 1 {
      var list := Chained(parts, ", ");
      TokensOfListed(parts, args);
      TrimSnug(list);
      RereadPlain(parts, args);
      var item := "[" + list + "]";
      assert item[1..|item| - 1] == list;
      RemoveQuotesOfAll(Reread(parts, args));
    } else {
      ReadOne(parts[0], args[0]);
    }
  }

  /** Words that can stand bare are read from a list with commas, with or without
      brackets, in the default format. */
  lemma CommaList(args: seq<string>)
    requires |args| > 1 && forall i :: 0 <= i < |args| ==> Bare(args[i]) && Plain(args[i])
    ensures ReadValues(INI, Chained(args, ", ")) == args
    ensures ReadValues(INI, "[" + Chained(args, ", ") + "]") == args
  {
    var list := Chained(args, ", ");
    BareAllWritten(args);
    TokensOfListed(args, args);
    RereadLength(args, args);
    RemoveQuotesOfAll(args);
    TrimSnug(list);
    CommaInChain(args[0], Chained(args[1..], ", "));
    RawWithCommas(list);
  }

  lemma CommaInChain(first: string, rest: string)
    requires first != ""
    ensures ',' in first + ", " + rest && (first + ", " + rest)[0] == first[0]
  {
    assert (first + ", " + rest)[|first|] == ',';
  }

  lemma RawWithCommas(list: string)
    requires ',' in list && list[0] != '['
    ensures RawValues(INI, list) == Tokens(Trim(list), ',')
    ensures RawValues(INI, "[" + list + "]") == Tokens(Trim(list), ',')
  {
    var item := "[" + list + "]";
    assert item[1..|item| - 1] == list;
  }

  lemma BareAllWritten(args: seq<string>)
    requires forall i :: 0 <= i < |args| ==> Bare(args[i]) && Plain(args[i])
    ensures AllWritten(args, args)
  {
    forall i | 0 <= i < |args|
      ensures Snug(args[i])
    {
      assert args[i][0] in args[i] && args[i][|args[i]| - 1] in args[i];
    }
  }

  /** The failing family at its smallest: two elements, the first of them quoted. */
  lemma BracketedPair(a: string, b: string, isNumber: string -> bool)
    requires Plain(a) && Plain(b) && NumbersAreBare(isNumber) && !StandsBare(a, isNumber)
    ensures ReadValues(TOML, IniJoined([a, b], TOML, isNumber)) == [a, "", b]
  {
    var args := [a, b];
    var parts := Converted(args, isNumber);
    BareIff(a, isNumber);
    ConvertedAllWritten(args, isNumber);
    ReadListed(parts, args);
    WrittenInBrackets(args, isNumber);
    RereadPair(parts, args);
  }

  lemma WrittenInBrackets(args: seq<string>, isNumber: string -> bool)
    ensures var list := Chained(Converted(args, isNumber), ", ");
            IniJoined(args, TOML, isNumber) == if |args| > 1 then "[" + list + "]" else list
  {
    JoinedIsChained(Converted(args, isNumber), ',', ", ");
  }

  lemma RereadPair(parts: seq<string>, args: seq<string>)
    requires AllWritten(parts, args) && |args| == 2 && parts[0] != args[0]
    ensures Reread(parts, args) == [args[0], "", args[1]]
  {
    assert Reread(parts, args) == [args[0], ""] + Reread(parts[1..], args[1..]);
  }

  /** For instance "ab" and "c". */
  lemma BracketedAbC(isNumber: string -> bool)
    requires NumbersAreBare(isNumber) && !isNumber("ab")
    ensures ReadValues(TOML, IniJoined(["ab", "c"], TOML, isNumber)) == ["ab", "", "c"]
  {
    BracketedPair("ab", "c", isNumber);
  }
}
