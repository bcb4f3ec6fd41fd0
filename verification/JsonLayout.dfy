/**
 How the pretty-printer lays a tree out (`JSON.java`), read off the printed text: brackets on lines of their own,
 four more spaces at every level, members and items one below the other with commas at line ends, types and values
 on one line.
 */
module JsonLayout {
  import opened Sequences
  import opened Json
  import opened JsonText
  import opened JsonRoundTrip

  // --- Lines -------------------------------------------------------------------------------

  ghost predicate NoNewline(x: string) {
    '\n' !in x
  }

  /** The lines of a text hold no newline, and put back together they are the text. */
  lemma {:induction false} LinesMean(x: string)
    ensures Join(Split(x), "\n") == x
    ensures forall i :: 0 <= i < |Split(x)| ==> NoNewline(Split(x)[i])
    decreases |x|
  {
    var n := LineEnd(x);
    if n < |x| {
      LinesMean(x[n + 1..]);
      assert x == x[..n] + "\n" + x[n + 1..];
    } else {
      assert x[..n] == x;
    }
  }

  lemma {:induction false} LineEndIs(a: string, rest: string)
    requires NoNewline(a) && (rest == "" || rest[0] == '\n')
    ensures LineEnd(a + rest) == |a|
  {
    if a == "" {
      assert a + rest == rest;
    } else {
      assert (a + rest)[1..] == a[1..] + rest;
      LineEndIs(a[1..], rest);
    }
  }

  lemma SplitFirst(a: string, b: string)
    requires NoNewline(a)
    ensures Split(a + "\n" + b) == [a] + Split(b)
  {
    var x := a + "\n" + b;
    assert x == a + ("\n" + b);
    LineEndIs(a, "\n" + b);
    assert x[..|a|] == a && x[|a| + 1..] == b;
  }

  lemma SplitOne(a: string)
    requires NoNewline(a)
    ensures Split(a) == [a]
  {
    assert a + "" == a;
    LineEndIs(a, "");
  }

  /** A text with a newline is a first line, the newline and the rest. */
  lemma FirstLine(x: string) returns (first: string, rest: string)
    requires !NoNewline(x)
    ensures x == first + "\n" + rest && NoNewline(first) && |rest| < |x|
  {
    var n := LineEnd(x);
    assert x[..|x|] == x;
    first, rest := x[..n], x[n + 1..];
  }

  lemma Regroup(first: string, rest: string, tail: string)
    ensures (first + "\n" + rest) + tail == first + "\n" + (rest + tail)
  {
  }

  /** Texts on either side of a newline keep their lines. */
  lemma {:induction false} SplitAt(a: string, b: string)
    ensures Split(a + "\n" + b) == Split(a) + Split(b)
    decreases |a|
  {
    if NoNewline(a) {
      SplitFirst(a, b);
      SplitOne(a);
    } else {
      var first, rest := FirstLine(a);
      SplitAt(rest, b);
      SplitFirst(first, rest);
      SplitFirst(first, rest + "\n" + b);
      Regroup(first, rest, "\n");
      Regroup(first, rest + "\n", b);
      Append([first], Split(rest), Split(b));
    }
  }

  lemma Append<T>(a: seq<T>, b: seq<T>, c: seq<T>)
    ensures a + (b + c) == a + b + c
  {
  }

  /** Lines with this added to the last. */
  function Ending(lines: seq<string>, x: string): seq<string>
    requires lines != []
  {
    Front(lines) + [Last(lines) + x]
  }

  lemma EndingTail(first: string, lines: seq<string>, x: string)
    requires lines != []
    ensures Ending([first] + lines, x) == [first] + Ending(lines, x)
  {
    assert Front([first] + lines) == [first] + Front(lines);
  }

  lemma {:induction false} SplitEnding(a: string, x: string)
    requires NoNewline(x)
    ensures Split(a + x) == Ending(Split(a), x)
    decreases |a|
  {
    if NoNewline(a) {
      SplitOne(a);
      SplitOne(a + x);
    } else {
      var first, rest := FirstLine(a);
      SplitEnding(rest, x);
      SplitFirst(first, rest);
      SplitFirst(first, rest + x);
      Regroup(first, rest, x);
      EndingTail(first, Split(rest), x);
    }
  }

  lemma {:induction false} SplitJoined(lines: seq<string>)
    requires lines != [] && forall i :: 0 <= i < |lines| ==> NoNewline(lines[i])
    ensures Split(Join(lines, "\n")) == lines
  {
    if |lines| == 1 {
      SplitOne(lines[0]);
    } else {
      SplitJoined(lines[1..]);
      SplitFirst(lines[0], Join(lines[1..], "\n"));
      assert lines == [lines[0]] + lines[1..];
    }
  }

  lemma OneLineIff(x: string)
    ensures |Split(x)| == 1 <==> NoNewline(x)
    ensures NoNewline(x) ==> Split(x) == [x]
  {
    var n := LineEnd(x);
    if n == |x| { assert x[..n] == x; } else { assert x[n] in x; }
  }

  /** What is left of lines when the empty ones at the end are dropped. */
  ghost predicate Trimmed(lines: seq<string>, kept: seq<string>) {
    && kept <= lines && (kept == [] || Last(kept) != "")
    && forall i :: |kept| <= i < |lines| ==> lines[i] == ""
  }

  lemma {:induction false} DropTrims(lines: seq<string>)
    ensures Trimmed(lines, DropTrailingEmpty(lines))
  {
    if lines != [] && Last(lines) == "" { DropTrims(Front(lines)); }
  }

  /**
   `indent` of any text: a text of one line is shifted; of several lines the empty ones at the end go, and the
   others are shifted.
   */
  lemma IndentMeans(x: string) returns (kept: seq<string>)
    ensures if NoNewline(x) then kept == [x] else Trimmed(Split(x), kept)
    ensures if kept == [] then Indent(x) == "" else Shifted(kept, Split(Indent(x)))
  {
    kept := JavaSplit(x);
    DropTrims(Split(x));
    LinesMean(x);
    if kept != [] {
      ShiftedNoNewline(kept);
      SplitJoined(Indented(kept));
    }
  }

  // --- When a text is broken up ------------------------------------------------------------

  predicate EndsLine(c: char) {
    c == '\n' || c == '\r'
  }

  /** Lines end at a newline and at a carriage return, except that the two in a row end one line only. */
  predicate BreakAt(x: string, i: nat)
    requires i < |x|
  {
    x[i] == '\n' || (x[i] == '\r' && !(i + 1 < |x| && x[i + 1] == '\n'))
  }

  function Breaks(x: string, from: nat): nat
    requires from <= |x|
    decreases |x| - from
  {
    if from == |x| then 0 else Breaks(x, from + 1) + if BreakAt(x, from) then 1 else 0
  }

  lemma {:induction false} LinesCounted(x: string, from: nat)
    requires from <= |x|
    ensures LineCount(x[from..]) == Breaks(x, from) + if from < |x| && !EndsLine(Last(x)) then 1 else 0
    decreases |x| - from
  {
    if from < |x| {
      assert x[from..][1..] == x[from + 1..];
      LinesCounted(x, from + 1);
      if from + 1 < |x| {
        assert x[from..][2..] == x[from + 2..] && x[from + 1..][1..] == x[from + 2..];
        LinesCounted(x, from + 2);
      }
    }
  }

  /** `lines().count()` of any text: one line per break, and one more for what follows the last. */
  lemma LineCountMeans(x: string)
    ensures LineCount(x) == Breaks(x, 0) + if x != "" && !EndsLine(Last(x)) then 1 else 0
  {
    assert x[0..] == x;
    LinesCounted(x, 0);
  }

  lemma {:induction false} SomeLine(x: string)
    requires x != ""
    ensures LineCount(x) >= 1
    decreases |x|
  {
    if x[0] != '\n' && x[0] != '\r' && |x| > 1 { SomeLine(x[1..]); }
  }

  /** A newline with anything behind it makes at least two lines. */
  lemma {:induction false} TwoLines(a: string, b: string)
    requires b != ""
    ensures LineCount(a + "\n" + b) >= 2
    decreases |a|
  {
    var x := a + "\n" + b;
    SomeLine(b);
    if a == "" {
      assert x[0] == '\n' && x[1..] == b;
    } else if a[0] == '\n' {
      assert x[1..] == a[1..] + "\n" + b;
      SomeLine(x[1..]);
    } else if a[0] == '\r' {
      assert x[1..] == a[1..] + "\n" + b;
      if x[1] == '\n' { assert x[2..] != ""; SomeLine(x[2..]); } else { SomeLine(x[1..]); }
    } else {
      assert x[1..] == a[1..] + "\n" + b;
      TwoLines(a[1..], b);
    }
  }

  /** Printed pieces end in something other than a newline, and hold no carriage return. */
  ghost predicate Tidy(x: string) {
    x != "" && Last(x) != '\n' && '\r' !in x
  }

  lemma TidyBreaks(x: string)
    requires Tidy(x)
    ensures LineCount(x) > 1 <==> |Split(x)| > 1
    ensures Last(Split(x)) != ""
  {
    OneLineIff(x);
    if NoNewline(x) {
      OneLine(x);
    } else {
      var first, rest := FirstLine(x);
      assert rest != "" by { assert x[|x| - 1] != '\n'; }
      TwoLines(first, rest);
    }
    LastLineHasText(x);
  }

  lemma {:induction false} LastLineHasText(x: string)
    requires x != "" && Last(x) != '\n'
    ensures Last(Split(x)) != ""
    decreases |x|
  {
    if NoNewline(x) {
      SplitOne(x);
    } else {
      var first, rest := FirstLine(x);
      assert rest != "" && Last(rest) == Last(x) by { assert x[|x| - 1] != '\n'; }
      LastLineHasText(rest);
      SplitFirst(first, rest);
    }
  }

  // --- Wrapping ----------------------------------------------------------------------------

  /** Every line four spaces further in. */
  ghost predicate Shifted(lines: seq<string>, shifted: seq<string>) {
    |shifted| == |lines| && forall i :: 0 <= i < |lines| ==> shifted[i] == "    " + lines[i]
  }

  /**
   The layout of brackets around content of these lines: one line goes between them with a space on either side,
   several go between a line with the opening and one with the closing bracket, each four spaces further in.
   */
  ghost predicate LaidOut(open: string, lines: seq<string>, close: string, text: string) {
    if |lines| == 1 then text == open + " " + lines[0] + " " + close
    else |Split(text)| == |lines| + 2 && Split(text)[0] == open && Split(text)[|lines| + 1] == close &&
         Shifted(lines, Split(text)[1..|lines| + 1])
  }

  lemma ShiftedNoNewline(lines: seq<string>)
    requires forall i :: 0 <= i < |lines| ==> NoNewline(lines[i])
    ensures forall i :: 0 <= i < |lines| ==> NoNewline(Indented(lines)[i])
  {
    assert NoNewline("    ");
  }

  lemma IndentLines(x: string)
    requires |Split(x)| > 1 && Last(Split(x)) != ""
    ensures Split(Indent(x)) == Indented(Split(x))
  {
    OneLineIff(x);
    LinesMean(x);
    ShiftedNoNewline(Split(x));
    SplitJoined(Indented(Split(x)));
  }

  lemma BracketLines(open: string, x: string, close: string)
    requires NoNewline(open) && NoNewline(close)
    ensures Split(open + "\n" + x + "\n" + close) == [open] + Split(x) + [close]
  {
    SplitAt(open + "\n" + x, close);
    SplitFirst(open, x);
    SplitOne(close);
  }

  lemma WrapLaysOut(open: string, content: string, close: string)
    requires NoNewline(open) && NoNewline(close) && (content == "" || Tidy(content))
    ensures LaidOut(open, Split(content), close, Wrap(open, content, close))
  {
    if content == "" {
      SplitOne("");
    } else {
      TidyBreaks(content);
      if |Split(content)| > 1 {
        IndentLines(content);
        BracketLines(open, Indent(content), close);
      } else {
        OneLineIff(content);
      }
    }
  }

  // --- Members and items -------------------------------------------------------------------

  /** Texts one below the other, each but the last followed by a comma. */
  function Stacked(texts: seq<string>): seq<string> {
    if texts == [] then [""]
    else if |texts| == 1 then Split(texts[0])
    else Ending(Split(texts[0]), ",") + Stacked(texts[1..])
  }

  /** Texts in a row. */
  function InARow(texts: seq<string>): string {
    if texts == [] then "" else texts[0] + Following(texts[1..])
  }

  function Following(texts: seq<string>): string {
    if texts == [] then "" else ", " + texts[0] + Following(texts[1..])
  }

  lemma {:induction false} JoinStacks(texts: seq<string>)
    ensures Split(Join(texts, ",\n")) == Stacked(texts)
  {
    if texts == [] {
      SplitOne("");
    } else if |texts| > 1 {
      var rest := Join(texts[1..], ",\n");
      JoinStacks(texts[1..]);
      assert texts[0] + ",\n" + rest == (texts[0] + ",") + "\n" + rest;
      SplitAt(texts[0] + ",", rest);
      SplitEnding(texts[0], ",");
    }
  }

  lemma {:induction false} JoinRows(texts: seq<string>)
    ensures Join(texts, ", ") == InARow(texts)
  {
    if |texts| > 1 {
      JoinRows(texts[1..]);
      assert texts[0] + ", " + Join(texts[1..], ", ") == texts[0] + (", " + texts[1] + Following(texts[1..][1..]));
    }
  }

  ghost predicate NoReturn(x: string) {
    '\r' !in x
  }

  lemma {:induction false} JoinNoReturn(parts: seq<string>, separator: string)
    requires NoReturn(separator) && forall i :: 0 <= i < |parts| ==> NoReturn(parts[i])
    ensures NoReturn(Join(parts, separator))
  {
    if |parts| > 1 { JoinNoReturn(parts[1..], separator); }
  }

  lemma {:induction false} SplitNoReturn(x: string)
    requires NoReturn(x)
    ensures forall i :: 0 <= i < |Split(x)| ==> NoReturn(Split(x)[i])
    decreases |x|
  {
    var n := LineEnd(x);
    if n < |x| {
      assert forall c :: c in x[n + 1..] ==> c in x;
      SplitNoReturn(x[n + 1..]);
    }
    assert forall c :: c in x[..n] ==> c in x;
  }

  lemma {:induction false} DropKeeps(lines: seq<string>)
    ensures DropTrailingEmpty(lines) <= lines
  {
    if lines != [] && Last(lines) == "" { DropKeeps(Front(lines)); }
  }

  lemma IndentNoReturn(x: string)
    requires NoReturn(x)
    ensures NoReturn(Indent(x))
  {
    SplitNoReturn(x);
    DropKeeps(Split(x));
    assert NoReturn("    ");
    JoinNoReturn(Indented(JavaSplit(x)), "\n");
  }

  lemma WrapTidy(open: char, content: string, close: char)
    requires NoReturn(content) && open != '\r' && close != '\r' && close != '\n'
    ensures Tidy(Wrap([open], content, [close]))
  {
    IndentNoReturn(content);
    var text := Wrap([open], content, [close]);
    assert text[|text| - 1] == close;
  }

  lemma {:induction false} JoinTidy(texts: seq<string>, separator: string)
    requires texts != [] && NoReturn(separator) && forall i :: 0 <= i < |texts| ==> Tidy(texts[i])
    ensures Tidy(Join(texts, separator))
  {
    if |texts| > 1 {
      JoinTidy(texts[1..], separator);
      var rest := Join(texts[1..], separator);
      assert Last(texts[0] + separator + rest) == Last(rest);
    }
  }

  lemma KeyedTidy(k: string, text: string)
    requires CleanText(k) && Tidy(text)
    ensures Tidy("\"" + k + "\": " + text)
  {
    var x := "\"" + k + "\": " + text;
    assert Last(x) == Last(text);
    assert NoReturn(k) && NoReturn("\"") && NoReturn("\": ");
  }

  lemma QuotedTidy(x: string)
    requires CleanText(x)
    ensures Tidy("\"" + x + "\"")
  {
    assert Last("\"" + x + "\"") == '"' && NoReturn(x) && NoReturn("\"");
  }

  lemma NumberTidy(x: string)
    requires ValidNumber(x)
    ensures Tidy(x)
  {
    assert x != "" && IsWordChar(Last(x)) by { NumberShape(x); assert Last(x) in x; }
  }

  /** The texts of an object's members, in the order of its keys. */
  ghost predicate MemberTexts(j: JSON, texts: seq<string>)
    requires j.Object?
  {
    && |texts| == |Ordered(j.members.Keys)|
    && forall i :: 0 <= i < |texts| ==>
         texts[i] == "\"" + Ordered(j.members.Keys)[i] + "\": " + Print(j.members[Ordered(j.members.Keys)[i]])
  }

  ghost predicate ItemTexts(items: seq<JSON>, texts: seq<string>) {
    |texts| == |items| && forall i :: 0 <= i < |items| ==> texts[i] == Print(items[i])
  }

  lemma {:induction false} MembersAre(j: JSON, keys: seq<string>)
    requires j.Object? && forall k :: k in keys ==> k in j.members
    ensures forall i :: 0 <= i < |keys| ==>
              PrintMembers(j, keys)[i] == "\"" + keys[i] + "\": " + Print(j.members[keys[i]])
  {
    if keys != [] { MembersAre(j, keys[1..]); }
  }

  lemma {:induction false} ItemsAre(items: seq<JSON>)
    ensures ItemTexts(items, PrintItems(items))
  {
    if items != [] { ItemsAre(items[1..]); }
  }

  lemma {:induction false} PrintTidy(j: JSON)
    requires Clean(j)
    ensures Tidy(Print(j))
    decreases j
  {
    match j
    case Object(members) =>
      forall k | k in members ensures Tidy(Print(members[k])) { PrintTidy(members[k]); }
      ObjectTidy(j);
    case Array(items) =>
      forall i | 0 <= i < |items| ensures Tidy(Print(items[i])) { PrintTidy(items[i]); }
      ArrayTidy(items);
    case Number(text) => NumberTidy(text);
    case String(text) => QuotedTidy(text);
    case _ =>
  }

  lemma MembersTidy(j: JSON)
    requires j.Object? && Clean(j) && forall k :: k in j.members ==> Tidy(Print(j.members[k]))
    ensures var texts := PrintMembers(j, Ordered(j.members.Keys));
            MemberTexts(j, texts) && forall i :: 0 <= i < |texts| ==> Tidy(texts[i])
  {
    var keys := Ordered(j.members.Keys);
    MembersAre(j, keys);
    forall i | 0 <= i < |keys| ensures Tidy(PrintMembers(j, keys)[i]) {
      assert keys[i] in keys;
      KeyedTidy(keys[i], Print(j.members[keys[i]]));
    }
  }

  lemma ContentTidy(texts: seq<string>, separator: string)
    requires NoReturn(separator) && forall i :: 0 <= i < |texts| ==> Tidy(texts[i])
    ensures (Join(texts, separator) == "" || Tidy(Join(texts, separator))) && NoReturn(Join(texts, separator))
  {
    if texts != [] { JoinTidy(texts, separator); }
  }

  lemma ObjectTidy(j: JSON)
    requires j.Object? && Clean(j) && forall k :: k in j.members ==> Tidy(Print(j.members[k]))
    ensures Tidy(Print(j))
  {
    MembersTidy(j);
    var texts, separator := PrintMembers(j, Ordered(j.members.Keys)), if SingleLine(j) then ", " else ",\n";
    ContentTidy(texts, separator);
    WrapTidy('{', Join(texts, separator), '}');
  }

  lemma ArrayTidy(items: seq<JSON>)
    requires forall i :: 0 <= i < |items| ==> Tidy(Print(items[i]))
    ensures Tidy(Print(Array(items)))
  {
    ItemsAre(items);
    ContentTidy(PrintItems(items), ",\n");
    WrapTidy('[', Join(PrintItems(items), ",\n"), ']');
  }

  // --- The layout of a tree ----------------------------------------------------------------

  /** The lines between the braces: in a row for types and values, otherwise one member below the other. */
  function ContentLines(j: JSON, texts: seq<string>): seq<string>
    requires j.Object?
  {
    if "root" in j.members || "value" in j.members then Split(InARow(texts)) else Stacked(texts)
  }

  /** How every clean object is laid out. */
  lemma ObjectLayout(j: JSON) returns (texts: seq<string>)
    requires j.Object? && Clean(j)
    ensures MemberTexts(j, texts) && LaidOut("{", ContentLines(j, texts), "}", Print(j))
  {
    texts := PrintMembers(j, Ordered(j.members.Keys));
    forall k | k in j.members ensures Tidy(Print(j.members[k])) { PrintTidy(j.members[k]); }
    MembersTidy(j);
    ContentTidy(texts, ", ");
    ContentTidy(texts, ",\n");
    WrapLaysOut("{", Join(texts, if SingleLine(j) then ", " else ",\n"), "}");
    JoinStacks(texts);
    JoinRows(texts);
  }

  /** How every clean array is laid out. */
  lemma ArrayLayout(items: seq<JSON>) returns (texts: seq<string>)
    requires Clean(Array(items))
    ensures ItemTexts(items, texts) && LaidOut("[", Stacked(texts), "]", Print(Array(items)))
  {
    texts := PrintItems(items);
    ItemsAre(items);
    forall i | 0 <= i < |items| ensures Tidy(Print(items[i])) { PrintTidy(items[i]); }
    ContentTidy(texts, ",\n");
    WrapLaysOut("[", Join(texts, ",\n"), "]");
    JoinStacks(texts);
  }

  /** Two texts or more, one below the other, are more than one line. */
  lemma {:induction false} StackedIsLong(texts: seq<string>)
    requires texts != []
    ensures |Stacked(texts)| >= |texts|
  {
    if |texts| > 1 { StackedIsLong(texts[1..]); }
  }

  lemma SeveralLines(open: string, lines: seq<string>, close: string, text: string)
    requires LaidOut(open, lines, close, text) && |lines| > 1
    ensures |Split(text)| == |lines| + 2 && Split(text)[0] == open && Last(Split(text)) == close
    ensures forall i :: 0 <= i < |lines| ==> Split(text)[i + 1] == "    " + lines[i]
  {
    var all := Split(text);
    forall i | 0 <= i < |lines| ensures all[i + 1] == "    " + lines[i] {
      assert all[1..|lines| + 1][i] == all[i + 1];
    }
  }

  /** So an object of at least two members that is no type and no value has each member on lines of its own. */
  lemma MembersBelowEachOther(j: JSON) returns (texts: seq<string>)
    requires j.Object? && Clean(j) && "root" !in j.members && "value" !in j.members && |Ordered(j.members.Keys)| >= 2
    ensures MemberTexts(j, texts) && |Stacked(texts)| >= 2 && |Split(Print(j))| == |Stacked(texts)| + 2
    ensures Split(Print(j))[0] == "{" && Last(Split(Print(j))) == "}"
    ensures forall i :: 0 <= i < |Stacked(texts)| ==> Split(Print(j))[i + 1] == "    " + Stacked(texts)[i]
  {
    texts := ObjectLayout(j);
    StackedIsLong(texts);
    SeveralLines("{", Stacked(texts), "}", Print(j));
  }
}
