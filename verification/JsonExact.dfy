/**
 The converse of the round trip. Count the backslashes and the letters `u` of a text: printing keeps the count,
 and reading an escape lowers it. So a tree that survives the round trip was read without a single escape.
 */
module JsonExact {
  import opened Protocol
  import opened Sequences
  import opened Json
  import opened JsonText
  import opened JsonRoundTrip

  function CharWeight(x: string): nat {
    if x == "" then 0 else (if x[0] == '\\' || x[0] == 'u' then 1 else 0) + CharWeight(x[1..])
  }

  lemma {:induction false} WeightConcat(a: string, b: string)
    ensures CharWeight(a + b) == CharWeight(a) + CharWeight(b)
  {
    if a == "" {
      assert a + b == b;
    } else {
      WeightConcat(a[1..], b);
      assert (a + b)[1..] == a[1..] + b;
    }
  }

  lemma WeightConcat3(a: string, b: string, c: string)
    ensures CharWeight(a + b + c) == CharWeight(a) + CharWeight(b) + CharWeight(c)
  {
    WeightConcat(a, b);
    WeightConcat(a + b, c);
  }

  lemma WeightSplit(x: string, n: nat)
    requires n <= |x|
    ensures CharWeight(x) == CharWeight(x[..n]) + CharWeight(x[n..])
  {
    assert x == x[..n] + x[n..];
    WeightConcat(x[..n], x[n..]);
  }

  // --- Reading never adds weight -----------------------------------------------------------

  lemma EscapeWeight(x: string)
    requires x != "" && x[0] == '\\' && Escape(x).Some?
    ensures CharWeight([Escape(x).value.0]) < CharWeight(x[..Escape(x).value.1])
  {
    var (c, n) := Escape(x).value;
    WeightSplit(x[..n], 2);
    assert x[..n][..2] == [x[0], x[1]];
  }

  /** `s` was read from `x` and weighs no more; if it weighs the same it needed no escape. */
  ghost predicate ReadFrom(s: string, x: string) {
    CharWeight(s) <= CharWeight(x) && (CharWeight(s) == CharWeight(x) ==> CleanText(s))
  }

  lemma ReadFromCons(c: char, head: string, rest: string, tail: string)
    requires ReadFrom(rest, tail)
    requires CharWeight([c]) < CharWeight(head) || (head == [c] && CleanText([c]))
    ensures ReadFrom([c] + rest, head + tail)
  {
    WeightConcat([c], rest);
    WeightConcat(head, tail);
    if CharWeight([c] + rest) == CharWeight(head + tail) {
      assert CleanText([c]) && CleanText(rest);
      assert forall i :: 0 <= i < |[c] + rest| ==> ([c] + rest)[i] == if i == 0 then [c][0] else rest[i - 1];
    }
  }

  /** What `ReadString` does with the first `k` characters, which name the character `c`. */
  lemma ReadStep(x: string, k: nat, c: char)
    requires 0 < k <= |x| && ReadString(x[k..]).Some?
    requires ReadFrom(ReadString(x[k..]).value.0, x[k..][..ReadString(x[k..]).value.1])
    requires CharWeight([c]) < CharWeight(x[..k]) || (x[..k] == [c] && CleanText([c]))
    ensures ReadFrom([c] + ReadString(x[k..]).value.0, x[..k + ReadString(x[k..]).value.1])
  {
    var tail := x[k..];
    var (rest, m) := ReadString(tail).value;
    ReadFromCons(c, x[..k], rest, tail[..m]);
    assert x[..k + m] == x[..k] + tail[..m];
  }

  lemma {:induction false} ReadWeight(x: string)
    requires ReadString(x).Some?
    ensures ReadFrom(ReadString(x).value.0, x[..ReadString(x).value.1])
    decreases |x|
  {
    if x[0] == '\\' {
      var (c, k) := Escape(x).value;
      EscapeWeight(x);
      ReadWeight(x[k..]);
      ReadStep(x, k, c);
    } else if x[0] != '"' {
      assert x[..1] == [x[0]];
      ReadWeight(x[1..]);
      ReadStep(x, 1, x[0]);
    }
  }

  function TokenWeight(t: Token): nat {
    match t
    case Quoted(s) => CharWeight(s)
    case Digits(w) => CharWeight(w)
    case True => 1
    case NullWord => 1
    case _ => 0
  }

  function TokensWeight(ts: seq<Token>): nat {
    if ts == [] then 0 else TokenWeight(ts[0]) + TokensWeight(ts[1..])
  }

  predicate CleanToken(t: Token) {
    (t.Quoted? ==> CleanText(t.text)) && (t.Digits? ==> ValidNumber(t.text))
  }

  predicate CleanTokens(ts: seq<Token>) {
    forall i :: 0 <= i < |ts| ==> CleanToken(ts[i])
  }

  ghost predicate TokenFrom(t: Token, x: string) {
    TokenWeight(t) <= CharWeight(x) && (TokenWeight(t) == CharWeight(x) ==> CleanToken(t))
  }

  lemma QuotedFrom(s: string, quote: string, x: string)
    requires ReadFrom(s, x)
    ensures TokenFrom(Quoted(s), quote + x)
  {
    WeightConcat(quote, x);
  }

  lemma QuotedWeight(x: string)
    requires x != "" && ReadString(x[1..]).Some?
    ensures TokenFrom(Quoted(ReadString(x[1..]).value.0), x[..1 + ReadString(x[1..]).value.1])
  {
    var tail := x[1..];
    ReadWeight(tail);
    var (s, n) := ReadString(tail).value;
    QuotedFrom(s, x[..1], tail[..n]);
    assert x[..1 + n] == x[..1] + tail[..n];
  }

  lemma WordWeight(w: string)
    requires Word(w).Some?
    ensures TokenFrom(Word(w).value, w)
  {
    assert CharWeight("true") == 1 && CharWeight("null") == 1;
  }

  lemma FirstTokenWeight(x: string)
    requires x != "" && !IsSpace(x[0]) && FirstToken(x).Some?
    ensures TokenFrom(FirstToken(x).value.0, x[..FirstToken(x).value.1])
  {
    if Punctuation(x[0]).Some? {
    } else if x[0] == '"' {
      QuotedWeight(x);
    } else {
      WordWeight(x[..WordLength(x)]);
    }
  }

  lemma {:induction false} LexWeight(x: string)
    requires Lex(x).Some?
    ensures TokensWeight(Lex(x).value) <= CharWeight(x)
    ensures TokensWeight(Lex(x).value) == CharWeight(x) ==> CleanTokens(Lex(x).value)
    decreases |x|
  {
    if x == "" {
    } else if IsSpace(x[0]) {
      LexWeight(x[1..]);
      WeightSplit(x, 1);
      assert x[..1] == [x[0]];
    } else {
      var (t, n) := FirstToken(x).value;
      FirstTokenWeight(x);
      LexWeight(x[n..]);
      WeightSplit(x, n);
      var rest := Lex(x[n..]).value;
      assert Lex(x).value == [t] + rest && ([t] + rest)[1..] == rest;
    }
  }

  // --- The weight of a tree ----------------------------------------------------------------

  ghost function Weight(j: JSON): nat
    decreases j, 2
  {
    match j
    case Object(members) => MembersWeight(j, members.Keys)
    case Array(items) => ItemsWeight(items)
    case Number(text) => CharWeight(text)
    case String(text) => CharWeight(text)
    case Boolean(value) => if value then 1 else 0
    case Null => 1
  }

  ghost function MemberWeight(j: JSON, k: string): nat
    requires j.Object? && k in j.members
    decreases j, 0
  {
    CharWeight(k) + Weight(j.members[k])
  }

  ghost function MembersWeight(j: JSON, keys: set<string>): nat
    requires j.Object? && keys <= j.members.Keys
    decreases j, 1, |keys|
  {
    if keys == {} then 0 else
    var k :| k in keys;
    MemberWeight(j, k) + MembersWeight(j, keys - {k})
  }

  ghost function ItemsWeight(items: seq<JSON>): nat
    decreases items, 1
  {
    if items == [] then 0 else Weight(items[0]) + ItemsWeight(items[1..])
  }

  lemma {:induction false} MembersPick(j: JSON, keys: set<string>, k: string)
    requires j.Object? && keys <= j.members.Keys && k in keys
    ensures MembersWeight(j, keys) == MemberWeight(j, k) + MembersWeight(j, keys - {k})
    decreases |keys|
  {
    var picked :| picked in keys &&
                  MembersWeight(j, keys) == MemberWeight(j, picked) + MembersWeight(j, keys - {picked});
    if picked != k {
      MembersPick(j, keys - {picked}, k);
      MembersPick(j, keys - {k}, picked);
      assert keys - {picked} - {k} == keys - {k} - {picked};
    }
  }

  lemma {:induction false} MembersAgree(j: JSON, other: JSON, keys: set<string>)
    requires j.Object? && other.Object? && keys <= j.members.Keys && keys <= other.members.Keys
    requires forall k :: k in keys ==> j.members[k] == other.members[k]
    ensures MembersWeight(j, keys) == MembersWeight(other, keys)
    decreases |keys|
  {
    if keys != {} {
      var k :| k in keys;
      MembersPick(j, keys, k);
      MembersPick(other, keys, k);
      MembersAgree(j, other, keys - {k});
    }
  }

  lemma InsertWeight(members: map<string, JSON>, k: string, v: JSON)
    requires k !in members
    ensures Weight(Object(members[k := v])) == CharWeight(k) + Weight(v) + Weight(Object(members))
  {
    var j := Object(members[k := v]);
    MembersPick(j, j.members.Keys, k);
    assert j.members.Keys - {k} == members.Keys;
    MembersAgree(j, Object(members), members.Keys);
  }

  // --- Rebuilding keeps weight -------------------------------------------------------------

  predicate CleanItems(items: seq<JSON>) {
    forall i :: 0 <= i < |items| ==> Clean(items[i])
  }

  /** What was built from `ts` up to `rest` weighs what those tokens weigh, and is clean if they are. */
  ghost predicate Built(weight: nat, clean: bool, ts: seq<Token>, rest: seq<Token>) {
    weight + TokensWeight(rest) == TokensWeight(ts) && (CleanTokens(ts) ==> clean && CleanTokens(rest))
  }

  lemma BuiltSkip(ts: seq<Token>)
    requires ts != []
    ensures TokensWeight(ts) == TokenWeight(ts[0]) + TokensWeight(ts[1..])
    ensures CleanTokens(ts) ==> CleanToken(ts[0]) && CleanTokens(ts[1..])
  {
  }

  lemma {:induction false} ValueBuilt(ts: seq<Token>)
    requires ParseValue(ts).Some?
    ensures Built(Weight(ParseValue(ts).value.0), Clean(ParseValue(ts).value.0), ts, ParseValue(ts).value.1)
    decreases |ts|, 0
  {
    BuiltSkip(ts);
    match ts[0]
    case LBracket => ArrayBuilt(ts);
    case LBrace => ObjectBuilt(ts);
    case _ =>
  }

  lemma ArrayBuilt(ts: seq<Token>)
    requires ts != [] && ts[0] == LBracket && ParseValue(ts).Some?
    ensures Built(Weight(ParseValue(ts).value.0), Clean(ParseValue(ts).value.0), ts, ParseValue(ts).value.1)
    decreases |ts| - 1, 2
  {
    BuiltSkip(ts);
    if |ts| > 1 && ts[1] == RBracket {
      BuiltSkip(ts[1..]);
      assert ts[1..][1..] == ts[2..];
    } else {
      ItemsBuilt(ts[1..]);
      var (items, rest) := ParseItems(ts[1..]).value;
      assert ParseValue(ts).value == (Array(items), rest);
    }
  }

  lemma {:induction false} ItemsBuilt(ts: seq<Token>)
    requires ParseItems(ts).Some?
    ensures Built(ItemsWeight(ParseItems(ts).value.0), CleanItems(ParseItems(ts).value.0), ts, ParseItems(ts).value.1)
    decreases |ts|, 1
  {
    ValueBuilt(ts);
    var (first, after) := ParseValue(ts).value;
    BuiltSkip(after);
    if after[0] == RBracket {
      assert ItemsWeight([first]) == Weight(first) + ItemsWeight([]) by { assert [first][1..] == []; }
    } else {
      ItemsBuilt(after[1..]);
      var items := ParseItems(after[1..]).value.0;
      assert ([first] + items)[1..] == items;
    }
  }

  lemma ObjectBuilt(ts: seq<Token>)
    requires ts != [] && ts[0] == LBrace && ParseValue(ts).Some?
    ensures Built(Weight(ParseValue(ts).value.0), Clean(ParseValue(ts).value.0), ts, ParseValue(ts).value.1)
    decreases |ts| - 1, 2
  {
    BuiltSkip(ts);
    if |ts| > 1 && ts[1] == RBrace {
      BuiltSkip(ts[1..]);
      assert ts[1..][1..] == ts[2..];
    } else {
      MembersBuilt(ts[1..]);
      var (members, rest) := ParseMembers(ts[1..]).value;
      assert ParseValue(ts).value == (Object(members), rest);
    }
  }

  lemma {:induction false} MembersBuilt(ts: seq<Token>)
    requires ParseMembers(ts).Some?
    ensures Built(Weight(Object(ParseMembers(ts).value.0)), Clean(Object(ParseMembers(ts).value.0)), ts,
                  ParseMembers(ts).value.1)
    decreases |ts|, 1
  {
    BuiltSkip(ts);
    BuiltSkip(ts[1..]);
    assert ts[1..][1..] == ts[2..];
    ValueBuilt(ts[2..]);
    var k := ts[0].text;
    var (first, after) := ParseValue(ts[2..]).value;
    BuiltSkip(after);
    if after[0] == RBrace {
      InsertWeight(map[], k, first);
    } else {
      MembersBuilt(after[1..]);
      InsertWeight(ParseMembers(after[1..]).value.0, k, first);
    }
  }

  // --- Printing keeps weight ---------------------------------------------------------------

  function LinesWeight(lines: seq<string>): nat {
    if lines == [] then 0 else CharWeight(lines[0]) + LinesWeight(lines[1..])
  }

  lemma {:induction false} JoinWeight(parts: seq<string>, separator: string)
    requires CharWeight(separator) == 0
    ensures CharWeight(Join(parts, separator)) == LinesWeight(parts)
  {
    if |parts| > 1 {
      JoinWeight(parts[1..], separator);
      WeightConcat(parts[0], separator);
      WeightConcat(parts[0] + separator, Join(parts[1..], separator));
    }
  }

  lemma {:induction false} SplitWeight(x: string)
    ensures LinesWeight(Split(x)) == CharWeight(x)
    decreases |x|
  {
    var n := LineEnd(x);
    if n == |x| {
      assert [x][1..] == [];
    } else {
      SplitWeight(x[n + 1..]);
      WeightSplit(x, n);
      WeightSplit(x[n..], 1);
      assert x[n..][..1] == "\n" && x[n..][1..] == x[n + 1..];
      assert Split(x)[1..] == Split(x[n + 1..]);
    }
  }

  lemma {:induction false} DropWeight(lines: seq<string>)
    ensures LinesWeight(DropTrailingEmpty(lines)) == LinesWeight(lines)
  {
    if lines != [] && Last(lines) == "" {
      DropWeight(Front(lines));
      LinesSnoc(Front(lines), "");
      assert lines == Front(lines) + [""];
    }
  }

  lemma {:induction false} LinesSnoc(lines: seq<string>, line: string)
    ensures LinesWeight(lines + [line]) == LinesWeight(lines) + CharWeight(line)
  {
    if lines == [] {
      assert lines + [line] == [line] && [line][1..] == [];
    } else {
      assert (lines + [line])[1..] == lines[1..] + [line];
      LinesSnoc(lines[1..], line);
    }
  }

  lemma {:induction false} IndentedWeight(lines: seq<string>)
    ensures LinesWeight(Indented(lines)) == LinesWeight(lines)
  {
    if lines != [] {
      WeightConcat("    ", lines[0]);
      assert Indented(lines)[1..] == Indented(lines[1..]);
      IndentedWeight(lines[1..]);
    }
  }

  lemma IndentWeight(x: string)
    ensures CharWeight(Indent(x)) == CharWeight(x)
  {
    if '\n' !in x {
      assert [x][1..] == [] && LinesWeight([x]) == CharWeight(x) + LinesWeight([]);
    } else {
      SplitWeight(x);
      DropWeight(Split(x));
    }
    IndentedWeight(JavaSplit(x));
    JoinWeight(Indented(JavaSplit(x)), "\n");
  }

  lemma WrapWeight(open: string, content: string, close: string)
    requires CharWeight(open) == CharWeight(close) == 0
    ensures CharWeight(Wrap(open, content, close)) == CharWeight(content)
  {
    IndentWeight(content);
    var space := if LineCount(content) > 1 then "\n" else " ";
    var inner := if LineCount(content) > 1 then Indent(content) else content;
    WeightConcat3(open, space, inner);
    WeightConcat3(open + space + inner, space, close);
  }

  lemma {:induction false} PrintItemsWeight(items: seq<JSON>)
    requires forall i :: 0 <= i < |items| ==> CharWeight(Print(items[i])) == Weight(items[i])
    ensures LinesWeight(PrintItems(items)) == ItemsWeight(items)
  {
    if items != [] {
      PrintItemsWeight(items[1..]);
      assert PrintItems(items)[1..] == PrintItems(items[1..]);
    }
  }

  lemma PrintMemberWeight(j: JSON, k: string)
    requires j.Object? && k in j.members && CharWeight(Print(j.members[k])) == Weight(j.members[k])
    ensures CharWeight(PrintMember(j, k)) == MemberWeight(j, k)
  {
    WeightConcat3("\"", k, "\": ");
    WeightConcat("\"" + k + "\": ", Print(j.members[k]));
  }

  lemma {:induction false} PrintMembersWeight(j: JSON, keys: seq<string>, all: set<string>)
    requires j.Object? && (forall k :: k in keys ==> k in j.members) && Distinct(keys)
    requires all <= j.members.Keys && forall k :: k in all <==> k in keys
    requires forall k :: k in keys ==> CharWeight(Print(j.members[k])) == Weight(j.members[k])
    ensures LinesWeight(PrintMembers(j, keys)) == MembersWeight(j, all)
  {
    if keys != [] {
      var k, rest := keys[0], keys[1..];
      PrintMembersWeight(j, rest, all - {k});
      MembersPick(j, all, k);
      PrintMemberWeight(j, k);
      assert PrintMembers(j, keys)[1..] == PrintMembers(j, rest);
    } else {
      assert all == {};
    }
  }

  lemma OrderedMembersWeight(j: JSON)
    requires j.Object? && forall k :: k in j.members ==> CharWeight(Print(j.members[k])) == Weight(j.members[k])
    ensures LinesWeight(PrintMembers(j, Ordered(j.members.Keys))) == Weight(j)
  {
    PrintMembersWeight(j, Ordered(j.members.Keys), j.members.Keys);
  }

  lemma PrintedWeight(open: string, texts: seq<string>, separator: string, close: string)
    requires CharWeight(separator) == CharWeight(open) == CharWeight(close) == 0
    ensures CharWeight(Wrap(open, Join(texts, separator), close)) == LinesWeight(texts)
  {
    JoinWeight(texts, separator);
    WrapWeight(open, Join(texts, separator), close);
  }

  lemma PrintObjectWeight(j: JSON)
    requires j.Object?
    ensures CharWeight(Print(j)) == LinesWeight(PrintMembers(j, Ordered(j.members.Keys)))
  {
    assert CharWeight(", ") == 0 && CharWeight(",\n") == 0;
    PrintedWeight("{", PrintMembers(j, Ordered(j.members.Keys)), if SingleLine(j) then ", " else ",\n", "}");
  }

  lemma PrintArrayWeight(items: seq<JSON>)
    requires forall i :: 0 <= i < |items| ==> CharWeight(Print(items[i])) == Weight(items[i])
    ensures CharWeight(Print(Array(items))) == Weight(Array(items))
  {
    PrintItemsWeight(items);
    PrintedWeight("[", PrintItems(items), ",\n", "]");
  }

  lemma PrintAtomWeight(j: JSON)
    requires !j.Object? && !j.Array?
    ensures CharWeight(Print(j)) == Weight(j)
  {
    assert CharWeight("true") == 1 && CharWeight("false") == 0 && CharWeight("null") == 1 && CharWeight("\"") == 0;
    if j.String? { WeightConcat3("\"", j.text, "\""); }
  }

  lemma {:induction false} PrintWeight(j: JSON)
    ensures CharWeight(Print(j)) == Weight(j)
    decreases j
  {
    match j
    case Object(members) =>
      forall k | k in members ensures CharWeight(Print(members[k])) == Weight(members[k]) { PrintWeight(members[k]); }
      OrderedMembersWeight(j);
      PrintObjectWeight(j);
    case Array(items) =>
      forall i | 0 <= i < |items| ensures CharWeight(Print(items[i])) == Weight(items[i]) { PrintWeight(items[i]); }
      PrintArrayWeight(items);
    case _ => PrintAtomWeight(j);
  }

  /**
   The printer's promise, exactly: the printed text is valid and reads back as the same tree if and only if every
   number is a JSON number and no key or string holds a quote, a backslash or a control character.
   */
  lemma RoundTripIffClean(j: JSON)
    ensures Parse(Print(j)) == Some(j) <==> Clean(j)
  {
    if Clean(j) {
      RoundTrip(j);
    } else if Parse(Print(j)) == Some(j) {
      var ts := Lex(Print(j)).value;
      ValueBuilt(ts);
      LexWeight(Print(j));
      PrintWeight(j);
      assert false;
    }
  }

  /** A quote in a string makes the printed text unreadable. */
  lemma QuoteBreaksTheText()
    ensures !Clean(String("\"")) && Parse(Print(String("\""))) == None
  {
    var x := Print(String("\""));
    assert x == "\"\"\"" && x[1..] == "\"\"" && x[1..][0] == '"';
    assert ReadString(x[1..]) == Some(("", 1));
    assert x[2..] == "\"" && x[2..][1..] == "";
    assert ReadString("") == None && FirstToken(x[2..]) == None && Lex(x[2..]) == None;
  }

  /** A backslash can make it readable as something else: the two characters of an escape come back as one. */
  lemma BackslashReadsBackAsEscape()
    ensures !Clean(String("\\n")) && Parse(Print(String("\\n"))) == Some(String("\n"))
  {
    var x := Print(String("\\n"));
    assert x == "\"\\n\"" && |x| == 4;
    var body := x[1..];
    assert body == "\\n\"" && Escape(body) == Some(('\n', 2)) && body[2..] == "\"";
    assert ReadString("\"") == Some(("", 1));
    assert ReadString(body) == Some((['\n'] + "", 3)) && ['\n'] + "" == "\n";
    assert FirstToken(x) == Some((Quoted("\n"), 4)) && x[4..] == "";
    assert !IsSpace(x[0]) && Lex(x[4..]) == Some([]);
    assert Lex(x) == Prepend(Quoted("\n"), Lex(x[4..])) && [Quoted("\n")] + [] == [Quoted("\n")];
  }
}
