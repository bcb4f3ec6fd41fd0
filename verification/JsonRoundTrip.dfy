/**
 Printing and reading back: when `toString` is a valid text for its own tree, and when it is not.
 */
module JsonRoundTrip {
  import opened Protocol
  import opened Sequences
  import opened Json
  import opened JsonText

  /** Free of quotes, backslashes and control characters, the three things the printer does not escape. */
  predicate CleanText(s: string) {
    forall i :: 0 <= i < |s| ==> s[i] != '"' && s[i] != '\\' && !IsControl(s[i])
  }

  predicate Clean(j: JSON) {
    match j
    case Object(members) => forall k :: k in members ==> CleanText(k) && Clean(members[k])
    case Array(items) => forall i :: 0 <= i < |items| ==> Clean(items[i])
    case Number(text) => ValidNumber(text)
    case String(text) => CleanText(text)
    case _ => true
  }

  // --- Reading one token -------------------------------------------------------------------

  lemma {:induction false} ReadClean(s: string, rest: string)
    requires CleanText(s)
    ensures ReadString(s + "\"" + rest) == Some((s, |s| + 1))
  {
    var x := s + "\"" + rest;
    if s != "" {
      ReadClean(s[1..], rest);
      assert x[1..] == s[1..] + "\"" + rest;
      assert s == [s[0]] + s[1..];
    }
  }

  lemma {:induction false} ReadExtends(x: string, y: string)
    requires ReadString(x).Some?
    ensures ReadString(x + y) == ReadString(x)
  {
    if x[0] == '"' {
    } else if x[0] == '\\' {
      var n := Escape(x).value.1;
      assert Escape(x + y) == Escape(x) by { if n == 6 { assert (x + y)[2..6] == x[2..6]; } }
      ReadExtends(x[n..], y);
      assert (x + y)[n..] == x[n..] + y;
    } else {
      ReadExtends(x[1..], y);
      assert (x + y)[1..] == x[1..] + y;
    }
  }

  lemma EscapeBeforeNewline(a: string, b: string)
    requires a != "" && '\n' !in a && Escape(a + "\n" + b).Some?
    ensures Escape(a) == Escape(a + "\n" + b)
  {
    var x := a + "\n" + b;
    var n := Escape(x).value.1;
    assert x[|a|] == '\n' && forall i :: 0 <= i < |a| ==> x[i] == a[i];
    if n == 6 {
      var hex := x[2..6];
      assert forall i :: 0 <= i < 4 ==> HexDigit(hex[i]).Some? && hex[i] == x[2 + i];
      assert forall i :: 2 <= i < 6 ==> x[i] == hex[i - 2] != '\n';
      assert |a| >= 6;
      assert a[2..6] == hex;
    }
  }

  lemma {:induction false} ReadBeforeNewline(a: string, b: string)
    requires '\n' !in a && ReadString(a + "\n" + b).Some?
    ensures ReadString(a) == ReadString(a + "\n" + b)
  {
    var x := a + "\n" + b;
    assert x[|a|] == '\n';
    if x[0] != '"' {
      var n := 1;
      if x[0] == '\\' {
        EscapeBeforeNewline(a, b);
        n := Escape(a).value.1;
      }
      assert x[n..] == a[n..] + "\n" + b;
      ReadBeforeNewline(a[n..], b);
    }
  }

  lemma {:induction false} WordExtends(a: string, b: string)
    requires a != "" && (WordLength(a) < |a| || b == "" || !IsWordChar(b[0]))
    ensures WordLength(a + b) == WordLength(a)
  {
    if IsWordChar(a[0]) {
      assert (a + b)[1..] == a[1..] + b;
      if |a| > 1 { WordExtends(a[1..], b); }
    }
  }

  /** Two texts that can be put side by side without joining two words into one. */
  predicate Apart(a: string, b: string) {
    a == "" || b == "" || !IsWordChar(a[|a| - 1]) || !IsWordChar(b[0])
  }

  lemma TokenExtends(a: string, b: string)
    requires a != "" && !IsSpace(a[0]) && FirstToken(a).Some?
    requires Apart(a, b)
    ensures FirstToken(a + b) == FirstToken(a)
  {
    if Punctuation(a[0]).Some? {
    } else if a[0] == '"' {
      assert (a + b)[1..] == a[1..] + b;
      ReadExtends(a[1..], b);
    } else {
      var n := WordLength(a);
      if n == |a| && b != "" { assert IsWordChar(a[n - 1]); }
      WordExtends(a, b);
      assert (a + b)[..n] == a[..n];
    }
  }

  lemma TokenBeforeNewline(a: string, b: string)
    requires a != "" && '\n' !in a && !IsSpace(a[0]) && FirstToken(a + "\n" + b).Some?
    ensures FirstToken(a) == FirstToken(a + "\n" + b)
  {
    var x := a + "\n" + b;
    assert x[0] == a[0];
    if Punctuation(a[0]).Some? {
    } else if a[0] == '"' {
      assert x[1..] == a[1..] + "\n" + b;
      ReadBeforeNewline(a[1..], b);
    } else {
      assert x == a + ("\n" + b);
      WordExtends(a, "\n" + b);
      assert x[..WordLength(a)] == a[..WordLength(a)];
    }
  }

  // --- Reading texts put together ----------------------------------------------------------

  lemma {:induction false} LexConcat(a: string, b: string)
    requires Lex(a).Some? && Lex(b).Some? && Apart(a, b)
    ensures Lex(a + b) == Some(Lex(a).value + Lex(b).value)
    decreases |a|
  {
    if a == "" {
      assert a + b == b && Lex(a) == Some([]) && [] + Lex(b).value == Lex(b).value;
    } else if IsSpace(a[0]) {
      assert (a + b)[1..] == a[1..] + b;
      LexConcat(a[1..], b);
    } else {
      TokenExtends(a, b);
      var (token, n) := FirstToken(a).value;
      ApartAfter(a, b, n);
      LexTail(a, token, n);
      LexConcat(a[n..], b);
      LexHead(a + b, token, n, Lex(a[n..]).value, Lex(b).value);
    }
  }

  lemma LexTail(x: string, token: Token, n: nat)
    requires x != "" && !IsSpace(x[0]) && FirstToken(x) == Some((token, n)) && Lex(x).Some?
    ensures Lex(x[n..]).Some? && Lex(x).value == [token] + Lex(x[n..]).value
  {
  }

  lemma LexHead(x: string, token: Token, n: nat, ta: seq<Token>, tb: seq<Token>)
    requires x != "" && !IsSpace(x[0]) && FirstToken(x) == Some((token, n)) && Lex(x[n..]) == Some(ta + tb)
    ensures Lex(x) == Some([token] + ta + tb)
  {
    LexUnfold(x, token, n, ta + tb);
    assert [token] + (ta + tb) == [token] + ta + tb;
  }

  lemma ApartAfter(a: string, b: string, n: nat)
    requires Apart(a, b) && n <= |a|
    ensures Apart(a[n..], b) && (a + b)[n..] == a[n..] + b
  {
  }

  lemma LexUnfold(x: string, token: Token, n: nat, rest: seq<Token>)
    requires x != "" && !IsSpace(x[0]) && FirstToken(x) == Some((token, n)) && Lex(x[n..]) == Some(rest)
    ensures Lex(x) == Some([token] + rest)
  {
  }

  /** A newline in a readable text is never inside a token. */
  lemma {:induction false} LexSplit(a: string, b: string)
    requires '\n' !in a && Lex(a + "\n" + b).Some?
    ensures Lex(a).Some? && Lex(b).Some? && Lex(a + "\n" + b).value == Lex(a).value + Lex(b).value
    decreases |a|
  {
    var x := a + "\n" + b;
    if a == "" {
      assert x[1..] == b;
    } else if IsSpace(a[0]) {
      assert x[1..] == a[1..] + "\n" + b;
      LexSplit(a[1..], b);
    } else {
      TokenBeforeNewline(a, b);
      var (token, n) := FirstToken(a).value;
      assert x[n..] == a[n..] + "\n" + b;
      LexSplit(a[n..], b);
      assert [token] + (Lex(a[n..]).value + Lex(b).value) == [token] + Lex(a[n..]).value + Lex(b).value;
    }
  }

  function LexAll(lines: seq<string>): Option<seq<Token>> {
    if lines == [] then Some([]) else
    match (Lex(lines[0]), LexAll(lines[1..]))
    case (Some(first), Some(rest)) => Some(first + rest)
    case _ => None
  }

  lemma {:induction false} LexLines(x: string)
    requires Lex(x).Some?
    ensures LexAll(Split(x)) == Lex(x)
    decreases |x|
  {
    var n := LineEnd(x);
    if n == |x| {
      assert LexAll([x]) == Lex(x) by { assert LexAll([]) == Some([]) && Lex(x).value + [] == Lex(x).value; }
    } else {
      assert x == x[..n] + "\n" + x[n + 1..];
      LexSplit(x[..n], x[n + 1..]);
      LexLines(x[n + 1..]);
    }
  }

  lemma LexNewline()
    ensures Lex("\n") == Some([]) && Lex(" ") == Some([]) && Lex("") == Some([])
  {
  }

  lemma {:induction false} LexJoined(lines: seq<string>)
    requires LexAll(lines).Some?
    ensures Lex(Join(lines, "\n")) == LexAll(lines)
  {
    LexNewline();
    if |lines| == 1 {
      assert LexAll(lines[1..]) == Some([]);
      assert Lex(lines[0]).value + [] == Lex(lines[0]).value;
    } else if |lines| > 1 {
      var rest := Join(lines[1..], "\n");
      LexJoined(lines[1..]);
      LexConcat(lines[0], "\n");
      assert Lex(lines[0] + "\n").value == Lex(lines[0]).value;
      LexConcat(lines[0] + "\n", rest);
    }
  }

  lemma {:induction false} LexIndented(lines: seq<string>)
    requires LexAll(lines).Some?
    ensures LexAll(Indented(lines)) == LexAll(lines)
  {
    if lines != [] {
      var x := "    " + lines[0];
      assert x[1..] == "   " + lines[0] && x[1..][1..] == "  " + lines[0];
      assert x[1..][1..][1..] == " " + lines[0] && x[1..][1..][1..][1..] == lines[0];
      assert Lex(x) == Lex(x[1..]) == Lex(x[1..][1..]) == Lex(x[1..][1..][1..]) == Lex(lines[0]);
      LexIndented(lines[1..]);
      assert Indented(lines)[1..] == Indented(lines[1..]);
    }
  }

  lemma {:induction false} LexAllSnoc(lines: seq<string>, line: string)
    requires Lex(line) == Some([])
    ensures LexAll(lines + [line]) == LexAll(lines)
  {
    if lines == [] {
      assert lines + [line] == [line] && [line][1..] == [];
      assert LexAll([line][1..]) == Some([]);
      assert LexAll([line]) == Some(Lex(line).value + []);
      assert Lex(line).value + [] == Lex(line).value;
    } else {
      assert (lines + [line])[1..] == lines[1..] + [line];
      LexAllSnoc(lines[1..], line);
    }
  }

  lemma {:induction false} LexTrailing(lines: seq<string>)
    ensures LexAll(DropTrailingEmpty(lines)) == LexAll(lines)
  {
    if lines != [] && Last(lines) == "" {
      LexTrailing(Front(lines));
      LexAllSnoc(Front(lines), "");
      assert lines == Front(lines) + [""];
    }
  }

  /** Indenting a readable text does not change what is read. */
  lemma LexIndent(x: string)
    requires Lex(x).Some?
    ensures Lex(Indent(x)) == Lex(x)
  {
    LexLines(x);
    if '\n' !in x {
      assert LexAll([x]) == Lex(x) by { assert LexAll([]) == Some([]) && Lex(x).value + [] == Lex(x).value; }
    } else {
      LexTrailing(Split(x));
    }
    LexIndented(JavaSplit(x));
    LexJoined(Indented(JavaSplit(x)));
  }

  // --- Reading what was printed ------------------------------------------------------------

  /** The tokens of a tree, in printing order. */
  ghost function Tokens(j: JSON): (ts: seq<Token>)
    ensures ts != []
    decreases j, 3
  {
    match j
    case Object(_) => [LBrace] + Commas(MemberTokens(j, Ordered(j.members.Keys))) + [RBrace]
    case Array(items) => [LBracket] + Commas(ItemTokens(items)) + [RBracket]
    case Number(text) => [Digits(text)]
    case String(text) => [Quoted(text)]
    case Boolean(value) => [if value then True else False]
    case Null => [NullWord]
  }

  ghost function MemberTokens(j: JSON, keys: seq<string>): (r: seq<seq<Token>>)
    requires j.Object? && forall k :: k in keys ==> k in j.members
    ensures |r| == |keys|
    decreases j, 2, |keys|
  {
    if keys == [] then [] else
    [[Quoted(keys[0]), Colon] + Tokens(j.members[keys[0]])] + MemberTokens(j, keys[1..])
  }

  ghost function ItemTokens(items: seq<JSON>): (r: seq<seq<Token>>)
    ensures |r| == |items|
    decreases items, 1
  {
    if items == [] then [] else [Tokens(items[0])] + ItemTokens(items[1..])
  }

  function Commas(lists: seq<seq<Token>>): seq<Token> {
    if lists == [] then [] else if |lists| == 1 then lists[0] else lists[0] + [Comma] + Commas(lists[1..])
  }

  lemma LexOne(x: string, token: Token)
    requires x != "" && !IsSpace(x[0]) && FirstToken(x) == Some((token, |x|))
    ensures Lex(x) == Some([token])
  {
    assert Lex(x[|x|..]) == Some([]) by { assert x[|x|..] == ""; }
    LexUnfold(x, token, |x|, []);
    assert [token] + [] == [token];
  }

  lemma LexQuoted(s: string)
    requires CleanText(s)
    ensures Lex("\"" + s + "\"") == Some([Quoted(s)])
  {
    var x := "\"" + s + "\"";
    ReadClean(s, "");
    assert x[1..] == s + "\"" + "";
    LexOne(x, Quoted(s));
  }

  lemma LexNumber(w: string)
    requires ValidNumber(w)
    ensures Lex(w) == Some([Digits(w)])
  {
    NumberShape(w);
    WholeWord(w, Digits(w));
  }

  lemma LexLiterals()
    ensures Lex("true") == Some([True]) && Lex("false") == Some([False]) && Lex("null") == Some([NullWord])
  {
    LexWord("true", True);
    LexWord("false", False);
    LexWord("null", NullWord);
  }

  lemma LexWord(w: string, token: Token)
    requires w != "" && Word(w) == Some(token) && forall c :: c in w ==> 'a' <= c <= 'z'
    ensures Lex(w) == Some([token])
  {
    assert w[0] in w;
    WholeWord(w, token);
  }

  lemma WholeWord(w: string, token: Token)
    requires w != "" && (forall c :: c in w ==> IsWordChar(c)) && Word(w) == Some(token)
    requires !IsSpace(w[0]) && Punctuation(w[0]).None? && w[0] != '"'
    ensures Lex(w) == Some([token])
  {
    var n := WordLength(w);
    assert forall i :: 0 <= i < |w| ==> w[i] in w;
    assert n == |w| && w[..n] == w;
    assert FirstToken(w) == Some((token, n));
    LexOne(w, token);
  }

  lemma LexMark(c: char)
    requires Punctuation(c).Some?
    ensures Lex([c]) == Some([Punctuation(c).value])
    ensures Lex([c, ' ']) == Lex([c]) && Lex([c, '\n']) == Lex([c])
  {
    LexOne([c], Punctuation(c).value);
    LexNewline();
    LexConcat([c], " ");
    LexConcat([c], "\n");
    assert [c] + " " == [c, ' '] && [c] + "\n" == [c, '\n'];
    assert [Punctuation(c).value] + [] == [Punctuation(c).value];
  }

  /** A separator between items: a comma and then some whitespace. */
  predicate Separator(s: string) {
    s == ", " || s == ",\n"
  }

  lemma LexSeparated(a: string, separator: string, b: string)
    requires Lex(a).Some? && Lex(b).Some? && Separator(separator)
    ensures Lex(a + separator + b) == Some(Lex(a).value + [Comma] + Lex(b).value)
  {
    LexMark(',');
    assert separator == [',', ' '] || separator == [',', '\n'];
    LexConcat(a, separator);
    assert (a + separator)[|a + separator| - 1] == separator[1];
    LexConcat(a + separator, b);
  }

  lemma LexWrap(open: char, content: string, close: char)
    requires Punctuation(open).Some? && Punctuation(close).Some? && Lex(content).Some?
    ensures Lex(Wrap([open], content, [close])) ==
              Some([Punctuation(open).value] + Lex(content).value + [Punctuation(close).value])
  {
    LexMark(open);
    LexMark(close);
    LexIndent(content);
    var space := if LineCount(content) > 1 then "\n" else " ";
    var inner := if LineCount(content) > 1 then Indent(content) else content;
    var left := [open] + space;
    assert left == [open, space[0]];
    LexConcat(left, inner);
    LexNewline();
    LexConcat(left + inner, space);
    LexConcat(left + inner + space, [close]);
    assert Lex(left + inner + space).value == Lex(left + inner).value + [];
    assert Lex(left + inner).value + [] == Lex(left + inner).value;
    assert Wrap([open], content, [close]) == left + inner + space + [close];
  }

  lemma LexKeyed(k: string, text: string, ts: seq<Token>)
    requires CleanText(k) && Lex(text) == Some(ts)
    ensures Lex("\"" + k + "\": " + text) == Some([Quoted(k), Colon] + ts)
  {
    LexQuoted(k);
    LexMark(':');
    var key, colon := "\"" + k + "\"", [':', ' '];
    LexConcat(key, colon);
    assert (key + colon)[|key + colon| - 1] == ' ';
    assert Lex(key + colon).value == [Quoted(k), Colon];
    LexConcat(key + colon, text);
    assert "\"" + k + "\": " + text == key + colon + text;
  }

  /** Each text reads as its list of tokens. */
  ghost predicate ReadAs(texts: seq<string>, lists: seq<seq<Token>>) {
    |texts| == |lists| && forall i :: 0 <= i < |texts| ==> Lex(texts[i]) == Some(lists[i])
  }

  lemma {:induction false} LexJoin(texts: seq<string>, lists: seq<seq<Token>>, separator: string)
    requires ReadAs(texts, lists) && Separator(separator)
    ensures Lex(Join(texts, separator)) == Some(Commas(lists))
  {
    if texts == [] {
      LexNewline();
    } else if |texts| > 1 {
      LexJoin(texts[1..], lists[1..], separator);
      LexSeparated(texts[0], separator, Join(texts[1..], separator));
    }
  }

  lemma {:induction false} MembersReadAs(j: JSON, keys: seq<string>)
    requires j.Object? && (forall k :: k in keys ==> k in j.members)
    requires forall k :: k in keys ==> CleanText(k) && Lex(Print(j.members[k])) == Some(Tokens(j.members[k]))
    ensures ReadAs(PrintMembers(j, keys), MemberTokens(j, keys))
  {
    if keys != [] {
      LexKeyed(keys[0], Print(j.members[keys[0]]), Tokens(j.members[keys[0]]));
      MembersReadAs(j, keys[1..]);
      ReadAsCons(PrintMember(j, keys[0]), [Quoted(keys[0]), Colon] + Tokens(j.members[keys[0]]),
                 PrintMembers(j, keys[1..]), MemberTokens(j, keys[1..]));
    }
  }

  lemma ReadAsCons(text: string, list: seq<Token>, texts: seq<string>, lists: seq<seq<Token>>)
    requires Lex(text) == Some(list) && ReadAs(texts, lists)
    ensures ReadAs([text] + texts, [list] + lists)
  {
  }

  lemma {:induction false} ItemsReadAs(items: seq<JSON>)
    requires forall i :: 0 <= i < |items| ==> Lex(Print(items[i])) == Some(Tokens(items[i]))
    ensures ReadAs(PrintItems(items), ItemTokens(items))
  {
    if items != [] {
      ItemsReadAs(items[1..]);
      ReadAsCons(Print(items[0]), Tokens(items[0]), PrintItems(items[1..]), ItemTokens(items[1..]));
    }
  }

  /** Single lines, nested indenting and key order leave the token structure alone. */
  lemma {:induction false} LexPrint(j: JSON)
    requires Clean(j)
    ensures Lex(Print(j)) == Some(Tokens(j))
    decreases j
  {
    match j
    case Object(members) =>
      forall k | k in members ensures Lex(Print(members[k])) == Some(Tokens(members[k])) { LexPrint(members[k]); }
      var separator := if SingleLine(j) then ", " else ",\n";
      MembersReadAs(j, Ordered(members.Keys));
      LexJoin(PrintMembers(j, Ordered(members.Keys)), MemberTokens(j, Ordered(members.Keys)), separator);
      LexWrap('{', Join(PrintMembers(j, Ordered(members.Keys)), separator), '}');
    case Array(items) =>
      forall i | 0 <= i < |items| ensures Lex(Print(items[i])) == Some(Tokens(items[i])) { LexPrint(items[i]); }
      ItemsReadAs(items);
      LexJoin(PrintItems(items), ItemTokens(items), ",\n");
      LexWrap('[', Join(PrintItems(items), ",\n"), ']');
    case Number(text) => LexNumber(text);
    case String(text) => LexQuoted(text);
    case Boolean(_) => LexLiterals();
    case Null => LexLiterals();
  }

  // --- Rebuilding the tree -----------------------------------------------------------------

  function Restrict(j: JSON, keys: seq<string>): map<string, JSON>
    requires j.Object? && forall k :: k in keys ==> k in j.members
  {
    map k | k in keys :: j.members[k]
  }

  predicate Distinct(keys: seq<string>) {
    forall i, k :: 0 <= i < k < |keys| ==> keys[i] != keys[k]
  }

  /** The parser takes a tree's tokens, and no more, for that tree. */
  ghost predicate Reads(j: JSON) {
    forall rest :: ParseValue(Tokens(j) + rest) == Some((j, rest))
  }

  /** What follows the first list: the closing tokens, or a comma and the other lists. */
  function Following(lists: seq<seq<Token>>, closing: seq<Token>): seq<Token> {
    if lists == [] then closing else [Comma] + (Commas(lists) + closing)
  }

  lemma CommasSplit(list: seq<Token>, lists: seq<seq<Token>>, closing: seq<Token>)
    ensures Commas([list] + lists) + closing == list + Following(lists, closing)
  {
    assert ([list] + lists)[1..] == lists;
    if lists != [] {
      assert list + [Comma] + Commas(lists) + closing == list + ([Comma] + (Commas(lists) + closing));
    }
  }

  lemma ItemsStep(first: JSON, after: seq<Token>, items: seq<JSON>, rest: seq<Token>)
    requires Reads(first)
    requires if items == [] then after == [RBracket] + rest
             else after != [] && after[0] == Comma && ParseItems(after[1..]) == Some((items, rest))
    ensures ParseItems(Tokens(first) + after) == Some(([first] + items, rest))
  {
    assert ParseValue(Tokens(first) + after) == Some((first, after));
    if items == [] {
      assert after[1..] == rest && [first] + items == [first];
    }
  }

  lemma {:induction false} ParseItemTokens(items: seq<JSON>, rest: seq<Token>)
    requires items != [] && forall i :: 0 <= i < |items| ==> Reads(items[i])
    ensures ParseItems(Commas(ItemTokens(items)) + ([RBracket] + rest)) == Some((items, rest))
  {
    var first, more, closing := items[0], items[1..], [RBracket] + rest;
    var after := Following(ItemTokens(more), closing);
    CommasSplit(Tokens(first), ItemTokens(more), closing);
    if more != [] {
      ParseItemTokens(more, rest);
      assert after[1..] == Commas(ItemTokens(more)) + closing;
    }
    ItemsStep(first, after, more, rest);
    assert items == [first] + more;
  }

  lemma MembersUnfold(k: string, first: JSON, ts: seq<Token>, after: seq<Token>, members: map<string, JSON>,
                      rest: seq<Token>)
    requires |ts| >= 2 && ts[0] == Quoted(k) && ts[1] == Colon && ParseValue(ts[2..]) == Some((first, after))
    requires k !in members
    requires if members == map[] then after == [RBrace] + rest
             else after != [] && after[0] == Comma && ParseMembers(after[1..]) == Some((members, rest))
    ensures ParseMembers(ts) == Some((members[k := first], rest))
  {
    if members == map[] { assert after[1..] == rest; }
  }

  lemma AfterName(k: string, body: seq<Token>, after: seq<Token>)
    ensures var ts := [Quoted(k), Colon] + body + after;
            |ts| >= 2 && ts[0] == Quoted(k) && ts[1] == Colon && ts[2..] == body + after
  {
  }

  lemma {:induction false} ParseMemberTokens(j: JSON, keys: seq<string>, rest: seq<Token>)
    requires j.Object? && keys != [] && Distinct(keys)
    requires forall k :: k in keys ==> k in j.members && Reads(j.members[k])
    ensures ParseMembers(Commas(MemberTokens(j, keys)) + ([RBrace] + rest)) == Some((Restrict(j, keys), rest))
  {
    var k, more, closing := keys[0], keys[1..], [RBrace] + rest;
    var first := j.members[k];
    var after := Following(MemberTokens(j, more), closing);
    CommasSplit([Quoted(k), Colon] + Tokens(first), MemberTokens(j, more), closing);
    if more != [] {
      ParseMemberTokens(j, more, rest);
      assert after[1..] == Commas(MemberTokens(j, more)) + closing;
      assert more[0] in Restrict(j, more);
    } else {
      assert Restrict(j, more) == map[];
    }
    AfterName(k, Tokens(first), after);
    assert Reads(first);
    MembersUnfold(k, first, [Quoted(k), Colon] + Tokens(first) + after, after, Restrict(j, more), rest);
    assert Restrict(j, keys) == Restrict(j, more)[k := first];
  }

  lemma FirstTokenOf(j: JSON)
    ensures Tokens(j)[0] != RBracket && Tokens(j)[0] != RBrace
  {
  }

  lemma {:induction false} ParseTokens(j: JSON)
    ensures Reads(j)
    decreases j
  {
    forall rest ensures ParseValue(Tokens(j) + rest) == Some((j, rest)) {
      var ts := Tokens(j) + rest;
      match j
      case Object(members) =>
        forall k | k in members ensures Reads(members[k]) { ParseTokens(members[k]); }
        ParseObjectTokens(j, rest);
      case Array(items) =>
        forall i | 0 <= i < |items| ensures Reads(items[i]) { ParseTokens(items[i]); }
        ParseArrayTokens(items, rest);
      case _ => assert ts[1..] == rest;
    }
  }

  lemma ParseArrayTokens(items: seq<JSON>, rest: seq<Token>)
    requires forall i :: 0 <= i < |items| ==> Reads(items[i])
    ensures ParseValue(Tokens(Array(items)) + rest) == Some((Array(items), rest))
  {
    var ts := Tokens(Array(items)) + rest;
    var body := Commas(ItemTokens(items)) + ([RBracket] + rest);
    assert ts == [LBracket] + body && ts[1..] == body;
    if items == [] {
      assert ts[2..] == rest;
    } else {
      CommasSplit(Tokens(items[0]), ItemTokens(items[1..]), [RBracket] + rest);
      FirstTokenOf(items[0]);
      assert body[0] == Tokens(items[0])[0];
      ParseItemTokens(items, rest);
    }
  }

  lemma ParseObjectTokens(j: JSON, rest: seq<Token>)
    requires j.Object? && forall k :: k in j.members ==> Reads(j.members[k])
    ensures ParseValue(Tokens(j) + rest) == Some((j, rest))
  {
    var keys := Ordered(j.members.Keys);
    var body := Commas(MemberTokens(j, keys)) + ([RBrace] + rest);
    assert Tokens(j) + rest == [LBrace] + body;
    if keys == [] {
      assert j.members == map[] && ([LBrace] + body)[2..] == rest;
    } else {
      CommasSplit([Quoted(keys[0]), Colon] + Tokens(j.members[keys[0]]), MemberTokens(j, keys[1..]), [RBrace] + rest);
      ParseMemberTokens(j, keys, rest);
      assert Restrict(j, keys) == j.members;
      ObjectUnfold(body, j.members, rest);
    }
  }

  lemma ObjectUnfold(body: seq<Token>, members: map<string, JSON>, rest: seq<Token>)
    requires body != [] && body[0].Quoted? && ParseMembers(body) == Some((members, rest))
    ensures ParseValue([LBrace] + body) == Some((Object(members), rest))
  {
    assert ([LBrace] + body)[1..] == body;
  }

  /** Printing a clean tree and reading the text back gives the same tree. */
  lemma RoundTrip(j: JSON)
    requires Clean(j)
    ensures Parse(Print(j)) == Some(j)
  {
    LexPrint(j);
    ParseTokens(j);
    assert Tokens(j) + [] == Tokens(j);
  }
}
