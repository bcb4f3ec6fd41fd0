/**
 The pretty-printer of query answers (`JSON.java`) as functions on texts.
 */
module Json {
  import opened Sequences

  /** A number is kept as the text Java prints for it. */
  datatype JSON =
    | Object(members: map<string, JSON>)
    | Array(items: seq<JSON>)
    | Number(text: string)
    | String(text: string)
    | Boolean(value: bool)
    | Null

  // --- The order of keys -------------------------------------------------------------------

  predicate TextLess(a: string, b: string) {
    if b == "" then false
    else if a == "" then true
    else a[0] < b[0] || (a[0] == b[0] && TextLess(a[1..], b[1..]))
  }

  /** At the first place where they differ `a` has the smaller character, or has ended. */
  ghost predicate Precedes(a: string, b: string) {
    exists i: nat :: DiffersAt(a, b, i)
  }

  ghost predicate DiffersAt(a: string, b: string, i: nat) {
    i <= |a| && i < |b| && a[..i] == b[..i] && (i == |a| || a[i] < b[i])
  }

  lemma DiffersTail(a: string, b: string, i: nat)
    requires a != "" && b != "" && a[0] == b[0]
    ensures DiffersAt(a[1..], b[1..], i) <==> DiffersAt(a, b, i + 1)
    ensures !DiffersAt(a, b, 0)
  {
    if i + 1 <= |a| && i + 1 <= |b| {
      assert a[..i + 1] == [a[0]] + a[1..][..i] && b[..i + 1] == [b[0]] + b[1..][..i];
      assert a[..i + 1][1..] == a[1..][..i] && b[..i + 1][1..] == b[1..][..i];
    }
  }

  /** The text order is the one of the first difference. */
  lemma {:induction false} TextLessMeans(a: string, b: string)
    ensures TextLess(a, b) <==> Precedes(a, b)
    decreases |a|
  {
    if a == "" || b == "" || a[0] != b[0] {
      assert TextLess(a, b) ==> DiffersAt(a, b, 0);
      assert forall i: nat :: i > 0 && a != "" && b != "" && i <= |a| && i <= |b| && a[..i] == b[..i] ==>
          a[..i][0] == b[..i][0];
    } else {
      TextLessMeans(a[1..], b[1..]);
      if i: nat :| DiffersAt(a[1..], b[1..], i) { DiffersTail(a, b, i); }
      if i: nat :| DiffersAt(a, b, i) { DiffersTail(a, b, if i > 0 then i - 1 else 0); }
    }
  }

  /** The comparator of `toString`: "type" comes last, everything else in text order. */
  predicate Before(a: string, b: string) {
    if a == "type" then false else if b == "type" then true else TextLess(a, b)
  }

  lemma {:induction false} TextOrder(a: string, b: string, c: string)
    ensures !TextLess(a, a)
    ensures TextLess(a, b) && TextLess(b, c) ==> TextLess(a, c)
    ensures a != b ==> TextLess(a, b) || TextLess(b, a)
    decreases |a| + |b| + |c|
  {
    if a != "" && b != "" && c != "" {
      TextOrder(a[1..], b[1..], c[1..]);
      assert a == [a[0]] + a[1..] && b == [b[0]] + b[1..];
    } else if a != "" {
      TextOrder(a[1..], "", "");
      if b != "" { TextOrder(a[1..], b[1..], ""); assert a == [a[0]] + a[1..] && b == [b[0]] + b[1..]; }
    }
  }

  lemma KeyOrder(a: string, b: string, c: string)
    ensures a != b ==> Before(a, b) || Before(b, a)
    ensures Before(a, b) && Before(b, c) ==> Before(a, c)
  {
    TextOrder(a, b, c);
  }

  ghost predicate Least(k: string, keys: set<string>) {
    k in keys && forall other :: other in keys && other != k ==> Before(k, other)
  }

  lemma {:induction false} LeastExists(keys: set<string>)
    requires keys != {}
    ensures exists k :: Least(k, keys)
  {
    var x :| x in keys;
    if keys == {x} {
      assert Least(x, keys);
    } else {
      LeastExists(keys - {x});
      var k :| Least(k, keys - {x});
      KeyOrder(x, k, k);
      if Before(k, x) {
        assert Least(k, keys);
      } else {
        forall other | other in keys && other != x ensures Before(x, other) {
          KeyOrder(x, k, other);
        }
        assert Least(x, keys);
      }
    }
  }

  /** The keys of an object in the order they are printed. */
  ghost function Ordered(keys: set<string>): (r: seq<string>)
    ensures forall k :: k in r <==> k in keys
    ensures forall i, j :: 0 <= i < j < |r| ==> r[i] != r[j] && Before(r[i], r[j])
  {
    if keys == {} then [] else
    LeastExists(keys);
    var k :| Least(k, keys);
    [k] + Ordered(keys - {k})
  }

  // --- Lines -------------------------------------------------------------------------------

  function Join(parts: seq<string>, separator: string): string {
    if parts == [] then "" else if |parts| == 1 then parts[0] else parts[0] + separator + Join(parts[1..], separator)
  }

  /** The position of the first newline, or the length. */
  function LineEnd(x: string): (n: nat)
    ensures n <= |x| && '\n' !in x[..n] && (n < |x| ==> x[n] == '\n')
  {
    if x == "" || x[0] == '\n' then 0 else 1 + LineEnd(x[1..])
  }

  function Split(x: string): (r: seq<string>)
    ensures r != []
  {
    var n := LineEnd(x);
    if n == |x| then [x] else [x[..n]] + Split(x[n + 1..])
  }

  function DropTrailingEmpty(lines: seq<string>): seq<string> {
    if lines != [] && Last(lines) == "" then DropTrailingEmpty(Front(lines)) else lines
  }

  /** `String.split("\n")`: trailing empty pieces are dropped, unless there was nothing to split. */
  function JavaSplit(x: string): seq<string> {
    if '\n' !in x then [x] else DropTrailingEmpty(Split(x))
  }

  function Indented(lines: seq<string>): (r: seq<string>)
    ensures |r| == |lines| && forall i :: 0 <= i < |r| ==> r[i] == "    " + lines[i]
  {
    seq(|lines|, i requires 0 <= i < |lines| => "    " + lines[i])
  }

  function Indent(x: string): string {
    Join(Indented(JavaSplit(x)), "\n")
  }

  /** `lines().count()`: lines end at a newline, a carriage return, or both in a row. */
  function LineCount(x: string): nat {
    if x == "" then 0
    else if x[0] == '\n' then 1 + LineCount(x[1..])
    else if x[0] == '\r' then 1 + LineCount(if |x| > 1 && x[1] == '\n' then x[2..] else x[1..])
    else if |x| == 1 then 1
    else LineCount(x[1..])
  }

  // --- toString ----------------------------------------------------------------------------

  function Wrap(open: string, content: string, close: string): string {
    if LineCount(content) > 1 then open + "\n" + Indent(content) + "\n" + close
    else open + " " + content + " " + close
  }

  predicate SingleLine(j: JSON)
    requires j.Object?
  {
    "root" in j.members || "value" in j.members
  }

  ghost function Print(j: JSON): string
    decreases j, 3
  {
    match j
    case Object(_) =>
      Wrap("{", Join(PrintMembers(j, Ordered(j.members.Keys)), if SingleLine(j) then ", " else ",\n"), "}")
    case Array(items) => Wrap("[", Join(PrintItems(items), ",\n"), "]")
    case Number(text) => text
    case String(text) => "\"" + text + "\""
    case Boolean(value) => if value then "true" else "false"
    case Null => "null"
  }

  ghost function PrintMember(j: JSON, k: string): string
    requires j.Object? && k in j.members
    decreases j, 1
  {
    "\"" + k + "\": " + Print(j.members[k])
  }

  ghost function PrintMembers(j: JSON, keys: seq<string>): (r: seq<string>)
    requires j.Object? && forall k :: k in keys ==> k in j.members
    ensures |r| == |keys|
    decreases j, 2, |keys|
  {
    if keys == [] then [] else [PrintMember(j, keys[0])] + PrintMembers(j, keys[1..])
  }

  ghost function PrintItems(items: seq<JSON>): (r: seq<string>)
    ensures |r| == |items|
    decreases items, 1
  {
    if items == [] then [] else [Print(items[0])] + PrintItems(items[1..])
  }

  // --- Layout ------------------------------------------------------------------------------

  /** "type" is printed after every other key, and the others in text order. */
  lemma TypeComesLast(keys: set<string>)
    ensures "type" in keys ==> Ordered(keys) != [] && Last(Ordered(keys)) == "type"
    ensures forall i, j :: 0 <= i < j < |Ordered(keys)| && Ordered(keys)[j] != "type" ==>
              Precedes(Ordered(keys)[i], Ordered(keys)[j])
  {
    var r := Ordered(keys);
    forall i, j | 0 <= i < j < |r| && r[j] != "type" ensures Precedes(r[i], r[j]) { TextLessMeans(r[i], r[j]); }
    if "type" in keys {
      var i :| 0 <= i < |r| && r[i] == "type";
      assert !(i < |r| - 1 && Before(r[i], r[|r| - 1]));
    }
  }

  predicate NoBreak(x: string) {
    '\n' !in x && '\r' !in x
  }

  lemma {:induction false} OneLine(x: string)
    requires NoBreak(x)
    ensures LineCount(x) <= 1
  {
    if |x| > 1 {
      assert forall c :: c in x[1..] ==> c in x;
      OneLine(x[1..]);
    }
  }

  lemma {:induction false} JoinOneLine(parts: seq<string>, separator: string)
    requires NoBreak(separator) && forall i :: 0 <= i < |parts| ==> NoBreak(parts[i])
    ensures NoBreak(Join(parts, separator))
  {
    if |parts| > 1 { JoinOneLine(parts[1..], separator); }
  }

  lemma {:induction false} MembersOneLine(j: JSON, keys: seq<string>)
    requires j.Object? && forall k :: k in keys ==> k in j.members && NoBreak(k) && NoBreak(Print(j.members[k]))
    ensures forall i :: 0 <= i < |keys| ==> NoBreak(PrintMembers(j, keys)[i])
  {
    if keys != [] { MembersOneLine(j, keys[1..]); }
  }

  lemma WrapOneLine(open: string, content: string, close: string)
    requires NoBreak(open) && NoBreak(content) && NoBreak(close)
    ensures NoBreak(Wrap(open, content, close))
  {
    OneLine(content);
  }

  /** A type, a value or an attribute whose members fit on one line is printed on one line. */
  lemma TypesAndValuesOnOneLine(j: JSON)
    requires j.Object? && SingleLine(j)
    requires forall k :: k in j.members ==> NoBreak(k) && NoBreak(Print(j.members[k]))
    ensures NoBreak(Print(j))
  {
    var keys := Ordered(j.members.Keys);
    MembersOneLine(j, keys);
    JoinOneLine(PrintMembers(j, keys), ", ");
    WrapOneLine("{", Join(PrintMembers(j, keys), ", "), "}");
  }
}
