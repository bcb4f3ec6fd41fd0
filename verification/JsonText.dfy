/**
 JSON texts as RFC 8259 defines them (sections 2 to 7): tokens separated by insignificant whitespace, and the
 grammar over tokens. As the driver reads them: an object with a repeated name is refused (`JSON.of` collects
 its members into a map).
 */
module JsonText {
  import opened Protocol
  import opened Json

  datatype Token =
    | LBrace | RBrace | LBracket | RBracket | Colon | Comma
    | Quoted(text: string) | Digits(text: string) | True | False | NullWord

  predicate IsSpace(c: char) {
    c == ' ' || c == '\n' || c == '\r' || c == '\t'
  }

  predicate IsControl(c: char) {
    c < ' '
  }

  predicate IsDigit(c: char) {
    '0' <= c <= '9'
  }

  /** The characters numbers and the three literal names are made of. */
  predicate IsWordChar(c: char) {
    IsDigit(c) || 'a' <= c <= 'z' || 'A' <= c <= 'Z' || c == '-' || c == '+' || c == '.'
  }

  // --- Numbers (section 6) -----------------------------------------------------------------

  function DigitsLength(x: string): (n: nat)
    ensures n <= |x|
  {
    if x == "" || !IsDigit(x[0]) then 0 else 1 + DigitsLength(x[1..])
  }

  predicate ValidExponent(x: string) {
    x == "" ||
    (&& (x[0] == 'e' || x[0] == 'E')
     && var digits := if |x| > 1 && (x[1] == '+' || x[1] == '-') then x[2..] else x[1..];
        digits != "" && DigitsLength(digits) == |digits|)
  }

  predicate ValidFraction(x: string) {
    if x != "" && x[0] == '.'
    then DigitsLength(x[1..]) > 0 && ValidExponent(x[1 + DigitsLength(x[1..])..])
    else ValidExponent(x)
  }

  predicate ValidNumber(x: string) {
    && (forall c :: c in x ==> IsWordChar(c))
    && var unsigned := if x != "" && x[0] == '-' then x[1..] else x;
       var n := DigitsLength(unsigned);
       n > 0 && (n == 1 || unsigned[0] != '0') && ValidFraction(unsigned[n..])
  }

  lemma NumberShape(x: string)
    requires ValidNumber(x)
    ensures x != "" && (IsDigit(x[0]) || x[0] == '-') && x != "true" && x != "false" && x != "null"
  {
  }

  // --- Strings (section 7) -----------------------------------------------------------------

  function HexDigit(c: char): Option<nat> {
    if '0' <= c <= '9' then Some(c as nat - '0' as nat)
    else if 'a' <= c <= 'f' then Some(c as nat - 'a' as nat + 10)
    else if 'A' <= c <= 'F' then Some(c as nat - 'A' as nat + 10)
    else None
  }

  function HexValue(x: string): Option<nat>
    ensures HexValue(x).Some? ==> forall i :: 0 <= i < |x| ==> HexDigit(x[i]).Some?
  {
    if x == "" then Some(0) else
    match (HexValue(x[..|x| - 1]), HexDigit(x[|x| - 1]))
    case (Some(high), Some(low)) => Some(16 * high + low)
    case _ => None
  }

  /** An escape at the start of a text that begins with a backslash: the character it names and its length. */
  function Escape(x: string): (r: Option<(char, nat)>)
    ensures r.Some? ==> 2 <= r.value.1 <= |x|
  {
    if |x| < 2 then None
    else if x[1] == '"' || x[1] == '\\' || x[1] == '/' then Some((x[1], 2))
    else if x[1] == 'b' then Some(('\U{0008}', 2))
    else if x[1] == 'f' then Some(('\U{000C}', 2))
    else if x[1] == 'n' then Some(('\n', 2))
    else if x[1] == 'r' then Some(('\r', 2))
    else if x[1] == 't' then Some(('\t', 2))
    else if x[1] == 'u' && |x| >= 6 then
      match HexValue(x[2..6])
      case Some(code) => if code < 0xD800 || 0xE000 <= code < 0x10000 then Some((code as char, 6)) else None
      case None => None
    else None
  }

  /** A string after its opening quote: its value, and how much was read including the closing quote. */
  function ReadString(x: string): (r: Option<(string, nat)>)
    ensures r.Some? ==> 0 < r.value.1 <= |x|
  {
    if x == "" || IsControl(x[0]) then None
    else if x[0] == '"' then Some(("", 1))
    else if x[0] == '\\' then
      match Escape(x)
      case None => None
      case Some((c, n)) =>
        match ReadString(x[n..])
        case None => None
        case Some((rest, m)) => Some(([c] + rest, n + m))
    else
      match ReadString(x[1..])
      case None => None
      case Some((rest, m)) => Some(([x[0]] + rest, 1 + m))
  }

  // --- Tokens (section 2) ------------------------------------------------------------------

  function WordLength(x: string): (n: nat)
    ensures n <= |x| && (forall i :: 0 <= i < n ==> IsWordChar(x[i])) && (n < |x| ==> !IsWordChar(x[n]))
  {
    if x == "" || !IsWordChar(x[0]) then 0 else 1 + WordLength(x[1..])
  }

  function Word(w: string): Option<Token> {
    if w == "true" then Some(True)
    else if w == "false" then Some(False)
    else if w == "null" then Some(NullWord)
    else if ValidNumber(w) then Some(Digits(w))
    else None
  }

  function Punctuation(c: char): Option<Token> {
    if c == '{' then Some(LBrace) else if c == '}' then Some(RBrace)
    else if c == '[' then Some(LBracket) else if c == ']' then Some(RBracket)
    else if c == ':' then Some(Colon) else if c == ',' then Some(Comma)
    else None
  }

  /** The first token of a text that does not start with whitespace, and its length. */
  function FirstToken(x: string): (r: Option<(Token, nat)>)
    requires x != "" && !IsSpace(x[0])
    ensures r.Some? ==> 0 < r.value.1 <= |x|
  {
    if Punctuation(x[0]).Some? then Some((Punctuation(x[0]).value, 1))
    else if x[0] == '"' then
      match ReadString(x[1..])
      case None => None
      case Some((s, n)) => Some((Quoted(s), 1 + n))
    else if WordLength(x) == 0 then None
    else
      match Word(x[..WordLength(x)])
      case None => None
      case Some(token) => Some((token, WordLength(x)))
  }

  function Prepend(token: Token, rest: Option<seq<Token>>): Option<seq<Token>> {
    if rest.None? then None else Some([token] + rest.value)
  }

  function Lex(x: string): Option<seq<Token>>
    decreases |x|
  {
    if x == "" then Some([])
    else if IsSpace(x[0]) then Lex(x[1..])
    else
      match FirstToken(x)
      case None => None
      case Some((token, n)) => Prepend(token, Lex(x[n..]))
  }

  // --- The grammar (sections 3 to 5) -------------------------------------------------------

  function ParseValue(ts: seq<Token>): (r: Option<(JSON, seq<Token>)>)
    ensures r.Some? ==> |r.value.1| < |ts|
    decreases |ts|, 0
  {
    if ts == [] then None else
    match ts[0]
    case Quoted(s) => Some((String(s), ts[1..]))
    case Digits(w) => Some((Number(w), ts[1..]))
    case True => Some((Boolean(true), ts[1..]))
    case False => Some((Boolean(false), ts[1..]))
    case NullWord => Some((Null, ts[1..]))
    case LBracket =>
      if |ts| > 1 && ts[1] == RBracket then Some((Array([]), ts[2..])) else
      (match ParseItems(ts[1..])
       case None => None
       case Some((items, rest)) => Some((Array(items), rest)))
    case LBrace =>
      if |ts| > 1 && ts[1] == RBrace then Some((Object(map[]), ts[2..])) else
      (match ParseMembers(ts[1..])
       case None => None
       case Some((members, rest)) => Some((Object(members), rest)))
    case _ => None
  }

  /** One or more values up to the closing bracket. */
  function ParseItems(ts: seq<Token>): (r: Option<(seq<JSON>, seq<Token>)>)
    ensures r.Some? ==> |r.value.1| < |ts|
    decreases |ts|, 1
  {
    match ParseValue(ts)
    case None => None
    case Some((first, after)) =>
      if after == [] then None
      else if after[0] == RBracket then Some(([first], after[1..]))
      else if after[0] != Comma then None
      else
        match ParseItems(after[1..])
        case None => None
        case Some((items, rest)) => Some(([first] + items, rest))
  }

  /** One or more members up to the closing brace; a repeated name is refused. */
  function ParseMembers(ts: seq<Token>): (r: Option<(map<string, JSON>, seq<Token>)>)
    ensures r.Some? ==> |r.value.1| < |ts|
    decreases |ts|, 1
  {
    if |ts| < 2 || !ts[0].Quoted? || ts[1] != Colon then None else
    match ParseValue(ts[2..])
    case None => None
    case Some((first, after)) =>
      if after == [] then None
      else if after[0] == RBrace then Some((map[ts[0].text := first], after[1..]))
      else if after[0] != Comma then None
      else
        match ParseMembers(after[1..])
        case None => None
        case Some((members, rest)) =>
          if ts[0].text in members then None else Some((members[ts[0].text := first], rest))
  }

  /** A name that comes twice is refused, whatever the values. */
  lemma RepeatedNameIsRefused(k: string, a: string, b: string)
    ensures ParseValue([LBrace, Quoted(k), Colon, Digits(a), Comma, Quoted(k), Colon, Digits(b), RBrace]) == None
  {
    var last := [Quoted(k), Colon, Digits(b), RBrace];
    assert last[2..] == [Digits(b), RBrace] && last[2..][1..] == [RBrace];
    assert ParseMembers(last) == Some((map[k := Number(b)], []));
    var both := [Quoted(k), Colon, Digits(a), Comma] + last;
    assert both[2..][1..] == [Comma] + last && both[2..][1..][1..] == last;
    assert ParseMembers(both) == None;
    assert [LBrace, Quoted(k), Colon, Digits(a), Comma, Quoted(k), Colon, Digits(b), RBrace] == [LBrace] + both;
    assert ([LBrace] + both)[1..] == both;
  }

  /** `JSON.parse`: a value and nothing else. */
  function Parse(x: string): Option<JSON> {
    match Lex(x)
    case None => None
    case Some(ts) =>
      match ParseValue(ts)
      case Some((j, rest)) => if rest == [] then Some(j) else None
      case None => None
  }
}
