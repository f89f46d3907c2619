/** The subscription filter of src/filter.rs: expressions and their evaluation, the parser as
    functions on the unread text, and the parser object that advances a position. */
module Filter {
  import opened Basics

  type Attributes = map<string, string>

  datatype Expr =
    | HasKey(key: string)
    | Eq(key: string, value: string)
    | Ne(key: string, value: string)
    | HasPrefix(key: string, prefix: string)
    | Not(inner: Expr)
    | And(left: Expr, right: Expr)
    | Or(left: Expr, right: Expr)

  predicate Eval(e: Expr, attributes: Attributes) {
    match e
    case HasKey(key) => key in attributes
    case Eq(key, value) => key in attributes && attributes[key] == value
    case Ne(key, value) => !(key in attributes && attributes[key] == value)
    case HasPrefix(key, prefix) => key in attributes && prefix <= attributes[key]
    case Not(inner) => !Eval(inner, attributes)
    case And(left, right) => Eval(left, attributes) && Eval(right, attributes)
    case Or(left, right) => Eval(left, attributes) || Eval(right, attributes)
  }

  // ----- Characters -----

  /** The Unicode White_Space property. */
  predicate IsWhitespace(c: char) {
    || '\t' <= c <= '\r' || c == ' ' || c == '\U{0085}' || c == '\U{00A0}' || c == '\U{1680}'
    || '\U{2000}' <= c <= '\U{200A}' || c == '\U{2028}' || c == '\U{2029}' || c == '\U{202F}'
    || c == '\U{205F}' || c == '\U{3000}'
  }

  predicate IsIdentChar(c: char) {
    'a' <= c <= 'z' || 'A' <= c <= 'Z' || IsDigit(c) || c == '_' || c == '-' || c == '.'
  }

  function SkipWs(s: string): (r: string)
    ensures |r| <= |s| && (r != "" ==> !IsWhitespace(r[0]))
  {
    if s != "" && IsWhitespace(s[0]) then SkipWs(s[1..]) else s
  }

  function TrimEnd(s: string): (r: string)
    ensures r <= s
  {
    if s != "" && IsWhitespace(s[|s| - 1]) then TrimEnd(s[..|s| - 1]) else s
  }

  function Trim(s: string): string {
    TrimEnd(SkipWs(s))
  }

  /** Skips white space, then consumes `token` if the text goes on with it. */
  function Eat(s: string, token: string): (r: Option<string>)
    ensures r.Some? ==> |r.value| + |token| <= |s|
  {
    var t := SkipWs(s);
    if token <= t then Some(t[|token|..]) else None
  }

  function IdentLen(s: string): (n: nat)
    ensures n <= |s|
  {
    if s != "" && IsIdentChar(s[0]) then 1 + IdentLen(s[1..]) else 0
  }

  // ----- The parser on the unread text -----

  datatype Parsed<T> = Yes(value: T, rest: string) | No

  function Ident(s: string): (r: Parsed<string>)
    ensures r.Yes? ==> |r.rest| < |s|
  {
    var t := SkipWs(s);
    var n := IdentLen(t);
    if n == 0 then No else Yes(t[..n], t[n..])
  }

  function Field(s: string): (r: Parsed<string>)
    ensures r.Yes? ==> |r.rest| < |s|
  {
    match Eat(s, "attributes.")
    case None => No
    case Some(t) => Ident(t)
  }

  /** The characters of a quoted string up to its closing quote; only `\"` and `\\` are
      escapes, any other backslash stands for itself. */
  function Chars(s: string, out: string): (r: Parsed<string>)
    ensures r.Yes? ==> |r.rest| < |s|
  {
    if s == "" then No
    else if s[0] == '"' then Yes(out, s[1..])
    else if s[0] == '\\' then
      if |s| == 1 then No
      else if s[1] == '"' || s[1] == '\\' then Chars(s[2..], out + [s[1]])
      else Chars(s[2..], out + ['\\', s[1]])
    else Chars(s[1..], out + [s[0]])
  }

  function Quoted(s: string): (r: Parsed<string>)
    ensures r.Yes? ==> |r.rest| < |s|
  {
    match Eat(s, "\"")
    case None => No
    case Some(t) => Chars(t, "")
  }

  function OrExpr(s: string): (r: Parsed<Expr>)
    ensures r.Yes? ==> |r.rest| < |s|
    decreases |s|, 4
  {
    match AndExpr(s)
    case No => No
    case Yes(left, t) => OrTail(left, t)
  }

  function OrTail(left: Expr, s: string): (r: Parsed<Expr>)
    ensures r.Yes? ==> |r.rest| <= |s|
    decreases |s|, 5
  {
    match Eat(s, "OR")
    case None => Yes(left, SkipWs(s))
    case Some(t) =>
      match AndExpr(t)
      case No => No
      case Yes(right, u) => OrTail(Or(left, right), u)
  }

  function AndExpr(s: string): (r: Parsed<Expr>)
    ensures r.Yes? ==> |r.rest| < |s|
    decreases |s|, 3
  {
    match NotExpr(s)
    case No => No
    case Yes(left, t) => AndTail(left, t)
  }

  function AndTail(left: Expr, s: string): (r: Parsed<Expr>)
    ensures r.Yes? ==> |r.rest| <= |s|
    decreases |s|, 5
  {
    match Eat(s, "AND")
    case None => Yes(left, SkipWs(s))
    case Some(t) =>
      match NotExpr(t)
      case No => No
      case Yes(right, u) => AndTail(And(left, right), u)
  }

  function NotExpr(s: string): (r: Parsed<Expr>)
    ensures r.Yes? ==> |r.rest| < |s|
    decreases |s|, 2
  {
    match Eat(s, "NOT")
    case None => Primary(s)
    case Some(t) =>
      match NotExpr(t)
      case No => No
      case Yes(inner, u) => Yes(Not(inner), u)
  }

  function Primary(s: string): (r: Parsed<Expr>)
    ensures r.Yes? ==> |r.rest| < |s|
    decreases |s|, 1
  {
    if Eat(s, "(").Some? then Group(Eat(s, "(").value)
    else if Eat(s, "hasPrefix").Some? then PrefixCall(Eat(s, "hasPrefix").value)
    else if Eat(s, "attributes:").Some? then
      match Ident(Eat(s, "attributes:").value)
      case No => No
      case Yes(key, t) => Yes(HasKey(key), t)
    else if "attributes." <= SkipWs(s) then Comparison(s)
    else No
  }

  function Group(s: string): (r: Parsed<Expr>)
    ensures r.Yes? ==> |r.rest| < |s|
    decreases |s|, 5
  {
    match OrExpr(s)
    case No => No
    case Yes(inner, t) =>
      match Eat(t, ")")
      case None => No
      case Some(u) => Yes(inner, u)
  }

  function PrefixCall(s: string): (r: Parsed<Expr>)
    ensures r.Yes? ==> |r.rest| < |s|
  {
    var open := Eat(s, "(");
    if open.None? then No else
    var field := Field(open.value);
    if field.No? then No else
    var comma := Eat(field.rest, ",");
    if comma.None? then No else
    var prefix := Quoted(comma.value);
    if prefix.No? then No else
    var close := Eat(prefix.rest, ")");
    if close.None? then No else Yes(HasPrefix(field.value, prefix.value), close.value)
  }

  function Comparison(s: string): (r: Parsed<Expr>)
    ensures r.Yes? ==> |r.rest| < |s|
  {
    var field := Field(s);
    if field.No? then No else
    var ne := Eat(field.rest, "!=");
    var eq := Eat(field.rest, "=");
    if ne.Some? then
      match Quoted(ne.value)
      case No => No
      case Yes(value, t) => Yes(Ne(field.value, value), t)
    else if eq.Some? then
      match Quoted(eq.value)
      case No => No
      case Yes(value, t) => Yes(Eq(field.value, value), t)
    else No
  }

  /** `AttributeFilter::parse`: the outer option is success, the inner one is `None` for the
      empty filter, which matches everything. */
  function Parse(raw: string): Option<Option<Expr>> {
    var text := Trim(raw);
    if text == "" then Some(None)
    else
      match OrExpr(text)
      case No => None
      case Yes(e, rest) => if SkipWs(rest) == "" then Some(Some(e)) else None
  }

  predicate Matches(filter: Option<Expr>, attributes: Attributes) {
    match filter
    case None => true
    case Some(e) => Eval(e, attributes)
  }

  // ----- The parser object -----

  /** What a parsing method owes: the answer and the new position of the function above. */
  ghost predicate Answers<T>(expected: Parsed<T>, r: Option<T>, rest: string) {
    match expected
    case No => r.None?
    case Yes(v, t) => r == Some(v) && rest == t
  }

  class Parser {
    const src: string
    var pos: nat

    ghost predicate Valid()
      reads this
    {
      pos <= |src|
    }

    ghost function Rest(): string
      requires Valid()
      reads this
    {
      src[pos..]
    }

    constructor (s: string)
      ensures Valid() && src == s && Rest() == s
    {
      src := s;
      pos := 0;
    }

    method SkipSpace()
      requires Valid()
      modifies this
      ensures Valid() && pos >= old(pos) && Rest() == SkipWs(old(Rest()))
    {
      while pos < |src| && IsWhitespace(src[pos])
        invariant old(pos) <= pos <= |src| && SkipWs(Rest()) == SkipWs(old(Rest()))
      {
        assert Rest()[1..] == src[pos + 1..];
        pos := pos + 1;
      }
    }

    /** On failure only white space has been passed. */
    method EatToken(token: string) returns (ok: bool)
      requires Valid()
      modifies this
      ensures Valid() && pos >= old(pos)
      ensures ok <==> Eat(old(Rest()), token).Some?
      ensures Rest() == if ok then Eat(old(Rest()), token).value else SkipWs(old(Rest()))
      ensures ok ==> pos >= old(pos) + |token|
    {
      SkipSpace();
      ok := token <= src[pos..];
      if ok {
        pos := pos + |token|;
      }
    }

    method SkipIdent()
      requires Valid()
      modifies this
      ensures Valid() && pos == old(pos) + IdentLen(old(src[pos..]))
    {
      while pos < |src| && IsIdentChar(src[pos])
        invariant old(pos) <= pos <= |src|
        invariant pos + IdentLen(src[pos..]) == old(pos + IdentLen(src[pos..]))
      {
        assert src[pos..][1..] == src[pos + 1..];
        pos := pos + 1;
      }
    }

    method ParseIdent() returns (r: Option<string>)
      requires Valid()
      modifies this
      ensures Valid() && pos >= old(pos) && Answers(Ident(old(Rest())), r, Rest())
    {
      SkipSpace();
      var start := pos;
      SkipIdent();
      assert src[start..][..pos - start] == src[start..pos];
      r := if pos == start then None else Some(src[start..pos]);
    }

    method ParseField() returns (r: Option<string>)
      requires Valid()
      modifies this
      ensures Valid() && pos >= old(pos) && Answers(Field(old(Rest())), r, Rest())
    {
      var ok := EatToken("attributes.");
      if !ok { return None; }
      r := ParseIdent();
    }

    method ParseString() returns (r: Option<string>)
      requires Valid()
      modifies this
      ensures Valid() && pos >= old(pos) && Answers(Quoted(old(Rest())), r, Rest())
    {
      var ok := EatToken("\"");
      if !ok { return None; }
      var out := "";
      while pos < |src|
        invariant old(pos) <= pos <= |src|
        invariant Chars(src[pos..], out) == Quoted(old(Rest()))
      {
        ghost var unread := src[pos..];
        var c := src[pos];
        pos := pos + 1;
        assert unread[1..] == src[pos..];
        if c == '"' {
          return Some(out);
        } else if c == '\\' {
          if pos == |src| { break; }
          assert unread[2..] == src[pos + 1..];
          var escaped := src[pos] == '"' || src[pos] == '\\';
          out := out + (if escaped then [src[pos]] else [c, src[pos]]);
          pos := pos + 1;
        } else {
          out := out + [c];
        }
      }
      r := None;
    }

    method ParseOr() returns (r: Option<Expr>)
      requires Valid()
      modifies this
      ensures Valid() && pos >= old(pos) && Answers(OrExpr(old(Rest())), r, Rest())
      decreases |src| - pos, 4
    {
      var first := ParseAnd();
      if first.None? { return None; }
      var left := first.value;
      while true
        invariant Valid() && pos > old(pos) && OrTail(left, Rest()) == OrExpr(old(Rest()))
        decreases |src| - pos
      {
        var ok := EatToken("OR");
        if !ok { break; }
        var right := ParseAnd();
        if right.None? { return None; }
        left := Or(left, right.value);
      }
      r := Some(left);
    }

    method ParseAnd() returns (r: Option<Expr>)
      requires Valid()
      modifies this
      ensures Valid() && pos >= old(pos) && Answers(AndExpr(old(Rest())), r, Rest())
      decreases |src| - pos, 3
    {
      var first := ParseNot();
      if first.None? { return None; }
      var left := first.value;
      while true
        invariant Valid() && pos > old(pos) && AndTail(left, Rest()) == AndExpr(old(Rest()))
        decreases |src| - pos
      {
        var ok := EatToken("AND");
        if !ok { break; }
        var right := ParseNot();
        if right.None? { return None; }
        left := And(left, right.value);
      }
      r := Some(left);
    }

    method ParseNot() returns (r: Option<Expr>)
      requires Valid()
      modifies this
      ensures Valid() && pos >= old(pos) && Answers(NotExpr(old(Rest())), r, Rest())
      decreases |src| - pos, 2
    {
      var ok := EatToken("NOT");
      if ok {
        var inner := ParseNot();
        r := if inner.None? then None else Some(Not(inner.value));
      } else {
        SkipSpaceTwice(old(Rest()));
        r := ParsePrimary();
      }
    }

    method ParsePrimary() returns (r: Option<Expr>)
      requires Valid()
      modifies this
      ensures Valid() && pos >= old(pos) && Answers(Primary(old(Rest())), r, Rest())
      decreases |src| - pos, 1
    {
      SkipSpace();
      SkipSpaceTwice(old(Rest()));
      var ok := EatToken("(");
      if ok {
        r := ParseOr();
        if r.None? { return; }
        ok := EatToken(")");
        return if ok then r else None;
      }
      ok := EatToken("hasPrefix");
      if ok {
        r := ParsePrefixCall();
        return;
      }
      ok := EatToken("attributes:");
      if ok {
        var key := ParseIdent();
        return if key.None? then None else Some(HasKey(key.value));
      }
      if "attributes." <= src[pos..] {
        r := ParseComparison();
      } else {
        r := None;
      }
    }

    method ParsePrefixCall() returns (r: Option<Expr>)
      requires Valid()
      modifies this
      ensures Valid() && pos >= old(pos) && Answers(PrefixCall(old(Rest())), r, Rest())
    {
      var ok := EatToken("(");
      if !ok { return None; }
      var key := ParseField();
      if key.None? { return None; }
      ok := EatToken(",");
      if !ok { return None; }
      var prefix := ParseString();
      if prefix.None? { return None; }
      ok := EatToken(")");
      r := if ok then Some(HasPrefix(key.value, prefix.value)) else None;
    }

    method ParseComparison() returns (r: Option<Expr>)
      requires Valid()
      modifies this
      ensures Valid() && pos >= old(pos) && Answers(Comparison(old(Rest())), r, Rest())
    {
      var key := ParseField();
      if key.None? { return None; }
      SkipSpaceTwice(Rest());
      var ok := EatToken("!=");
      if ok {
        var value := ParseString();
        return if value.None? then None else Some(Ne(key.value, value.value));
      }
      ok := EatToken("=");
      if ok {
        var value := ParseString();
        return if value.None? then None else Some(Eq(key.value, value.value));
      }
      r := None;
    }
  }

  /** `AttributeFilter::parse` with the parser object. */
  method ParseFilter(raw: string) returns (r: Option<Option<Expr>>)
    ensures r == Parse(raw)
  {
    var text := Trim(raw);
    if text == "" { return Some(None); }
    var parser := new Parser(text);
    var e := parser.ParseOr();
    if e.None? { return None; }
    parser.SkipSpace();
    r := if parser.pos == |parser.src| then Some(e) else None;
  }

  /** White space in front changes nothing: every rule starts by skipping it. */
  lemma SkipSpaceTwice(s: string)
    ensures SkipWs(SkipWs(s)) == SkipWs(s)
    ensures forall token :: Eat(SkipWs(s), token) == Eat(s, token)
    ensures Primary(SkipWs(s)) == Primary(s)
    ensures NotExpr(SkipWs(s)) == NotExpr(s)
    ensures AndExpr(SkipWs(s)) == AndExpr(s)
  {
  }
}
