/** The filter language itself: derivations in the grammar of src/filter.rs, which give exactly the
    accepted texts and their meaning, and a canonical printer that the parser inverts. */
module FilterGrammar {
  import opened Basics
  import opened Filter

  // ----- Derivations -----

  datatype Level = OrLevel | AndLevel | NotLevel

  /** A derivation: the productions used and the white space between the tokens.
        or  = and { "OR" and }        and = not { "AND" not }        not = "NOT" not | primary
        primary = "(" or ")" | "attributes:" name | "attributes." name ("=" | "!=") quoted
                | "hasPrefix" "(" "attributes." name "," quoted ")" */
  datatype Derivation =
    | OrNode(left: Derivation, gap: string, right: Derivation)
    | AndNode(left: Derivation, gap: string, right: Derivation)
    | NotNode(gap: string, inner: Derivation)
    | GroupNode(gap: string, inner: Derivation, close: string)
    | KeyNode(gap: string, name: Name)
    | CompareNode(field: FieldText, gap: string, negated: bool, quoted: QuotedText)
    | PrefixNode(gap: string, open: string, field: FieldText, comma: string, quoted: QuotedText,
                 close: string)

  datatype Name = Name(gap: string, text: string)
  datatype FieldText = FieldText(gap: string, name: Name)
  datatype QuotedText = QuotedText(gap: string, raw: string)

  predicate Blank(s: string) {
    forall k :: 0 <= k < |s| ==> IsWhitespace(s[k])
  }

  predicate IsIdent(s: string) {
    s != "" && forall k :: 0 <= k < |s| ==> IsIdentChar(s[k])
  }

  /** The value of the text between quotes; `None` if a quote or a lone backslash is inside. */
  function Unescape(raw: string): Option<string> {
    if raw == "" then Some("")
    else if raw[0] == '"' then None
    else if raw[0] == '\\' then
      if |raw| == 1 then None
      else match Unescape(raw[2..])
        case None => None
        case Some(v) => Some((if raw[1] == '"' || raw[1] == '\\' then [raw[1]] else ['\\', raw[1]]) + v)
    else match Unescape(raw[1..])
      case None => None
      case Some(v) => Some([raw[0]] + v)
  }

  predicate NameOk(n: Name) {
    Blank(n.gap) && IsIdent(n.text)
  }

  predicate FieldOk(f: FieldText) {
    Blank(f.gap) && NameOk(f.name)
  }

  predicate QuotedOk(q: QuotedText) {
    Blank(q.gap) && Unescape(q.raw).Some?
  }

  predicate Derives(d: Derivation, level: Level) {
    match d
    case OrNode(l, gap, r) =>
      level.OrLevel? && Derives(l, OrLevel) && Blank(gap) && Derives(r, AndLevel)
    case AndNode(l, gap, r) =>
      !level.NotLevel? && Derives(l, AndLevel) && Blank(gap) && Derives(r, NotLevel)
    case NotNode(gap, inner) => Blank(gap) && Derives(inner, NotLevel)
    case GroupNode(gap, inner, close) => Blank(gap) && Blank(close) && Derives(inner, OrLevel)
    case KeyNode(gap, name) => Blank(gap) && NameOk(name)
    case CompareNode(field, gap, _, quoted) => FieldOk(field) && Blank(gap) && QuotedOk(quoted)
    case PrefixNode(gap, open, field, comma, quoted, close) =>
      Blank(gap) && Blank(open) && FieldOk(field) && Blank(comma) && QuotedOk(quoted) && Blank(close)
  }

  function NameYield(n: Name): string { n.gap + n.text }

  function Token(gap: string, token: string): string { gap + token }

  function FieldYield(f: FieldText): string { Token(f.gap, "attributes.") + NameYield(f.name) }

  function QuotedYield(q: QuotedText): string { Token(q.gap, "\"") + (q.raw + "\"") }

  /** The text a derivation stands for. */
  function Yield(d: Derivation): string {
    match d
    case OrNode(l, gap, r) => Yield(l) + Token(gap, "OR") + Yield(r)
    case AndNode(l, gap, r) => Yield(l) + Token(gap, "AND") + Yield(r)
    case NotNode(gap, inner) => Token(gap, "NOT") + Yield(inner)
    case GroupNode(gap, inner, close) => Token(gap, "(") + Yield(inner) + Token(close, ")")
    case KeyNode(gap, name) => Token(gap, "attributes:") + NameYield(name)
    case CompareNode(field, gap, negated, quoted) =>
      FieldYield(field) + Token(gap, if negated then "!=" else "=") + QuotedYield(quoted)
    case PrefixNode(gap, open, field, comma, quoted, close) =>
      Token(gap, "hasPrefix") + Token(open, "(") + FieldYield(field) + Token(comma, ",")
      + QuotedYield(quoted) + Token(close, ")")
  }

  /** The expression a derivation means. */
  function Meaning(d: Derivation, level: Level): Expr
    requires Derives(d, level)
  {
    match d
    case OrNode(l, _, r) => Or(Meaning(l, OrLevel), Meaning(r, AndLevel))
    case AndNode(l, _, r) => And(Meaning(l, AndLevel), Meaning(r, NotLevel))
    case NotNode(_, inner) => Not(Meaning(inner, NotLevel))
    case GroupNode(_, inner, _) => Meaning(inner, OrLevel)
    case KeyNode(_, name) => HasKey(name.text)
    case CompareNode(field, _, negated, quoted) =>
      var value := Unescape(quoted.raw).value;
      if negated then Ne(field.name.text, value) else Eq(field.name.text, value)
    case PrefixNode(_, _, field, _, quoted, _) =>
      HasPrefix(field.name.text, Unescape(quoted.raw).value)
  }

  /** The last token is the bare name of an `attributes:` test. */
  predicate EndsInName(d: Derivation) {
    match d
    case OrNode(_, _, r) => EndsInName(r)
    case AndNode(_, _, r) => EndsInName(r)
    case NotNode(_, inner) => EndsInName(inner)
    case KeyNode(_, _) => true
    case _ => false
  }

  /** White space keeps a bare name apart from the operator after it: names are read as far as they go. */
  predicate Separated(d: Derivation) {
    match d
    case OrNode(l, gap, r) => Separated(l) && Separated(r) && (EndsInName(l) ==> gap != "")
    case AndNode(l, gap, r) => Separated(l) && Separated(r) && (EndsInName(l) ==> gap != "")
    case NotNode(_, inner) => Separated(inner)
    case GroupNode(_, inner, _) => Separated(inner)
    case _ => true
  }

  /** What may come after a name: not another name character. */
  predicate Follows(rest: string) {
    rest == "" || !IsIdentChar(rest[0])
  }

  /** `rest` does not go on with the last name of `d`. */
  predicate Closed(d: Derivation, rest: string) {
    EndsInName(d) ==> Follows(rest)
  }

  /** `d` derives `e` at `level`. */
  ghost predicate Means(d: Derivation, level: Level, e: Expr) {
    Derives(d, level) && Separated(d) && Meaning(d, level) == e
  }

  // ----- Every accepted text is a derivation -----

  lemma {:induction false} SkipWsGap(s: string) returns (gap: string)
    ensures Blank(gap) && s == gap + SkipWs(s)
  {
    if s != "" && IsWhitespace(s[0]) {
      var g := SkipWsGap(s[1..]);
      gap := [s[0]] + g;
      assert s == [s[0]] + s[1..];
    } else {
      gap := "";
    }
  }

  /** Reading `text` off the front of `s` leaves `rest`. */
  ghost predicate Reads(s: string, text: string, rest: string) {
    s == text + rest
  }

  lemma ReadsThen(s: string, first: string, t: string, second: string, rest: string)
    requires Reads(s, first, t) && Reads(t, second, rest)
    ensures Reads(s, first + second, rest)
  {
    assert first + (second + rest) == first + second + rest;
  }

  lemma EatGap(s: string, token: string) returns (gap: string)
    requires Eat(s, token).Some?
    ensures Blank(gap) && Reads(s, Token(gap, token), Eat(s, token).value)
  {
    gap := SkipWsGap(s);
    var t := SkipWs(s);
    assert Reads(t, token, t[|token|..]);
    ReadsThen(s, gap, t, token, t[|token|..]);
  }

  lemma {:induction false} IdentLenSound(s: string)
    ensures forall k :: 0 <= k < IdentLen(s) ==> IsIdentChar(s[k])
    ensures IdentLen(s) < |s| ==> !IsIdentChar(s[IdentLen(s)])
  {
    if s != "" && IsIdentChar(s[0]) {
      IdentLenSound(s[1..]);
      assert forall k :: 1 <= k < |s| ==> s[k] == s[1..][k - 1];
    }
  }

  lemma IdentSound(s: string) returns (n: Name)
    requires Ident(s).Yes?
    ensures NameOk(n) && n.text == Ident(s).value && Reads(s, NameYield(n), Ident(s).rest)
    ensures Follows(Ident(s).rest)
  {
    var gap := SkipWsGap(s);
    var t, len := SkipWs(s), IdentLen(SkipWs(s));
    IdentLenSound(t);
    n := Name(gap, t[..len]);
    assert NameOk(n) by {
      assert forall k :: 0 <= k < len ==> t[..len][k] == t[k];
    }
    assert t[len..] == "" || t[len..][0] == t[len];
    assert Reads(t, t[..len], t[len..]);
    ReadsThen(s, gap, t, n.text, t[len..]);
  }

  lemma FieldSound(s: string) returns (f: FieldText)
    requires Field(s).Yes?
    ensures FieldOk(f) && f.name.text == Field(s).value && Reads(s, FieldYield(f), Field(s).rest)
  {
    var gap := EatGap(s, "attributes.");
    var t := Eat(s, "attributes.").value;
    var n := IdentSound(t);
    f := FieldText(gap, n);
    ReadsThen(s, Token(gap, "attributes."), t, NameYield(n), Field(s).rest);
  }

  lemma {:induction false} CharsSound(s: string, out: string) returns (raw: string)
    requires Chars(s, out).Yes?
    ensures Unescape(raw).Some? && Chars(s, out).value == out + Unescape(raw).value
    ensures Reads(s, raw + "\"", Chars(s, out).rest)
    decreases |s|
  {
    if s[0] == '"' {
      raw := "";
    } else {
      var n, piece := FirstPiece(s, out);
      var more := CharsSound(s[n..], out + piece);
      raw := s[..n] + more;
      UnescapePiece(s[..n], more, piece);
      assert out + piece + Unescape(more).value == out + (piece + Unescape(more).value);
      ReadsThen(s, s[..n], s[n..], more + "\"", Chars(s, out).rest);
      assert s[..n] + (more + "\"") == raw + "\"";
    }
  }

  /** `front` is one character, or a backslash and one more, and stands for `piece`. */
  ghost predicate StandsFor(front: string, piece: string) {
    && (|front| == 1 || |front| == 2)
    && (|front| == 1 ==> front[0] != '"' && front[0] != '\\' && piece == front)
    && (|front| == 2 ==> front[0] == '\\')
    && (|front| == 2 && (front[1] == '"' || front[1] == '\\') ==> piece == [front[1]])
    && (|front| == 2 && !(front[1] == '"' || front[1] == '\\') ==> piece == front)
  }

  lemma FirstPiece(s: string, out: string) returns (n: nat, piece: string)
    requires Chars(s, out).Yes? && s[0] != '"'
    ensures 1 <= n <= |s| && StandsFor(s[..n], piece) && Reads(s, s[..n], s[n..])
    ensures Chars(s, out) == Chars(s[n..], out + piece)
  {
    n := if s[0] == '\\' then 2 else 1;
    if n == 1 {
      piece := [s[0]];
      assert s[..1] == [s[0]];
    } else {
      piece := if s[1] == '"' || s[1] == '\\' then [s[1]] else ['\\', s[1]];
      assert s[..2] == [s[0], s[1]];
    }
  }

  lemma UnescapePiece(front: string, more: string, piece: string)
    requires Unescape(more).Some? && StandsFor(front, piece)
    ensures Unescape(front + more) == Some(piece + Unescape(more).value)
  {
    var raw := front + more;
    assert raw[|front|..] == more && raw[0] == front[0];
    if |front| == 2 {
      assert raw[1] == front[1];
      assert front == ['\\', front[1]];
    } else {
      assert front == [front[0]];
    }
  }

  lemma QuotedSound(s: string) returns (q: QuotedText)
    requires Quoted(s).Yes?
    ensures QuotedOk(q) && Unescape(q.raw).value == Quoted(s).value
    ensures Reads(s, QuotedYield(q), Quoted(s).rest)
  {
    var gap := EatGap(s, "\"");
    var t := Eat(s, "\"").value;
    var raw := CharsSound(t, "");
    q := QuotedText(gap, raw);
    ReadsThen(s, Token(gap, "\""), t, raw + "\"", Quoted(s).rest);
  }

  lemma CompareSound(s: string) returns (d: Derivation)
    requires Comparison(s).Yes?
    ensures d.CompareNode? && Means(d, NotLevel, Comparison(s).value)
    ensures Reads(s, Yield(d), Comparison(s).rest)
  {
    var field := FieldSound(s);
    var t := Field(s).rest;
    var negated := Eat(t, "!=").Some?;
    var op := if negated then "!=" else "=";
    var gap := EatGap(t, op);
    var u := Eat(t, op).value;
    var quoted := QuotedSound(u);
    d := CompareNode(field, gap, negated, quoted);
    ReadsThen(s, FieldYield(field), t, Token(gap, op), u);
    ReadsThen(s, FieldYield(field) + Token(gap, op), u, QuotedYield(quoted), Quoted(u).rest);
  }

  lemma PrefixArguments(s: string) returns (open: string, field: FieldText, comma: string)
    requires PrefixCall(s).Yes?
    ensures Blank(open) && FieldOk(field) && Blank(comma)
    ensures PrefixCall(s).value.key == field.name.text
    ensures Eat(s, "(").Some? && Field(Eat(s, "(").value).Yes?
    ensures var t := Field(Eat(s, "(").value).rest;
            Eat(t, ",").Some?
            && Reads(s, Token(open, "(") + FieldYield(field) + Token(comma, ","), Eat(t, ",").value)
  {
    open := EatGap(s, "(");
    var s1 := Eat(s, "(").value;
    field := FieldSound(s1);
    var s2 := Field(s1).rest;
    comma := EatGap(s2, ",");
    ReadsThen(s, Token(open, "("), s1, FieldYield(field), s2);
    ReadsThen(s, Token(open, "(") + FieldYield(field), s2, Token(comma, ","), Eat(s2, ",").value);
  }

  lemma PrefixSound(s: string, t: string, gap: string) returns (d: Derivation)
    requires PrefixCall(t).Yes? && Blank(gap) && Reads(s, Token(gap, "hasPrefix"), t)
    ensures d.PrefixNode? && Means(d, NotLevel, PrefixCall(t).value)
    ensures Reads(s, Yield(d), PrefixCall(t).rest)
  {
    var open, field, comma := PrefixArguments(t);
    var s3 := Eat(Field(Eat(t, "(").value).rest, ",").value;
    var quoted := QuotedSound(s3);
    var s4 := Quoted(s3).rest;
    var close := EatGap(s4, ")");
    d := PrefixNode(gap, open, field, comma, quoted, close);
    var head, args := Token(gap, "hasPrefix"), Token(open, "(") + FieldYield(field) + Token(comma, ",");
    ReadsThen(s, head, t, args, s3);
    Regroup(head, Token(open, "("), FieldYield(field), Token(comma, ","));
    ReadsThen(s, head + args, s3, QuotedYield(quoted), s4);
    ReadsThen(s, head + args + QuotedYield(quoted), s4, Token(close, ")"), PrefixCall(t).rest);
  }

  lemma Regroup(a: string, b: string, c: string, d: string)
    ensures a + (b + c + d) == a + b + c + d
  {
  }

  /** Reading an operand and white space, an operator, and a second operand. */
  lemma ReadsBinary(s: string, left: string, gap: string, t: string, more: string, op: string,
                    u: string, right: string, rest: string)
    requires Reads(s, left + gap, t) && Reads(t, Token(more, op), u) && Reads(u, right, rest)
    ensures Reads(s, left + Token(gap + more, op) + right, rest)
  {
    ReadsThen(s, left + gap, t, Token(more, op), u);
    assert left + gap + (more + op) == left + (gap + more + op);
    ReadsThen(s, left + Token(gap + more, op), u, right, rest);
  }

  /** An operator right after a name would have been read as part of it. */
  lemma GapNeeded(left: Derivation, gap: string, more: string, op: string, t: string)
    requires Closed(left, gap + t) && |more| + |op| <= |t| && Reads(t, Token(more, op), t[|more| + |op|..])
    requires op != "" && IsIdentChar(op[0])
    ensures EndsInName(left) ==> gap + more != ""
  {
    if gap + more == "" {
      assert (gap + t)[0] == op[0];
    }
  }

  lemma {:induction false} OrSound(s: string) returns (d: Derivation, trail: string)
    requires OrExpr(s).Yes?
    ensures Means(d, OrLevel, OrExpr(s).value) && Blank(trail)
    ensures Reads(s, Yield(d) + trail, OrExpr(s).rest) && Closed(d, trail + OrExpr(s).rest)
    decreases |s|, 4
  {
    var first, gap := AndSound(s);
    d, trail := OrTailSound(s, first, gap, AndExpr(s).value, AndExpr(s).rest);
  }

  lemma {:induction false} OrTailSound(s: string, left: Derivation, gap: string, e: Expr, t: string)
    returns (d: Derivation, trail: string)
    requires Means(left, OrLevel, e) && Blank(gap) && Reads(s, Yield(left) + gap, t) && Closed(left, gap + t)
    requires |t| < |s| && OrTail(e, t).Yes?
    ensures Means(d, OrLevel, OrTail(e, t).value) && Blank(trail)
    ensures Reads(s, Yield(d) + trail, OrTail(e, t).rest) && Closed(d, trail + OrTail(e, t).rest)
    decreases |t|, 5
  {
    if Eat(t, "OR").None? {
      var more := SkipWsGap(t);
      d, trail := left, gap + more;
      assert (gap + more) + SkipWs(t) == gap + t;
      ReadsThen(s, Yield(left) + gap, t, more, SkipWs(t));
      assert Yield(left) + gap + more == Yield(left) + (gap + more);
    } else {
      var more := EatGap(t, "OR");
      var u := Eat(t, "OR").value;
      var right, after := AndSound(u);
      var v := AndExpr(u).rest;
      ReadsBinary(s, Yield(left), gap, t, more, "OR", u, Yield(right) + after, v);
      var joined := OrNode(left, gap + more, right);
      GapNeeded(left, gap, more, "OR", t);
      assert Yield(joined) + after == Yield(left) + Token(gap + more, "OR") + (Yield(right) + after);
      d, trail := OrTailSound(s, joined, after, Or(e, AndExpr(u).value), v);
    }
  }

  lemma {:induction false} AndSound(s: string) returns (d: Derivation, trail: string)
    requires AndExpr(s).Yes?
    ensures Means(d, AndLevel, AndExpr(s).value) && Means(d, OrLevel, AndExpr(s).value)
    ensures Blank(trail) && Reads(s, Yield(d) + trail, AndExpr(s).rest) && Closed(d, trail + AndExpr(s).rest)
    decreases |s|, 3
  {
    var first := NotSound(s);
    assert Yield(first) + "" == Yield(first) && "" + NotExpr(s).rest == NotExpr(s).rest;
    d, trail := AndTailSound(s, first, "", NotExpr(s).value, NotExpr(s).rest);
  }

  lemma {:induction false} AndTailSound(s: string, left: Derivation, gap: string, e: Expr, t: string)
    returns (d: Derivation, trail: string)
    requires Means(left, AndLevel, e) && Means(left, OrLevel, e)
    requires Blank(gap) && Reads(s, Yield(left) + gap, t) && Closed(left, gap + t)
    requires |t| < |s| && AndTail(e, t).Yes?
    ensures Means(d, AndLevel, AndTail(e, t).value) && Means(d, OrLevel, AndTail(e, t).value)
    ensures Blank(trail) && Reads(s, Yield(d) + trail, AndTail(e, t).rest) && Closed(d, trail + AndTail(e, t).rest)
    decreases |t|, 5
  {
    if Eat(t, "AND").None? {
      var more := SkipWsGap(t);
      d, trail := left, gap + more;
      assert (gap + more) + SkipWs(t) == gap + t;
      ReadsThen(s, Yield(left) + gap, t, more, SkipWs(t));
      assert Yield(left) + gap + more == Yield(left) + (gap + more);
    } else {
      var more := EatGap(t, "AND");
      var u := Eat(t, "AND").value;
      var right := NotSound(u);
      var v := NotExpr(u).rest;
      ReadsBinary(s, Yield(left), gap, t, more, "AND", u, Yield(right), v);
      var joined := AndNode(left, gap + more, right);
      GapNeeded(left, gap, more, "AND", t);
      assert "" + v == v;
      assert Yield(joined) + "" == Yield(left) + Token(gap + more, "AND") + Yield(right);
      d, trail := AndTailSound(s, joined, "", And(e, NotExpr(u).value), v);
    }
  }

  /** A derivation of a `not` also counts one and two levels up. */
  ghost predicate MeansAnywhere(d: Derivation, e: Expr) {
    Means(d, NotLevel, e) && Means(d, AndLevel, e) && Means(d, OrLevel, e)
  }

  lemma {:induction false} NotSound(s: string) returns (d: Derivation)
    requires NotExpr(s).Yes?
    ensures MeansAnywhere(d, NotExpr(s).value) && Reads(s, Yield(d), NotExpr(s).rest) && Closed(d, NotExpr(s).rest)
    decreases |s|, 2
  {
    if Eat(s, "NOT").Some? {
      var gap := EatGap(s, "NOT");
      var t := Eat(s, "NOT").value;
      var inner := NotSound(t);
      d := NotNode(gap, inner);
      ReadsThen(s, Token(gap, "NOT"), t, Yield(inner), NotExpr(t).rest);
    } else {
      d := PrimarySound(s);
    }
  }

  lemma {:induction false} PrimarySound(s: string) returns (d: Derivation)
    requires Primary(s).Yes?
    ensures MeansAnywhere(d, Primary(s).value) && Reads(s, Yield(d), Primary(s).rest) && Closed(d, Primary(s).rest)
    decreases |s|, 1
  {
    if Eat(s, "(").Some? {
      var gap := EatGap(s, "(");
      d := GroupSound(s, Eat(s, "(").value, gap);
    } else if Eat(s, "hasPrefix").Some? {
      var gap := EatGap(s, "hasPrefix");
      d := PrefixSound(s, Eat(s, "hasPrefix").value, gap);
    } else if Eat(s, "attributes:").Some? {
      var gap := EatGap(s, "attributes:");
      var t := Eat(s, "attributes:").value;
      var name := IdentSound(t);
      d := KeyNode(gap, name);
      ReadsThen(s, Token(gap, "attributes:"), t, NameYield(name), Ident(t).rest);
    } else {
      d := CompareSound(s);
    }
  }

  lemma {:induction false} GroupSound(s: string, t: string, gap: string) returns (d: Derivation)
    requires Filter.Group(t).Yes? && Blank(gap) && Reads(s, Token(gap, "("), t) && |t| < |s|
    ensures d.GroupNode? && MeansAnywhere(d, Filter.Group(t).value) && Reads(s, Yield(d), Filter.Group(t).rest)
    decreases |t|, 5
  {
    var inner, trail := OrSound(t);
    var u := OrExpr(t).rest;
    var close := EatGap(u, ")");
    d := GroupNode(gap, inner, trail + close);
    ReadsThen(s, Token(gap, "("), t, Yield(inner) + trail, u);
    assert Token(gap, "(") + (Yield(inner) + trail) == Token(gap, "(") + Yield(inner) + trail;
    assert Reads("", "", "");
    ReadsBinary(s, Token(gap, "(") + Yield(inner), trail, u, close, ")", Filter.Group(t).rest, "",
                Filter.Group(t).rest);
    assert Yield(d) + "" == Yield(d);
  }

  lemma {:induction false} TrimEndGap(s: string) returns (gap: string)
    ensures Blank(gap) && s == TrimEnd(s) + gap
  {
    if s != "" && IsWhitespace(s[|s| - 1]) {
      var g := TrimEndGap(s[..|s| - 1]);
      gap := g + [s[|s| - 1]];
      assert s == s[..|s| - 1] + [s[|s| - 1]];
    } else {
      gap := "";
    }
  }

  /** A trimmed text that the parser reads to the end. */
  lemma TrimmedSound(text: string) returns (d: Derivation, trail: string)
    requires OrExpr(text).Yes? && SkipWs(OrExpr(text).rest) == ""
    ensures Means(d, OrLevel, OrExpr(text).value) && Blank(trail)
    ensures text == Yield(d) + trail
  {
    var t1: string;
    d, t1 := OrSound(text);
    var t2 := SkipWsGap(OrExpr(text).rest);
    trail := t1 + t2;
    assert text == (Yield(d) + t1) + OrExpr(text).rest;
    Regroup3(Yield(d), t1, t2);
  }

  lemma Regroup3(a: string, b: string, c: string)
    ensures (a + b) + c == a + (b + c)
  {
  }

  /** Soundness: whatever filter text is accepted is, up to surrounding white space, the yield
      of a derivation in the grammar, and the tree returned is what that derivation means. */
  lemma AcceptedMeansDerived(raw: string) returns (lead: string, d: Derivation, trail: string)
    requires Parse(raw).Some? && Parse(raw).value.Some?
    ensures Blank(lead) && Blank(trail) && Means(d, OrLevel, Parse(raw).value.value)
    ensures raw == lead + Yield(d) + trail
  {
    lead := SkipWsGap(raw);
    var end := TrimEndGap(SkipWs(raw));
    var inner: string;
    d, inner := TrimmedSound(Trim(raw));
    trail := inner + end;
    Surround(raw, lead, Trim(raw), Yield(d), inner, end);
  }

  lemma Surround(raw: string, lead: string, text: string, y: string, trail: string, end: string)
    requires raw == lead + (text + end) && text == y + trail
    ensures raw == lead + y + (trail + end)
  {
  }

  // ----- Every separated derivation is read back -----

  lemma {:induction false} GapSkipped(gap: string, s: string)
    requires Blank(gap)
    ensures SkipWs(gap + s) == SkipWs(s)
  {
    if gap == "" {
      assert gap + s == s;
    } else {
      assert (gap + s)[0] == gap[0] && (gap + s)[1..] == gap[1..] + s;
      GapSkipped(gap[1..], s);
    }
  }

  /** The text goes on, after white space, with `token`, and then with `rest`. */
  lemma TokenRead(gap: string, token: string, rest: string)
    requires Blank(gap) && token != "" && !IsWhitespace(token[0])
    ensures Eat(Token(gap, token) + rest, token) == Some(rest)
    ensures SkipWs(Token(gap, token) + rest) == token + rest
    ensures forall other :: other != "" && other[0] != token[0] ==> Eat(Token(gap, token) + rest, other).None?
  {
    Regroup3(gap, token, rest);
    GapSkipped(gap, token + rest);
    assert (token + rest)[0] == token[0] && SkipWs(token + rest) == token + rest;
    assert (token + rest)[|token|..] == rest;
  }

  lemma {:induction false} IdentLenOf(name: string, rest: string)
    requires (forall k :: 0 <= k < |name| ==> IsIdentChar(name[k])) && Follows(rest)
    ensures IdentLen(name + rest) == |name|
  {
    var s := name + rest;
    if name == "" {
      assert s == rest;
    } else {
      IdentLenOf(name[1..], rest);
      assert s[0] == name[0] && s[1..] == name[1..] + rest;
    }
  }

  lemma NameRead(n: Name, rest: string)
    requires NameOk(n) && Follows(rest)
    ensures Ident(NameYield(n) + rest) == Yes(n.text, rest)
  {
    var s := n.text + rest;
    Regroup3(n.gap, n.text, rest);
    GapSkipped(n.gap, s);
    assert s[0] == n.text[0] && !IsWhitespace(s[0]) && SkipWs(s) == s;
    IdentLenOf(n.text, rest);
    assert s[..|n.text|] == n.text && s[|n.text|..] == rest;
  }

  lemma FieldRead(f: FieldText, rest: string)
    requires FieldOk(f) && Follows(rest)
    ensures Field(FieldYield(f) + rest) == Yes(f.name.text, rest)
  {
    Regroup3(Token(f.gap, "attributes."), NameYield(f.name), rest);
    TokenRead(f.gap, "attributes.", NameYield(f.name) + rest);
    NameRead(f.name, rest);
  }

  lemma {:induction false} CharsRead(raw: string, rest: string, out: string)
    requires Unescape(raw).Some?
    ensures Chars(raw + ("\"" + rest), out) == Yes(out + Unescape(raw).value, rest)
  {
    var s := raw + ("\"" + rest);
    if raw == "" {
      assert s == "\"" + rest && s[1..] == rest && out + "" == out;
    } else {
      var n := if raw[0] == '\\' then 2 else 1;
      var piece := if n == 1 || raw[1] == '"' || raw[1] == '\\' then [raw[n - 1]] else ['\\', raw[1]];
      assert s[n..] == raw[n..] + ("\"" + rest) && s[..n] == raw[..n];
      CharsRead(raw[n..], rest, out + piece);
      assert (out + piece) + Unescape(raw[n..]).value == out + (piece + Unescape(raw[n..]).value);
    }
  }

  lemma QuotedRead(q: QuotedText, rest: string)
    requires QuotedOk(q)
    ensures Quoted(QuotedYield(q) + rest) == Yes(Unescape(q.raw).value, rest)
  {
    var body := q.raw + "\"" + rest;
    Regroup3(Token(q.gap, "\""), q.raw + "\"", rest);
    Regroup3(q.raw, "\"", rest);
    TokenRead(q.gap, "\"", q.raw + ("\"" + rest));
    CharsRead(q.raw, rest, "");
    assert "" + Unescape(q.raw).value == Unescape(q.raw).value;
  }

  /** After white space or a token that is no name, a name has ended. */
  lemma GapFollows(gap: string, token: string, rest: string)
    requires Blank(gap) && token != "" && (gap != "" || !IsIdentChar(token[0]))
    ensures Follows(Token(gap, token) + rest)
  {
    var s := Token(gap, token) + rest;
    assert s[0] == if gap != "" then gap[0] else token[0];
  }

  lemma CompareRead(field: FieldText, gap: string, negated: bool, quoted: QuotedText, rest: string)
    requires FieldOk(field) && Blank(gap) && QuotedOk(quoted)
    ensures var op, value := if negated then "!=" else "=", Unescape(quoted.raw).value;
            Comparison(FieldYield(field) + Token(gap, op) + QuotedYield(quoted) + rest)
            == Yes(if negated then Ne(field.name.text, value) else Eq(field.name.text, value), rest)
  {
    var op := if negated then "!=" else "=";
    var tail := QuotedYield(quoted) + rest;
    Regroup3(FieldYield(field) + Token(gap, op), QuotedYield(quoted), rest);
    Regroup3(FieldYield(field), Token(gap, op), tail);
    GapFollows(gap, op, tail);
    FieldRead(field, Token(gap, op) + tail);
    TokenRead(gap, op, tail);
    QuotedRead(quoted, rest);
  }

  lemma PrefixCallReads(s: string, s1: string, key: string, s2: string, s3: string, prefix: string, s4: string,
                        rest: string)
    requires Eat(s, "(") == Some(s1) && Field(s1) == Yes(key, s2) && Eat(s2, ",") == Some(s3)
    requires Quoted(s3) == Yes(prefix, s4) && Eat(s4, ")") == Some(rest)
    ensures PrefixCall(s) == Yes(HasPrefix(key, prefix), rest)
  {
  }

  lemma PrefixRead(d: Derivation, s1: string, s2: string, s3: string, s4: string, rest: string)
    requires d.PrefixNode? && Derives(d, NotLevel)
    requires s4 == Token(d.close, ")") + rest && s3 == QuotedYield(d.quoted) + s4
    requires s2 == Token(d.comma, ",") + s3 && s1 == FieldYield(d.field) + s2
    ensures PrefixCall(Token(d.open, "(") + s1) == Yes(Meaning(d, NotLevel), rest)
  {
    var s := Token(d.open, "(") + s1;
    assert Eat(s, "(") == Some(s1) by { TokenRead(d.open, "(", s1); }
    assert Field(s1) == Yes(d.field.name.text, s2) by {
      GapFollows(d.comma, ",", s3);
      FieldRead(d.field, s2);
    }
    assert Eat(s2, ",") == Some(s3) by { TokenRead(d.comma, ",", s3); }
    assert Quoted(s3) == Yes(Unescape(d.quoted.raw).value, s4) by { QuotedRead(d.quoted, s4); }
    assert Eat(s4, ")") == Some(rest) by { TokenRead(d.close, ")", rest); }
    PrefixCallReads(s, s1, d.field.name.text, s2, s3, Unescape(d.quoted.raw).value, s4, rest);
  }

  /** The first token decides which rule reads on. */
  lemma WordRoutes(gap: string, tail: string)
    requires Blank(gap)
    ensures NotExpr(Token(gap, "NOT") + tail)
         == match NotExpr(tail) { case No => No case Yes(inner, t) => Yes(Not(inner), t) }
    ensures NotExpr(Token(gap, "(") + tail) == Filter.Group(tail)
    ensures NotExpr(Token(gap, "hasPrefix") + tail) == PrefixCall(tail)
  {
    TokenRead(gap, "NOT", tail);
    TokenRead(gap, "(", tail);
    TokenRead(gap, "hasPrefix", tail);
  }

  lemma NameRoute(gap: string, tail: string)
    requires Blank(gap)
    ensures NotExpr(Token(gap, "attributes:") + tail)
         == match Ident(tail) { case No => No case Yes(key, t) => Yes(HasKey(key), t) }
  {
    TokenRead(gap, "attributes:", tail);
  }

  lemma FieldRoute(gap: string, tail: string)
    requires Blank(gap)
    ensures NotExpr(Token(gap, "attributes.") + tail) == Comparison(Token(gap, "attributes.") + tail)
  {
    TokenRead(gap, "attributes.", tail);
    assert ("attributes." + tail)[10] == '.';
    assert Eat(Token(gap, "attributes.") + tail, "attributes:").None?;
  }

  /** No further `token` comes next. */
  predicate Stops(rest: string, token: string) {
    Eat(rest, token).None?
  }

  /** Reading a derivation of a `not` gives its meaning and what follows it. */
  lemma {:induction false} NotReads(d: Derivation, rest: string)
    requires Derives(d, NotLevel) && Separated(d) && Closed(d, rest)
    ensures NotExpr(Yield(d) + rest) == Yes(Meaning(d, NotLevel), rest)
    decreases d, 0
  {
    match d {
      case NotNode(gap, inner) =>
        Regroup3(Token(gap, "NOT"), Yield(inner), rest);
        WordRoutes(gap, Yield(inner) + rest);
        NotReads(inner, rest);
      case GroupNode(gap, inner, close) => GroupReads(gap, inner, close, rest);
      case KeyNode(gap, name) =>
        Regroup3(Token(gap, "attributes:"), NameYield(name), rest);
        NameRoute(gap, NameYield(name) + rest);
        NameRead(name, rest);
      case CompareNode(_, _, _, _) => CompareReads(d, rest);
      case PrefixNode(_, _, _, _, _, _) => PrefixReads(d, rest);
    }
  }

  lemma CompareReads(d: Derivation, rest: string)
    requires d.CompareNode? && Derives(d, NotLevel)
    ensures NotExpr(Yield(d) + rest) == Yes(Meaning(d, NotLevel), rest)
  {
    var f, op := d.field, if d.negated then "!=" else "=";
    var tail := Token(d.gap, op) + (QuotedYield(d.quoted) + rest);
    Regroup3(FieldYield(f) + Token(d.gap, op), QuotedYield(d.quoted), rest);
    Regroup3(FieldYield(f), Token(d.gap, op), QuotedYield(d.quoted) + rest);
    Regroup3(Token(f.gap, "attributes."), NameYield(f.name), tail);
    FieldRoute(f.gap, NameYield(f.name) + tail);
    CompareRead(f, d.gap, d.negated, d.quoted, rest);
  }

  lemma PrefixText(head: string, open: string, field: string, comma: string, quoted: string, close: string,
                   rest: string)
    ensures head + open + field + comma + quoted + close + rest
         == head + (open + (field + (comma + (quoted + (close + rest)))))
  {
    Regroup3(head + open + field + comma + quoted, close, rest);
    Regroup3(head + open + field + comma, quoted, close + rest);
    Regroup3(head + open + field, comma, quoted + (close + rest));
    Regroup3(head + open, field, comma + (quoted + (close + rest)));
    Regroup3(head, open, field + (comma + (quoted + (close + rest))));
  }

  lemma PrefixReads(d: Derivation, rest: string)
    requires d.PrefixNode? && Derives(d, NotLevel)
    ensures NotExpr(Yield(d) + rest) == Yes(Meaning(d, NotLevel), rest)
  {
    var s4 := Token(d.close, ")") + rest;
    var s3 := QuotedYield(d.quoted) + s4;
    var s2 := Token(d.comma, ",") + s3;
    var s1 := FieldYield(d.field) + s2;
    PrefixText(Token(d.gap, "hasPrefix"), Token(d.open, "("), FieldYield(d.field), Token(d.comma, ","),
               QuotedYield(d.quoted), Token(d.close, ")"), rest);
    WordRoutes(d.gap, Token(d.open, "(") + s1);
    PrefixRead(d, s1, s2, s3, s4, rest);
  }

  lemma {:induction false} GroupReads(gap: string, inner: Derivation, close: string, rest: string)
    requires Blank(gap) && Blank(close) && Derives(inner, OrLevel) && Separated(inner)
    ensures NotExpr(Token(gap, "(") + Yield(inner) + Token(close, ")") + rest) == Yes(Meaning(inner, OrLevel), rest)
    decreases inner, 5
  {
    var after := Token(close, ")") + rest;
    Regroup3(Token(gap, "(") + Yield(inner), Token(close, ")"), rest);
    Regroup3(Token(gap, "("), Yield(inner), after);
    WordRoutes(gap, Yield(inner) + after);
    TokenRead(close, ")", rest);
    GapFollows(close, ")", rest);
    OrReads(inner, after);
    SkipSpaceTwice(after);
  }

  lemma {:induction false} AndReads(d: Derivation, rest: string)
    requires Derives(d, AndLevel) && Separated(d) && Closed(d, rest)
    ensures AndExpr(Yield(d) + rest) == AndTail(Meaning(d, AndLevel), rest)
    decreases d, 1
  {
    if d.AndNode? {
      var t := Yield(d.right) + rest;
      var more := Token(d.gap, "AND") + t;
      Regroup3(Yield(d.left) + Token(d.gap, "AND"), Yield(d.right), rest);
      Regroup3(Yield(d.left), Token(d.gap, "AND"), t);
      OperatorRead(d.left, d.gap, "AND", t);
      AndReads(d.left, more);
      NotReads(d.right, rest);
    } else {
      SameMeaning(d, NotLevel, AndLevel);
      NotReads(d, rest);
    }
  }

  /** After `left` and white space an operator is read, unless `left` swallows it. */
  lemma OperatorRead(left: Derivation, gap: string, op: string, t: string)
    requires Blank(gap) && op != "" && !IsWhitespace(op[0]) && (EndsInName(left) ==> gap != "")
    ensures var more := Token(gap, op) + t;
            && Closed(left, more) && Eat(more, op) == Some(t)
            && forall other :: other != "" && other[0] != op[0] ==> Stops(more, other)
  {
    TokenRead(gap, op, t);
    if EndsInName(left) {
      GapFollows(gap, op, t);
    }
  }

  /** The level does not matter to what a derivation means. */
  lemma SameMeaning(d: Derivation, low: Level, high: Level)
    requires Derives(d, high) && (high.AndLevel? ==> !d.AndNode? && low.NotLevel?)
    requires high.OrLevel? ==> !d.OrNode? && low.AndLevel?
    requires high.AndLevel? || high.OrLevel?
    ensures Derives(d, low) && Meaning(d, low) == Meaning(d, high)
  {
  }

  lemma TailsSkipSpace(e: Expr, s: string)
    ensures OrTail(e, SkipWs(s)) == OrTail(e, s) && AndTail(e, SkipWs(s)) == AndTail(e, s)
  {
    SkipSpaceTwice(s);
  }

  /** Continuation form: after the text of a separated derivation, in any context, the parser goes on
      as if it had just read the meaning of the derivation. */
  lemma {:induction false} OrReads(d: Derivation, rest: string)
    requires Derives(d, OrLevel) && Separated(d) && Closed(d, rest) && Stops(rest, "AND")
    ensures OrExpr(Yield(d) + rest) == OrTail(Meaning(d, OrLevel), rest)
    decreases d, 2
  {
    if d.OrNode? {
      var t := Yield(d.right) + rest;
      var more := Token(d.gap, "OR") + t;
      Regroup3(Yield(d.left) + Token(d.gap, "OR"), Yield(d.right), rest);
      Regroup3(Yield(d.left), Token(d.gap, "OR"), t);
      OperatorRead(d.left, d.gap, "OR", t);
      OrReads(d.left, more);
      AndReads(d.right, rest);
      TailsSkipSpace(Or(Meaning(d.left, OrLevel), Meaning(d.right, AndLevel)), rest);
    } else {
      SameMeaning(d, AndLevel, OrLevel);
      AndReads(d, rest);
      TailsSkipSpace(Meaning(d, OrLevel), rest);
    }
  }

  // ----- The accepted texts -----

  /** The text is a separated derivation between white space. */
  ghost predicate ReadsAs(raw: string, lead: string, d: Derivation, trail: string) {
    Blank(lead) && Blank(trail) && raw == lead + Yield(d) + trail && Derives(d, OrLevel) && Separated(d)
  }

  /** It ends in a character that is not white space. */
  predicate Solid(s: string) {
    s != "" && !IsWhitespace(s[|s| - 1])
  }

  lemma {:induction false} YieldIsSolid(d: Derivation, level: Level)
    requires Derives(d, level)
    ensures Solid(Yield(d))
  {
    match d {
      case OrNode(_, _, r) => YieldIsSolid(r, AndLevel);
      case AndNode(_, _, r) => YieldIsSolid(r, NotLevel);
      case NotNode(_, inner) => YieldIsSolid(inner, NotLevel);
      case KeyNode(_, name) => assert Yield(d)[|Yield(d)| - 1] == name.text[|name.text| - 1];
      case _ =>
    }
  }

  lemma {:induction false} TrimEndOf(y: string, trail: string)
    requires Solid(y) && Blank(trail)
    ensures TrimEnd(y + trail) == y
  {
    if trail == "" {
      assert y + trail == y;
    } else {
      TrimEndOf(y, trail[..|trail| - 1]);
      assert (y + trail)[..|y + trail| - 1] == y + trail[..|trail| - 1];
    }
  }

  lemma {:induction false} SkipWsSolid(y: string, trail: string)
    requires Solid(y)
    ensures Solid(SkipWs(y)) && SkipWs(y + trail) == SkipWs(y) + trail
  {
    assert (y + trail)[0] == y[0];
    if IsWhitespace(y[0]) {
      assert y[1..][|y[1..]| - 1] == y[|y| - 1];
      SkipWsSolid(y[1..], trail);
      assert (y + trail)[1..] == y[1..] + trail;
    }
  }

  /** Completeness: every separated derivation, with any white space around it, is accepted, and the tree
      returned is what it means. So all separated derivations of one text mean the same. */
  lemma DerivedIsAccepted(raw: string, lead: string, d: Derivation, trail: string)
    requires ReadsAs(raw, lead, d, trail)
    ensures Parse(raw) == Some(Some(Meaning(d, OrLevel)))
  {
    var y := Yield(d);
    YieldIsSolid(d, OrLevel);
    Regroup3(lead, y, trail);
    GapSkipped(lead, y + trail);
    SkipWsSolid(y, trail);
    TrimEndOf(SkipWs(y), trail);
    SkipSpaceTwice(y);
    assert y + "" == y;
    OrReads(d, "");
  }

  lemma BlankIsEmptyFilter(raw: string)
    ensures Parse(raw) == Some(None) <==> Blank(raw)
  {
    var lead := SkipWsGap(raw);
    var end := TrimEndGap(SkipWs(raw));
    if Blank(raw) {
      GapSkipped(raw, "");
      assert raw + "" == raw;
    }
  }

  /** The accepted texts, without the parser: white space, and separated derivations between it. */
  ghost predicate Readable(raw: string) {
    Blank(raw) || exists lead, d, trail :: ReadsAs(raw, lead, d, trail)
  }

  lemma AcceptedExactly(raw: string)
    ensures Parse(raw).Some? <==> Readable(raw)
  {
    BlankIsEmptyFilter(raw);
    if Parse(raw).Some? && Parse(raw).value.Some? {
      var lead, d, trail := AcceptedMeansDerived(raw);
      assert ReadsAs(raw, lead, d, trail);
    }
    if !Blank(raw) && Readable(raw) {
      var lead, d, trail :| ReadsAs(raw, lead, d, trail);
      DerivedIsAccepted(raw, lead, d, trail);
    }
  }

  // ----- A canonical printer, and the parser as its inverse -----

  predicate Legal(e: Expr) {
    match e
    case HasKey(key) => IsIdent(key)
    case Eq(key, _) => IsIdent(key)
    case Ne(key, _) => IsIdent(key)
    case HasPrefix(key, _) => IsIdent(key)
    case Not(inner) => Legal(inner)
    case And(left, right) => Legal(left) && Legal(right)
    case Or(left, right) => Legal(left) && Legal(right)
  }

  function Escape(v: string): string {
    if v == "" then ""
    else (if v[0] == '"' || v[0] == '\\' then ['\\', v[0]] else [v[0]]) + Escape(v[1..])
  }

  lemma {:induction false} UnescapeEscape(v: string)
    ensures Unescape(Escape(v)) == Some(v)
  {
    if v != "" {
      UnescapeEscape(v[1..]);
      var front := if v[0] == '"' || v[0] == '\\' then ['\\', v[0]] else [v[0]];
      assert StandsFor(front, [v[0]]);
      UnescapePiece(front, Escape(v[1..]), [v[0]]);
      assert [v[0]] + v[1..] == v;
    }
  }

  /** Parentheses only where NOT over AND over OR, left-associative, needs them; `lead` comes first. */
  function Canonical(e: Expr, level: Level, lead: string): Derivation
    decreases e, !level.OrLevel?
  {
    match e
    case Or(left, right) =>
      if level.OrLevel? then OrNode(Canonical(left, OrLevel, lead), " ", Canonical(right, AndLevel, " "))
      else GroupNode(lead, Canonical(e, OrLevel, ""), "")
    case And(left, right) =>
      if level.NotLevel? then GroupNode(lead, Canonical(e, OrLevel, ""), "")
      else AndNode(Canonical(left, AndLevel, lead), " ", Canonical(right, NotLevel, " "))
    case Not(inner) => NotNode(lead, Canonical(inner, NotLevel, " "))
    case HasKey(key) => KeyNode(lead, Name("", key))
    case Eq(key, v) => CompareNode(FieldText(lead, Name("", key)), " ", false, QuotedText(" ", Escape(v)))
    case Ne(key, v) => CompareNode(FieldText(lead, Name("", key)), " ", true, QuotedText(" ", Escape(v)))
    case HasPrefix(key, v) =>
      PrefixNode(lead, "", FieldText("", Name("", key)), "", QuotedText(" ", Escape(v)), "")
  }

  function Print(e: Expr): string {
    Yield(Canonical(e, OrLevel, ""))
  }

  lemma {:induction false} CanonicalMeans(e: Expr, level: Level, lead: string)
    requires Legal(e) && Blank(lead)
    ensures Means(Canonical(e, level, lead), level, e)
    decreases e, !level.OrLevel?
  {
    match e {
      case Or(left, right) =>
        if level.OrLevel? {
          CanonicalMeans(left, OrLevel, lead);
          CanonicalMeans(right, AndLevel, " ");
        } else {
          CanonicalMeans(e, OrLevel, "");
        }
      case And(left, right) =>
        if level.NotLevel? {
          CanonicalMeans(e, OrLevel, "");
        } else {
          CanonicalMeans(left, AndLevel, lead);
          CanonicalMeans(right, NotLevel, " ");
        }
      case Not(inner) => CanonicalMeans(inner, NotLevel, " ");
      case HasKey(_) =>
      case Eq(_, v) => UnescapeEscape(v);
      case Ne(_, v) => UnescapeEscape(v);
      case HasPrefix(_, v) => UnescapeEscape(v);
    }
  }

  /** Round trip: parsing the canonical print of any expression with legal attribute names, and
      any string values whatever, gives back exactly that expression. */
  lemma ParseInvertsPrint(e: Expr)
    requires Legal(e)
    ensures Parse(Print(e)) == Some(Some(e))
  {
    var d := Canonical(e, OrLevel, "");
    CanonicalMeans(e, OrLevel, "");
    assert Print(e) == "" + Yield(d) + "";
    assert ReadsAs(Print(e), "", d, "");
    DerivedIsAccepted(Print(e), "", d, "");
  }

  /** Every tree the parser returns has legal names, so it can be printed and read again. */
  lemma {:induction false} DerivedIsLegal(d: Derivation, level: Level)
    requires Derives(d, level)
    ensures Legal(Meaning(d, level))
  {
    match d {
      case OrNode(l, _, r) => DerivedIsLegal(l, OrLevel); DerivedIsLegal(r, AndLevel);
      case AndNode(l, _, r) => DerivedIsLegal(l, AndLevel); DerivedIsLegal(r, NotLevel);
      case NotNode(_, inner) => DerivedIsLegal(inner, NotLevel);
      case GroupNode(_, inner, _) => DerivedIsLegal(inner, OrLevel);
      case _ =>
    }
  }

  /** Canonical form: printing what was parsed from any accepted text and parsing that again
      gives the same tree, so a filter and its print select the same messages. */
  lemma PrintOfParsedIsEquivalent(raw: string)
    requires Parse(raw).Some? && Parse(raw).value.Some?
    ensures var e := Parse(raw).value.value;
            Legal(e) && Parse(Print(e)) == Parse(raw)
  {
    var lead, d, trail := AcceptedMeansDerived(raw);
    DerivedIsLegal(d, OrLevel);
    ParseInvertsPrint(Parse(raw).value.value);
  }
}
