/** What it means for a message to match: the text of a filter is read as chains of operands, and
    the parser and evaluator agree with that reading. */
module FilterMeaning {
  import opened Basics
  import opened Filter
  import opened FilterGrammar

  function Size(d: Derivation): nat {
    match d
    case OrNode(l, _, r) => Size(l) + Size(r) + 1
    case AndNode(l, _, r) => Size(l) + Size(r) + 1
    case NotNode(_, inner) => Size(inner) + 1
    case GroupNode(_, inner, _) => Size(inner) + 1
    case _ => 0
  }

  /** The operands that a chain of ORs joins, from left to right. */
  function OrOperands(d: Derivation): (operands: seq<Derivation>)
    ensures forall k :: 0 <= k < |operands| ==> Size(operands[k]) <= Size(d) - if d.OrNode? then 1 else 0
  {
    if d.OrNode? then OrOperands(d.left) + [d.right] else [d]
  }

  /** The operands that a chain of ANDs joins, from left to right. */
  function AndOperands(d: Derivation): (operands: seq<Derivation>)
    ensures forall k :: 0 <= k < |operands| ==> Size(operands[k]) <= Size(d) - if d.AndNode? then 1 else 0
  {
    if d.AndNode? then AndOperands(d.left) + [d.right] else [d]
  }

  function Lookup(attributes: Attributes, key: string): Option<string> {
    if key in attributes then Some(attributes[key]) else None
  }

  /** An OR holds if some operand of its chain does, an AND if every operand does, a NOT if what it
      negates does not; `=` and `!=` compare what is looked up, `hasPrefix` asks for a rest. */
  ghost predicate Holds(d: Derivation, attributes: Attributes)
    decreases Size(d)
  {
    match d
    case OrNode(_, _, _) => exists k :: 0 <= k < |OrOperands(d)| && Holds(OrOperands(d)[k], attributes)
    case AndNode(_, _, _) => forall k :: 0 <= k < |AndOperands(d)| ==> Holds(AndOperands(d)[k], attributes)
    case NotNode(_, inner) => !Holds(inner, attributes)
    case GroupNode(_, inner, _) => Holds(inner, attributes)
    case KeyNode(_, name) => Lookup(attributes, name.text).Some?
    case CompareNode(field, _, negated, quoted) =>
      if negated then Lookup(attributes, field.name.text) != Unescape(quoted.raw)
      else Lookup(attributes, field.name.text) == Unescape(quoted.raw)
    case PrefixNode(_, _, field, _, quoted, _) =>
      exists prefix, rest ::
        Unescape(quoted.raw) == Some(prefix) && Lookup(attributes, field.name.text) == Some(prefix + rest)
  }

  /** Some operand holds, ... */
  ghost predicate SomeHolds(operands: seq<Derivation>, attributes: Attributes) {
    exists k :: 0 <= k < |operands| && Holds(operands[k], attributes)
  }

  /** ... and every operand holds. */
  ghost predicate AllHold(operands: seq<Derivation>, attributes: Attributes) {
    forall k :: 0 <= k < |operands| ==> Holds(operands[k], attributes)
  }

  lemma SomeOneMore(operands: seq<Derivation>, d: Derivation, attributes: Attributes)
    ensures SomeHolds(operands + [d], attributes) <==> SomeHolds(operands, attributes) || Holds(d, attributes)
  {
    var more := operands + [d];
    assert more[|operands|] == d;
    if k :| 0 <= k < |operands| && Holds(operands[k], attributes) {
      assert Holds(more[k], attributes);
    }
  }

  lemma AllOneMore(operands: seq<Derivation>, d: Derivation, attributes: Attributes)
    ensures AllHold(operands + [d], attributes) <==> AllHold(operands, attributes) && Holds(d, attributes)
  {
    var more := operands + [d];
    assert more[|operands|] == d;
    if AllHold(more, attributes) {
      forall k | 0 <= k < |operands| ensures Holds(operands[k], attributes) {
        assert Holds(more[k], attributes);
      }
    }
  }

  lemma OrOfOperands(d: Derivation, attributes: Attributes)
    ensures Holds(d, attributes) <==> SomeHolds(OrOperands(d), attributes)
  {
    if !d.OrNode? {
      SomeOneMore([], d, attributes);
      assert [] + [d] == [d];
    }
  }

  lemma AndOfOperands(d: Derivation, attributes: Attributes)
    ensures Holds(d, attributes) <==> AllHold(AndOperands(d), attributes)
  {
    if !d.AndNode? {
      AllOneMore([], d, attributes);
      assert [] + [d] == [d];
    }
  }

  /** A chain holds as its last operation says. */
  lemma OrHolds(d: Derivation, attributes: Attributes)
    requires d.OrNode?
    ensures Holds(d, attributes) <==> Holds(d.left, attributes) || Holds(d.right, attributes)
  {
    OrOfOperands(d, attributes);
    OrOfOperands(d.left, attributes);
    SomeOneMore(OrOperands(d.left), d.right, attributes);
  }

  lemma AndHolds(d: Derivation, attributes: Attributes)
    requires d.AndNode?
    ensures Holds(d, attributes) <==> Holds(d.left, attributes) && Holds(d.right, attributes)
  {
    AndOfOperands(d, attributes);
    AndOfOperands(d.left, attributes);
    AllOneMore(AndOperands(d.left), d.right, attributes);
  }

  lemma AtomHolds(d: Derivation, level: Level, attributes: Attributes)
    requires Derives(d, level) && (d.KeyNode? || d.CompareNode? || d.PrefixNode?)
    ensures Eval(Meaning(d, level), attributes) <==> Holds(d, attributes)
  {
    if d.PrefixNode? {
      var prefix, key := Unescape(d.quoted.raw).value, d.field.name.text;
      if key in attributes && prefix <= attributes[key] {
        assert attributes[key] == prefix + attributes[key][|prefix|..];
      }
    }
  }

  /** The tree of a derivation evaluates to what the derivation says. */
  lemma {:induction false} MeaningHolds(d: Derivation, level: Level, attributes: Attributes)
    requires Derives(d, level)
    ensures Eval(Meaning(d, level), attributes) <==> Holds(d, attributes)
    decreases d
  {
    match d {
      case OrNode(l, _, r) =>
        MeaningHolds(l, OrLevel, attributes);
        MeaningHolds(r, AndLevel, attributes);
        OrHolds(d, attributes);
      case AndNode(l, _, r) =>
        MeaningHolds(l, AndLevel, attributes);
        MeaningHolds(r, NotLevel, attributes);
        AndHolds(d, attributes);
      case NotNode(_, inner) => MeaningHolds(inner, NotLevel, attributes);
      case GroupNode(_, inner, _) => MeaningHolds(inner, OrLevel, attributes);
      case _ => AtomHolds(d, level, attributes);
    }
  }

  /** The filter text is blank, or a separated derivation read from it holds. */
  ghost predicate FilterHolds(raw: string, attributes: Attributes) {
    Blank(raw) || exists lead, d, trail :: ReadsAs(raw, lead, d, trail) && Holds(d, attributes)
  }

  lemma ReadingDecides(raw: string, lead: string, d: Derivation, trail: string, attributes: Attributes)
    requires ReadsAs(raw, lead, d, trail)
    ensures Parse(raw).Some? && (Matches(Parse(raw).value, attributes) <==> Holds(d, attributes))
  {
    DerivedIsAccepted(raw, lead, d, trail);
    MeaningHolds(d, OrLevel, attributes);
  }

  /** A text is an accepted filter that matches exactly if it holds, told from the grammar alone. */
  lemma MatchesIffHolds(raw: string, attributes: Attributes)
    ensures Parse(raw).Some? && Matches(Parse(raw).value, attributes) <==> FilterHolds(raw, attributes)
  {
    BlankIsEmptyFilter(raw);
    if FilterHolds(raw, attributes) && !Blank(raw) {
      var lead, d, trail :| ReadsAs(raw, lead, d, trail) && Holds(d, attributes);
      ReadingDecides(raw, lead, d, trail, attributes);
    }
    if Parse(raw).Some? && Parse(raw).value.Some? && Matches(Parse(raw).value, attributes) {
      var lead, d, trail := AcceptedMeansDerived(raw);
      assert ReadsAs(raw, lead, d, trail);
      ReadingDecides(raw, lead, d, trail, attributes);
    }
  }
}
