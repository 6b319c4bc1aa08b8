/** packages/element-path/src/shadow-element-path.ts: the CSS selector for a mask, and when it accepts
    the same elements as the XPath conditions of element-path.ts. */
module ShadowElementPaths {
  import opened Common
  import opened ElementPaths
  import opened ElementPathConditions
  import X = XPaths

  /** The attribute selectors of section 6.3 of Selectors Level 3 that are used here. */
  datatype Selector =
    | Present
    | Equals(value: string)
    | StartsWith(value: string)
    | EndsIn(value: string)
    | Contains(value: string)

  /** An empty value in the last three selectors matches nothing. */
  ghost predicate SelectorAccepts(s: Selector, attribute: Option<string>) {
    match s
    case Present => attribute.Some?
    case Equals(value) => attribute == Some(value)
    case StartsWith(value) => attribute.Some? && value != "" && value <= attribute.value
    case EndsIn(value) => attribute.Some? && value != "" && Ends(attribute.value, value)
    case Contains(value) => attribute.Some? && value != "" && X.HasPart(attribute.value, value)
  }

  /** The property holds an escaped star somewhere. */
  predicate HasEscapedStar(prop: string) {
    exists i :: 0 < i < |prop| && prop[i - 1] == '\\' && prop[i] == '*'
  }

  /** `prop.replace` of every escaped star by a star, from left to right. */
  function Unescape(prop: string): string {
    if |prop| >= 2 && prop[0] == '\\' && prop[1] == '*' then "*" + Unescape(prop[2..])
    else if prop != "" then [prop[0]] + Unescape(prop[1..])
    else ""
  }

  function PropertyToCSSSelector(prop: string): Selector {
    var n := |prop|;
    if HasEscapedStar(prop) then Equals(Unescape(prop))
    else if prop == "*" then Present
    else if n > 1 && prop[0] == '*' && Free(prop[1..], {'*'}) then EndsIn(prop[1..])
    else if n > 1 && prop[n - 1] == '*' && Free(prop[..n - 1], {'*'}) then StartsWith(prop[..n - 1])
    else if n > 2 && prop[0] == '*' && prop[n - 1] == '*' && Free(prop[1..n - 1], {'*'}) then Contains(prop[1..n - 1])
    else Equals(prop)
  }

  // ---- Escaped stars ----

  /** A value with every star escaped. */
  function Escaped(value: string): string {
    if value == "" then ""
    else (if value[0] == '*' then "\\*" else [value[0]]) + Escaped(value[1..])
  }

  lemma {:induction false} EscapedFirst(value: string)
    requires Escaped(value) != ""
    ensures value != "" && Escaped(value)[0] != '*'
    ensures |Escaped(value)| >= 2 && Escaped(value)[0] == '\\' && Escaped(value)[1] == '*' ==> value[0] == '*'
  {
    if value[0] != '*' && |Escaped(value)| >= 2 {
      EscapedFirst(value[1..]);
    }
  }

  lemma {:induction false} UnescapeEscaped(value: string)
    ensures Unescape(Escaped(value)) == value
  {
    if value != "" {
      UnescapeEscaped(value[1..]);
      EscapedFirst(value);
      var rest := Escaped(value[1..]);
      if value[0] == '*' {
        assert Escaped(value)[2..] == rest;
      } else {
        assert Escaped(value)[1..] == rest;
      }
    }
  }

  lemma {:induction false} EscapedHasStar(value: string)
    ensures HasEscapedStar(Escaped(value)) <==> '*' in value
    ensures '*' !in value ==> Escaped(value) == value
  {
    if value != "" {
      var rest := Escaped(value[1..]);
      EscapedHasStar(value[1..]);
      assert value == [value[0]] + value[1..];
      if value[0] == '*' {
        assert Escaped(value)[0] == '\\' && Escaped(value)[1] == '*';
      } else {
        var e := Escaped(value);
        assert e == [value[0]] + rest;
        if rest != "" {
          EscapedFirst(value[1..]);
        }
        if HasEscapedStar(rest) {
          var i :| 0 < i < |rest| && rest[i - 1] == '\\' && rest[i] == '*';
          assert e[i] == '\\' && e[i + 1] == '*';
        }
        if HasEscapedStar(e) {
          var i :| 0 < i < |e| && e[i - 1] == '\\' && e[i] == '*';
          assert i > 1 && rest[i - 2] == '\\' && rest[i - 1] == '*';
        }
      }
    }
  }

  /** With its stars escaped every value can be asked for exactly. */
  lemma EscapedSelectsExactly(value: string, attribute: Option<string>)
    ensures SelectorAccepts(PropertyToCSSSelector(Escaped(value)), attribute) <==> attribute == Some(value)
  {
    EscapedHasStar(value);
    UnescapeEscaped(value);
    if '*' !in value && value != "" {
      ExactSelector(value);
    }
  }

  /** Both back ends accept the same elements. */
  ghost predicate Agree(mask: string)
    requires ParseMask(mask).Ok?
  {
    forall node :: X.AllHold(MaskConditions(ParseMask(mask).value), node)
                   <==> SelectorAccepts(PropertyToCSSSelector(mask), node.attribute)
  }

  lemma SuffixSelector(suffix: string)
    requires Piece(suffix, {}) && !HasEscapedStar("*" + suffix)
    ensures PropertyToCSSSelector("*" + suffix) == EndsIn(suffix)
  {
    var prop := "*" + suffix;
    assert prop[1..] == suffix;
  }

  lemma PrefixSelector(prefix: string)
    requires Piece(prefix, {}) && !HasEscapedStar(prefix + "*")
    ensures PropertyToCSSSelector(prefix + "*") == StartsWith(prefix)
  {
    var prop := prefix + "*";
    assert prop[..|prop| - 1] == prefix && prop[0] == prefix[0];
  }

  lemma ContainsSelector(core: string)
    requires Piece(core, {}) && !HasEscapedStar("*" + core + "*")
    ensures PropertyToCSSSelector("*" + core + "*") == Contains(core)
  {
    var prop := "*" + core + "*";
    var n := |prop|;
    assert prop[1..n - 1] == core;
    assert prop[1..][n - 2] == '*' && prop[..n - 1][0] == '*';
  }

  lemma ExactSelector(exact: string)
    requires Piece(exact, {}) && !HasEscapedStar(exact)
    ensures PropertyToCSSSelector(exact) == Equals(exact)
  {
    var n := |exact|;
    assert exact[0] != '*' && exact[n - 1] != '*';
  }

  /** Which property gives which selector: an unescaped star alone, at one end, or at both ends of a
      non-empty text without stars; anything else is an exact value. */
  lemma SelectorFormIff(prop: string, value: string)
    requires !HasEscapedStar(prop)
    ensures PropertyToCSSSelector(prop) == Present <==> prop == "*"
    ensures PropertyToCSSSelector(prop) == EndsIn(value) <==> Piece(value, {}) && prop == "*" + value
    ensures PropertyToCSSSelector(prop) == StartsWith(value) <==> Piece(value, {}) && prop == value + "*"
    ensures PropertyToCSSSelector(prop) == Contains(value) <==> Piece(value, {}) && prop == "*" + value + "*"
    ensures PropertyToCSSSelector(prop).Equals? ==> PropertyToCSSSelector(prop).value == prop
  {
    if Piece(value, {}) && prop == "*" + value { SuffixSelector(value); }
    if Piece(value, {}) && prop == value + "*" { PrefixSelector(value); }
    if Piece(value, {}) && prop == "*" + value + "*" { ContainsSelector(value); }
  }

  predicate SameKind(m: Mask, s: Selector) {
    match m
    case AnyKey => s == Present
    case Suffix(suffix) => s == EndsIn(suffix) && suffix != ""
    case Prefix(prefix) => s == StartsWith(prefix) && prefix != ""
    case ContainsKey(core) => s == Contains(core) && core != ""
    case ExactKey(exact) => s == Equals(exact)
    case Parts(_, _) => false
  }

  lemma SelectorOfMask(mask: string)
    requires ParseMask(mask).Ok? && !HasEscapedStar(mask)
    requires !ParseMask(mask).value.Parts? && mask != "" && mask != "**"
    ensures SameKind(ParseMask(mask).value, PropertyToCSSSelector(mask))
  {
    if |mask| > 1 {
      MaskForms(mask);
      match ParseMask(mask).value
      case Suffix(suffix) => SuffixSelector(suffix);
      case Prefix(prefix) => PrefixSelector(prefix);
      case ContainsKey(core) => ContainsSelector(core);
      case ExactKey(exact) => ExactSelector(exact);
    } else if mask != "*" {
      ExactSelector(mask);
    }
  }

  lemma SameKindAccepts(m: Mask, s: Selector, attribute: Option<string>)
    requires SameKind(m, s)
    ensures Accepts(m, attribute) <==> SelectorAccepts(s, attribute)
  {
    if attribute.Some? {
      var value := attribute.value;
      match m
      case AnyKey =>
      case Suffix(suffix) => EndsDenotes(suffix, value);
      case Prefix(prefix) => PrefixDenotes(prefix, value);
      case ContainsKey(core) => ContainsDenotes(core, value);
      case ExactKey(_) =>
    }
  }

  lemma CompiledMaskHolds(mask: string, node: X.Node)
    requires ParseMask(mask).Ok?
    ensures X.AllHold(MaskConditions(ParseMask(mask).value), node)
            <==> ParseMask(mask).value == ContainsKey("") || Accepts(ParseMask(mask).value, node.attribute)
  {
    assert Free(mask, {});
    ParsedMaskShaped(mask, {});
    MaskConditionsHold(ParseMask(mask).value, node);
  }

  lemma SameForMask(mask: string)
    requires ParseMask(mask).Ok? && !HasEscapedStar(mask)
    requires !ParseMask(mask).value.Parts? && mask != "" && mask != "**"
    ensures Agree(mask)
  {
    SelectorOfMask(mask);
    forall node
      ensures X.AllHold(MaskConditions(ParseMask(mask).value), node)
              <==> SelectorAccepts(PropertyToCSSSelector(mask), node.attribute)
    {
      CompiledMaskHolds(mask, node);
      SameKindAccepts(ParseMask(mask).value, PropertyToCSSSelector(mask), node.attribute);
    }
  }

  /** The other masks are read as an exact value by the CSS back end, but XPath accepts more. */
  lemma OnlyEquals(mask: string)
    requires ParseMask(mask).Ok?
    requires HasEscapedStar(mask) || ParseMask(mask).value.Parts? || mask == "" || mask == "**"
    ensures PropertyToCSSSelector(mask) == Equals(if HasEscapedStar(mask) then Unescape(mask) else mask)
  {
  }

  /** Two different values that a mask with a star accepts. */
  lemma TwoValues(m: Mask, one: string, two: string)
    requires match m
             case AnyKey => one == "" && two == "-"
             case Prefix(prefix) => one == prefix && two == prefix + "-"
             case Suffix(suffix) => one == suffix && two == "-" + suffix
             case ContainsKey(core) => one == core && two == core + "-"
             case Parts(start, end) => one == start + "-" + end && two == start + "--" + end
             case ExactKey(_) => false
    ensures one != two && Denotes(m, one) && Denotes(m, two)
  {
    match m
    case AnyKey =>
    case Prefix(prefix) => assert prefix + "" == prefix;
    case Suffix(suffix) => assert "" + suffix == suffix;
    case ContainsKey(core) => assert "" + core + "" == core && "" + core + "-" == core + "-";
    case Parts(start, end) => assert |one| != |two|;
  }

  lemma DisagreeOnTwo(mask: string, one: string, two: string)
    requires ParseMask(mask).Ok? && PropertyToCSSSelector(mask).Equals?
    requires one != two && Denotes(ParseMask(mask).value, one) && Denotes(ParseMask(mask).value, two)
    ensures !Agree(mask)
  {
    var a, b := X.Node(Some(one), "", []), X.Node(Some(two), "", []);
    CompiledMaskHolds(mask, a);
    CompiledMaskHolds(mask, b);
  }

  lemma NotExact(mask: string)
    requires ParseMask(mask).Ok?
    requires HasEscapedStar(mask) || ParseMask(mask).value.Parts? || mask == "" || mask == "**"
    ensures !ParseMask(mask).value.ExactKey?
  {
  }

  /** The two selector back ends agree on a mask exactly when it is not empty, has no escaped star, no
      inner star, and is not `**`. */
  lemma BackEndsAgreeIff(mask: string)
    requires ParseMask(mask).Ok?
    ensures Agree(mask) <==>
            mask != "" && mask != "**" && !HasEscapedStar(mask) && !HasInnerStar(mask)
  {
    SplitIff(mask);
    if mask != "" && mask != "**" && !HasEscapedStar(mask) && !HasInnerStar(mask) {
      SameForMask(mask);
    } else {
      DisagreeOtherwise(mask, ParseMask(mask).value);
    }
  }

  lemma DisagreeOtherwise(mask: string, m: Mask)
    requires ParseMask(mask) == Ok(m)
    requires HasEscapedStar(mask) || m.Parts? || mask == "" || mask == "**"
    ensures !Agree(mask)
  {
    OnlyEquals(mask);
    NotExact(mask);
    var (one, two) :=
      match m
      case AnyKey => ("", "-")
      case Prefix(prefix) => (prefix, prefix + "-")
      case Suffix(suffix) => (suffix, "-" + suffix)
      case ContainsKey(core) => (core, core + "-")
      case Parts(start, end) => (start + "-" + end, start + "--" + end);
    TwoValues(m, one, two);
    DisagreeOnTwo(mask, one, two);
  }

  lemma InnerStarSelector(start: string, end: string)
    requires Piece(start, {}) && Piece(end, {}) && !HasEscapedStar(start + "*" + end)
    ensures PropertyToCSSSelector(start + "*" + end) == Equals(start + "*" + end)
  {
    var prop := start + "*" + end;
    assert prop[|start|] == '*' && prop[0] == start[0] && prop[|prop| - 1] == end[|end| - 1];
  }

  /** A value that only XPath accepts. */
  lemma OnlyXPathAccepts(start: string, end: string, value: string)
    requires Piece(start, {}) && Piece(end, {}) && !HasEscapedStar(start + "*" + end)
    requires value == start + "-" + end
    ensures ParseMask(start + "*" + end) == Ok(Parts(start, end))
    ensures X.AllHold(MaskConditions(Parts(start, end)), X.Node(Some(value), "", []))
    ensures !SelectorAccepts(PropertyToCSSSelector(start + "*" + end), Some(value))
  {
    PrintedPartsParse(start, end, {});
    MaskConditionsHold(Parts(start, end), X.Node(Some(value), "", []));
    InnerStarSelector(start, end);
    assert value[|start|] != (start + "*" + end)[|start|];
  }

  /** The mask `a*b` and the value `a-b`. */
  lemma InnerStarDisagrees() returns (mask: string, value: string)
    ensures mask == "a*b" && value == "a-b" && ParseMask(mask).Ok?
    ensures X.AllHold(MaskConditions(ParseMask(mask).value), X.Node(Some(value), "", []))
    ensures !SelectorAccepts(PropertyToCSSSelector(mask), Some(value))
  {
    var start, end := "a", "b";
    mask, value := start + "*" + end, start + "-" + end;
    OnlyXPathAccepts(start, end, value);
  }
}
