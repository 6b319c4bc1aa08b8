/** packages/element-path/src/element-path.ts: what the XPath conditions of a query select. */
module ElementPathConditions {
  import opened Common
  import opened ElementPaths
  import X = XPaths

  // ---- The translation ----

  /** XPath 1.0 has no ends-with. */
  function EndsWith(end: string): X.Condition {
    var from := X.Plus(X.Minus(X.StringLength(X.Attribute), X.StringLength(X.Literal(end))), X.Constant(1));
    X.Equal(X.Substring(X.Attribute, from), X.Literal(end))
  }

  function MaskConditions(m: Mask): seq<X.Condition> {
    match m
    case AnyKey => [X.HasAttribute]
    case Prefix(prefix) => [X.StartsWith(X.Attribute, X.Literal(prefix))]
    case Suffix(suffix) => [EndsWith(suffix)]
    case Parts(start, end) =>
      [EndsWith(end), X.StartsWith(X.Attribute, X.Literal(start)),
       X.Greater(X.StringLength(X.Attribute), X.Constant(|start| + |end|))]
    case ExactKey(exact) => [X.AttributeEquals(exact)]
    case ContainsKey(core) => [X.Contains(X.Attribute, X.Literal(core))]
  }

  function TextConditions(text: Option<TextSearch>): seq<X.Condition> {
    match text
    case Some(ContainsText(part)) => if part != "" then [X.Contains(X.Self, X.Literal(part))] else []
    case Some(EqualsText(whole)) => if whole != "" then [X.Equal(X.Self, X.Literal(whole))] else []
    case None => []
  }

  function SubQueryConditions(sub: Option<SubQuery>): seq<X.Condition> {
    if sub.None? then [] else [X.Descendant(MaskConditions(sub.value.mask) + TextConditions(sub.value.text))]
  }

  function QueryConditions(q: Query): seq<X.Condition> {
    MaskConditions(q.mask) + SubQueryConditions(q.sub) + TextConditions(q.text)
  }

  method GetMaskXpathParts(m: Mask) returns (conditions: seq<X.Condition>)
    ensures conditions == MaskConditions(m)
  {
    conditions := [];
    match m {
      case AnyKey => conditions := conditions + [X.HasAttribute];
      case Prefix(prefix) => conditions := conditions + [X.StartsWith(X.Attribute, X.Literal(prefix))];
      case Suffix(suffix) => conditions := conditions + [EndsWith(suffix)];
      case Parts(start, end) =>
        conditions := conditions + [EndsWith(end)];
        conditions := conditions + [X.StartsWith(X.Attribute, X.Literal(start))];
        conditions := conditions + [X.Greater(X.StringLength(X.Attribute), X.Constant(|start| + |end|))];
      case ExactKey(exact) => conditions := conditions + [X.AttributeEquals(exact)];
      case ContainsKey(core) => conditions := conditions + [X.Contains(X.Attribute, X.Literal(core))];
    }
  }

  method GetSearchQueryXpath(q: Query) returns (conditions: seq<X.Condition>)
    ensures conditions == QueryConditions(q)
  {
    conditions := GetMaskXpathParts(q.mask);
    if q.sub.Some? {
      var subChildConditions := GetMaskXpathParts(q.sub.value.mask);
      subChildConditions := subChildConditions + TextConditions(q.sub.value.text);
      conditions := conditions + [X.Descendant(subChildConditions)];
    }
    conditions := conditions + TextConditions(q.text);
  }

  // ---- What a mask means ----

  /** A mask read as a pattern: a star at an end stands for any characters, a star inside for at least
      one. `first` says that p is the whole mask. */
  ghost predicate Glob(p: string, first: bool, s: string)
    decreases |p|
  {
    if p == "" then s == ""
    else if p[0] == '*' then
      exists k :: (if first || |p| == 1 then 0 else 1) <= k <= |s| && Glob(p[1..], false, s[k..])
    else s != "" && s[0] == p[0] && Glob(p[1..], false, s[1..])
  }

  /** The empty mask accepts everything. */
  ghost predicate Matches(mask: string, s: string) {
    mask == "" || Glob(mask, true, s)
  }

  /** The values a parsed mask stands for. */
  ghost predicate Denotes(m: Mask, s: string) {
    match m
    case AnyKey => true
    case Suffix(suffix) => exists a: string :: s == a + suffix
    case Prefix(prefix) => exists b: string :: s == prefix + b
    case ContainsKey(core) => exists a: string, b: string :: s == a + core + b
    case ExactKey(exact) => s == exact
    case Parts(start, end) => exists mid: string :: mid != "" && s == start + mid + end
  }

  lemma {:induction false} GlobLiteral(p: string, first: bool, s: string)
    requires Free(p, {'*'})
    ensures Glob(p, first, s) <==> s == p
  {
    if p != "" && s != "" {
      GlobLiteral(p[1..], false, s[1..]);
      assert p == [p[0]] + p[1..] && s == [s[0]] + s[1..];
    }
  }

  lemma {:induction false} GlobLiteralThen(p: string, rest: string, first: bool, s: string)
    requires p != "" && Free(p, {'*'})
    ensures Glob(p + rest, first, s) <==> p <= s && Glob(rest, false, s[|p|..])
  {
    assert (p + rest)[1..] == p[1..] + rest;
    if s != "" {
      if |p| == 1 {
        assert p[1..] + rest == rest;
      } else {
        GlobLiteralThen(p[1..], rest, false, s[1..]);
        assert p[1..] <= s[1..] ==> s[1..][|p[1..]|..] == s[|p|..];
        assert p[0] == s[0] ==> (p <= s <==> p[1..] <= s[1..]);
      }
    }
  }

  lemma GlobStarLast(s: string, first: bool)
    ensures Glob("*", first, s)
  {
    assert Glob("", false, s[|s|..]);
  }

  lemma GlobSuffix(suffix: string, first: bool, s: string)
    requires suffix != "" && Free(suffix, {'*'})
    ensures Glob("*" + suffix, first, s) <==>
            exists k :: (if first then 0 else 1) <= k <= |s| && s[k..] == suffix
  {
    assert ("*" + suffix)[1..] == suffix;
    forall k | 0 <= k <= |s| ensures Glob(suffix, false, s[k..]) <==> s[k..] == suffix {
      GlobLiteral(suffix, false, s[k..]);
    }
  }

  lemma GlobPrefix(prefix: string, first: bool, s: string)
    requires Free(prefix, {'*'})
    ensures Glob(prefix + "*", first, s) <==> prefix <= s
  {
    if prefix == "" {
      assert prefix + "*" == "*";
      GlobStarLast(s, first);
    } else {
      GlobLiteralThen(prefix, "*", first, s);
      if prefix <= s {
        GlobStarLast(s[|prefix|..], false);
      }
    }
  }

  lemma GlobContains(core: string, s: string)
    requires Free(core, {'*'})
    ensures Glob("*" + core + "*", true, s) <==> X.HasPart(s, core)
  {
    assert ("*" + core + "*")[1..] == core + "*";
    forall k | 0 <= k <= |s| ensures Glob(core + "*", false, s[k..]) <==> core <= s[k..] {
      GlobPrefix(core, false, s[k..]);
    }
  }

  lemma PartsDenote(start: string, end: string, s: string)
    ensures (exists mid: string :: mid != "" && s == start + mid + end)
            <==> start <= s && exists k :: 1 <= k <= |s| - |start| && s[|start|..][k..] == end
  {
    if mid: string :| mid != "" && s == start + mid + end {
      assert s[|start|..] == mid + end;
      assert s[|start|..][|mid|..] == end;
    }
    if start <= s {
      if k :| 1 <= k <= |s| - |start| && s[|start|..][k..] == end {
        assert s == start + s[|start|..][..k] + end;
      }
    }
  }

  lemma SuffixDenotes(suffix: string, s: string)
    ensures (exists a: string :: s == a + suffix) <==> exists k :: 0 <= k <= |s| && s[k..] == suffix
  {
    if a: string :| s == a + suffix {
      assert s[|a|..] == suffix;
    }
    if k :| 0 <= k <= |s| && s[k..] == suffix {
      assert s == s[..k] + suffix;
    }
  }

  lemma ContainsDenotes(core: string, s: string)
    ensures (exists a: string, b: string :: s == a + core + b) <==> X.HasPart(s, core)
  {
    if a: string, b: string :| s == a + core + b {
      assert s[|a|..] == core + b;
      assert core <= s[|a|..];
    }
    if i :| 0 <= i <= |s| && core <= s[i..] {
      assert s == s[..i] + core + s[i..][|core|..];
    }
  }

  lemma PrefixDenotes(prefix: string, s: string)
    ensures (exists b: string :: s == prefix + b) <==> prefix <= s
  {
    if prefix <= s {
      assert s == prefix + s[|prefix|..];
    }
  }

  /** What the parser makes of a mask stands for exactly the values that the mask matches. */
  lemma ParsedMaskDenotes(mask: string, s: string)
    requires ParseMask(mask).Ok?
    ensures Denotes(ParseMask(mask).value, s) <==> Matches(mask, s)
  {
    if |mask| <= 1 {
      if mask == "*" {
        GlobStarLast(s, true);
      } else if mask != "" {
        assert ParseMask(mask) == Ok(ExactKey(mask));
        GlobLiteral(mask, true, s);
      }
    } else {
      MaskForms(mask);
      match ParseMask(mask).value
      case Suffix(suffix) => GlobSuffix(suffix, true, s); SuffixDenotes(suffix, s);
      case Prefix(prefix) => GlobPrefix(prefix, true, s); PrefixDenotes(prefix, s);
      case ContainsKey(core) => GlobContains(core, s); ContainsDenotes(core, s);
      case ExactKey(exact) => GlobLiteral(exact, true, s);
      case Parts(start, end) => GlobParts(start, end, s);
    }
  }

  lemma GlobParts(start: string, end: string, s: string)
    requires Piece(start, {}) && Piece(end, {})
    ensures Denotes(Parts(start, end), s) <==> Glob(start + "*" + end, true, s)
  {
    ConcatAssociative(start, "*", end);
    GlobLiteralThen(start, "*" + end, true, s);
    PartsDenote(start, end, s);
    if start <= s {
      GlobSuffix(end, false, s[|start|..]);
    }
  }

  // ---- The conditions select what the mask means ----

  predicate Ends(s: string, end: string) {
    |end| <= |s| && s[|s| - |end|..] == end
  }

  lemma SubstringEnds(s: string, end: string)
    requires end != ""
    ensures X.SubstringFrom(s, |s| - |end| + 1) == end <==> Ends(s, end)
  {
  }

  lemma EndsWithValue(end: string, node: X.Node)
    ensures var s := X.StringValue(X.Attribute, node);
            X.Holds(EndsWith(end), node) <==> X.SubstringFrom(s, |s| - |end| + 1) == end
  {
    var s := X.StringValue(X.Attribute, node);
    var whole, part := X.StringLength(X.Attribute), X.StringLength(X.Literal(end));
    assert X.NumberValue(whole, node) == |s| && X.NumberValue(part, node) == |end|;
    assert X.NumberValue(X.Minus(whole, part), node) == |s| - |end|;
    assert X.NumberValue(X.Plus(X.Minus(whole, part), X.Constant(1)), node) == |s| - |end| + 1;
  }

  /** The `substring` arithmetic is ends-with, also when the value is shorter than the end or missing. */
  lemma EndsWithHolds(end: string, node: X.Node)
    requires end != ""
    ensures X.Holds(EndsWith(end), node) <==> node.attribute.Some? && Ends(node.attribute.value, end)
  {
    EndsWithValue(end, node);
    SubstringEnds(X.StringValue(X.Attribute, node), end);
  }

  lemma EndsDenotes(end: string, s: string)
    ensures Ends(s, end) <==> exists a: string :: s == a + end
  {
    if Ends(s, end) {
      assert s == s[..|s| - |end|] + end;
    }
  }

  /** A parsed mask accepts an element whose attribute has a value that the mask stands for. */
  ghost predicate Accepts(m: Mask, value: Option<string>) {
    value.Some? && Denotes(m, value.value)
  }

  lemma PartsConditions(start: string, end: string, node: X.Node)
    requires start != "" && end != ""
    ensures X.AllHold(MaskConditions(Parts(start, end)), node) <==> Accepts(Parts(start, end), node.attribute)
  {
    var conditions := MaskConditions(Parts(start, end));
    EndsWithHolds(end, node);
    assert X.AllHold(conditions, node) <==>
           X.Holds(conditions[0], node) && X.Holds(conditions[1], node) && X.Holds(conditions[2], node);
    if node.attribute.Some? {
      var s := node.attribute.value;
      if mid: string :| mid != "" && s == start + mid + end {
        assert Ends(s, end);
      }
      if Ends(s, end) && start <= s && |s| > |start| + |end| {
        assert s == start + s[|start|..|s| - |end|] + end;
      }
    }
  }

  /** The conditions of a mask hold exactly for the elements it accepts; only `**` holds for an
      element without the attribute as well. */
  lemma MaskConditionsHold(m: Mask, node: X.Node)
    requires ShapedMask(m, {})
    ensures X.AllHold(MaskConditions(m), node) <==> m == ContainsKey("") || Accepts(m, node.attribute)
  {
    var conditions := MaskConditions(m);
    var s := X.StringValue(X.Attribute, node);
    match m
    case Parts(start, end) => PartsConditions(start, end, node);
    case AnyKey => assert X.AllHold(conditions, node) <==> X.Holds(conditions[0], node);
    case Suffix(suffix) =>
      assert X.AllHold(conditions, node) <==> X.Holds(conditions[0], node);
      EndsWithHolds(suffix, node);
      EndsDenotes(suffix, s);
    case Prefix(prefix) =>
      assert X.AllHold(conditions, node) <==> X.Holds(conditions[0], node);
      PrefixDenotes(prefix, s);
    case ExactKey(_) => assert X.AllHold(conditions, node) <==> X.Holds(conditions[0], node);
    case ContainsKey(core) =>
      assert X.AllHold(conditions, node) <==> X.Holds(conditions[0], node);
      ContainsDenotes(core, s);
      assert core == "" ==> core <= s[0..];
  }

  /** A mask as written, compiled: its conditions hold exactly when the attribute is there and matches.
      The one exception is `**` on an element without the attribute. */
  lemma CompiledMaskMatchesIff(mask: string, node: X.Node)
    requires ParseMask(mask).Ok?
    ensures (X.AllHold(MaskConditions(ParseMask(mask).value), node) <==>
             node.attribute.Some? && Matches(mask, node.attribute.value))
            <==> !(mask == "**" && node.attribute.None?)
  {
    assert Free(mask, {});
    ParsedMaskShaped(mask, {});
    MaskConditionsHold(ParseMask(mask).value, node);
    if node.attribute.Some? {
      ParsedMaskDenotes(mask, node.attribute.value);
      if ParseMask(mask).value == ContainsKey("") {
        ContainsDenotes("", node.attribute.value);
        assert "" <= node.attribute.value[0..];
      }
    }
    if |mask| > 1 {
      MaskForms(mask);
    }
  }

  // ---- What a query selects ----

  ghost predicate TextAccepts(text: Option<TextSearch>, s: string) {
    match text
    case Some(ContainsText(part)) => exists a: string, b: string :: s == a + part + b
    case Some(EqualsText(whole)) => s == whole
    case None => true
  }

  ghost predicate SubQueryAccepts(sub: SubQuery, node: X.Node) {
    exists i :: 0 <= i < |node.descendants| && Accepts(sub.mask, node.descendants[i].attribute)
                && TextAccepts(sub.text, node.descendants[i].text)
  }

  /** The element matches the mask, has the text, and has a descendant that matches the sub query. */
  ghost predicate Selects(q: Query, node: X.Node) {
    && Accepts(q.mask, node.attribute)
    && TextAccepts(q.text, node.text)
    && (q.sub.Some? ==> SubQueryAccepts(q.sub.value, node))
  }

  lemma TextConditionsHold(text: Option<TextSearch>, node: X.Node)
    requires ShapedText(text, {})
    ensures X.AllHold(TextConditions(text), node) <==> text == Some(EqualsText("")) || TextAccepts(text, node.text)
  {
    var conditions := TextConditions(text);
    assert |conditions| == 1 ==> (X.AllHold(conditions, node) <==> X.Holds(conditions[0], node));
    match text
    case Some(ContainsText(part)) => ContainsDenotes(part, node.text);
    case Some(EqualsText(_)) =>
    case None =>
  }

  // What the compiled conditions really ask for: nothing where the core or the text is empty.

  ghost predicate MaskAsked(m: Mask, value: Option<string>) {
    m == ContainsKey("") || Accepts(m, value)
  }

  ghost predicate TextAsked(text: Option<TextSearch>, s: string) {
    text == Some(EqualsText("")) || TextAccepts(text, s)
  }

  ghost predicate SubQueryAsked(sub: SubQuery, node: X.Node) {
    exists i :: 0 <= i < |node.descendants| && MaskAsked(sub.mask, node.descendants[i].attribute)
                && TextAsked(sub.text, node.descendants[i].text)
  }

  ghost predicate Asked(q: Query, node: X.Node) {
    && MaskAsked(q.mask, node.attribute)
    && TextAsked(q.text, node.text)
    && (q.sub.Some? ==> SubQueryAsked(q.sub.value, node))
  }

  lemma DescendantHolds(sub: SubQuery, node: X.Node)
    requires ShapedMask(sub.mask, {}) && ShapedText(sub.text, {})
    ensures X.AllHold(SubQueryConditions(Some(sub)), node) <==> SubQueryAsked(sub, node)
  {
    var conditions := MaskConditions(sub.mask) + TextConditions(sub.text);
    assert X.AllHold(SubQueryConditions(Some(sub)), node) <==> X.Holds(SubQueryConditions(Some(sub))[0], node);
    forall i | 0 <= i < |node.descendants|
      ensures X.AllHold(conditions, node.descendants[i]) <==>
              MaskAsked(sub.mask, node.descendants[i].attribute) && TextAsked(sub.text, node.descendants[i].text)
    {
      X.AllHoldConcat(MaskConditions(sub.mask), TextConditions(sub.text), node.descendants[i]);
      MaskConditionsHold(sub.mask, node.descendants[i]);
      TextConditionsHold(sub.text, node.descendants[i]);
    }
  }

  lemma ShapedAnyStop(q: Query)
    requires Shaped(q)
    ensures ShapedMask(q.mask, {}) && ShapedText(q.text, {})
    ensures q.sub.Some? ==> ShapedMask(q.sub.value.mask, {}) && ShapedText(q.sub.value.text, {})
  {
  }

  lemma QueryConditionsHold(q: Query, node: X.Node)
    requires Shaped(q)
    ensures X.AllHold(QueryConditions(q), node) <==> Asked(q, node)
  {
    ShapedAnyStop(q);
    X.AllHoldConcat(MaskConditions(q.mask) + SubQueryConditions(q.sub), TextConditions(q.text), node);
    X.AllHoldConcat(MaskConditions(q.mask), SubQueryConditions(q.sub), node);
    MaskConditionsHold(q.mask, node);
    TextConditionsHold(q.text, node);
    if q.sub.Some? {
      DescendantHolds(q.sub.value, node);
    }
  }

  /** An attribute value that a mask stands for. */
  function SomeValue(m: Mask): string {
    match m
    case AnyKey => ""
    case Suffix(suffix) => suffix
    case Prefix(prefix) => prefix
    case ContainsKey(core) => core
    case ExactKey(exact) => exact
    case Parts(start, end) => start + "-" + end
  }

  function SomeText(text: Option<TextSearch>): string {
    match text
    case Some(ContainsText(part)) => part
    case Some(EqualsText(whole)) => if whole == "" then "-" else whole
    case None => ""
  }

  /** An element that the compiled query selects; it lacks the attribute and the text wherever the
      query does not ask for them. */
  function Barest(m: Mask, text: Option<TextSearch>, descendants: seq<X.Node>): X.Node {
    X.Node(if PrintableMask(m) then Some(SomeValue(m)) else None, SomeText(text), descendants)
  }

  lemma BarestAsked(m: Mask, text: Option<TextSearch>)
    ensures MaskAsked(m, Barest(m, text, []).attribute) && TextAsked(text, SomeText(text))
    ensures Accepts(m, Barest(m, text, []).attribute) ==> PrintableMask(m)
    ensures TextAccepts(text, SomeText(text)) ==> PrintableText(text)
  {
    var s, t := SomeValue(m), SomeText(text);
    assert "" + s == s && s + "" == s && "" + s + "" == s && "" + t + "" == t;
  }

  function BarestFor(q: Query): X.Node {
    Barest(q.mask, q.text, if q.sub.Some? then [Barest(q.sub.value.mask, q.sub.value.text, [])] else [])
  }

  lemma BarestForAsked(q: Query)
    ensures Asked(q, BarestFor(q))
    ensures Selects(q, BarestFor(q)) ==> Printable(q)
  {
    BarestAsked(q.mask, q.text);
    if q.sub.Some? {
      BarestAsked(q.sub.value.mask, q.sub.value.text);
      assert BarestFor(q).descendants[0] == Barest(q.sub.value.mask, q.sub.value.text, []);
    }
  }

  lemma PrintableAsked(q: Query, node: X.Node)
    ensures Selects(q, node) ==> Asked(q, node)
    ensures Printable(q) ==> (Asked(q, node) <==> Selects(q, node))
  {
  }

  /** The XPath of an accepted key selects exactly the elements the key means, on every element, if and
      only if the key has no mask `**` and no text `={}`, neither outside nor inside of its sub query. */
  lemma {:induction false} CompiledQueryMeansIff(key: string)
    requires ParseQueryKey(key).Ok?
    ensures (forall node :: X.AllHold(QueryConditions(ParseQueryKey(key).value), node)
                            <==> Selects(ParseQueryKey(key).value, node))
            <==> Solid(key)
  {
    var q := ParseQueryKey(key).value;
    SolidIff(key);
    ParsedShaped(key);
    forall node
      ensures X.AllHold(QueryConditions(q), node) <==> Asked(q, node)
      ensures Printable(q) ==> (Asked(q, node) <==> Selects(q, node))
    {
      QueryConditionsHold(q, node);
      PrintableAsked(q, node);
    }
    BarestForAsked(q);
    if !Printable(q) {
      assert X.AllHold(QueryConditions(q), BarestFor(q)) && !Selects(q, BarestFor(q));
    }
  }

  /** The two failing keys: `**` selects elements without the attribute, and `={}` any text. */
  lemma DoubleStarSelectsMissing(text: string)
    ensures ParseMask("**").Ok?
    ensures X.AllHold(MaskConditions(ParseMask("**").value), X.Node(None, text, []))
  {
    assert WithoutLastStar(WithoutFirstStar("**")) == "";
    MaskConditionsHold(ContainsKey(""), X.Node(None, text, []));
  }

  lemma EmptyTextGroup()
    ensures IsTextGroup(EMPTY_TEXT) && ParseText(EMPTY_TEXT) == Ok(Some(EqualsText("")))
  {
    assert IsGroup(EMPTY_TEXT, "={", '}');
    assert EMPTY_TEXT[0] == '=' && EMPTY_TEXT[2..2] == "";
  }

  lemma EmptyTextParses()
    ensures ParseQueryKey(EMPTY_TEXT) == Ok(Query(AnyKey, Some(EqualsText("")), None))
  {
    var g := Groups("", Some(EMPTY_TEXT), None);
    EmptyTextGroup();
    assert Join(g) == EMPTY_TEXT;
    ScanJoin(g, QUERY_STOPS);
  }

  lemma EmptyTextSelectsAny(value: string, text: string)
    requires text != ""
    ensures ParseQueryKey(EMPTY_TEXT).Ok?
    ensures X.AllHold(QueryConditions(ParseQueryKey(EMPTY_TEXT).value), X.Node(Some(value), text, []))
    ensures !Selects(ParseQueryKey(EMPTY_TEXT).value, X.Node(Some(value), text, []))
  {
    EmptyTextParses();
    QueryConditionsHold(Query(AnyKey, Some(EqualsText("")), None), X.Node(Some(value), text, []));
  }
}
